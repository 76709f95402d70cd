/**
 The inductive invariant of the `start` system: it ties every program counter
 and shared cell to what has happened so far, strongly enough that every
 observed action is allowed.  Each thread keeps it on each of its steps.
 */
module RunInvariant {
  import opened Basics
  import opened RunProtocol
  import opened RunLog

  /** How far the starter has got, counted in the actions it performs. */
  function Phase(pc: StarterPc): nat {
    match pc
    case PickProvider => 0
    case RegisterAfterFunc => 0
    case NetPrepare => 1
    case NetNotify => 1
    case NetSpawn => 2
    case SocketSelect(_) => 3
    case SocketProbe(_) => 3
    case NetRegister(_) => 3
    case ExtractDisk => 4
    case VmmPrepare => 4
    case VmmNotify => 4
    case VmmSpawn => 5
    case VmmPidFile => 6
    case VmmRegister => 6
    case SshCheck(_) => 7
    case SshCall(_) => 7
    case SetReady => 7
    case PodmanSelect(_) => 8
    case PodmanPing(_) => 8
    case SetPodmanReady => 8
    case NotifyReady => 8
    case SpawnWaiters => 9
    case AwaitRace => 9
  }

  type Acts = set<Action>

  /** Nothing but the main goroutine has moved. */
  predicate Fresh(s: State) {
    s == Init.(main := s.main, result := s.result, spawned := s.spawned)
  }

  ghost predicate MainPcInv(main: MainPc, spawned: bool, d: Past) {
    match main
    case CheckParent => !spawned && d.acts == {}
    case NotifyLoad => !spawned && d.acts == {}
    case LoadConfig => !spawned && d.acts == {Emit(LoadMachineConfig)}
    case AwaitGroup => spawned && !WaitedIn(d) && Emit(ErrorReport) !in d.acts && Emit(RunExit) !in d.acts
    case ReportError =>
      (WaitedIn(d) || AbortedIn(d)) && Emit(ErrorReport) !in d.acts && Emit(RunExit) !in d.acts
    case ReportExit => Emit(ErrorReport) in d.acts && Emit(RunExit) !in d.acts
    case Leave => Emit(ErrorReport) in d.acts && Emit(RunExit) in d.acts
    case Gone => Emit(ErrorReport) in d.acts && Emit(RunExit) in d.acts
  }

  ghost predicate MainInv(s: State, d: Past) {
    && MainPcInv(s.main, s.spawned, d)
    && (s.main.ReportError? || s.main.ReportExit? || s.main.Leave? || s.main.Gone? ==> s.result.Some?)
    && (s.spawned ==> Emit(LoadMachineConfig) in d.acts && !AbortedIn(d))
    && (s.spawned && !s.main.AwaitGroup? ==>
          AllFinished(s) && WaitReturned(s.result) in d.acts && s.result == s.cells.groupErr)
    && (!s.spawned ==> Fresh(s) && !WaitedIn(d) && d.first.None? && d.winner.None?)
  }

  ghost predicate CellInv(c: Cells, d: Past) {
    && c.groupErr == d.first
    && c.groupCause == c.groupErr
    && (forall e :: InnerCancelled(e) in d.acts <==> c.innerCause == Some(e))
    && (c.innerCause.Some? ==> c.innerCause == c.groupCause)
    && c.raceCause == (if d.winner.Some? then Some(ChildEnded(d.winner.value)) else None)
  }

  ghost predicate OneChildInv(acts: Acts, c: Child, st: ChildState, registry: seq<Child>, cells: Cells) {
    && (Started(c) in acts <==> !st.NotStarted?)
    && (Killed(c) in acts <==> st.KilledByContext?)
    && (Exited(c) in acts <==> st.ExitedBySelf?)
    && (Registered(c) in acts <==> c in registry)
    && (c in registry ==> !st.NotStarted?)
    && (st.KilledByContext? ==> cells.innerCause.Some?)
  }

  ghost predicate ChildInv(acts: Acts, k: Kids, cells: Cells) {
    && OneChildInv(acts, Gvproxy, k.gvproxy, k.registry, cells)
    && OneChildInv(acts, Vmm, k.vmm, k.registry, cells)
    && k.registry <= [Gvproxy, Vmm]
  }

  predicate SawReady(a: AfterPc) {
    a.Notifying? || a.Syncing? || a == Cancelling(true) || a == AfterDone(true)
  }

  ghost predicate AfterInv(acts: Acts, after: AfterPc, sshReady: bool, cells: Cells) {
    && (SetSSHReady in acts <==> sshReady)
    && (ReadSSHReady(true) in acts <==> SawReady(after))
    && (ReadSSHReady(false) in acts <==> after == Cancelling(false) || after == AfterDone(false))
    && (Emit(SyncMachineDisk) in acts <==> after.Syncing? || after == Cancelling(true) || after == AfterDone(true))
    && (SyncDone in acts <==> after == Cancelling(true) || after == AfterDone(true))
    && (SawReady(after) ==> sshReady)
    && (cells.innerCause.Some? <==> after.AfterDone?)
    && (cells.groupCause.None? ==> after.Unregistered? || after.Armed?)
  }

  ghost predicate StarterAt(acts: Acts, k: Kids, sshReady: bool, phase: nat) {
    && (Emit(StartGvProxy) in acts <==> phase >= 2)
    && (k.gvproxy.NotStarted? <==> phase < 3)
    && k.registry == (if phase < 4 then [] else if phase < 7 then [Gvproxy] else [Gvproxy, Vmm])
    && (Emit(StartVmm) in acts <==> phase >= 5)
    && (k.vmm.NotStarted? <==> phase < 6)
    && (sshReady <==> phase >= 8)
    && (Emit(Ready) in acts <==> phase >= 9)
  }

  ghost predicate StarterFailed(acts: Acts, k: Kids, sshReady: bool, cells: Cells, res: Option<Err>) {
    && res.Some?
    && match res.value
       case ChildEnded(c) => cells.raceCause == res && Emit(Ready) in acts && !k.gvproxyWaiter.NotSpawned?
       case BadProvider => !sshReady && Emit(StartGvProxy) !in acts
       case NetworkFailed => !sshReady && Emit(StartVmm) !in acts
       case SourceDiskFailed => !sshReady && k.registry == [Gvproxy] && Emit(StartVmm) !in acts
       case VmmFailed => !sshReady && k.registry == [Gvproxy]
       case _ => false
  }

  ghost predicate StarterInv(acts: Acts, starter: Work<StarterPc>, k: Kids, after: AfterPc, sshReady: bool, cells: Cells) {
    match starter
    case Running(pc) =>
      && StarterAt(acts, k, sshReady, Phase(pc))
      && (after.Unregistered? <==> pc.PickProvider? || pc.RegisterAfterFunc?)
      && (k.gvproxyWaiter.NotSpawned? <==> !pc.AwaitRace?)
    case Returning(res) => StarterFailed(acts, k, sshReady, cells, res)
    case Finished(res) => StarterFailed(acts, k, sshReady, cells, res)
  }

  ghost predicate OneWaiterInv(acts: Acts, c: Child, w: WaiterPc, st: ChildState, cells: Cells) {
    && (WaiterCancelled(c) in acts <==> w.Decided?)
    && (w.Reaped? || w.Decided? ==> Dead(st))
    && (w.Decided? ==> cells.raceCause.Some?)
    && (cells.raceCause == Some(ChildEnded(c)) ==> w.Decided?)
  }

  ghost predicate WaiterInv(acts: Acts, k: Kids, cells: Cells) {
    && (k.gvproxyWaiter.NotSpawned? <==> k.vmmWaiter.NotSpawned?)
    && (!k.gvproxyWaiter.NotSpawned? ==> k.registry == [Gvproxy, Vmm] && Emit(Ready) in acts)
    && OneWaiterInv(acts, Gvproxy, k.gvproxyWaiter, k.gvproxy, cells)
    && OneWaiterInv(acts, Vmm, k.vmmWaiter, k.vmm, cells)
  }

  predicate SelectResult(w: Work<SelectPc>, cells: Cells) {
    w.Running? || w.res == Some(ParentGone) || w.res == Some(SignalCaught) || (w.res == Some(Canceled) && cells.groupCause.Some?)
  }

  predicate RestResult(res: Option<Err>, cells: Cells) {
    res == Some(RestFailed) || (res.None? && cells.groupCause.Some?)
  }

  predicate PoolInv(p: Pool, cells: Cells) {
    && SelectResult(p.watcher, cells)
    && SelectResult(p.listener, cells)
    && (match p.rest
        case Running(pc) =>
          (pc.Listen? <==> p.stopper.StopperIdle?) && (pc.Closing? ==> RestResult(pc.outcome, cells))
        case Returning(res) => RestResult(res, cells)
        case Finished(res) => RestResult(res, cells))
    && (p.stopper.ShutDown? ==> cells.groupCause.Some?)
  }

  ghost predicate OneRecordInv(acts: Acts, w: Worker, recorded: Option<Option<Err>>) {
    forall r :: Returned(w, r) in acts <==> recorded == Some(r)
  }

  ghost predicate RecordInv(acts: Acts, p: Pool, starter: Work<StarterPc>) {
    && OneRecordInv(acts, Watcher, RecordedOf(p.watcher))
    && OneRecordInv(acts, Listener, RecordedOf(p.listener))
    && OneRecordInv(acts, Rest, RecordedOf(p.rest))
    && OneRecordInv(acts, Starter, RecordedOf(starter))
  }

  /** The starter always comes back with an error, so once it is recorded the group has one. */
  predicate EndInv(starter: Work<StarterPc>, cells: Cells) {
    starter.Finished? ==> cells.groupCause.Some?
  }

  ghost predicate GroupInv(s: State, d: Past) {
    && CellInv(s.cells, d)
    && ChildInv(d.acts, s.kids, s.cells)
    && AfterInv(d.acts, s.after, s.sshReady, s.cells)
    && StarterInv(d.acts, s.starter, s.kids, s.after, s.sshReady, s.cells)
    && WaiterInv(d.acts, s.kids, s.cells)
    && RecordInv(d.acts, s.pool, s.starter)
    && PoolInv(s.pool, s.cells)
    && EndInv(s.starter, s.cells)
  }

  ghost predicate StateInv(s: State, d: Past) {
    MainInv(s, d) && GroupInv(s, d)
  }

  ghost predicate Inv(w: World) {
    Ordered(w.log) && StateInv(w.state, PastOf(w.log))
  }

  /** A step keeps the invariant, and what it does was allowed. */
  ghost predicate Keeps(d: Past, step: Step) {
    match step
    case Blocked => true
    case Quiet(t) => StateInv(t, d)
    case Does(t, a) => Allowed(d, a) && StateInv(t, After(d, a))
  }

  lemma InitInv()
    ensures Inv(START)
  {
  }

  // ---- an action leaves alone every part of the invariant that does not speak of it ----

  lemma FrameCells(c: Cells, d: Past, a: Action)
    requires CellInv(c, d) && !a.InnerCancelled? && !a.Returned? && !a.WaiterCancelled?
    ensures CellInv(c, After(d, a))
  {
  }

  /** The part of the cells that only ever goes from empty to filled. */
  predicate Grows(c: Cells, c': Cells) {
    && (c.groupCause.Some? ==> c'.groupCause.Some?)
    && c'.innerCause == c.innerCause && c'.raceCause == c.raceCause
  }

  lemma FrameKids(acts: Acts, k: Kids, c: Cells, a: Action, c': Cells)
    requires ChildInv(acts, k, c) && WaiterInv(acts, k, c) && Grows(c, c')
    requires !a.Started? && !a.Killed? && !a.Exited? && !a.Registered? && !a.WaiterCancelled?
    ensures ChildInv(acts + {a}, k, c') && WaiterInv(acts + {a}, k, c')
  {
  }

  lemma FrameAfter(acts: Acts, after: AfterPc, sshReady: bool, c: Cells, a: Action, c': Cells)
    requires AfterInv(acts, after, sshReady, c) && Grows(c, c')
    requires !a.SetSSHReady? && !a.ReadSSHReady? && !a.SyncDone? && a != Emit(SyncMachineDisk)
    ensures AfterInv(acts + {a}, after, sshReady, c')
  {
  }

  lemma FrameStarter(acts: Acts, starter: Work<StarterPc>, k: Kids, after: AfterPc, sshReady: bool, c: Cells, a: Action, c': Cells)
    requires StarterInv(acts, starter, k, after, sshReady, c) && Grows(c, c')
    requires a != Emit(StartGvProxy) && a != Emit(StartVmm) && a != Emit(Ready)
    ensures StarterInv(acts + {a}, starter, k, after, sshReady, c')
  {
  }

  lemma FrameRecords(acts: Acts, p: Pool, starter: Work<StarterPc>, a: Action)
    requires RecordInv(acts, p, starter) && !a.Returned?
    ensures RecordInv(acts + {a}, p, starter)
  {
  }

  lemma FrameGroup(s: State, d: Past, a: Action, t: State)
    requires GroupInv(s, d) && (a == Emit(ErrorReport) || a == Emit(RunExit) || a.WaitReturned?)
    requires t == s.(main := t.main, result := t.result)
    ensures GroupInv(t, After(d, a))
  {
    FrameCells(s.cells, d, a);
    FrameKids(d.acts, s.kids, s.cells, a, s.cells);
    FrameAfter(d.acts, s.after, s.sshReady, s.cells, a, s.cells);
    FrameStarter(d.acts, s.starter, s.kids, s.after, s.sshReady, s.cells, a, s.cells);
    FrameRecords(d.acts, s.pool, s.starter, a);
  }

  // ---- the part of the invariant a thread does touch ----

  lemma FoldCells(c: Cells, d: Past, w: Worker, res: Option<Err>, c': Cells)
    requires CellInv(c, d) && c' == if res.None? then c else Fold(c, res.value)
    ensures CellInv(c', After(d, Returned(w, res))) && Grows(c, c')
  {
  }

  lemma FinishRecords(s: State, acts: Acts, w: Worker, res: Option<Err>)
    requires RecordInv(acts, s.pool, s.starter) && Pending(s, w) == Some(res)
    ensures RecordInv(acts + {Returned(w, res)}, Finish(s, w, res).pool, Finish(s, w, res).starter)
  {
  }

  lemma FinishPool(s: State, w: Worker, res: Option<Err>, c: Cells, c': Cells)
    requires PoolInv(s.pool, c) && Pending(s, w) == Some(res) && Grows(c, c')
    ensures PoolInv(Finish(s, w, res).pool, c')
  {
  }

  lemma FinishStarter(s: State, acts: Acts, w: Worker, res: Option<Err>, c: Cells, c': Cells)
    requires StarterInv(acts, s.starter, s.kids, s.after, s.sshReady, c) && Pending(s, w) == Some(res) && Grows(c, c')
    requires EndInv(s.starter, c) && (res.Some? ==> c'.groupCause.Some?)
    ensures StarterInv(acts, Finish(s, w, res).starter, s.kids, s.after, s.sshReady, c)
    ensures EndInv(Finish(s, w, res).starter, c')
  {
  }

  lemma RecordGroup(s: State, d: Past, w: Worker, res: Option<Err>, t: State)
    requires GroupInv(s, d) && Pending(s, w) == Some(res)
    requires t == Finish(s, w, res).(cells := t.cells)
    requires t.cells == if res.None? then s.cells else Fold(s.cells, res.value)
    requires t.kids == s.kids && t.after == s.after && t.sshReady == s.sshReady
    ensures GroupInv(t, After(d, Returned(w, res)))
  {
    var a := Returned(w, res);
    FoldCells(s.cells, d, w, res, t.cells);
    FinishRecords(s, d.acts, w, res);
    FinishPool(s, w, res, s.cells, t.cells);
    FinishStarter(s, d.acts, w, res, s.cells, t.cells);
    FrameKids(d.acts, s.kids, s.cells, a, t.cells);
    FrameAfter(d.acts, s.after, s.sshReady, s.cells, a, t.cells);
    FrameStarter(d.acts, t.starter, s.kids, s.after, s.sshReady, s.cells, a, t.cells);
  }

  lemma PoolGroup(s: State, d: Past, t: State)
    requires GroupInv(s, d) && t == s.(pool := t.pool) && PoolInv(t.pool, t.cells)
    requires RecordedOf(t.pool.watcher) == RecordedOf(s.pool.watcher)
    requires RecordedOf(t.pool.listener) == RecordedOf(s.pool.listener)
    requires RecordedOf(t.pool.rest) == RecordedOf(s.pool.rest)
    ensures GroupInv(t, d)
  {
  }

  lemma RestPool(s: State, pc: RestPc, ok: bool, t: State)
    requires PoolInv(s.pool, s.cells) && s.pool.rest == Running(pc) && NextRest(s, pc, ok) == Quiet(t)
    ensures PoolInv(t.pool, t.cells) && t == s.(pool := s.pool.(rest := t.pool.rest, stopper := t.pool.stopper))
    ensures !t.pool.rest.Finished?
  {
  }

  // the starter

  lemma AdvanceStarter(s: State, acts: Acts, pc: StarterPc, ok: bool, t: State)
    requires s.starter == Running(pc) && NextStarter(s, pc, ok) == Quiet(t) && t.starter.Running?
    requires !pc.RegisterAfterFunc? && !pc.SpawnWaiters?
    requires StarterInv(acts, s.starter, s.kids, s.after, s.sshReady, s.cells)
    ensures t == s.(starter := t.starter, podmanReady := t.podmanReady)
    ensures StarterInv(acts, t.starter, s.kids, s.after, s.sshReady, s.cells)
  {
  }

  lemma FailStarter(s: State, d: Past, pc: StarterPc, ok: bool, t: State)
    requires s.starter == Running(pc) && NextStarter(s, pc, ok) == Quiet(t) && !t.starter.Running?
    requires CellInv(s.cells, d) && StarterInv(d.acts, s.starter, s.kids, s.after, s.sshReady, s.cells)
    ensures t == s.(starter := t.starter) && !t.starter.Finished?
    ensures StarterInv(d.acts, t.starter, s.kids, s.after, s.sshReady, s.cells)
  {
  }

  lemma SilentStarterGroup(s: State, d: Past, t: State)
    requires GroupInv(s, d) && t == s.(starter := t.starter, podmanReady := t.podmanReady)
    requires !s.starter.Finished? && !t.starter.Finished?
    requires StarterInv(d.acts, t.starter, s.kids, s.after, s.sshReady, s.cells)
    ensures GroupInv(t, d)
  {
  }

  lemma ArmGroup(s: State, d: Past, t: State)
    requires GroupInv(s, d) && s.starter == Running(RegisterAfterFunc)
    requires t == s.(after := Armed, starter := Running(NetPrepare))
    ensures GroupInv(t, d)
  {
  }

  lemma SpawnWaitersGroup(s: State, d: Past, t: State)
    requires GroupInv(s, d) && s.starter == Running(SpawnWaiters)
    requires t == s.(kids := SpawnAll(s.kids), starter := Running(AwaitRace))
    ensures GroupInv(t, d)
  {
  }

  lemma EmitStarter(s: State, acts: Acts, pc: StarterPc, ok: bool, t: State, e: Event)
    requires s.starter == Running(pc) && NextStarter(s, pc, ok) == Does(t, Emit(e))
    requires StarterInv(acts, s.starter, s.kids, s.after, s.sshReady, s.cells)
    ensures StarterInv(acts + {Emit(e)}, t.starter, s.kids, s.after, s.sshReady, s.cells)
    ensures t == s.(starter := t.starter) && !t.starter.Finished? && e != SyncMachineDisk
  {
  }

  lemma EmitGroup(s: State, d: Past, e: Event, t: State)
    requires GroupInv(s, d) && e != SyncMachineDisk && t == s.(starter := t.starter)
    requires RecordedOf(s.starter) == RecordedOf(t.starter)
    requires StarterInv(d.acts + {Emit(e)}, t.starter, s.kids, s.after, s.sshReady, s.cells)
    ensures GroupInv(t, After(d, Emit(e)))
  {
    FrameCells(s.cells, d, Emit(e));
    FrameKids(d.acts, s.kids, s.cells, Emit(e), s.cells);
    FrameAfter(d.acts, s.after, s.sshReady, s.cells, Emit(e), s.cells);
    FrameRecords(d.acts, s.pool, s.starter, Emit(e));
  }

  lemma StartChildKids(s: State, acts: Acts, pc: StarterPc, ok: bool, t: State, c: Child)
    requires s.starter == Running(pc) && NextStarter(s, pc, ok) == Does(t, Started(c))
    requires ChildInv(acts, s.kids, s.cells) && WaiterInv(acts, s.kids, s.cells)
    requires StarterInv(acts, s.starter, s.kids, s.after, s.sshReady, s.cells)
    ensures ChildInv(acts + {Started(c)}, t.kids, s.cells) && WaiterInv(acts + {Started(c)}, t.kids, s.cells)
    ensures StarterInv(acts + {Started(c)}, t.starter, t.kids, s.after, s.sshReady, s.cells)
    ensures t == s.(starter := t.starter, kids := t.kids) && !t.starter.Finished?
  {
  }

  lemma RegisterKids(s: State, acts: Acts, pc: StarterPc, ok: bool, t: State, c: Child)
    requires s.starter == Running(pc) && NextStarter(s, pc, ok) == Does(t, Registered(c))
    requires ChildInv(acts, s.kids, s.cells) && WaiterInv(acts, s.kids, s.cells)
    requires StarterInv(acts, s.starter, s.kids, s.after, s.sshReady, s.cells)
    ensures ChildInv(acts + {Registered(c)}, t.kids, s.cells) && WaiterInv(acts + {Registered(c)}, t.kids, s.cells)
    ensures t == s.(starter := t.starter, kids := t.kids) && !t.starter.Finished?
  {
  }

  lemma RegisterStarter(s: State, acts: Acts, pc: StarterPc, ok: bool, t: State, c: Child)
    requires s.starter == Running(pc) && NextStarter(s, pc, ok) == Does(t, Registered(c))
    requires StarterInv(acts, s.starter, s.kids, s.after, s.sshReady, s.cells)
    ensures StarterInv(acts + {Registered(c)}, t.starter, t.kids, s.after, s.sshReady, s.cells)
  {
  }

  lemma KidsGroup(s: State, d: Past, a: Action, t: State)
    requires GroupInv(s, d) && (a.Started? || a.Registered? || a.Killed? || a.Exited?)
    requires t == s.(starter := t.starter, kids := t.kids)
    requires RecordedOf(s.starter) == RecordedOf(t.starter)
    requires ChildInv(d.acts + {a}, t.kids, s.cells) && WaiterInv(d.acts + {a}, t.kids, s.cells)
    requires StarterInv(d.acts + {a}, t.starter, t.kids, s.after, s.sshReady, s.cells)
    ensures GroupInv(t, After(d, a))
  {
    FrameCells(s.cells, d, a);
    FrameAfter(d.acts, s.after, s.sshReady, s.cells, a, s.cells);
    FrameRecords(d.acts, s.pool, s.starter, a);
  }

  lemma SetReadyGroup(s: State, d: Past, t: State)
    requires GroupInv(s, d) && s.starter == Running(SetReady)
    requires t == s.(sshReady := true, starter := Running(PodmanSelect(PODMAN_PINGS)))
    ensures GroupInv(t, After(d, SetSSHReady))
  {
    var a := SetSSHReady;
    FrameCells(s.cells, d, a);
    FrameKids(d.acts, s.kids, s.cells, a, s.cells);
    FrameRecords(d.acts, s.pool, s.starter, a);
  }

  // the AfterFunc thread

  lemma AfterSlices(s: State, d: Past, t: State, a: Action)
    requires NextAfter(s) == Does(t, a)
    requires AfterInv(d.acts, s.after, s.sshReady, s.cells) && CellInv(s.cells, d)
    ensures AfterInv(d.acts + {a}, t.after, s.sshReady, t.cells) && CellInv(t.cells, After(d, a))
    ensures t == s.(after := t.after, cells := t.cells) && Widens(s.cells, t.cells)
    ensures !s.after.Unregistered? && !t.after.Unregistered?
    ensures a.ReadSSHReady? || a == Emit(SyncMachineDisk) || a.SyncDone? || a.InnerCancelled?
  {
  }

  /** Only the inner context may have been cancelled. */
  predicate Widens(c: Cells, c': Cells) {
    && c' == c.(innerCause := c'.innerCause)
    && (c.innerCause.Some? ==> c'.innerCause == c.innerCause)
  }

  lemma WidenKids(acts: Acts, k: Kids, c: Cells, a: Action, c': Cells)
    requires ChildInv(acts, k, c) && WaiterInv(acts, k, c) && Widens(c, c')
    requires !a.Started? && !a.Killed? && !a.Exited? && !a.Registered? && !a.WaiterCancelled?
    ensures ChildInv(acts + {a}, k, c') && WaiterInv(acts + {a}, k, c')
  {
  }

  lemma WidenRest(s: State, acts: Acts, a: Action, after: AfterPc, c': Cells)
    requires StarterInv(acts, s.starter, s.kids, s.after, s.sshReady, s.cells) && PoolInv(s.pool, s.cells)
    requires EndInv(s.starter, s.cells) && Widens(s.cells, c')
    requires s.after.Unregistered? <==> after.Unregistered?
    requires a != Emit(StartGvProxy) && a != Emit(StartVmm) && a != Emit(Ready)
    ensures StarterInv(acts + {a}, s.starter, s.kids, after, s.sshReady, c') && PoolInv(s.pool, c') && EndInv(s.starter, c')
  {
  }

  lemma AfterGroup(s: State, d: Past, t: State, a: Action)
    requires GroupInv(s, d) && NextAfter(s) == Does(t, a)
    ensures GroupInv(t, After(d, a))
  {
    AfterSlices(s, d, t, a);
    WidenKids(d.acts, s.kids, s.cells, a, t.cells);
    WidenRest(s, d.acts, a, t.after, t.cells);
    FrameRecords(d.acts, s.pool, s.starter, a);
  }

  // children and waiters

  lemma ChildKids(s: State, acts: Acts, c: Child, t: State, a: Action)
    requires NextKill(s, c) == Does(t, a) || NextExit(s, c) == Does(t, a)
    requires ChildInv(acts, s.kids, s.cells) && WaiterInv(acts, s.kids, s.cells)
    requires StarterInv(acts, s.starter, s.kids, s.after, s.sshReady, s.cells)
    ensures ChildInv(acts + {a}, t.kids, s.cells) && WaiterInv(acts + {a}, t.kids, s.cells)
    ensures StarterInv(acts + {a}, s.starter, t.kids, s.after, s.sshReady, s.cells)
    ensures t == s.(kids := t.kids)
  {
  }

  lemma ReapGroup(s: State, d: Past, c: Child, t: State)
    requires GroupInv(s, d) && NextReap(s, c) == Quiet(t)
    ensures GroupInv(t, d)
  {
  }

  lemma DecideGroup(s: State, d: Past, c: Child, t: State, a: Action)
    requires GroupInv(s, d) && NextDecide(s, c) == Does(t, a)
    ensures GroupInv(t, After(d, a))
  {
    FrameAfter(d.acts, s.after, s.sshReady, s.cells, a, s.cells);
    FrameRecords(d.acts, s.pool, s.starter, a);
  }

  lemma SilentStarterStep(s: State, d: Past, pc: StarterPc, ok: bool, t: State)
    requires GroupInv(s, d) && s.starter == Running(pc) && NextStarter(s, pc, ok) == Quiet(t)
    ensures GroupInv(t, d)
  {
    if pc.RegisterAfterFunc? {
      ArmGroup(s, d, t);
    } else if pc.SpawnWaiters? {
      SpawnWaitersGroup(s, d, t);
    } else {
      if t.starter.Running? { AdvanceStarter(s, d.acts, pc, ok, t); } else { FailStarter(s, d, pc, ok, t); }
      SilentStarterGroup(s, d, t);
    }
  }

  lemma ActingStarterStep(s: State, d: Past, pc: StarterPc, ok: bool, t: State, a: Action)
    requires GroupInv(s, d) && s.starter == Running(pc) && NextStarter(s, pc, ok) == Does(t, a)
    ensures GroupInv(t, After(d, a))
  {
    match a
    case Emit(e) => EmitStarter(s, d.acts, pc, ok, t, e); EmitGroup(s, d, e, t);
    case Started(c) => StartChildKids(s, d.acts, pc, ok, t, c); KidsGroup(s, d, a, t);
    case Registered(c) =>
      RegisterKids(s, d.acts, pc, ok, t, c);
      RegisterStarter(s, d.acts, pc, ok, t, c);
      KidsGroup(s, d, a, t);
    case SetSSHReady => SetReadyGroup(s, d, t);
    case _ => assert false;
  }

  lemma ChildStep(s: State, d: Past, c: Child, t: State, a: Action)
    requires GroupInv(s, d) && (NextKill(s, c) == Does(t, a) || NextExit(s, c) == Does(t, a))
    ensures GroupInv(t, After(d, a))
  {
    ChildKids(s, d.acts, c, t, a);
    KidsGroup(s, d, a, t);
  }

  lemma RecordFrame(s: State, w: Worker, t: State, a: Action)
    requires NextRecord(s, w) == Does(t, a)
    ensures Pending(s, w).Some? && a == Returned(w, Pending(s, w).value)
    ensures t == Finish(s, w, Pending(s, w).value).(cells := t.cells)
    ensures t.cells == if Pending(s, w).value.None? then s.cells else Fold(s.cells, Pending(s, w).value.value)
    ensures t.kids == s.kids && t.after == s.after && t.sshReady == s.sshReady
  {
  }

  lemma RecordStep(s: State, d: Past, w: Worker, t: State, a: Action)
    requires GroupInv(s, d) && NextRecord(s, w) == Does(t, a)
    ensures GroupInv(t, After(d, a))
  {
    RecordFrame(s, w, t, a);
    RecordGroup(s, d, w, Pending(s, w).value, t);
  }

  lemma PoolStep(s: State, d: Past, l: Label, t: State)
    requires GroupInv(s, d) && s.spawned && Next(s, l) == Quiet(t)
    requires l.Tick? || l.WatcherLooks? || l.WatcherCancelled? || l.SignalArrives? || l.ListenerCancelled? || l.RestStep? || l.StopperStep?
    ensures GroupInv(t, d)
  {
    if l.RestStep? { RestPool(s, s.pool.rest.pc, l.ok, t); }
    PoolGroup(s, d, t);
  }

  lemma QuietGroupStep(s: State, d: Past, l: Label, t: State)
    requires GroupInv(s, d) && s.spawned && !l.MainStep? && Next(s, l) == Quiet(t)
    ensures GroupInv(t, d)
  {
    match l
    case StarterStep(ok) => SilentStarterStep(s, d, s.starter.pc, ok, t);
    case Reap(c) => ReapGroup(s, d, c, t);
    case _ => PoolStep(s, d, l, t);
  }

  lemma ActingGroupStep(s: State, d: Past, l: Label, t: State, a: Action)
    requires GroupInv(s, d) && s.spawned && !l.MainStep? && Next(s, l) == Does(t, a)
    ensures GroupInv(t, After(d, a))
  {
    match l
    case StarterStep(ok) => ActingStarterStep(s, d, s.starter.pc, ok, t, a);
    case Record(w) => RecordStep(s, d, w, t, a);
    case AfterStep => AfterGroup(s, d, t, a);
    case Kill(c) => ChildStep(s, d, c, t, a);
    case Exit(c) => ChildStep(s, d, c, t, a);
    case Decide(c) => DecideGroup(s, d, c, t, a);
    case _ => assert false;
  }

  // ---- what a step of another thread leaves to the main goroutine ----

  predicate MainActions(a: Action) {
    a == Emit(LoadMachineConfig) || a == Emit(ErrorReport) || a == Emit(RunExit) || a.WaitReturned? || a.StartAborted?
  }

  lemma StarterUntouched(s: State, pc: StarterPc, ok: bool, t: State, a: Action)
    requires s.starter == Running(pc) && (NextStarter(s, pc, ok) == Quiet(t) || NextStarter(s, pc, ok) == Does(t, a))
    ensures t.main == s.main && t.spawned == s.spawned && t.result == s.result
  {
  }

  lemma MainUntouched(s: State, l: Label, t: State, a: Action)
    requires s.spawned && !l.MainStep? && (Next(s, l) == Quiet(t) || Next(s, l) == Does(t, a))
    ensures t.main == s.main && t.spawned && t.result == s.result
    ensures AllFinished(s) ==> AllFinished(t) && t.cells.groupErr == s.cells.groupErr
  {
    if l.StarterStep? { StarterUntouched(s, s.starter.pc, l.ok, t, a); }
  }

  lemma OthersActions(s: State, l: Label, t: State, a: Action)
    requires s.spawned && !l.MainStep? && Next(s, l) == Does(t, a)
    ensures !MainActions(a)
  {
  }

  lemma MainFrame(s: State, d: Past, t: State, e: Past)
    requires MainInv(s, d) && s.spawned
    requires t.main == s.main && t.spawned && t.result == s.result
    requires AllFinished(s) ==> AllFinished(t) && t.cells.groupErr == s.cells.groupErr
    requires e.acts == d.acts || exists a :: !MainActions(a) && e.acts == d.acts + {a}
    ensures MainInv(t, e)
  {
  }

  lemma OthersKeepMain(s: State, d: Past, l: Label, t: State, e: Past)
    requires MainInv(s, d) && s.spawned && !l.MainStep?
    requires (Next(s, l) == Quiet(t) && e == d) || (Next(s, l).Does? && t == Next(s, l).state && e == After(d, Next(s, l).action))
    ensures MainInv(t, e)
  {
    var a := if Next(s, l).Does? then Next(s, l).action else SyncDone;
    MainUntouched(s, l, t, a);
    if Next(s, l).Does? { OthersActions(s, l, t, a); }
    MainFrame(s, d, t, e);
  }

  // ---- the main goroutine's own steps ----

  lemma FreshGroup(s: State, d: Past)
    requires Fresh(s) && d.first.None? && d.winner.None? && forall a :: a in d.acts ==> MainActions(a)
    ensures GroupInv(s, d)
  {
  }

  lemma MainBeforeGroup(s: State, d: Past, ok: bool)
    requires StateInv(s, d) && !s.spawned && (s.main.CheckParent? || s.main.NotifyLoad? || s.main.LoadConfig?)
    ensures Keeps(d, NextMain(s, ok))
  {
    var step := NextMain(s, ok);
    var e := if step.Does? then After(d, step.action) else d;
    FreshGroup(step.state, e);
  }

  lemma MainReports(s: State, d: Past, ok: bool)
    requires StateInv(s, d) && (s.main.ReportError? || s.main.ReportExit? || s.main.Leave?)
    ensures Keeps(d, NextMain(s, ok))
  {
    var step := NextMain(s, ok);
    if step.Does? { FrameGroup(s, d, step.action, step.state); }
  }

  lemma AllBack(s: State, d: Past)
    requires GroupInv(s, d) && AllFinished(s)
    ensures (forall w :: Back(d, w)) && d.first.Some?
  {
    forall w ensures Back(d, w) {
      match w
      case Watcher => assert Returned(w, s.pool.watcher.res) in d.acts;
      case Listener => assert Returned(w, s.pool.listener.res) in d.acts;
      case Rest => assert Returned(w, s.pool.rest.res) in d.acts;
      case Starter => assert Returned(w, s.starter.res) in d.acts;
    }
  }

  lemma MainAwaits(s: State, d: Past, ok: bool)
    requires StateInv(s, d) && s.main.AwaitGroup?
    ensures Keeps(d, NextMain(s, ok))
  {
    var step := NextMain(s, ok);
    if step.Does? {
      AllBack(s, d);
      assert s.cells.groupCause.Some? && step.state.cells == s.cells;
      FrameGroup(s, d, step.action, step.state);
      assert WaitReturned(step.state.result) in After(d, step.action).acts;
    }
  }

  // ---- every observed action was allowed ----

  lemma StarterAllowed(s: State, d: Past, pc: StarterPc, ok: bool, t: State, a: Action)
    requires StateInv(s, d) && s.starter == Running(pc) && NextStarter(s, pc, ok) == Does(t, a) && s.spawned
    ensures Allowed(d, a)
  {
  }

  lemma RecordAllowed(s: State, d: Past, w: Worker, t: State, a: Action)
    requires GroupInv(s, d) && NextRecord(s, w) == Does(t, a)
    ensures Allowed(d, a)
  {
  }

  lemma AfterAllowed(s: State, d: Past, t: State, a: Action)
    requires GroupInv(s, d) && NextAfter(s) == Does(t, a)
    ensures Allowed(d, a)
  {
  }

  lemma ChildAllowed(s: State, d: Past, c: Child, t: State, a: Action)
    requires GroupInv(s, d)
    requires NextKill(s, c) == Does(t, a) || NextExit(s, c) == Does(t, a) || NextDecide(s, c) == Does(t, a)
    ensures Allowed(d, a)
  {
  }

  lemma OthersAllowed(s: State, d: Past, l: Label, t: State, a: Action)
    requires StateInv(s, d) && s.spawned && !l.MainStep? && Next(s, l) == Does(t, a)
    ensures Allowed(d, a)
  {
    match l
    case StarterStep(ok) => StarterAllowed(s, d, s.starter.pc, ok, t, a);
    case Record(w) => RecordAllowed(s, d, w, t, a);
    case AfterStep => AfterAllowed(s, d, t, a);
    case Kill(c) => ChildAllowed(s, d, c, t, a);
    case Exit(c) => ChildAllowed(s, d, c, t, a);
    case Decide(c) => ChildAllowed(s, d, c, t, a);
    case _ => assert false;
  }

  // ---- the invariant holds in every reachable state ----

  lemma StepKeeps(s: State, d: Past, l: Label)
    requires StateInv(s, d)
    ensures Keeps(d, Next(s, l))
  {
    var step := Next(s, l);
    if step.Blocked? {
    } else if l.MainStep? {
      if s.main.AwaitGroup? {
        MainAwaits(s, d, l.ok);
      } else if s.main.ReportError? || s.main.ReportExit? || s.main.Leave? {
        MainReports(s, d, l.ok);
      } else {
        MainBeforeGroup(s, d, l.ok);
      }
    } else if step.Quiet? {
      QuietGroupStep(s, d, l, step.state);
      OthersKeepMain(s, d, l, step.state, d);
    } else {
      ActingGroupStep(s, d, l, step.state, step.action);
      OthersKeepMain(s, d, l, step.state, After(d, step.action));
      OthersAllowed(s, d, l, step.state, step.action);
    }
  }

  lemma MoveKeeps(w: World, l: Label)
    requires Inv(w) && Move(w, l).Some?
    ensures Inv(Move(w, l).value)
  {
    StepKeeps(w.state, PastOf(w.log), l);
    var step := Next(w.state, l);
    if step.Does? { Extend(w.log, step.action); }
  }

  lemma {:induction false} RunKeeps(w: World, labels: seq<Label>)
    requires Inv(w) && Run(w, labels).Some?
    ensures Inv(Run(w, labels).value)
    decreases |labels|
  {
    if labels != [] {
      MoveKeeps(w, labels[0]);
      RunKeeps(Move(w, labels[0]).value, labels[1..]);
    }
  }

  lemma ReachableInv(w: World)
    requires Reachable(w)
    ensures Inv(w)
  {
    var labels :| Run(START, labels) == Some(w);
    InitInv();
    RunKeeps(START, labels);
  }
}
