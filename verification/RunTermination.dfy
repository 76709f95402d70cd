/**
 Every step other than a tick of the parent watcher's clock uses up a budget,
 so a run has boundedly many of them; and once the group has an error some such
 step is always possible until the process is gone.
 */
module RunTermination {
  import opened Basics
  import opened RunProtocol
  import opened RunLog
  import opened RunInvariant

  function MainRank(m: MainPc): nat {
    match m
    case CheckParent => 7
    case NotifyLoad => 6
    case LoadConfig => 5
    case AwaitGroup => 4
    case ReportError => 3
    case ReportExit => 2
    case Leave => 1
    case Gone => 0
  }

  function SelectRank(w: Work<SelectPc>): nat {
    match w
    case Running(_) => 2
    case Returning(_) => 1
    case Finished(_) => 0
  }

  function RestRank(w: Work<RestPc>): nat {
    match w
    case Running(pc) => if pc.Listen? then 4 else if pc.Serving? then 3 else 2
    case Returning(_) => 1
    case Finished(_) => 0
  }

  function StopperRank(t: StopperState): nat {
    match t
    case StopperIdle => 2
    case StopperWaiting => 1
    case ShutDown => 0
  }

  const AFTER_PODMAN := 6
  const AFTER_SSH := AFTER_PODMAN + 2 * PODMAN_PINGS + 2
  const AFTER_SOCKET := AFTER_SSH + 2 * SSH_TRIES + 8

  function PcRank(pc: StarterPc): nat {
    match pc
    case AwaitRace => 2
    case SpawnWaiters => 3
    case NotifyReady => 4
    case SetPodmanReady => 5
    case PodmanSelect(n) => AFTER_PODMAN + 2 * n
    case PodmanPing(left) => AFTER_PODMAN + 2 * left + 1
    case SetReady => AFTER_SSH - 1
    case SshCheck(n) => AFTER_SSH + 2 * n
    case SshCall(left) => AFTER_SSH + 2 * left + 1
    case VmmRegister => AFTER_SOCKET - 7
    case VmmPidFile => AFTER_SOCKET - 6
    case VmmSpawn => AFTER_SOCKET - 5
    case VmmNotify => AFTER_SOCKET - 4
    case VmmPrepare => AFTER_SOCKET - 3
    case ExtractDisk => AFTER_SOCKET - 2
    case NetRegister(_) => AFTER_SOCKET - 1
    case SocketSelect(n) => AFTER_SOCKET + 2 * n
    case SocketProbe(left) => AFTER_SOCKET + 2 * left + 1
    case NetSpawn => AFTER_SOCKET + 2 * SOCKET_TRIES + 1
    case NetNotify => AFTER_SOCKET + 2 * SOCKET_TRIES + 2
    case NetPrepare => AFTER_SOCKET + 2 * SOCKET_TRIES + 3
    case RegisterAfterFunc => AFTER_SOCKET + 2 * SOCKET_TRIES + 4
    case PickProvider => AFTER_SOCKET + 2 * SOCKET_TRIES + 5
  }

  function StarterRank(w: Work<StarterPc>): nat {
    match w
    case Running(pc) => PcRank(pc)
    case Returning(_) => 1
    case Finished(_) => 0
  }

  function AfterRank(a: AfterPc): nat {
    match a
    case Unregistered => 5
    case Armed => 4
    case Notifying => 3
    case Syncing => 2
    case Cancelling(_) => 1
    case AfterDone(_) => 0
  }

  function ChildRank(c: ChildState): nat {
    match c
    case NotStarted => 2
    case Alive => 1
    case ExitedBySelf => 0
    case KilledByContext => 0
  }

  function WaiterRank(w: WaiterPc): nat {
    match w
    case NotSpawned => 3
    case Waiting => 2
    case Reaped => 1
    case Decided => 0
  }

  function PoolRank(p: Pool): nat {
    (if p.tick then 1 else 0) + SelectRank(p.watcher) + SelectRank(p.listener) + RestRank(p.rest) + StopperRank(p.stopper)
  }

  function KidsRank(k: Kids): nat {
    ChildRank(k.gvproxy) + ChildRank(k.vmm) + WaiterRank(k.gvproxyWaiter) + WaiterRank(k.vmmWaiter)
  }

  /** How many steps other than ticks are left at most, apart from those that later ticks make possible. */
  function Measure(s: State): nat {
    MainRank(s.main) + PoolRank(s.pool) + StarterRank(s.starter) + AfterRank(s.after) + KidsRank(s.kids)
  }

  function Ticks(labels: seq<Label>): nat {
    if labels == [] then 0 else (if labels[0].Tick? then 1 else 0) + Ticks(labels[1..])
  }

  /** The state a step leads to. */
  function Target(step: Step): State
    requires !step.Blocked?
  {
    step.state
  }

  // ---- the measure goes down ----

  /** Where the starter is about to use something for the first time, it is still unused. */
  predicate FirstUse(s: State, pc: StarterPc) {
    && (pc.SpawnWaiters? ==> s.kids.gvproxyWaiter.NotSpawned? && s.kids.vmmWaiter.NotSpawned?)
    && (pc.RegisterAfterFunc? ==> s.after.Unregistered?)
    && (pc.NetSpawn? ==> s.kids.gvproxy.NotStarted?)
    && (pc.VmmSpawn? ==> s.kids.vmm.NotStarted?)
  }

  lemma AdvanceFrame(s: State, pc: StarterPc, ok: bool, t: State)
    requires s.starter == Running(pc) && NextStarter(s, pc, ok) == Quiet(t) && !pc.RegisterAfterFunc? && !pc.SpawnWaiters?
    ensures t == s.(starter := t.starter, podmanReady := t.podmanReady)
  {
  }

  lemma AdvanceRank(s: State, pc: StarterPc, ok: bool, t: State)
    requires NextStarter(s, pc, ok) == Quiet(t)
    ensures StarterRank(t.starter) < PcRank(pc)
  {
  }

  lemma SilentStarterPays(s: State, pc: StarterPc, ok: bool, t: State)
    requires s.starter == Running(pc) && NextStarter(s, pc, ok) == Quiet(t) && FirstUse(s, pc)
    ensures Measure(t) < Measure(s)
  {
    AdvanceRank(s, pc, ok, t);
    if !pc.RegisterAfterFunc? && !pc.SpawnWaiters? {
      AdvanceFrame(s, pc, ok, t);
    }
  }

  lemma ActingRank(s: State, pc: StarterPc, ok: bool, t: State, a: Action)
    requires NextStarter(s, pc, ok) == Does(t, a) && FirstUse(s, pc)
    ensures StarterRank(t.starter) < PcRank(pc) && KidsRank(t.kids) <= KidsRank(s.kids)
    ensures t.pool == s.pool && t.main == s.main && t.after == s.after
  {
  }

  lemma ActingStarterPays(s: State, pc: StarterPc, ok: bool, t: State, a: Action)
    requires s.starter == Running(pc) && NextStarter(s, pc, ok) == Does(t, a) && FirstUse(s, pc)
    ensures Measure(t) < Measure(s)
  {
    ActingRank(s, pc, ok, t, a);
  }

  lemma StarterStepPays(s: State, d: Past, ok: bool)
    requires StateInv(s, d) && s.starter.Running? && !NextStarter(s, s.starter.pc, ok).Blocked?
    ensures Measure(Target(NextStarter(s, s.starter.pc, ok))) < Measure(s)
  {
    var step := NextStarter(s, s.starter.pc, ok);
    if step.Quiet? {
      SilentStarterPays(s, s.starter.pc, ok, step.state);
    } else {
      ActingStarterPays(s, s.starter.pc, ok, step.state, step.action);
    }
  }

  lemma RecordPays(s: State, w: Worker)
    requires !NextRecord(s, w).Blocked?
    ensures Measure(Target(NextRecord(s, w))) < Measure(s)
  {
  }

  lemma MainFrame(s: State, ok: bool, t: State)
    requires !NextMain(s, ok).Blocked? && t == Target(NextMain(s, ok))
    ensures MainRank(t.main) < MainRank(s.main)
    ensures t.pool == s.pool && t.starter == s.starter && t.after == s.after && t.kids == s.kids
  {
  }

  lemma MainPays(s: State, ok: bool)
    requires !NextMain(s, ok).Blocked?
    ensures Measure(Target(NextMain(s, ok))) < Measure(s)
  {
    MainFrame(s, ok, Target(NextMain(s, ok)));
  }

  lemma AfterFrame(s: State, t: State)
    requires !NextAfter(s).Blocked? && t == Target(NextAfter(s))
    ensures AfterRank(t.after) < AfterRank(s.after)
    ensures t.pool == s.pool && t.starter == s.starter && t.main == s.main && t.kids == s.kids
  {
  }

  lemma AfterPays(s: State)
    requires !NextAfter(s).Blocked?
    ensures Measure(Target(NextAfter(s))) < Measure(s)
  {
    AfterFrame(s, Target(NextAfter(s)));
  }

  lemma ChildPays(s: State, c: Child)
    ensures !NextKill(s, c).Blocked? ==> Measure(Target(NextKill(s, c))) < Measure(s)
    ensures !NextExit(s, c).Blocked? ==> Measure(Target(NextExit(s, c))) < Measure(s)
  {
  }

  lemma WaiterPays(s: State, c: Child)
    ensures !NextReap(s, c).Blocked? ==> Measure(Target(NextReap(s, c))) < Measure(s)
    ensures !NextDecide(s, c).Blocked? ==> Measure(Target(NextDecide(s, c))) < Measure(s)
  {
  }

  lemma RestPays(s: State, pc: RestPc, ok: bool)
    requires s.pool.rest == Running(pc) && PoolInv(s.pool, s.cells) && !NextRest(s, pc, ok).Blocked?
    ensures Measure(Target(NextRest(s, pc, ok))) < Measure(s)
  {
  }

  lemma PoolPays(s: State, l: Label)
    requires s.spawned && !Next(s, l).Blocked?
    requires l.Tick? || l.WatcherLooks? || l.WatcherCancelled? || l.SignalArrives? || l.ListenerCancelled? || l.StopperStep?
    ensures l.Tick? ==> Measure(Target(Next(s, l))) == Measure(s) + 1
    ensures !l.Tick? ==> Measure(Target(Next(s, l))) < Measure(s)
  {
  }

  lemma StepPays(s: State, d: Past, l: Label)
    requires StateInv(s, d) && !Next(s, l).Blocked?
    ensures l.Tick? ==> Measure(Target(Next(s, l))) == Measure(s) + 1
    ensures !l.Tick? ==> Measure(Target(Next(s, l))) < Measure(s)
  {
    match l
    case MainStep(ok) => MainPays(s, ok);
    case StarterStep(ok) => StarterStepPays(s, d, ok);
    case Record(w) => RecordPays(s, w);
    case AfterStep => AfterPays(s);
    case Kill(c) => ChildPays(s, c);
    case Exit(c) => ChildPays(s, c);
    case Reap(c) => WaiterPays(s, c);
    case Decide(c) => WaiterPays(s, c);
    case RestStep(ok) => RestPays(s, s.pool.rest.pc, ok);
    case _ => PoolPays(s, l);
  }

  /** A schedule is no longer than the measure it starts from, give or take the ticks in it. */
  lemma {:induction false} RunIsBounded(w: World, labels: seq<Label>)
    requires Inv(w) && Run(w, labels).Some?
    ensures |labels| + Measure(Run(w, labels).value.state) <= Measure(w.state) + 2 * Ticks(labels)
    decreases |labels|
  {
    if labels != [] {
      StepPays(w.state, PastOf(w.log), labels[0]);
      MoveKeeps(w, labels[0]);
      RunIsBounded(Move(w, labels[0]).value, labels[1..]);
    }
  }

  // ---- some step is always possible ----

  /**
   What only the surroundings can bring about: a tick of the clock and the look at the
   parent it leads to, a signal, a child that ends by itself, a REST server that fails.
   */
  predicate Env(l: Label) {
    l.Tick? || l.WatcherLooks? || l.SignalArrives? || l.Exit? || l == RestStep(false)
  }

  /** A step that is possible in `s`, chosen thread by thread. */
  function Drive(s: State): Label {
    if !s.spawned || !s.main.AwaitGroup? || AllFinished(s) then MainStep(true)
    else if s.pool.watcher.Returning? then Record(Watcher)
    else if s.pool.watcher.Running? then WatcherCancelled
    else if s.pool.listener.Returning? then Record(Listener)
    else if s.pool.listener.Running? then ListenerCancelled
    else if s.pool.rest.Returning? then Record(Rest)
    else if s.pool.rest.Running? then
      (if s.pool.rest.pc.Serving? && s.pool.stopper.StopperWaiting? then StopperStep else RestStep(true))
    else if s.starter.Returning? then Record(Starter)
    else if s.starter != Running(AwaitRace) then StarterStep(s.starter.Running? && !s.starter.pc.PodmanSelect?)
    else if s.cells.raceCause.Some? then StarterStep(true)
    else if s.kids.gvproxyWaiter.Reaped? then Decide(Gvproxy)
    else if Dead(s.kids.gvproxy) then Reap(Gvproxy)
    else if s.cells.innerCause.Some? then Kill(Gvproxy)
    else AfterStep
  }

  lemma DriveRace(s: State, d: Past)
    requires StateInv(s, d) && s.spawned && s.main.AwaitGroup? && s.cells.groupCause.Some?
    requires s.starter == Running(AwaitRace) && s.cells.raceCause.None? && !AllFinished(s)
    requires s.pool.watcher.Finished? && s.pool.listener.Finished? && s.pool.rest.Finished?
    ensures !Next(s, Drive(s)).Blocked?
  {
    if !s.kids.gvproxyWaiter.Reaped? && !Dead(s.kids.gvproxy) {
      assert s.kids.gvproxy.Alive?;
    }
  }

  lemma DrivePool(s: State, d: Past)
    requires StateInv(s, d) && s.spawned && s.main.AwaitGroup? && s.cells.groupCause.Some?
    requires !(s.pool.watcher.Finished? && s.pool.listener.Finished? && s.pool.rest.Finished?)
    ensures !Next(s, Drive(s)).Blocked?
  {
  }

  lemma DriveStarter(s: State, d: Past)
    requires StateInv(s, d) && s.spawned && s.main.AwaitGroup? && s.cells.groupCause.Some?
    requires s.pool.watcher.Finished? && s.pool.listener.Finished? && s.pool.rest.Finished?
    requires s.starter != Running(AwaitRace) || s.cells.raceCause.Some?
    ensures !Next(s, Drive(s)).Blocked?
  {
  }

  /** Until the process is gone, a goroutine group with an error always has a step of its own to take. */
  lemma SomeStepEnabled(s: State, d: Past)
    requires StateInv(s, d) && !s.main.Gone? && s.cells.groupCause.Some?
    ensures !Next(s, Drive(s)).Blocked? && !Env(Drive(s))
  {
    if !s.main.AwaitGroup? {
    } else if !(s.pool.watcher.Finished? && s.pool.listener.Finished? && s.pool.rest.Finished?) {
      DrivePool(s, d);
    } else if s.starter != Running(AwaitRace) || s.cells.raceCause.Some? {
      DriveStarter(s, d);
    } else {
      DriveRace(s, d);
    }
  }

  lemma StarterKeepsCause(s: State, pc: StarterPc, ok: bool)
    requires !NextStarter(s, pc, ok).Blocked?
    ensures Target(NextStarter(s, pc, ok)).cells == s.cells
  {
  }

  lemma CauseStays(s: State, l: Label)
    requires !Next(s, l).Blocked? && s.cells.groupCause.Some?
    ensures Target(Next(s, l)).cells.groupCause == s.cells.groupCause
  {
    if l.StarterStep? { StarterKeepsCause(s, s.starter.pc, l.ok); }
  }

  lemma {:induction false} RunKeepsCause(w: World, labels: seq<Label>)
    requires Inv(w) && Run(w, labels).Some? && w.state.cells.groupCause.Some?
    ensures Run(w, labels).value.state.cells.groupCause == w.state.cells.groupCause
    decreases |labels|
  {
    if labels != [] {
      CauseStays(w.state, labels[0]);
      MoveKeeps(w, labels[0]);
      RunKeepsCause(Move(w, labels[0]).value, labels[1..]);
    }
  }

  // ---- main results ----

  /**
   Shutdown terminates: from any reachable state whose group has an error, every
   schedule is bounded by the measure and twice the ticks in it, and a schedule that no
   step of the program itself can continue has brought the process to its end: it never
   hangs until a child exits, a signal comes or the clock ticks.
   */
  lemma ShutdownTerminates(w: World, labels: seq<Label>, v: World)
    requires Reachable(w) && w.state.cells.groupCause.Some? && Run(w, labels) == Some(v)
    ensures |labels| <= Measure(w.state) + 2 * Ticks(labels)
    ensures (forall l: Label :: !Env(l) ==> Next(v.state, l).Blocked?) <==> v.state.main.Gone?
  {
    ReachableInv(w);
    RunIsBounded(w, labels);
    RunKeeps(w, labels);
    RunKeepsCause(w, labels);
    if !v.state.main.Gone? {
      SomeStepEnabled(v.state, PastOf(v.log));
    }
  }

  const STEP_BOUND := 505

  /** Over its whole life the command takes a fixed number of steps at most, plus two for every tick. */
  lemma WholeRunIsBounded(labels: seq<Label>, w: World)
    requires Run(START, labels) == Some(w)
    ensures |labels| <= STEP_BOUND + 2 * Ticks(labels)
  {
    InitInv();
    RunIsBounded(START, labels);
  }
}
