/**
 The `start` command as a labelled transition system: every goroutine, child
 process and context is a thread with its own program counter, and one label
 is one atomic step of one thread.  `Next` is a function of state and label, so
 a label also carries every choice the surroundings make (a probe that
 succeeds, a spawn that fails, a tick that fires).

 Contracts taken from the libraries: the first non-nil error recorded by an
 errgroup is its context's cause and the result of `Wait`; a cancel-cause
 function keeps the first cause; `exec.CommandContext` refuses to start once
 its context is done and kills the child when it becomes done.
 */
module RunProtocol {
  import opened Basics

  datatype Child = Gvproxy | Vmm

  datatype Worker = Watcher | Listener | Rest | Starter

  datatype Err =
    | ParentGone
    | ConfigUnreadable
    | Canceled
    | SignalCaught
    | RestFailed
    | BadProvider
    | NetworkFailed
    | SourceDiskFailed
    | VmmFailed
    | ChildEnded(child: Child)

  datatype Event = LoadMachineConfig | StartGvProxy | StartVmm | Ready | SyncMachineDisk | ErrorReport | RunExit

  /** What a run is observed to do. */
  datatype Action =
    | Emit(event: Event)
    | Started(child: Child)
    | Killed(child: Child)
    | Exited(child: Child)
    | Registered(child: Child)
    | SetSSHReady
    | ReadSSHReady(seen: bool)
    | SyncDone
    | InnerCancelled(cause: Err)
    | WaiterCancelled(child: Child)
    | Returned(worker: Worker, res: Option<Err>)
    | WaitReturned(res: Option<Err>)
    | StartAborted(err: Err)

  /** A goroutine of the group: at work, back from its function, or recorded by the errgroup. */
  datatype Work<P> = Running(pc: P) | Returning(res: Option<Err>) | Finished(res: Option<Err>)

  datatype SelectPc = Select

  datatype RestPc = Listen | Serving | Closing(outcome: Option<Err>)

  datatype StopperState = StopperIdle | StopperWaiting | ShutDown

  datatype StarterPc =
    | PickProvider
    | RegisterAfterFunc
    | NetPrepare
    | NetNotify
    | NetSpawn
    | SocketSelect(tries: nat)
    | SocketProbe(left: nat)
    | NetRegister(ok: bool)
    | ExtractDisk
    | VmmPrepare
    | VmmNotify
    | VmmSpawn
    | VmmPidFile
    | VmmRegister
    | SshCheck(tries: nat)
    | SshCall(left: nat)
    | SetReady
    | PodmanSelect(pings: nat)
    | PodmanPing(left: nat)
    | SetPodmanReady
    | NotifyReady
    | SpawnWaiters
    | AwaitRace

  datatype AfterPc = Unregistered | Armed | Notifying | Syncing | Cancelling(saw: bool) | AfterDone(saw: bool)

  datatype ChildState = NotStarted | Alive | ExitedBySelf | KilledByContext

  datatype WaiterPc = NotSpawned | Waiting | Reaped | Decided

  datatype MainPc = CheckParent | NotifyLoad | LoadConfig | AwaitGroup | ReportError | ReportExit | Leave | Gone

  const SOCKET_TRIES := 100
  const SSH_TRIES := 100
  // The timeout of 5 s fires at the latest after this many sleeps of 200 ms.
  const PODMAN_PINGS := 26

  /** The contexts and the errgroup: each a cell that keeps the first error it is given. */
  datatype Cells = Cells(groupErr: Option<Err>, groupCause: Option<Err>, innerCause: Option<Err>, raceCause: Option<Err>)

  /** The goroutines of the group other than the starter. */
  datatype Pool = Pool(tick: bool, watcher: Work<SelectPc>, listener: Work<SelectPc>, rest: Work<RestPc>, stopper: StopperState)

  /** The child processes, the goroutines that wait for them, and the shared command list. */
  datatype Kids = Kids(gvproxy: ChildState, vmm: ChildState, gvproxyWaiter: WaiterPc, vmmWaiter: WaiterPc, registry: seq<Child>)

  datatype State = State(
    main: MainPc,
    spawned: bool,
    result: Option<Err>,
    cells: Cells,
    pool: Pool,
    starter: Work<StarterPc>,
    after: AfterPc,
    sshReady: bool,
    podmanReady: bool,
    kids: Kids)

  /** What one step does: nothing (the label is not enabled), a silent move, or a move that is observed. */
  datatype Step = Blocked | Quiet(state: State) | Does(state: State, action: Action)

  const Init: State := State(
    CheckParent, false, None,
    Cells(None, None, None, None),
    Pool(false, Running(Select), Running(Select), Running(Listen), StopperIdle),
    Running(PickProvider), Unregistered, false, false,
    Kids(NotStarted, NotStarted, NotSpawned, NotSpawned, []))

  datatype Label =
    | MainStep(ok: bool)
    | Tick
    | WatcherLooks(alive: bool)
    | WatcherCancelled
    | SignalArrives
    | ListenerCancelled
    | RestStep(ok: bool)
    | StopperStep
    | StarterStep(ok: bool)
    | Record(worker: Worker)
    | AfterStep
    | Kill(child: Child)
    | Exit(child: Child)
    | Reap(child: Child)
    | Decide(child: Child)

  // ---- shared cells ----

  /** A cancel-cause cell keeps the first cause it is given. */
  function FirstWins(cell: Option<Err>, e: Err): Option<Err> {
    if cell.Some? then cell else Some(e)
  }

  function ChildOf(k: Kids, c: Child): ChildState {
    match c
    case Gvproxy => k.gvproxy
    case Vmm => k.vmm
  }

  function SetChild(k: Kids, c: Child, st: ChildState): Kids {
    match c
    case Gvproxy => k.(gvproxy := st)
    case Vmm => k.(vmm := st)
  }

  function WaiterOf(k: Kids, c: Child): WaiterPc {
    match c
    case Gvproxy => k.gvproxyWaiter
    case Vmm => k.vmmWaiter
  }

  function SetWaiter(k: Kids, c: Child, w: WaiterPc): Kids {
    match c
    case Gvproxy => k.(gvproxyWaiter := w)
    case Vmm => k.(vmmWaiter := w)
  }

  predicate Dead(st: ChildState) {
    st.ExitedBySelf? || st.KilledByContext?
  }

  function PendingOf<P>(w: Work<P>): Option<Option<Err>> {
    if w.Returning? then Some(w.res) else None
  }

  function RecordedOf<P>(w: Work<P>): Option<Option<Err>> {
    if w.Finished? then Some(w.res) else None
  }

  /** The result a goroutine has come back with but not yet recorded. */
  function Pending(s: State, w: Worker): Option<Option<Err>> {
    match w
    case Watcher => PendingOf(s.pool.watcher)
    case Listener => PendingOf(s.pool.listener)
    case Rest => PendingOf(s.pool.rest)
    case Starter => PendingOf(s.starter)
  }

  function Finish(s: State, w: Worker, res: Option<Err>): State {
    match w
    case Watcher => s.(pool := s.pool.(watcher := Finished(res)))
    case Listener => s.(pool := s.pool.(listener := Finished(res)))
    case Rest => s.(pool := s.pool.(rest := Finished(res)))
    case Starter => s.(starter := Finished(res))
  }

  predicate AllFinished(s: State) {
    s.pool.watcher.Finished? && s.pool.listener.Finished? && s.pool.rest.Finished? && s.starter.Finished?
  }

  // ---- the main goroutine ----

  function Abort(s: State, e: Err): Step {
    Does(s.(main := ReportError, result := Some(e)), StartAborted(e))
  }

  function NextMain(s: State, ok: bool): Step {
    match s.main
    case CheckParent =>
      if ok then Quiet(s.(main := NotifyLoad)) else Abort(s, ParentGone)
    case NotifyLoad =>
      Does(s.(main := LoadConfig), Emit(LoadMachineConfig))
    case LoadConfig =>
      if ok then Quiet(s.(main := AwaitGroup, spawned := true)) else Abort(s, ConfigUnreadable)
    case AwaitGroup =>
      if !AllFinished(s) then Blocked
      else
        // Wait cancels the group with its error, which is a no-op once a cause is set
        var cause := FirstWins(s.cells.groupCause, if s.cells.groupErr.Some? then s.cells.groupErr.value else Canceled);
        var next := if s.cells.groupErr.Some? then ReportError else ReportExit;
        Does(s.(main := next, result := s.cells.groupErr, cells := s.cells.(groupCause := cause)),
             WaitReturned(s.cells.groupErr))
    case ReportError => Does(s.(main := ReportExit), Emit(ErrorReport))
    case ReportExit => Does(s.(main := Leave), Emit(RunExit))
    case Leave => Quiet(s.(main := Gone))
    case Gone => Blocked
  }

  // ---- the errgroup ----

  function Fold(c: Cells, e: Err): Cells {
    c.(groupErr := FirstWins(c.groupErr, e), groupCause := FirstWins(c.groupCause, e))
  }

  function NextRecord(s: State, w: Worker): Step {
    match Pending(s, w)
    case None => Blocked
    case Some(res) =>
      var s1 := Finish(s, w, res);
      Does(if res.None? then s1 else s1.(cells := Fold(s.cells, res.value)), Returned(w, res))
  }

  // ---- watcher, signal listener, REST service ----

  function NextWatcher(s: State, alive: bool): Step {
    if !s.pool.watcher.Running? || !s.pool.tick then Blocked
    else if alive then Quiet(s.(pool := s.pool.(tick := false)))
    else Quiet(s.(pool := s.pool.(tick := false, watcher := Returning(Some(ParentGone)))))
  }

  function NextRest(s: State, pc: RestPc, ok: bool): Step {
    match pc
    case Listen =>
      if ok then Quiet(s.(pool := s.pool.(rest := Running(Serving), stopper := StopperWaiting)))
      else Quiet(s.(pool := s.pool.(rest := Returning(Some(RestFailed)))))
    case Serving =>
      // Serve comes back with nil only after Shutdown was called, and with an error only before
      if s.pool.stopper.ShutDown? != ok then Blocked
      else Quiet(s.(pool := s.pool.(rest := Running(Closing(if ok then None else Some(RestFailed))))))
    case Closing(outcome) => if ok then Quiet(s.(pool := s.pool.(rest := Returning(outcome)))) else Blocked
  }

  // ---- the machine starter ----

  function At(s: State, pc: StarterPc): State {
    s.(starter := Running(pc))
  }

  function Fail(s: State, e: Err): State {
    s.(starter := Returning(Some(e)))
  }

  /** RaceWait starts one waiter for every registered command. */
  function SpawnAll(k: Kids): Kids {
    k.(gvproxyWaiter := if Gvproxy in k.registry then Waiting else k.gvproxyWaiter,
       vmmWaiter := if Vmm in k.registry then Waiting else k.vmmWaiter)
  }

  function NextStarter(s: State, pc: StarterPc, ok: bool): Step {
    match pc
    case PickProvider => Quiet(if ok then At(s, RegisterAfterFunc) else Fail(s, BadProvider))
    case RegisterAfterFunc => Quiet(At(s.(after := Armed), NetPrepare))
    case NetPrepare => Quiet(if ok then At(s, NetNotify) else Fail(s, NetworkFailed))
    case NetNotify => Does(At(s, NetSpawn), Emit(StartGvProxy))
    case NetSpawn =>
      if ok && s.cells.innerCause.None?
      then Does(At(s.(kids := s.kids.(gvproxy := Alive)), SocketSelect(SOCKET_TRIES)), Started(Gvproxy))
      else Quiet(Fail(s, NetworkFailed))
    case SocketSelect(n) =>
      Quiet(At(s, if n == 0 || s.cells.innerCause.Some? then NetRegister(false) else SocketProbe(n - 1)))
    case SocketProbe(left) =>
      Quiet(At(s, if ok then NetRegister(true) else SocketSelect(left)))
    case NetRegister(good) =>
      // deferred in gvproxy.Start, so it runs on the error path too
      var s1 := s.(kids := s.kids.(registry := s.kids.registry + [Gvproxy]));
      Does(if good then At(s1, ExtractDisk) else Fail(s1, NetworkFailed), Registered(Gvproxy))
    case ExtractDisk => Quiet(if ok then At(s, VmmPrepare) else Fail(s, SourceDiskFailed))
    case VmmPrepare => Quiet(if ok then At(s, VmmNotify) else Fail(s, VmmFailed))
    case VmmNotify => Does(At(s, VmmSpawn), Emit(StartVmm))
    case VmmSpawn =>
      if ok && s.cells.innerCause.None?
      then Does(At(s.(kids := s.kids.(vmm := Alive)), VmmPidFile), Started(Vmm))
      else Quiet(Fail(s, VmmFailed))
    case VmmPidFile => Quiet(if ok then At(s, VmmRegister) else Fail(s, VmmFailed))
    case VmmRegister =>
      Does(At(s.(kids := s.kids.(registry := s.kids.registry + [Vmm])), SshCheck(SSH_TRIES)), Registered(Vmm))
    case SshCheck(n) =>
      Quiet(At(s, if n == 0 || s.cells.innerCause.Some? then SetReady else SshCall(n - 1)))
    case SshCall(left) =>
      Quiet(At(s, if ok then SetReady else SshCheck(left)))
    case SetReady => Does(At(s.(sshReady := true), PodmanSelect(PODMAN_PINGS)), SetSSHReady)
    case PodmanSelect(n) =>
      // `ok` is the default branch of the select: neither the context nor the timeout is ready
      if s.cells.innerCause.Some? || !ok then Quiet(At(s, SetPodmanReady))
      else if n == 0 then Blocked
      else Quiet(At(s, PodmanPing(n - 1)))
    case PodmanPing(left) =>
      Quiet(At(s, if ok then SetPodmanReady else PodmanSelect(left)))
    case SetPodmanReady => Quiet(At(s.(podmanReady := true), NotifyReady))
    case NotifyReady => Does(At(s, SpawnWaiters), Emit(Ready))
    case SpawnWaiters =>
      Quiet(At(s.(kids := SpawnAll(s.kids)), AwaitRace))
    case AwaitRace =>
      if s.cells.raceCause.None? then Blocked else Quiet(Fail(s, s.cells.raceCause.value))
  }

  // ---- the AfterFunc thread of shim.Start ----

  function CancelInner(c: Cells, e: Err): Cells {
    c.(innerCause := FirstWins(c.innerCause, e))
  }

  function NextAfter(s: State): Step {
    if s.cells.groupCause.None? then Blocked
    else
      match s.after
      case Unregistered => Blocked
      case Armed =>
        Does(s.(after := if s.sshReady then Notifying else Cancelling(false)), ReadSSHReady(s.sshReady))
      case Notifying => Does(s.(after := Syncing), Emit(SyncMachineDisk))
      case Syncing => Does(s.(after := Cancelling(true)), SyncDone)
      case Cancelling(saw) =>
        Does(s.(after := AfterDone(saw), cells := CancelInner(s.cells, s.cells.groupCause.value)),
             InnerCancelled(s.cells.groupCause.value))
      case AfterDone(_) => Blocked
  }

  // ---- children and their waiters ----

  function NextKill(s: State, c: Child): Step {
    if ChildOf(s.kids, c).Alive? && s.cells.innerCause.Some?
    then Does(s.(kids := SetChild(s.kids, c, KilledByContext)), Killed(c)) else Blocked
  }

  function NextExit(s: State, c: Child): Step {
    if ChildOf(s.kids, c).Alive? then Does(s.(kids := SetChild(s.kids, c, ExitedBySelf)), Exited(c)) else Blocked
  }

  function NextReap(s: State, c: Child): Step {
    if WaiterOf(s.kids, c).Waiting? && Dead(ChildOf(s.kids, c)) then Quiet(s.(kids := SetWaiter(s.kids, c, Reaped))) else Blocked
  }

  function NextDecide(s: State, c: Child): Step {
    if WaiterOf(s.kids, c).Reaped?
    then Does(s.(kids := SetWaiter(s.kids, c, Decided),
                 cells := s.cells.(raceCause := FirstWins(s.cells.raceCause, ChildEnded(c)))), WaiterCancelled(c))
    else Blocked
  }

  // ---- the whole system ----

  /** Only looking for the parent and reading the configuration can fail. */
  predicate MainMay(pc: MainPc, ok: bool) {
    ok || pc.CheckParent? || pc.LoadConfig?
  }

  /** One step.  Nothing moves once the process is gone. */
  function Next(s: State, l: Label): Step {
    if s.main.Gone? then Blocked
    else if l.MainStep? then (if MainMay(s.main, l.ok) then NextMain(s, l.ok) else Blocked)
    else if !s.spawned then Blocked
    else
      match l
      case MainStep(_) => Blocked
      case Tick => if s.pool.watcher.Running? && !s.pool.tick then Quiet(s.(pool := s.pool.(tick := true))) else Blocked
      case WatcherLooks(alive) => NextWatcher(s, alive)
      case WatcherCancelled =>
        if s.pool.watcher.Running? && s.cells.groupCause.Some?
        then Quiet(s.(pool := s.pool.(watcher := Returning(Some(Canceled))))) else Blocked
      case SignalArrives =>
        if s.pool.listener.Running? then Quiet(s.(pool := s.pool.(listener := Returning(Some(SignalCaught))))) else Blocked
      case ListenerCancelled =>
        if s.pool.listener.Running? && s.cells.groupCause.Some?
        then Quiet(s.(pool := s.pool.(listener := Returning(Some(Canceled))))) else Blocked
      case RestStep(ok) => if s.pool.rest.Running? then NextRest(s, s.pool.rest.pc, ok) else Blocked
      case StopperStep =>
        if s.pool.stopper.StopperWaiting? && s.cells.groupCause.Some?
        then Quiet(s.(pool := s.pool.(stopper := ShutDown))) else Blocked
      case StarterStep(ok) => if s.starter.Running? then NextStarter(s, s.starter.pc, ok) else Blocked
      case Record(w) => NextRecord(s, w)
      case AfterStep => NextAfter(s)
      case Kill(c) => NextKill(s, c)
      case Exit(c) => NextExit(s, c)
      case Reap(c) => NextReap(s, c)
      case Decide(c) => NextDecide(s, c)
  }

  /** A state together with everything observed on the way to it. */
  datatype World = World(state: State, log: seq<Action>)

  function Move(w: World, l: Label): Option<World> {
    match Next(w.state, l)
    case Blocked => None
    case Quiet(t) => Some(World(t, w.log))
    case Does(t, a) => Some(World(t, w.log + [a]))
  }

  /** Where a whole schedule leads from `w`, or `None` if some label of it is not enabled. */
  function Run(w: World, labels: seq<Label>): Option<World>
    decreases |labels|
  {
    if labels == [] then Some(w)
    else
      var mid := Move(w, labels[0]);
      if mid.None? then None else Run(mid.value, labels[1..])
  }

  const START := World(Init, [])

  ghost predicate Reachable(w: World) {
    exists labels: seq<Label> :: Run(START, labels) == Some(w)
  }

  lemma {:induction false} RunAppends(w: World, a: seq<Label>, u: World, b: seq<Label>)
    requires Run(w, a) == Some(u)
    ensures Run(w, a + b) == Run(u, b)
    decreases |a|
  {
    if a == [] {
      assert a + b == b;
    } else {
      assert (a + b)[1..] == a[1..] + b;
      RunAppends(Move(w, a[0]).value, a[1..], u, b);
    }
  }
}
