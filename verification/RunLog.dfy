/**
 What a history of the `start` command may look like, written on the history
 alone: each action is allowed only after certain earlier ones.  Nothing here
 mentions a program counter.
 */
module RunLog {
  import opened Basics
  import opened RunProtocol

  type Log = seq<Action>

  /** What a history amounts to: which actions have happened, the first error recorded, the first waiter to cancel. */
  datatype Past = Past(acts: set<Action>, first: Option<Err>, winner: Option<Child>)

  function After(d: Past, a: Action): Past {
    Past(d.acts + {a},
         if d.first.Some? then d.first else if a.Returned? then a.res else None,
         if d.winner.Some? then d.winner else if a.WaiterCancelled? then Some(a.child) else None)
  }

  function PastOf(p: Log): Past {
    if p == [] then Past({}, None, None) else After(PastOf(p[..|p| - 1]), p[|p| - 1])
  }

  predicate Ended(d: Past, c: Child) {
    Killed(c) in d.acts || Exited(c) in d.acts
  }

  ghost predicate Back(d: Past, w: Worker) {
    exists r :: Returned(w, r) in d.acts
  }

  ghost predicate InnerIn(d: Past) {
    exists e :: InnerCancelled(e) in d.acts
  }

  ghost predicate WaitedIn(d: Past) {
    exists r :: WaitReturned(r) in d.acts
  }

  ghost predicate AbortedIn(d: Past) {
    exists e :: StartAborted(e) in d.acts
  }

  /** `a` is new and the starter may still act. */
  ghost predicate StarterMay(d: Past, a: Action) {
    a !in d.acts && !Back(d, Starter)
  }

  ghost predicate EventAllowed(d: Past, e: Event) {
    match e
    case LoadMachineConfig => d.acts == {}
    case StartGvProxy => StarterMay(d, Emit(e)) && Emit(LoadMachineConfig) in d.acts
    case StartVmm => StarterMay(d, Emit(e)) && Registered(Gvproxy) in d.acts
    case Ready => StarterMay(d, Emit(e)) && SetSSHReady in d.acts
    case SyncMachineDisk => Emit(e) !in d.acts && ReadSSHReady(true) in d.acts
    case ErrorReport => Emit(e) !in d.acts && Emit(RunExit) !in d.acts && (WaitedIn(d) || AbortedIn(d))
    case RunExit => Emit(e) !in d.acts && Emit(ErrorReport) in d.acts
  }

  ghost predicate ReturnAllowed(d: Past, w: Worker, res: Option<Err>) {
    && !Back(d, w)
    && (res.None? ==> w == Rest && d.first.Some?)
    && (res == Some(Canceled) ==> d.first.Some? && (w == Watcher || w == Listener))
    && (w == Starter ==>
          match res.value
          case ChildEnded(c) => d.winner == Some(c) && Emit(Ready) in d.acts
          case BadProvider => Emit(StartGvProxy) !in d.acts
          case NetworkFailed => Emit(StartVmm) !in d.acts && SetSSHReady !in d.acts
          case SourceDiskFailed => Registered(Gvproxy) in d.acts && Emit(StartVmm) !in d.acts && SetSSHReady !in d.acts
          case VmmFailed => Registered(Gvproxy) in d.acts && Registered(Vmm) !in d.acts && SetSSHReady !in d.acts
          case _ => false)
  }

  /** May `a` come next, given what has happened? */
  ghost predicate Allowed(d: Past, a: Action) {
    match a
    case Emit(e) => EventAllowed(d, e)
    case Started(c) =>
      StarterMay(d, a) && !InnerIn(d) && Emit(if c == Gvproxy then StartGvProxy else StartVmm) in d.acts
    case Registered(c) => StarterMay(d, a) && Started(c) in d.acts
    case SetSSHReady => StarterMay(d, a) && Registered(Vmm) in d.acts
    case ReadSSHReady(seen) =>
      && ReadSSHReady(true) !in d.acts && ReadSSHReady(false) !in d.acts
      && d.first.Some?
      && (seen <==> SetSSHReady in d.acts)
    case SyncDone => a !in d.acts && Emit(SyncMachineDisk) in d.acts
    case InnerCancelled(e) =>
      && !InnerIn(d)
      && d.first == Some(e)
      && (SyncDone in d.acts || ReadSSHReady(false) in d.acts)
    case Killed(c) => Started(c) in d.acts && !Ended(d, c) && InnerIn(d)
    case Exited(c) => Started(c) in d.acts && !Ended(d, c)
    case WaiterCancelled(c) =>
      && a !in d.acts
      && Registered(Gvproxy) in d.acts && Registered(Vmm) in d.acts && Emit(Ready) in d.acts
      && Ended(d, c)
    case Returned(w, res) => ReturnAllowed(d, w, res)
    case WaitReturned(res) =>
      && !WaitedIn(d)
      && (forall w :: Back(d, w))
      && res.Some? && res == d.first
    case StartAborted(e) =>
      (d.acts == {} && e == ParentGone) || (d.acts == {Emit(LoadMachineConfig)} && e == ConfigUnreadable)
  }

  ghost predicate Ordered(p: Log) {
    p == [] || (Ordered(p[..|p| - 1]) && Allowed(PastOf(p[..|p| - 1]), p[|p| - 1]))
  }

  lemma Extend(p: Log, a: Action)
    requires Ordered(p) && Allowed(PastOf(p), a)
    ensures Ordered(p + [a]) && PastOf(p + [a]) == After(PastOf(p), a)
  {
    assert (p + [a])[..|p|] == p;
  }
}
