/** What holds of every run of the `start` command, read off the histories. */
module RunTheorems {
  import opened Basics
  import opened RunProtocol
  import opened RunLog
  import opened RunInvariant

  // ---- definitions on a bare history, from its front ----

  /** The error of the first goroutine the errgroup recorded with one. */
  function FirstError(p: Log): Option<Err> {
    if p == [] then None
    else if p[0].Returned? && p[0].res.Some? then p[0].res
    else FirstError(p[1..])
  }

  /** The first child whose waiter cancelled the race. */
  function FirstWaiter(p: Log): Option<Child> {
    if p == [] then None
    else if p[0].WaiterCancelled? then Some(p[0].child)
    else FirstWaiter(p[1..])
  }

  predicate StarterEvent(a: Action) {
    a == Emit(StartGvProxy) || a == Emit(StartVmm) || a == Emit(Ready)
  }

  /** The events the starter reported, in order. */
  function StarterEvents(p: Log): seq<Event> {
    if p == [] then []
    else (if StarterEvent(p[0]) then [p[0].event] else []) + StarterEvents(p[1..])
  }

  lemma {:induction false} FirstErrorOfConcat(p: Log, a: Action)
    ensures FirstError(p + [a]) ==
            if FirstError(p).Some? then FirstError(p) else if a.Returned? then a.res else None
  {
    if p != [] {
      assert (p + [a])[1..] == p[1..] + [a];
      FirstErrorOfConcat(p[1..], a);
    }
  }

  lemma {:induction false} FirstWaiterOfConcat(p: Log, a: Action)
    ensures FirstWaiter(p + [a]) ==
            if FirstWaiter(p).Some? then FirstWaiter(p) else if a.WaiterCancelled? then Some(a.child) else None
  {
    if p != [] {
      assert (p + [a])[1..] == p[1..] + [a];
      FirstWaiterOfConcat(p[1..], a);
    }
  }

  lemma {:induction false} StarterEventsOfConcat(p: Log, a: Action)
    ensures StarterEvents(p + [a]) == StarterEvents(p) + (if StarterEvent(a) then [a.event] else [])
  {
    if p != [] {
      assert (p + [a])[1..] == p[1..] + [a];
      StarterEventsOfConcat(p[1..], a);
    }
  }

  /** The summary used by `Allowed` says what it is meant to say about the history. */
  lemma {:induction false} PastIsHistory(p: Log)
    ensures forall a :: a in PastOf(p).acts <==> a in p
    ensures PastOf(p).first == FirstError(p)
    ensures PastOf(p).winner == FirstWaiter(p)
  {
    if p != [] {
      var q, a := p[..|p| - 1], p[|p| - 1];
      assert p == q + [a];
      PastIsHistory(q);
      FirstErrorOfConcat(q, a);
      FirstWaiterOfConcat(q, a);
    }
  }

  lemma {:induction false} AllowedAt(p: Log, i: nat)
    requires Ordered(p) && i < |p|
    ensures Allowed(PastOf(p[..i]), p[i]) && Ordered(p[..i])
  {
    var q := p[..|p| - 1];
    if i < |q| {
      AllowedAt(q, i);
      assert q[..i] == p[..i];
    }
  }

  lemma ReachableOrdered(w: World)
    requires Reachable(w)
    ensures Ordered(w.log)
  {
    ReachableInv(w);
  }

  // ---- causes come before effects ----

  /** The chain of actions that had to come first is part of every history. */
  ghost predicate Caused(d: Past) {
    && (forall c :: Registered(c) in d.acts ==> Started(c) in d.acts)
    && (Started(Gvproxy) in d.acts ==> Emit(StartGvProxy) in d.acts)
    && (Started(Vmm) in d.acts ==> Emit(StartVmm) in d.acts)
    && (Emit(StartGvProxy) in d.acts ==> Emit(LoadMachineConfig) in d.acts)
    && (Emit(StartVmm) in d.acts ==> Registered(Gvproxy) in d.acts)
    && (SetSSHReady in d.acts ==> Registered(Vmm) in d.acts)
    && (Emit(Ready) in d.acts ==> SetSSHReady in d.acts)
    && (ReadSSHReady(true) in d.acts ==> SetSSHReady in d.acts)
    && (ReadSSHReady(true) in d.acts || ReadSSHReady(false) in d.acts ==> d.first.Some?)
    && (Emit(SyncMachineDisk) in d.acts ==> ReadSSHReady(true) in d.acts)
    && (SyncDone in d.acts ==> Emit(SyncMachineDisk) in d.acts)
  }

  lemma {:induction false} Causes(p: Log)
    requires Ordered(p)
    ensures Caused(PastOf(p))
  {
    if p != [] {
      Causes(p[..|p| - 1]);
    }
  }

  // ---- main results ----

  /**
   A child is killed by the context only after the inner context was cancelled
   with the group's first error, and that cancellation came after the disk sync
   had finished, or after the AfterFunc thread had found SSH not ready.
   */
  lemma SyncBeforeKill(w: World, j: nat, c: Child) returns (i: nat, k: nat)
    requires Reachable(w) && j < |w.log| && w.log[j] == Killed(c)
    ensures k < i < j
    ensures w.log[i].InnerCancelled? && FirstError(w.log[..i]) == Some(w.log[i].cause)
    ensures w.log[k] == SyncDone || (w.log[k] == ReadSSHReady(false) && SetSSHReady !in w.log[..k])
  {
    ReachableOrdered(w);
    i := CancelBeforeKill(w.log, j, c);
    k := SyncBeforeCancel(w.log, i);
  }

  lemma CancelBeforeKill(p: Log, j: nat, c: Child) returns (i: nat)
    requires Ordered(p) && j < |p| && p[j] == Killed(c)
    ensures i < j && p[i].InnerCancelled?
  {
    AllowedAt(p, j);
    PastIsHistory(p[..j]);
    var e :| InnerCancelled(e) in PastOf(p[..j]).acts;
    i :| 0 <= i < j && p[i] == InnerCancelled(e);
  }

  lemma SyncBeforeCancel(p: Log, i: nat) returns (k: nat)
    requires Ordered(p) && i < |p| && p[i].InnerCancelled?
    ensures FirstError(p[..i]) == Some(p[i].cause)
    ensures k < i && (p[k] == SyncDone || (p[k] == ReadSSHReady(false) && SetSSHReady !in p[..k]))
  {
    AllowedAt(p, i);
    PastIsHistory(p[..i]);
    var b := if SyncDone in p[..i] then SyncDone else ReadSSHReady(false);
    k :| 0 <= k < i && p[k] == b;
    AllowedAt(p, k);
    PastIsHistory(p[..k]);
  }

  /** Once the inner context is cancelled no child starts any more. */
  lemma NoStartAfterInnerCancel(w: World, i: nat, j: nat)
    requires Reachable(w) && i < j < |w.log| && w.log[i].InnerCancelled?
    ensures !w.log[j].Started?
  {
    ReachableOrdered(w);
    AllowedAt(w.log, j);
    PastIsHistory(w.log[..j]);
    assert w.log[..j][i] == w.log[i];
  }

  /** The same as a property of states: which contexts are done, and with which cause, once a child is killed. */
  lemma KilledState(w: World, c: Child)
    requires Reachable(w) && ChildOf(w.state.kids, c).KilledByContext?
    ensures w.state.cells.groupCause.Some? && w.state.cells.innerCause == w.state.cells.groupCause == FirstError(w.log)
    ensures w.state.after == AfterDone(false) || (w.state.after == AfterDone(true) && SyncDone in w.log)
    ensures Killed(c) in w.log
  {
    ReachableInv(w);
    PastIsHistory(w.log);
  }

  lemma DueSyncState(s: State, d: Past) returns (c: Child)
    requires StateInv(s, d) && WaitedIn(d) && SawReady(s.after) && SyncDone !in d.acts
    ensures ChildOf(s.kids, c).ExitedBySelf? && s.starter == Finished(Some(ChildEnded(c))) && d.winner == Some(c)
    ensures Exited(c) in d.acts
  {
    assert AllFinished(s);
    c := s.starter.res.value.child;
  }

  /**
   If the process reports its result while a sync the AfterFunc thread decided on
   is unfinished, then a child had ended by itself, and that is why `Wait` returned.
   */
  lemma NoExitDuringDueSync(w: World, res: Option<Err>) returns (c: Child)
    requires Reachable(w) && WaitReturned(res) in w.log
    requires ReadSSHReady(true) in w.log && SyncDone !in w.log
    ensures ChildOf(w.state.kids, c).ExitedBySelf? && Exited(c) in w.log
    ensures Returned(Starter, Some(ChildEnded(c))) in w.log && FirstWaiter(w.log) == Some(c)
  {
    ReachableInv(w);
    PastIsHistory(w.log);
    assert WaitReturned(res) in PastOf(w.log).acts;
    c := DueSyncState(w.state, PastOf(w.log));
    assert Returned(Starter, Some(ChildEnded(c))) in PastOf(w.log).acts;
  }

  lemma {:induction false} FirstErrorStable(p: Log, j: nat)
    requires j <= |p| && FirstError(p[..j]).Some?
    ensures FirstError(p) == FirstError(p[..j])
  {
    if !(p[0].Returned? && p[0].res.Some?) {
      assert p[..j][1..] == p[1..][..j - 1];
      FirstErrorStable(p[1..], j - 1);
    }
  }

  lemma WaitedState(s: State, d: Past, res: Option<Err>)
    requires StateInv(s, d) && WaitReturned(res) in d.acts && res == d.first
    ensures s.result == res == s.cells.groupCause == s.cells.groupErr
    ensures s.cells.innerCause.None? || s.cells.innerCause == res
  {
  }

  /** When `Wait` returns, every goroutine has been recorded, and the result is the first error recorded. */
  lemma WaitAllowed(p: Log, res: Option<Err>)
    requires Ordered(p) && WaitReturned(res) in p
    ensures res.Some? && res == FirstError(p)
    ensures forall k :: Back(PastOf(p), k)
  {
    var j :| 0 <= j < |p| && p[j] == WaitReturned(res);
    AllowedAt(p, j);
    PastIsHistory(p[..j]);
    PastIsHistory(p);
    FirstErrorStable(p, j);
    forall k ensures Back(PastOf(p), k) {
      assert Back(PastOf(p[..j]), k);
      var r :| Returned(k, r) in PastOf(p[..j]).acts;
      assert Returned(k, r) in p;
    }
  }

  /**
   `Wait` returns the error of the first goroutine recorded with one; it is never
   nil, and it is the cause of the group context and of the inner context.
   */
  lemma OneErrorStory(w: World, res: Option<Err>)
    requires Reachable(w) && WaitReturned(res) in w.log
    ensures res.Some? && res == FirstError(w.log)
    ensures res == w.state.result == w.state.cells.groupCause == w.state.cells.groupErr
    ensures w.state.cells.innerCause.None? || w.state.cells.innerCause == res
  {
    ReachableInv(w);
    WaitAllowed(w.log, res);
    PastIsHistory(w.log);
    WaitedState(w.state, PastOf(w.log), res);
  }

  /** `RaceWait` comes back with the error of the first child whose waiter cancelled, and that child is dead. */
  lemma RaceReturnsFirst(w: World, c: Child)
    requires Reachable(w) && Returned(Starter, Some(ChildEnded(c))) in w.log
    ensures FirstWaiter(w.log) == Some(c) && Dead(ChildOf(w.state.kids, c))
  {
    ReachableInv(w);
    PastIsHistory(w.log);
    assert Returned(Starter, Some(ChildEnded(c))) in PastOf(w.log).acts;
    assert RecordedOf(w.state.starter) == Some(Some(ChildEnded(c)));
  }

  lemma RegistryState(s: State, d: Past)
    requires StateInv(s, d) && Caused(d)
    ensures s.kids.registry <= [Gvproxy, Vmm]
    ensures forall c :: c in s.kids.registry <==> Registered(c) in d.acts
    ensures Emit(Ready) in d.acts || s.starter == Running(SpawnWaiters) ==> s.kids.registry == [Gvproxy, Vmm]
  {
    forall c ensures c in s.kids.registry <==> Registered(c) in d.acts {
      match c { case Gvproxy => case Vmm => }
    }
  }

  /**
   The shared command list is always a prefix of gvproxy, VMM; everything in it was
   started; and from the moment `Start` has succeeded it is both.
   */
  lemma RegistryAgreement(w: World)
    requires Reachable(w)
    ensures w.state.kids.registry <= [Gvproxy, Vmm]
    ensures forall c :: c in w.state.kids.registry <==> Registered(c) in w.log
    ensures forall c :: c in w.state.kids.registry ==> Started(c) in w.log
    ensures Emit(Ready) in w.log || w.state.starter == Running(SpawnWaiters) ==> w.state.kids.registry == [Gvproxy, Vmm]
  {
    ReachableInv(w);
    PastIsHistory(w.log);
    Causes(w.log);
    RegistryState(w.state, PastOf(w.log));
    forall c | c in w.state.kids.registry ensures Started(c) in w.log {
      assert Registered(c) in PastOf(w.log).acts;
    }
  }

  lemma WaitersAwake(s: State, d: Past, c: Child)
    requires StateInv(s, d) && s.starter == Running(AwaitRace) && Dead(ChildOf(s.kids, c))
    ensures s.spawned
    ensures (WaiterOf(s.kids, c).Waiting? && Dead(ChildOf(s.kids, c))) || WaiterOf(s.kids, c).Reaped? || s.cells.raceCause.Some?
  {
  }

  lemma RaceStepEnabled(s: State, c: Child)
    requires s.spawned && !s.main.Gone? && s.starter == Running(AwaitRace)
    requires (WaiterOf(s.kids, c).Waiting? && Dead(ChildOf(s.kids, c))) || WaiterOf(s.kids, c).Reaped? || s.cells.raceCause.Some?
    ensures !Next(s, Reap(c)).Blocked? || !Next(s, Decide(c)).Blocked? || !Next(s, StarterStep(true)).Blocked?
  {
  }

  /** Before the race is decided, as soon as a child is dead some step of `RaceWait` is enabled. */
  lemma RaceWaitWakes(w: World, c: Child)
    requires Reachable(w) && w.state.starter == Running(AwaitRace) && Dead(ChildOf(w.state.kids, c))
    requires !w.state.main.Gone?
    ensures !Next(w.state, Reap(c)).Blocked? || !Next(w.state, Decide(c)).Blocked? || !Next(w.state, StarterStep(true)).Blocked?
  {
    ReachableInv(w);
    WaitersAwake(w.state, PastOf(w.log), c);
    RaceStepEnabled(w.state, c);
  }

  // ---- the readiness flags ----

  /** The Podman flag is set on the way to Ready, and never taken back. */
  predicate PodmanInv(s: State) {
    s.podmanReady <==>
      match s.starter
      case Running(pc) => pc.NotifyReady? || pc.SpawnWaiters? || pc.AwaitRace?
      case Returning(res) => res.Some? && res.value.ChildEnded?
      case Finished(res) => res.Some? && res.value.ChildEnded?
  }

  lemma PodmanStarterStep(s: State, d: Past, pc: StarterPc, ok: bool)
    requires StateInv(s, d) && PodmanInv(s) && s.starter == Running(pc)
    ensures var step := NextStarter(s, pc, ok); !step.Blocked? ==> PodmanInv(step.state)
  {
  }

  lemma RecordLeavesStarter(s: State, w: Worker)
    requires !NextRecord(s, w).Blocked?
    ensures NextRecord(s, w).state.podmanReady == s.podmanReady
    ensures w == Starter ==> s.starter.Returning? && NextRecord(s, w).state.starter == Finished(s.starter.res)
    ensures w != Starter ==> NextRecord(s, w).state.starter == s.starter
  {
  }

  lemma ChildrenLeaveStarter(s: State, c: Child)
    ensures !NextKill(s, c).Blocked? ==> NextKill(s, c).state == s.(kids := NextKill(s, c).state.kids)
    ensures !NextExit(s, c).Blocked? ==> NextExit(s, c).state == s.(kids := NextExit(s, c).state.kids)
    ensures !NextReap(s, c).Blocked? ==> NextReap(s, c).state == s.(kids := NextReap(s, c).state.kids)
    ensures !NextDecide(s, c).Blocked? ==>
              NextDecide(s, c).state == s.(kids := NextDecide(s, c).state.kids, cells := NextDecide(s, c).state.cells)
  {
  }

  lemma OthersLeaveStarter(s: State, l: Label)
    requires !l.StarterStep? && !l.Record? && !Next(s, l).Blocked?
    ensures Next(s, l).state.podmanReady == s.podmanReady && Next(s, l).state.starter == s.starter
  {
    match l
    case Kill(c) => ChildrenLeaveStarter(s, c);
    case Exit(c) => ChildrenLeaveStarter(s, c);
    case Reap(c) => ChildrenLeaveStarter(s, c);
    case Decide(c) => ChildrenLeaveStarter(s, c);
    case _ =>
  }

  lemma PodmanStep(s: State, d: Past, l: Label)
    requires StateInv(s, d) && PodmanInv(s) && !Next(s, l).Blocked?
    ensures PodmanInv(Next(s, l).state)
  {
    if l.StarterStep? {
      PodmanStarterStep(s, d, s.starter.pc, l.ok);
    } else if l.Record? {
      RecordLeavesStarter(s, l.worker);
    } else {
      OthersLeaveStarter(s, l);
    }
  }

  lemma {:induction false} PodmanRun(w: World, labels: seq<Label>)
    requires Inv(w) && PodmanInv(w.state) && Run(w, labels).Some?
    ensures PodmanInv(Run(w, labels).value.state)
    decreases |labels|
  {
    if labels != [] {
      PodmanStep(w.state, PastOf(w.log), labels[0]);
      MoveKeeps(w, labels[0]);
      PodmanRun(Move(w, labels[0]).value, labels[1..]);
    }
  }

  lemma ReadyState(s: State, d: Past)
    requires StateInv(s, d) && PodmanInv(s) && Caused(d)
    ensures Emit(Ready) in d.acts ==> s.sshReady && s.podmanReady
    ensures s.podmanReady ==> s.sshReady
  {
  }

  /** Ready is reported only with both flags set, and the Podman flag is never set without the SSH flag. */
  lemma ReadyMeansBothFlags(w: World)
    requires Reachable(w)
    ensures Emit(Ready) in w.log ==> w.state.sshReady && w.state.podmanReady
    ensures w.state.podmanReady ==> w.state.sshReady && SetSSHReady in w.log
  {
    var labels :| Run(START, labels) == Some(w);
    InitInv();
    PodmanRun(START, labels);
    ReachableInv(w);
    Causes(w.log);
    PastIsHistory(w.log);
    ReadyState(w.state, PastOf(w.log));
  }

  // ---- reported events ----

  const STARTER_EVENTS := [StartGvProxy, StartVmm, Ready]

  function StarterCount(d: Past): nat {
    if Emit(Ready) in d.acts then 3 else if Emit(StartVmm) in d.acts then 2 else if Emit(StartGvProxy) in d.acts then 1 else 0
  }

  lemma {:induction false} StarterEventsAre(p: Log)
    requires Ordered(p)
    ensures StarterEvents(p) == STARTER_EVENTS[..StarterCount(PastOf(p))]
  {
    if p != [] {
      var q, a := p[..|p| - 1], p[|p| - 1];
      assert p == q + [a];
      StarterEventsAre(q);
      StarterEventsOfConcat(q, a);
      Causes(q);
    }
  }

  /** What the starter reports is always a prefix of StartGvProxy, StartVMM, Ready. */
  lemma StarterEventOrder(w: World)
    requires Reachable(w)
    ensures StarterEvents(w.log) <= STARTER_EVENTS
  {
    ReachableOrdered(w);
    StarterEventsAre(w.log);
  }

  /** LoadMachineConfig is reported before everything the goroutine group does. */
  lemma LoadComesFirst(w: World)
    requires Reachable(w) && w.state.spawned
    ensures w.log != [] && w.log[0] == Emit(LoadMachineConfig)
    ensures forall j :: 0 < j < |w.log| ==> w.log[j] != Emit(LoadMachineConfig)
  {
    ReachableInv(w);
    PastIsHistory(w.log);
    var i :| 0 <= i < |w.log| && w.log[i] == Emit(LoadMachineConfig);
    forall j | 0 <= j < |w.log| && w.log[j] == Emit(LoadMachineConfig) ensures j == 0 {
      AllowedAt(w.log, j);
      PastIsHistory(w.log[..j]);
    }
  }

  /** The disk sync is reported at most once, after the VMM was reported, and not before the group has an error. */
  lemma SyncEventOrder(w: World, j: nat)
    requires Reachable(w) && j < |w.log| && w.log[j] == Emit(SyncMachineDisk)
    ensures Emit(SyncMachineDisk) !in w.log[..j]
    ensures Emit(StartVmm) in w.log[..j] && Started(Vmm) in w.log[..j] && SetSSHReady in w.log[..j]
    ensures FirstError(w.log[..j]).Some?
  {
    ReachableOrdered(w);
    AllowedAt(w.log, j);
    PastIsHistory(w.log[..j]);
    Causes(w.log[..j]);
  }

  /** Facts about the group that never become false again. */
  ghost predicate ReportClosed(d: Past) {
    && (Emit(RunExit) in d.acts ==> Emit(ErrorReport) in d.acts)
    && (Emit(ErrorReport) in d.acts ==> Back(d, Starter) || AbortedIn(d))
  }

  lemma ReportStaysClosed(d: Past, a: Action)
    requires ReportClosed(d) && Allowed(d, a) && (WaitedIn(d) ==> Back(d, Starter))
    ensures ReportClosed(After(d, a))
  {
    var e := After(d, a);
    if Back(d, Starter) {
      var r :| Returned(Starter, r) in d.acts;
      assert Returned(Starter, r) in e.acts;
    }
    if AbortedIn(d) {
      var x :| StartAborted(x) in d.acts;
      assert StartAborted(x) in e.acts;
    }
  }

  lemma {:induction false} ReportIsClosed(p: Log)
    requires Ordered(p)
    ensures ReportClosed(PastOf(p))
  {
    if p != [] {
      var q := p[..|p| - 1];
      ReportIsClosed(q);
      PastIsHistory(q);
      if WaitedIn(PastOf(q)) {
        var r :| WaitReturned(r) in PastOf(q).acts;
        WaitAllowed(q, r);
      }
      ReportStaysClosed(PastOf(q), p[|p| - 1]);
    }
  }

  lemma AfterExitReport(d: Past, e: Event)
    requires ReportClosed(d) && !AbortedIn(d) && Emit(RunExit) in d.acts && EventAllowed(d, e)
    ensures e == SyncMachineDisk
  {
  }

  /** Once the group has run, nothing but a late SyncMachineDisk is reported after the exit report. */
  lemma ExitEventLast(w: World, i: nat, j: nat)
    requires Reachable(w) && w.state.spawned && i < j < |w.log| && w.log[i] == Emit(RunExit) && w.log[j].Emit?
    ensures w.log[j] == Emit(SyncMachineDisk)
  {
    ReachableInv(w);
    AllowedAt(w.log, j);
    ReportIsClosed(w.log[..j]);
    PastIsHistory(w.log);
    PastIsHistory(w.log[..j]);
    assert w.log[..j][i] == Emit(RunExit);
    assert !AbortedIn(PastOf(w.log[..j])) by {
      assert forall a :: a in w.log[..j] ==> a in w.log;
    }
    AfterExitReport(PastOf(w.log[..j]), w.log[j].event);
  }
}
