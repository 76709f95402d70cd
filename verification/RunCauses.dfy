/** Errors are real: whatever a goroutine of `start` reports has happened in the schedule. */
module RunCauses {
  import opened Basics
  import opened RunProtocol
  import opened RunLog
  import opened RunInvariant
  import opened RunTheorems

  /** Whether a goroutine is back with this error, recorded or not. */
  predicate Failed<P>(w: Work<P>, e: Err) {
    !w.Running? && w.res == Some(e)
  }

  predicate RestFailing(w: Work<RestPc>) {
    Failed(w, RestFailed) || (w.Running? && w.pc == Closing(Some(RestFailed)))
  }

  predicate PoolBlamed(p: Pool, seen: seq<Label>) {
    && (Failed(p.watcher, ParentGone) ==> WatcherLooks(false) in seen)
    && (Failed(p.listener, SignalCaught) ==> SignalArrives in seen)
    && (RestFailing(p.rest) ==> RestStep(false) in seen)
  }

  /** A wait for the socket that has not succeeded so far. */
  predicate SocketMissed(w: Work<StarterPc>) {
    w.Running? && match w.pc
                  case SocketSelect(n) => n < SOCKET_TRIES
                  case SocketProbe(left) => left + 1 < SOCKET_TRIES
                  case _ => false
  }

  /** A start that failed, or is about to, where the inner context may have been the reason. */
  predicate StartCutOff(w: Work<StarterPc>) {
    Failed(w, NetworkFailed) || Failed(w, VmmFailed) || w == Running(NetRegister(false))
  }

  predicate StarterBlamed(w: Work<StarterPc>, c: Cells, seen: seq<Label>) {
    && (Failed(w, BadProvider) || Failed(w, SourceDiskFailed) || SocketMissed(w) ==> StarterStep(false) in seen)
    && (StartCutOff(w) ==> StarterStep(false) in seen || c.innerCause.Some?)
  }

  predicate KidsBlamed(k: Kids, seen: seq<Label>) {
    forall c :: (ChildOf(k, c).ExitedBySelf? ==> Exit(c) in seen) && (ChildOf(k, c).KilledByContext? ==> Kill(c) in seen)
  }

  predicate MainBlamed(s: State, seen: seq<Label>) {
    !s.spawned && s.result.Some? ==> MainStep(false) in seen
  }

  predicate Blamed(s: State, seen: seq<Label>) {
    PoolBlamed(s.pool, seen) && StarterBlamed(s.starter, s.cells, seen) && KidsBlamed(s.kids, seen) && MainBlamed(s, seen)
  }

  lemma MoreSeen(s: State, seen: seq<Label>, l: Label)
    requires Blamed(s, seen)
    ensures Blamed(s, seen + [l]) && l in seen + [l]
  {
    assert forall x :: x in seen + [l] <==> x in seen || x == l;
  }

  lemma MainBlame(s: State, d: Past, ok: bool, seen: seq<Label>)
    requires MainInv(s, d) && Blamed(s, seen) && MainStep(ok) in seen && !NextMain(s, ok).Blocked?
    ensures Blamed(NextMain(s, ok).state, seen)
  {
  }

  lemma RestBlame(s: State, pc: RestPc, ok: bool, seen: seq<Label>)
    requires Blamed(s, seen) && RestStep(ok) in seen && s.pool.rest == Running(pc) && !NextRest(s, pc, ok).Blocked?
    ensures Blamed(NextRest(s, pc, ok).state, seen)
  {
  }

  lemma StarterChanges(s: State, pc: StarterPc, ok: bool)
    requires !NextStarter(s, pc, ok).Blocked?
    ensures var t := NextStarter(s, pc, ok).state;
            t.pool == s.pool && t.spawned == s.spawned && t.result == s.result && t.cells == s.cells
  {
  }

  lemma StarterKids(s: State, d: Past, pc: StarterPc, ok: bool)
    requires GroupInv(s, d) && s.starter == Running(pc) && !NextStarter(s, pc, ok).Blocked?
    ensures forall c :: ChildOf(NextStarter(s, pc, ok).state.kids, c) == ChildOf(s.kids, c) || ChildOf(NextStarter(s, pc, ok).state.kids, c).Alive?
  {
  }

  /** No waiter's verdict is mistaken for a failed start. */
  predicate RaceInv(c: Cells) {
    c.raceCause.Some? ==> c.raceCause.value.ChildEnded?
  }

  lemma StarterMisses(s: State, pc: StarterPc, ok: bool, seen: seq<Label>)
    requires RaceInv(s.cells) && StarterBlamed(s.starter, s.cells, seen) && StarterStep(ok) in seen
    requires s.starter == Running(pc) && !NextStarter(s, pc, ok).Blocked?
    ensures var w := NextStarter(s, pc, ok).state.starter;
            Failed(w, BadProvider) || Failed(w, SourceDiskFailed) || SocketMissed(w) ==> StarterStep(false) in seen
  {
  }

  lemma StarterIsCutOff(s: State, pc: StarterPc, ok: bool, seen: seq<Label>)
    requires RaceInv(s.cells) && StarterBlamed(s.starter, s.cells, seen) && StarterStep(ok) in seen
    requires s.starter == Running(pc) && !NextStarter(s, pc, ok).Blocked?
    ensures StartCutOff(NextStarter(s, pc, ok).state.starter) ==> StarterStep(false) in seen || s.cells.innerCause.Some?
  {
  }

  lemma StarterBlame(s: State, d: Past, pc: StarterPc, ok: bool, seen: seq<Label>)
    requires GroupInv(s, d) && Blamed(s, seen) && StarterStep(ok) in seen && s.starter == Running(pc) && !NextStarter(s, pc, ok).Blocked?
    ensures Blamed(NextStarter(s, pc, ok).state, seen)
  {
    StarterChanges(s, pc, ok);
    StarterKids(s, d, pc, ok);
    assert RaceInv(s.cells);
    StarterMisses(s, pc, ok, seen);
    StarterIsCutOff(s, pc, ok, seen);
  }

  lemma ChildBlame(s: State, l: Label, c: Child, seen: seq<Label>)
    requires Blamed(s, seen) && l in seen && s.spawned && !Next(s, l).Blocked?
    requires l == Kill(c) || l == Exit(c) || l == Reap(c) || l == Decide(c)
    ensures Blamed(Next(s, l).state, seen)
  {
  }

  lemma RecordBlame(s: State, w: Worker, seen: seq<Label>)
    requires Blamed(s, seen) && !NextRecord(s, w).Blocked?
    ensures Blamed(NextRecord(s, w).state, seen)
  {
  }

  lemma PoolBlame(s: State, l: Label, seen: seq<Label>)
    requires Blamed(s, seen) && l in seen && s.spawned && !Next(s, l).Blocked?
    requires l.Tick? || l.WatcherLooks? || l.WatcherCancelled? || l.SignalArrives? || l.ListenerCancelled? || l.StopperStep? || l.AfterStep?
    ensures Blamed(Next(s, l).state, seen)
  {
  }

  lemma StepBlame(s: State, d: Past, l: Label, seen: seq<Label>)
    requires StateInv(s, d) && Blamed(s, seen) && l in seen && !Next(s, l).Blocked?
    ensures Blamed(Next(s, l).state, seen)
  {
    match l
    case MainStep(ok) => MainBlame(s, d, ok, seen);
    case RestStep(ok) => RestBlame(s, s.pool.rest.pc, ok, seen);
    case StarterStep(ok) => StarterBlame(s, d, s.starter.pc, ok, seen);
    case Record(w) => RecordBlame(s, w, seen);
    case Kill(c) => ChildBlame(s, l, c, seen);
    case Exit(c) => ChildBlame(s, l, c, seen);
    case Reap(c) => ChildBlame(s, l, c, seen);
    case Decide(c) => ChildBlame(s, l, c, seen);
    case _ => PoolBlame(s, l, seen);
  }

  lemma MoveBlame(w: World, l: Label, seen: seq<Label>)
    requires Inv(w) && Blamed(w.state, seen) && Move(w, l).Some?
    ensures Inv(Move(w, l).value) && Blamed(Move(w, l).value.state, seen + [l])
  {
    MoreSeen(w.state, seen, l);
    StepBlame(w.state, PastOf(w.log), l, seen + [l]);
    MoveKeeps(w, l);
  }

  lemma {:induction false} RunBlame(w: World, labels: seq<Label>, seen: seq<Label>)
    requires Inv(w) && Blamed(w.state, seen) && Run(w, labels).Some?
    ensures Blamed(Run(w, labels).value.state, seen + labels)
    decreases |labels|
  {
    if labels == [] {
      assert seen + labels == seen;
    } else {
      MoveBlame(w, labels[0], seen);
      RunBlame(Move(w, labels[0]).value, labels[1..], seen + [labels[0]]);
      assert seen + [labels[0]] + labels[1..] == seen + labels;
    }
  }

  lemma BlameState(s: State, d: Past, seen: seq<Label>)
    requires StateInv(s, d) && Blamed(s, seen)
    ensures Returned(Watcher, Some(ParentGone)) in d.acts ==> WatcherLooks(false) in seen
    ensures Returned(Listener, Some(SignalCaught)) in d.acts ==> SignalArrives in seen
    ensures Returned(Rest, Some(RestFailed)) in d.acts ==> RestStep(false) in seen
    ensures Returned(Starter, Some(BadProvider)) in d.acts || Returned(Starter, Some(SourceDiskFailed)) in d.acts ==> StarterStep(false) in seen
    ensures Returned(Starter, Some(NetworkFailed)) in d.acts || Returned(Starter, Some(VmmFailed)) in d.acts ==>
              StarterStep(false) in seen || InnerIn(d)
    ensures forall c :: (Exited(c) in d.acts ==> Exit(c) in seen) && (Killed(c) in d.acts ==> Kill(c) in seen)
  {
    if s.cells.innerCause.Some? { InnerState(s, d); }
    forall c ensures (Exited(c) in d.acts ==> Exit(c) in seen) && (Killed(c) in d.acts ==> Kill(c) in seen) {
      match c { case Gvproxy => case Vmm => }
    }
  }

  lemma InnerState(s: State, d: Past)
    requires CellInv(s.cells, d) && s.cells.innerCause.Some?
    ensures InnerIn(d)
  {
    assert InnerCancelled(s.cells.innerCause.value) in d.acts;
  }

  lemma AbortState(s: State, d: Past, seen: seq<Label>)
    requires StateInv(s, d) && MainBlamed(s, seen)
    ensures AbortedIn(d) ==> MainStep(false) in seen
  {
  }

  /**
   Every error a goroutine of the group reports, and every end of a child, has its cause
   in the schedule: the parent was seen gone, a signal arrived, the REST service or a step
   of the start failed or the inner context was cancelled under it, the child exited or
   was killed.
   */
  lemma ErrorsAreReal(labels: seq<Label>, w: World)
    requires Run(START, labels) == Some(w)
    ensures Returned(Watcher, Some(ParentGone)) in w.log ==> WatcherLooks(false) in labels
    ensures Returned(Listener, Some(SignalCaught)) in w.log ==> SignalArrives in labels
    ensures Returned(Rest, Some(RestFailed)) in w.log ==> RestStep(false) in labels
    ensures Returned(Starter, Some(BadProvider)) in w.log || Returned(Starter, Some(SourceDiskFailed)) in w.log ==> StarterStep(false) in labels
    ensures Returned(Starter, Some(NetworkFailed)) in w.log || Returned(Starter, Some(VmmFailed)) in w.log ==>
              StarterStep(false) in labels || exists e :: InnerCancelled(e) in w.log
    ensures forall c :: (Exited(c) in w.log ==> Exit(c) in labels) && (Killed(c) in w.log ==> Kill(c) in labels)
    ensures forall e :: StartAborted(e) in w.log ==> MainStep(false) in labels
  {
    ScheduleBlame(labels, w);
    PastIsHistory(w.log);
    BlameState(w.state, PastOf(w.log), labels);
    AbortState(w.state, PastOf(w.log), labels);
    if InnerIn(PastOf(w.log)) {
      var e :| InnerCancelled(e) in PastOf(w.log).acts;
      assert InnerCancelled(e) in w.log;
    }
    forall e | StartAborted(e) in w.log ensures MainStep(false) in labels {
      assert StartAborted(e) in PastOf(w.log).acts;
    }
  }

  lemma ScheduleBlame(labels: seq<Label>, w: World)
    requires Run(START, labels) == Some(w)
    ensures Inv(w) && Blamed(w.state, labels)
  {
    InitInv();
    RunBlame(START, labels, []);
    assert [] + labels == labels;
    RunKeeps(START, labels);
  }

  lemma RecordedWasPending(s: State, l: Label, w: Worker, e: Err)
    requires Next(s, l).Does? && Next(s, l).action == Returned(w, Some(e))
    ensures Pending(s, w) == Some(Some(e))
  {
    if l.StarterStep? { StarterReturnsNothing(s, s.starter.pc, l.ok, w, e); }
  }

  lemma StarterReturnsNothing(s: State, pc: StarterPc, ok: bool, w: Worker, e: Err)
    ensures !(NextStarter(s, pc, ok).Does? && NextStarter(s, pc, ok).action == Returned(w, Some(e)))
  {
  }

  /** The causes come first: they are in the schedule, or the history, before the step that records the error. */
  lemma CausesComeFirst(labels: seq<Label>, w: World, l: Label, worker: Worker, e: Err)
    requires Run(START, labels) == Some(w) && Next(w.state, l).Does? && Next(w.state, l).action == Returned(worker, Some(e))
    ensures worker == Watcher && e == ParentGone ==> WatcherLooks(false) in labels
    ensures worker == Listener && e == SignalCaught ==> SignalArrives in labels
    ensures worker == Rest && e == RestFailed ==> RestStep(false) in labels
    ensures worker == Starter && (e == BadProvider || e == SourceDiskFailed) ==> StarterStep(false) in labels
    ensures worker == Starter && (e == NetworkFailed || e == VmmFailed) ==>
              StarterStep(false) in labels || exists x :: InnerCancelled(x) in w.log
  {
    ScheduleBlame(labels, w);
    RecordedWasPending(w.state, l, worker, e);
    PastIsHistory(w.log);
    if w.state.cells.innerCause.Some? {
      assert InnerCancelled(w.state.cells.innerCause.value) in PastOf(w.log).acts;
    }
  }
}
