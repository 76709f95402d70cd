/** No failure is missed: what goes wrong in a schedule of `start` is reported, and ends the process. */
module RunEffects {
  import opened Basics
  import opened RunProtocol
  import opened RunLog
  import opened RunInvariant
  import opened RunTheorems
  import opened RunCauses
  import opened RunTermination

  // ---- a goroutine that was told does not forget ----

  predicate PoolTold(p: Pool, seen: seq<Label>) {
    && (WatcherLooks(false) in seen ==> Failed(p.watcher, ParentGone))
    && (SignalArrives in seen ==> Failed(p.listener, SignalCaught))
    && (RestStep(false) in seen ==> RestFailing(p.rest))
  }

  /** The command has given up before its goroutines were started. */
  predicate GivenUp(s: State) {
    !s.spawned && s.result.Some? && !s.main.CheckParent? && !s.main.NotifyLoad? && !s.main.LoadConfig? && !s.main.AwaitGroup?
  }

  predicate Told(s: State, seen: seq<Label>) {
    PoolTold(s.pool, seen) && (MainStep(false) in seen ==> GivenUp(s))
  }

  /** What a step does to the goroutines that watch and serve. */
  predicate PoolGoesOn(p: Pool, q: Pool, l: Label) {
    && (Failed(p.watcher, ParentGone) ==> Failed(q.watcher, ParentGone))
    && (Failed(p.listener, SignalCaught) ==> Failed(q.listener, SignalCaught))
    && (RestFailing(p.rest) ==> RestFailing(q.rest))
    && (l == WatcherLooks(false) ==> Failed(q.watcher, ParentGone))
    && (l == SignalArrives ==> Failed(q.listener, SignalCaught))
    && (l == RestStep(false) ==> RestFailing(q.rest))
  }

  lemma PoolStepGoesOn(s: State, l: Label)
    requires s.spawned && !Next(s, l).Blocked?
    requires l.Tick? || l.WatcherLooks? || l.WatcherCancelled? || l.SignalArrives? || l.ListenerCancelled? || l.StopperStep?
    ensures PoolGoesOn(s.pool, Next(s, l).state.pool, l)
  {
  }

  lemma RestGoesOn(s: State, ok: bool)
    requires s.spawned && !Next(s, RestStep(ok)).Blocked?
    ensures PoolGoesOn(s.pool, Next(s, RestStep(ok)).state.pool, RestStep(ok))
  {
  }

  lemma RecordGoesOn(s: State, w: Worker)
    requires !NextRecord(s, w).Blocked?
    ensures PoolGoesOn(s.pool, NextRecord(s, w).state.pool, Record(w))
  {
  }

  lemma OthersLeavePool(s: State, l: Label)
    requires s.spawned && !Next(s, l).Blocked?
    requires l.AfterStep? || l.Kill? || l.Exit? || l.Reap? || l.Decide? || l.MainStep?
    ensures Next(s, l).state.pool == s.pool
  {
  }

  lemma GoesOn(s: State, l: Label)
    requires s.spawned && !Next(s, l).Blocked?
    ensures PoolGoesOn(s.pool, Next(s, l).state.pool, l)
  {
    match l
    case RestStep(ok) => RestGoesOn(s, ok);
    case Record(w) => RecordGoesOn(s, w);
    case StarterStep(ok) => StarterChanges(s, s.starter.pc, ok);
    case AfterStep => OthersLeavePool(s, l);
    case Kill(_) => OthersLeavePool(s, l);
    case Exit(_) => OthersLeavePool(s, l);
    case Reap(_) => OthersLeavePool(s, l);
    case Decide(_) => OthersLeavePool(s, l);
    case MainStep(_) => OthersLeavePool(s, l);
    case _ => PoolStepGoesOn(s, l);
  }

  lemma MainGoesOn(s: State, d: Past, ok: bool)
    requires MainInv(s, d) && !Next(s, MainStep(ok)).Blocked?
    ensures GivenUp(s) || !ok ==> GivenUp(Next(s, MainStep(ok)).state)
  {
  }

  lemma SpawnedStays(s: State, l: Label)
    requires s.spawned && !Next(s, l).Blocked?
    ensures Next(s, l).state.spawned
  {
    if l.StarterStep? { StarterChanges(s, s.starter.pc, l.ok); }
  }

  /** What was not told before may have been told by this step. */
  lemma ToldStep(s: State, d: Past, l: Label, seen: seq<Label>)
    requires StateInv(s, d) && Told(s, seen) && !Next(s, l).Blocked?
    ensures Told(Next(s, l).state, seen + [l])
  {
    assert forall x :: x in seen + [l] <==> x in seen || x == l;
    if s.spawned {
      GoesOn(s, l);
      SpawnedStays(s, l);
      assert MainMay(s.main, false) ==> s.main.CheckParent? || s.main.LoadConfig?;
    } else {
      MainGoesOn(s, d, l.ok);
      assert Next(s, l).state.pool == s.pool;
    }
  }

  lemma {:induction false} ToldRun(w: World, labels: seq<Label>, seen: seq<Label>)
    requires Inv(w) && Told(w.state, seen) && Run(w, labels).Some?
    ensures Told(Run(w, labels).value.state, seen + labels)
    decreases |labels|
  {
    if labels == [] {
      assert seen + labels == seen;
    } else {
      ToldStep(w.state, PastOf(w.log), labels[0], seen);
      MoveKeeps(w, labels[0]);
      ToldRun(Move(w, labels[0]).value, labels[1..], seen + [labels[0]]);
      assert seen + [labels[0]] + labels[1..] == seen + labels;
    }
  }

  lemma ScheduleTold(labels: seq<Label>, w: World)
    requires Run(START, labels) == Some(w)
    ensures Inv(w) && Told(w.state, labels)
  {
    InitInv();
    ToldRun(START, labels, []);
    assert [] + labels == labels;
    RunKeeps(START, labels);
  }

  // ---- main results ----

  /** Back with this error: about to be recorded, or recorded. */
  predicate Reports(w: World, worker: Worker, e: Err) {
    Pending(w.state, worker) == Some(Some(e)) || Returned(worker, Some(e)) in w.log
  }

  lemma FailedIsKnown(s: State, d: Past)
    requires GroupInv(s, d)
    ensures forall e :: Failed(s.pool.watcher, e) ==> Pending(s, Watcher) == Some(Some(e)) || Returned(Watcher, Some(e)) in d.acts
    ensures forall e :: Failed(s.pool.listener, e) ==> Pending(s, Listener) == Some(Some(e)) || Returned(Listener, Some(e)) in d.acts
    ensures forall e :: Failed(s.pool.rest, e) ==> Pending(s, Rest) == Some(Some(e)) || Returned(Rest, Some(e)) in d.acts
  {
  }

  lemma FailedReports(w: World)
    requires Inv(w)
    ensures forall e :: Failed(w.state.pool.watcher, e) ==> Reports(w, Watcher, e)
    ensures forall e :: Failed(w.state.pool.listener, e) ==> Reports(w, Listener, e)
    ensures forall e :: Failed(w.state.pool.rest, e) ==> Reports(w, Rest, e)
  {
    FailedIsKnown(w.state, PastOf(w.log));
    PastIsHistory(w.log);
    var acts := PastOf(w.log).acts;
    forall e ensures Failed(w.state.pool.watcher, e) ==> Reports(w, Watcher, e) {
      assert Returned(Watcher, Some(e)) in acts ==> Returned(Watcher, Some(e)) in w.log;
    }
    forall e ensures Failed(w.state.pool.listener, e) ==> Reports(w, Listener, e) {
      assert Returned(Listener, Some(e)) in acts ==> Returned(Listener, Some(e)) in w.log;
    }
    forall e ensures Failed(w.state.pool.rest, e) ==> Reports(w, Rest, e) {
      assert Returned(Rest, Some(e)) in acts ==> Returned(Rest, Some(e)) in w.log;
    }
  }

  lemma GivenUpIsAborted(s: State, d: Past)
    requires StateInv(s, d) && GivenUp(s) && ReportClosed(d)
    ensures AbortedIn(d)
  {
    assert !Back(d, Starter);
  }

  /**
   Every failure in a schedule is reported: once the watcher has looked and seen the parent
   gone, once a signal has arrived, the goroutine is back with that error; once the REST
   service has failed it is on its way back with it; and a parent gone from the start, or a
   configuration that cannot be read, aborts the command.
   */
  lemma FailuresAreReported(labels: seq<Label>, w: World)
    requires Run(START, labels) == Some(w)
    ensures WatcherLooks(false) in labels ==> Reports(w, Watcher, ParentGone)
    ensures SignalArrives in labels ==> Reports(w, Listener, SignalCaught)
    ensures RestStep(false) in labels ==> Reports(w, Rest, RestFailed) || w.state.pool.rest == Running(Closing(Some(RestFailed)))
    ensures MainStep(false) in labels ==> exists e :: StartAborted(e) in w.log
  {
    ScheduleTold(labels, w);
    FailedReports(w);
    if MainStep(false) in labels {
      ReportIsClosed(w.log);
      GivenUpIsAborted(w.state, PastOf(w.log));
      PastIsHistory(w.log);
      var e :| StartAborted(e) in PastOf(w.log).acts;
      assert StartAborted(e) in w.log;
    }
  }

  /** While it runs, the listener hears a signal at any time, and the watcher's clock can tick and it can look, whatever it sees. */
  lemma NobodyIsDeaf(w: World, alive: bool)
    requires Reachable(w) && w.state.spawned && !w.state.main.Gone?
    ensures w.state.pool.listener.Running? ==> !Next(w.state, SignalArrives).Blocked?
    ensures w.state.pool.watcher.Running? && !w.state.pool.tick ==>
              !Next(w.state, Tick).Blocked? && Next(w.state, Tick).state.pool.tick && Next(w.state, Tick).state.pool.watcher.Running?
    ensures w.state.pool.watcher.Running? && w.state.pool.tick ==> !Next(w.state, WatcherLooks(alive)).Blocked?
  {
  }

  /** The group has an error as soon as one was recorded. */
  lemma RecordedIsCause(s: State, d: Past)
    requires StateInv(s, d) && d.first.Some?
    ensures s.cells.groupCause.Some?
  {
  }

  lemma {:induction false} ReturnedIsFirst(p: Log, w: Worker, e: Err)
    requires Returned(w, Some(e)) in p
    ensures FirstError(p).Some?
  {
    if p[0] != Returned(w, Some(e)) { ReturnedIsFirst(p[1..], w, e); }
  }

  predicate Trouble(labels: seq<Label>) {
    WatcherLooks(false) in labels || SignalArrives in labels || RestStep(false) in labels || MainStep(false) in labels
  }

  /** A goroutine that is back can be recorded, and one that is closing can come back. */
  lemma PendingMoves(s: State, w: Worker)
    requires s.spawned && !s.main.Gone?
    ensures Pending(s, w).Some? ==> !Next(s, Record(w)).Blocked?
    ensures s.pool.rest == Running(Closing(Some(RestFailed))) ==> !Next(s, RestStep(true)).Blocked?
  {
  }

  lemma GivenUpMoves(s: State)
    requires GivenUp(s) && !s.main.Gone?
    ensures !Next(s, MainStep(true)).Blocked?
  {
  }

  /** A reported error always leaves the program a step to take. */
  lemma ReportMovesOn(w: World, worker: Worker, e: Err) returns (l: Label)
    requires Inv(w) && w.state.spawned && !w.state.main.Gone? && Reports(w, worker, e)
    ensures !Env(l) && !Next(w.state, l).Blocked?
  {
    if Pending(w.state, worker).Some? {
      l := Record(worker);
      PendingMoves(w.state, worker);
    } else {
      l := Drive(w.state);
      ReturnedIsFirst(w.log, worker, e);
      PastIsHistory(w.log);
      RecordedIsCause(w.state, PastOf(w.log));
      SomeStepEnabled(w.state, PastOf(w.log));
    }
  }

  /** After a failure some step of the program itself is enabled until the process is gone. */
  lemma TroubleMovesOn(labels: seq<Label>, w: World) returns (l: Label)
    requires Run(START, labels) == Some(w) && Trouble(labels) && !w.state.main.Gone?
    ensures !Env(l) && !Next(w.state, l).Blocked?
  {
    ScheduleTold(labels, w);
    FailuresAreReported(labels, w);
    if MainStep(false) in labels {
      l := MainStep(true);
      GivenUpMoves(w.state);
    } else {
      TroubleIsSpawned(w.state, PastOf(w.log), labels);
      if WatcherLooks(false) in labels {
        l := ReportMovesOn(w, Watcher, ParentGone);
      } else if SignalArrives in labels {
        l := ReportMovesOn(w, Listener, SignalCaught);
      } else if w.state.pool.rest == Running(Closing(Some(RestFailed))) {
        l := RestStep(true);
        PendingMoves(w.state, Rest);
      } else {
        l := ReportMovesOn(w, Rest, RestFailed);
      }
    }
  }

  /**
   A failure ends the process: a schedule in which the parent was seen gone, a signal
   arrived, the REST service failed or the command gave up is continued by no step of the
   program itself if and only if the process is gone.
   */
  lemma FailureEndsTheRun(labels: seq<Label>, w: World)
    requires Run(START, labels) == Some(w) && Trouble(labels)
    ensures (forall l: Label :: !Env(l) ==> Next(w.state, l).Blocked?) <==> w.state.main.Gone?
  {
    if !w.state.main.Gone? {
      var l := TroubleMovesOn(labels, w);
    }
  }

  lemma TroubleIsSpawned(s: State, d: Past, labels: seq<Label>)
    requires StateInv(s, d) && Told(s, labels) && Trouble(labels) && MainStep(false) !in labels
    ensures s.spawned
  {
  }

  /** A process that is gone has reported its error and its exit. */
  lemma GoneHasReported(w: World)
    requires Reachable(w) && w.state.main.Gone?
    ensures Emit(ErrorReport) in w.log && Emit(RunExit) in w.log
  {
    ReachableInv(w);
    PastIsHistory(w.log);
  }
}
