/** What the shutdown does not guarantee: the sync it decided on, and that no child is left. */
module RunExample {
  import opened Basics
  import opened RunProtocol
  import opened RunLog
  import opened RunInvariant
  import opened RunTheorems
  import opened RunTermination
  import opened Startup
  import opened StartAlone

  lemma {:induction false} RunOfConcat(w: World, labels: seq<Label>, l: Label)
    requires Run(w, labels).Some?
    ensures Run(w, labels + [l]) == Move(Run(w, labels).value, l)
    decreases |labels|
  {
    if labels == [] {
      assert labels + [l] == [l];
    } else {
      assert (labels + [l])[1..] == labels[1..] + [l];
      RunOfConcat(Move(w, labels[0]).value, labels[1..], l);
    }
  }

  /** What one more step reaches is reachable. */
  lemma Go(w: World, l: Label) returns (v: World)
    requires Reachable(w) && !Next(w.state, l).Blocked?
    ensures Reachable(v) && v.state == Next(w.state, l).state
  {
    var labels :| Run(START, labels) == Some(w);
    RunOfConcat(START, labels, l);
    v := Move(w, l).value;
    assert Run(START, labels + [l]) == Some(v);
  }

  const SPAWNED := Init.(main := AwaitGroup, spawned := true)

  lemma ReachSpawned() returns (w: World)
    ensures Reachable(w) && w.state == SPAWNED
  {
    assert Run(START, []) == Some(START);
    w := Go(START, MainStep(true));
    w := Go(w, MainStep(true));
    w := Go(w, MainStep(true));
  }

  /** Every call of the start works at its first try. */
  const ALL_WORK := Calls(true, true, i => false, i => true, true, true, true, true, i => false, i => true, i => false, 1, i => true)

  lemma AllWork()
    ensures NetworkUp(ALL_WORK) && MachineUp(true, ALL_WORK)
  {
    assert ALL_WORK.socketThere(0) && !ALL_WORK.socketDone(0);
  }

  const STARTED := SPAWNED.(starter := Running(SpawnWaiters), after := Armed, sshReady := true, podmanReady := true,
                            kids := Kids(Alive, Alive, NotSpawned, NotSpawned, [Gvproxy, Vmm]))

  lemma ReachStarted() returns (w: World)
    ensures Reachable(w) && w.state == STARTED
  {
    var u := ReachSpawned();
    var labels := StartAlone.StartAlone(u, true, ALL_WORK);
    w := Run(u, labels).value;
    var before :| Run(START, before) == Some(u);
    RunAppends(START, before, u, labels);
    assert Run(START, before + labels) == Some(w);
    AllWork();
    assert StartState(SPAWNED, true, ALL_WORK) == STARTED;
  }

  const RACING := STARTED.(starter := Running(AwaitRace), kids := Kids(Alive, Alive, Waiting, Waiting, [Gvproxy, Vmm]))

  lemma ReachRacing() returns (w: World)
    ensures Reachable(w) && w.state == RACING
  {
    w := ReachStarted();
    w := Go(w, StarterStep(true));
  }

  // ---- from there the process may leave without the sync ----

  lemma DriveAlone(s: State)
    requires s.starter.Finished? && !Next(s, Drive(s)).Blocked?
    ensures var t := Next(s, Drive(s)).state; t.after == s.after && t.kids == s.kids && t.starter == s.starter
  {
  }

  /** Once the starter is recorded, the rest of the program can come to its end without the AfterFunc thread or a child moving. */
  lemma {:induction false} LeaveAlone(w: World) returns (labels: seq<Label>, v: World)
    requires Inv(w) && w.state.starter.Finished? && w.state.cells.groupCause.Some?
    ensures Run(w, labels) == Some(v) && Inv(v) && v.state.main.Gone?
    ensures v.state.after == w.state.after && v.state.kids == w.state.kids
    decreases Measure(w.state)
  {
    if w.state.main.Gone? {
      labels, v := [], w;
    } else {
      var l := Drive(w.state);
      SomeStepEnabled(w.state, PastOf(w.log));
      DriveAlone(w.state);
      StepPays(w.state, PastOf(w.log), l);
      CauseStays(w.state, l);
      MoveKeeps(w, l);
      var rest;
      rest, v := LeaveAlone(Move(w, l).value);
      labels := [l] + rest;
      assert labels[1..] == rest;
    }
  }

  function Other(c: Child): Child {
    if c == Gvproxy then Vmm else Gvproxy
  }

  /** The machine is up, nobody has failed, and `c` is alive. */
  predicate Racing(s: State, c: Child) {
    && s.spawned && !s.main.Gone? && s.starter == Running(AwaitRace) && s.cells.groupCause.None?
    && s.sshReady && s.after == Armed && ChildOf(s.kids, c).Alive?
  }

  /** The other child can still bring the race to its end. */
  predicate OtherRuns(k: Kids, o: Child) {
    || (WaiterOf(k, o).Waiting? && (ChildOf(k, o).Alive? || Dead(ChildOf(k, o))))
    || WaiterOf(k, o).Reaped?
  }

  lemma RacingState(s: State, d: Past, c: Child)
    requires StateInv(s, d) && s.starter == Running(AwaitRace) && s.cells.groupCause.None? && ChildOf(s.kids, c).Alive?
    ensures Racing(s, c)
    ensures s.cells.raceCause.None? ==> OtherRuns(s.kids, Other(c))
  {
  }

  /** The next step of the other child or of its waiter. */
  function RaceStep(k: Kids, o: Child): Label {
    if WaiterOf(k, o).Reaped? then Decide(o) else if ChildOf(k, o).Alive? then Exit(o) else Reap(o)
  }

  function RaceRank(k: Kids, o: Child): nat {
    if WaiterOf(k, o).Reaped? then 0 else if ChildOf(k, o).Alive? then 2 else 1
  }

  lemma RaceStepKeeps(s: State, c: Child, o: Child)
    requires Racing(s, c) && o == Other(c) && OtherRuns(s.kids, o) && s.cells.raceCause.None?
    ensures !Next(s, RaceStep(s.kids, o)).Blocked?
    ensures var t := Next(s, RaceStep(s.kids, o)).state;
            && Racing(t, c)
            && if WaiterOf(s.kids, o).Reaped? then t.cells.raceCause.Some?
               else t.cells.raceCause.None? && OtherRuns(t.kids, o) && RaceRank(t.kids, o) < RaceRank(s.kids, o)
  {
  }

  /** The other child ends, if it has not, and its waiter decides the race. */
  lemma {:induction false} DecideRace(w: World, c: Child) returns (labels: seq<Label>, v: World)
    requires Inv(w) && Racing(w.state, c) && (w.state.cells.raceCause.None? ==> OtherRuns(w.state.kids, Other(c)))
    ensures Run(w, labels) == Some(v) && Inv(v) && Racing(v.state, c) && v.state.cells.raceCause.Some?
    decreases if w.state.cells.raceCause.Some? then 0 else 1 + RaceRank(w.state.kids, Other(c))
  {
    if w.state.cells.raceCause.Some? {
      labels, v := [], w;
    } else {
      var l := RaceStep(w.state.kids, Other(c));
      RaceStepKeeps(w.state, c, Other(c));
      MoveKeeps(w, l);
      var rest;
      rest, v := DecideRace(Move(w, l).value, c);
      labels := [l] + rest;
      assert labels[1..] == rest;
    }
  }

  /** How far the AfterFunc thread is from having decided on a sync. */
  function ReadyRank(s: State): nat {
    if s.starter.Running? then 2 else if s.starter.Returning? then 1 else 0
  }

  function ReadyStep(s: State): Label {
    if s.starter.Running? then StarterStep(true) else if s.starter.Returning? then Record(Starter) else AfterStep
  }

  /** The starter is coming back with the race decided. */
  predicate ComingBack(s: State, k: Kids) {
    && s.spawned && !s.main.Gone? && s.sshReady && s.after == Armed && s.kids == k
    && match s.starter
       case Running(pc) => pc.AwaitRace? && s.cells.raceCause.Some? && s.cells.groupCause.None?
       case Returning(res) => res.Some? && s.cells.groupCause.None?
       case Finished(_) => s.cells.groupCause.Some?
  }

  lemma ReadyStepKeeps(s: State, k: Kids)
    requires ComingBack(s, k)
    ensures !Next(s, ReadyStep(s)).Blocked?
    ensures var t := Next(s, ReadyStep(s)).state;
            if s.starter.Finished? then t.after == Notifying && t.kids == k && t.starter == s.starter && t.cells == s.cells
            else ComingBack(t, k) && ReadyRank(t) < ReadyRank(s)
  {
  }

  /** The starter comes back, the group gets its error, and the AfterFunc thread finds SSH ready. */
  lemma {:induction false} SeeReady(w: World, k: Kids) returns (labels: seq<Label>, v: World)
    requires Inv(w) && ComingBack(w.state, k)
    ensures Run(w, labels) == Some(v) && Inv(v) && v.state.starter.Finished? && v.state.cells.groupCause.Some?
    ensures v.state.after == Notifying && v.state.kids == k
    decreases ReadyRank(w.state)
  {
    var l := ReadyStep(w.state);
    ReadyStepKeeps(w.state, k);
    MoveKeeps(w, l);
    if w.state.starter.Finished? {
      labels, v := [l], Move(w, l).value;
      assert labels[1..] == [];
    } else {
      var rest;
      rest, v := SeeReady(Move(w, l).value, k);
      labels := [l] + rest;
      assert labels[1..] == rest;
    }
  }

  /**
   From every reachable state in which the machine is up, no goroutine has failed yet and
   `c` is alive, a schedule leads to the process being gone while the sync that was decided
   on has not been started and `c` is still alive: `Wait` does not wait for the AfterFunc
   thread, and the cancellation that would kill `c` comes after the sync.
   */
  lemma ExitWithoutSync(w: World, c: Child) returns (labels: seq<Label>, v: World)
    requires Reachable(w) && w.state.starter == Running(AwaitRace) && w.state.cells.groupErr.None?
    requires ChildOf(w.state.kids, c).Alive?
    ensures Run(w, labels) == Some(v) && v.state.main == Gone
    ensures ReadSSHReady(true) in v.log && Emit(SyncMachineDisk) !in v.log
    ensures ChildOf(v.state.kids, c).Alive?
  {
    ReachableInv(w);
    RacingState(w.state, PastOf(w.log), c);
    var a, u := DecideRace(w, c);
    var b, x := SeeReady(u, u.state.kids);
    var rest, y := LeaveAlone(x);
    RunAppends(w, a, u, b);
    RunAppends(w, a + b, x, rest);
    labels, v := a + b + rest, y;
    LeftBehind(v.state, PastOf(v.log));
    PastIsHistory(v.log);
  }

  lemma LeftBehind(s: State, d: Past)
    requires StateInv(s, d) && s.after == Notifying
    ensures ReadSSHReady(true) in d.acts && Emit(SyncMachineDisk) !in d.acts
  {
  }

  /** There is such a state. */
  lemma MachineComesUp() returns (w: World)
    ensures Reachable(w) && w.state.starter == Running(AwaitRace) && w.state.cells.groupErr.None?
    ensures w.state.kids.gvproxy.Alive? && w.state.kids.vmm.Alive?
  {
    w := ReachRacing();
  }
}
