/**
 The starter thread of the transition system, left alone: it does exactly what the calls
 it makes add up to, for every outcome of every call.
 */
module StartAlone {
  import opened Basics
  import opened RunProtocol
  import opened RunLog
  import opened RunInvariant
  import opened RunTheorems
  import opened Startup

  // ---- what a start adds up to ----

  /** How the starter ends up: the first call that failed decides. */
  ghost function StartResult(known: bool, c: Calls): Work<StarterPc> {
    if !known then Returning(Some(BadProvider))
    else if !NetworkUp(c) then Returning(Some(NetworkFailed))
    else if !c.diskExtracted then Returning(Some(SourceDiskFailed))
    else if !VmmUp(c) then Returning(Some(VmmFailed))
    else Running(SpawnWaiters)
  }

  ghost predicate MachineUp(known: bool, c: Calls) {
    known && NetworkUp(c) && c.diskExtracted && VmmUp(c)
  }

  /** What is observed of the VMM's start. */
  function VmmLog(c: Calls): seq<Action> {
    if !c.vmmPrepared then []
    else if !c.vmmSpawned then [Emit(StartVmm)]
    else if !c.pidWritten then [Emit(StartVmm), Started(Vmm)]
    else [Emit(StartVmm), Started(Vmm), Registered(Vmm), SetSSHReady, Emit(Ready)]
  }

  function NetLog(c: Calls): seq<Action> {
    if !c.netPrepared then []
    else if !c.netSpawned then [Emit(StartGvProxy)]
    else [Emit(StartGvProxy), Started(Gvproxy), Registered(Gvproxy)]
  }

  ghost function StartLog(known: bool, c: Calls): seq<Action> {
    if !known then [] else NetLog(c) + if NetworkUp(c) && c.diskExtracted then VmmLog(c) else []
  }

  const IDLE_KIDS := Kids(NotStarted, NotStarted, NotSpawned, NotSpawned, [])

  /** What is left of a start that got as far as the network. */
  function NetKids(c: Calls): Kids {
    if c.netPrepared && c.netSpawned then IDLE_KIDS.(gvproxy := Alive, registry := [Gvproxy]) else IDLE_KIDS
  }

  function VmmKids(k: Kids, c: Calls): Kids {
    if !c.vmmPrepared || !c.vmmSpawned then k
    else if !c.pidWritten then k.(vmm := Alive)
    else k.(vmm := Alive, registry := k.registry + [Vmm])
  }

  /** The children a start leaves running, and the list it leaves. */
  ghost function StartKids(known: bool, c: Calls): Kids {
    if !known then IDLE_KIDS
    else if NetworkUp(c) && c.diskExtracted then VmmKids(NetKids(c), c)
    else NetKids(c)
  }

  ghost function StartState(s: State, known: bool, c: Calls): State {
    s.(starter := StartResult(known, c),
       after := if known then Armed else s.after,
       kids := StartKids(known, c),
       sshReady := MachineUp(known, c),
       podmanReady := MachineUp(known, c))
  }

  predicate OnlyStarter(labels: seq<Label>) {
    forall l :: l in labels ==> l.StarterStep?
  }

  // ---- step by step ----

  function Stepped(u: World, pc: StarterPc, ok: bool): Option<World> {
    match NextStarter(u.state, pc, ok)
    case Blocked => None
    case Quiet(t) => Some(World(t, u.log))
    case Does(t, a) => Some(World(t, u.log + [a]))
  }

  /** One more step of the starter. */
  lemma More(w: World, labels: seq<Label>, u: World, pc: StarterPc, ok: bool, v: World) returns (more: seq<Label>)
    requires OnlyStarter(labels) && Run(w, labels) == Some(u) && StarterMoves(u.state, pc) && Stepped(u, pc, ok) == Some(v)
    ensures OnlyStarter(more) && Run(w, more) == Some(v)
  {
    more := labels + [StarterStep(ok)];
    RunAppends(w, labels, u, [StarterStep(ok)]);
    OneStep(u, StarterStep(ok));
  }

  /** Schedules of the starter one after the other. */
  lemma Chain(w: World, a: seq<Label>, u: World, b: seq<Label>, v: World) returns (labels: seq<Label>)
    requires OnlyStarter(a) && OnlyStarter(b) && Run(w, a) == Some(u) && Run(u, b) == Some(v)
    ensures OnlyStarter(labels) && Run(w, labels) == Some(v)
  {
    labels := a + b;
    RunAppends(w, a, u, b);
  }

  function Put(w: World, pc: Work<StarterPc>, acts: seq<Action>): World {
    World(w.state.(starter := pc), w.log + acts)
  }

  function PutKids(w: World, pc: Work<StarterPc>, kids: Kids, acts: seq<Action>): World {
    World(w.state.(starter := pc, kids := kids), w.log + acts)
  }

  // the network

  lemma PrepareNet(w: World, ok: bool) returns (labels: seq<Label>)
    requires StarterMoves(w.state, NetPrepare)
    ensures OnlyStarter(labels)
    ensures Run(w, labels) == Some(if ok then Put(w, Running(NetSpawn), [Emit(StartGvProxy)]) else Put(w, Returning(Some(NetworkFailed)), []))
  {
    assert w.log + [] == w.log;
    if ok {
      var u := Put(w, Running(NetNotify), []);
      labels := More(w, [], w, NetPrepare, true, u);
      labels := More(w, labels, u, NetNotify, true, Put(w, Running(NetSpawn), [Emit(StartGvProxy)]));
    } else {
      labels := More(w, [], w, NetPrepare, false, Put(w, Returning(Some(NetworkFailed)), []));
    }
  }

  lemma SpawnNet(w: World, ok: bool) returns (labels: seq<Label>)
    requires StarterMoves(w.state, NetSpawn)
    ensures OnlyStarter(labels)
    ensures Run(w, labels) == Some(
              if ok then PutKids(w, Running(SocketSelect(SOCKET_TRIES)), w.state.kids.(gvproxy := Alive), [Started(Gvproxy)])
              else Put(w, Returning(Some(NetworkFailed)), []))
  {
    assert w.log + [] == w.log;
    labels := More(w, [], w, NetSpawn, ok, if ok then PutKids(w, Running(SocketSelect(SOCKET_TRIES)), w.state.kids.(gvproxy := Alive), [Started(Gvproxy)])
                                           else Put(w, Returning(Some(NetworkFailed)), []));
  }

  lemma RegisterNet(w: World, there: bool) returns (labels: seq<Label>)
    requires StarterMoves(w.state, NetRegister(there))
    ensures OnlyStarter(labels)
    ensures Run(w, labels) == Some(PutKids(w, if there then Running(ExtractDisk) else Returning(Some(NetworkFailed)),
                                           w.state.kids.(registry := w.state.kids.registry + [Gvproxy]), [Registered(Gvproxy)]))
  {
    labels := More(w, [], w, NetRegister(there), true,
                   PutKids(w, if there then Running(ExtractDisk) else Returning(Some(NetworkFailed)),
                           w.state.kids.(registry := w.state.kids.registry + [Gvproxy]), [Registered(Gvproxy)]));
  }

  // the VMM

  lemma ExtractSource(w: World, ok: bool) returns (labels: seq<Label>)
    requires StarterMoves(w.state, ExtractDisk)
    ensures OnlyStarter(labels)
    ensures Run(w, labels) == Some(Put(w, if ok then Running(VmmPrepare) else Returning(Some(SourceDiskFailed)), []))
  {
    assert w.log + [] == w.log;
    labels := More(w, [], w, ExtractDisk, ok, Put(w, if ok then Running(VmmPrepare) else Returning(Some(SourceDiskFailed)), []));
  }

  lemma PrepareVmm(w: World, ok: bool) returns (labels: seq<Label>)
    requires StarterMoves(w.state, VmmPrepare)
    ensures OnlyStarter(labels)
    ensures Run(w, labels) == Some(if ok then Put(w, Running(VmmSpawn), [Emit(StartVmm)]) else Put(w, Returning(Some(VmmFailed)), []))
  {
    assert w.log + [] == w.log;
    if ok {
      var u := Put(w, Running(VmmNotify), []);
      labels := More(w, [], w, VmmPrepare, true, u);
      labels := More(w, labels, u, VmmNotify, true, Put(w, Running(VmmSpawn), [Emit(StartVmm)]));
    } else {
      labels := More(w, [], w, VmmPrepare, false, Put(w, Returning(Some(VmmFailed)), []));
    }
  }

  lemma SpawnVmm(w: World, ok: bool) returns (labels: seq<Label>)
    requires StarterMoves(w.state, VmmSpawn)
    ensures OnlyStarter(labels)
    ensures Run(w, labels) == Some(
              if ok then PutKids(w, Running(VmmPidFile), w.state.kids.(vmm := Alive), [Started(Vmm)])
              else Put(w, Returning(Some(VmmFailed)), []))
  {
    assert w.log + [] == w.log;
    labels := More(w, [], w, VmmSpawn, ok, if ok then PutKids(w, Running(VmmPidFile), w.state.kids.(vmm := Alive), [Started(Vmm)])
                                           else Put(w, Returning(Some(VmmFailed)), []));
  }

  lemma RegisterVmm(w: World, written: bool) returns (labels: seq<Label>)
    requires StarterMoves(w.state, VmmPidFile)
    ensures OnlyStarter(labels)
    ensures Run(w, labels) == Some(
              if written then PutKids(w, Running(SshCheck(SSH_TRIES)), w.state.kids.(registry := w.state.kids.registry + [Vmm]), [Registered(Vmm)])
              else Put(w, Returning(Some(VmmFailed)), []))
  {
    assert w.log + [] == w.log;
    if written {
      var u := Put(w, Running(VmmRegister), []);
      labels := More(w, [], w, VmmPidFile, true, u);
      labels := More(w, labels, u, VmmRegister, true,
                     PutKids(w, Running(SshCheck(SSH_TRIES)), w.state.kids.(registry := w.state.kids.registry + [Vmm]), [Registered(Vmm)]));
    } else {
      labels := More(w, [], w, VmmPidFile, false, Put(w, Returning(Some(VmmFailed)), []));
    }
  }

  // readiness

  lemma SshIsReady(w: World) returns (labels: seq<Label>)
    requires StarterMoves(w.state, SetReady)
    ensures OnlyStarter(labels)
    ensures Run(w, labels) == Some(World(w.state.(starter := Running(SetPodmanReady), sshReady := true), w.log + [SetSSHReady]))
  {
    var u := World(w.state.(starter := Running(PodmanSelect(PODMAN_PINGS)), sshReady := true), w.log + [SetSSHReady]);
    labels := More(w, [], w, SetReady, true, u);
    labels := More(w, labels, u, PodmanSelect(PODMAN_PINGS), false, World(u.state.(starter := Running(SetPodmanReady)), u.log));
  }

  lemma PodmanIsReady(w: World) returns (labels: seq<Label>)
    requires StarterMoves(w.state, SetPodmanReady)
    ensures OnlyStarter(labels)
    ensures Run(w, labels) == Some(World(w.state.(starter := Running(SpawnWaiters), podmanReady := true), w.log + [Emit(Ready)]))
  {
    var u := World(w.state.(starter := Running(NotifyReady), podmanReady := true), w.log);
    labels := More(w, [], w, SetPodmanReady, true, u);
    labels := More(w, labels, u, NotifyReady, true, World(u.state.(starter := Running(SpawnWaiters)), w.log + [Emit(Ready)]));
  }

  // ---- the stages together ----

  /** The network comes up exactly as the calls say, whatever the probes of its socket do. */
  lemma NetworkAlone(w: World, c: Calls) returns (labels: seq<Label>)
    requires StarterMoves(w.state, NetPrepare) && w.state.kids == IDLE_KIDS && forall i :: !c.socketDone(i)
    ensures OnlyStarter(labels)
    ensures Run(w, labels) == Some(PutKids(w, if NetworkUp(c) then Running(ExtractDisk) else Returning(Some(NetworkFailed)), NetKids(c), NetLog(c)))
  {
    labels := PrepareNet(w, c.netPrepared);
    if c.netPrepared {
      var u := Put(w, Running(NetSpawn), [Emit(StartGvProxy)]);
      var more := SpawnNet(u, c.netSpawned);
      if c.netSpawned {
        labels := SocketAlone(w, labels, u, more, c);
      } else {
        NothingMore(u, Returning(Some(NetworkFailed)));
        labels := Chain(w, labels, u, more, Put(u, Returning(Some(NetworkFailed)), []));
        assert Put(u, Returning(Some(NetworkFailed)), []) == PutKids(w, Returning(Some(NetworkFailed)), IDLE_KIDS, NetLog(c));
      }
    } else {
      assert Put(w, Returning(Some(NetworkFailed)), []) == PutKids(w, Returning(Some(NetworkFailed)), IDLE_KIDS, NetLog(c));
    }
  }

  lemma NothingMore(w: World, pc: Work<StarterPc>)
    ensures Put(w, pc, []) == World(w.state.(starter := pc), w.log)
  {
  }

  lemma SocketAlone(w: World, done: seq<Label>, u: World, more: seq<Label>, c: Calls) returns (labels: seq<Label>)
    requires StarterMoves(w.state, NetPrepare) && w.state.kids == IDLE_KIDS && forall i :: !c.socketDone(i)
    requires c.netPrepared && c.netSpawned && u == Put(w, Running(NetSpawn), [Emit(StartGvProxy)])
    requires OnlyStarter(done) && Run(w, done) == Some(u)
    requires OnlyStarter(more) && Run(u, more) == Some(PutKids(u, Running(SocketSelect(SOCKET_TRIES)), IDLE_KIDS.(gvproxy := Alive), [Started(Gvproxy)]))
    ensures OnlyStarter(labels)
    ensures Run(w, labels) == Some(PutKids(w, if NetworkUp(c) then Running(ExtractDisk) else Returning(Some(NetworkFailed)), NetKids(c), NetLog(c)))
  {
    var v := PutKids(u, Running(SocketSelect(SOCKET_TRIES)), IDLE_KIDS.(gvproxy := Alive), [Started(Gvproxy)]);
    labels := Chain(w, done, u, more, v);
    var wait, found := SocketWaitAlone(v, SOCKET_TRIES, 0, c.socketThere);
    assert found <==> NetworkUp(c);
    var x := World(At(v.state, NetRegister(found)), v.log);
    labels := Chain(w, labels, v, wait, x);
    var last := RegisterNet(x, found);
    var next := if found then Running(ExtractDisk) else Returning(Some(NetworkFailed));
    var y := PutKids(x, next, x.state.kids.(registry := x.state.kids.registry + [Gvproxy]), [Registered(Gvproxy)]);
    labels := Chain(w, labels, x, last, y);
    assert y.state == w.state.(starter := next, kids := NetKids(c));
    Three(w.log, Emit(StartGvProxy), Started(Gvproxy), Registered(Gvproxy));
  }

  lemma Three(log: seq<Action>, a: Action, b: Action, c: Action)
    ensures log + [a] + [b] + [c] == log + [a, b, c]
  {
  }

  function VmmState(s: State, c: Calls): State {
    if VmmUp(c) then s.(starter := Running(SpawnWaiters), kids := VmmKids(s.kids, c), sshReady := true, podmanReady := true)
    else s.(starter := Returning(Some(VmmFailed)), kids := VmmKids(s.kids, c))
  }

  lemma VmmAlone(w: World, c: Calls) returns (labels: seq<Label>)
    requires StarterMoves(w.state, VmmPrepare)
    ensures OnlyStarter(labels)
    ensures Run(w, labels) == Some(World(VmmState(w.state, c), w.log + VmmLog(c)))
  {
    labels := PrepareVmm(w, c.vmmPrepared);
    var failed := Returning(Some(VmmFailed));
    if c.vmmPrepared {
      var u := Put(w, Running(VmmSpawn), [Emit(StartVmm)]);
      var more := SpawnVmm(u, c.vmmSpawned);
      if c.vmmSpawned {
        var v := PutKids(u, Running(VmmPidFile), u.state.kids.(vmm := Alive), [Started(Vmm)]);
        labels := Chain(w, labels, u, more, v);
        labels := SpawnedAlone(w, labels, v, c);
      } else {
        NothingMore(u, failed);
        labels := Chain(w, labels, u, more, Put(u, failed, []));
        assert Put(u, failed, []).state == VmmState(w.state, c);
      }
    } else {
      NothingMore(w, failed);
      assert Put(w, failed, []).state == VmmState(w.state, c);
      assert w.log + [] == w.log;
    }
  }

  lemma SpawnedAlone(w: World, done: seq<Label>, v: World, c: Calls) returns (labels: seq<Label>)
    requires StarterMoves(w.state, VmmPrepare) && c.vmmPrepared && c.vmmSpawned
    requires v.state == w.state.(starter := Running(VmmPidFile), kids := w.state.kids.(vmm := Alive))
    requires v.log == w.log + [Emit(StartVmm)] + [Started(Vmm)]
    requires OnlyStarter(done) && Run(w, done) == Some(v)
    ensures OnlyStarter(labels)
    ensures Run(w, labels) == Some(World(VmmState(w.state, c), w.log + VmmLog(c)))
  {
    var more := RegisterVmm(v, c.pidWritten);
    if c.pidWritten {
      var kids := v.state.kids.(registry := v.state.kids.registry + [Vmm]);
      var x := PutKids(v, Running(SshCheck(SSH_TRIES)), kids, [Registered(Vmm)]);
      labels := Chain(w, done, v, more, x);
      var last, y := ReadyAlone(x, c.sshAnswers);
      labels := Chain(w, labels, x, last, y);
      assert y.state == VmmState(w.state, c);
      Five(w.log, Emit(StartVmm), Started(Vmm), Registered(Vmm), SetSSHReady, Emit(Ready));
    } else {
      var failed := Returning(Some(VmmFailed));
      NothingMore(v, failed);
      labels := Chain(w, done, v, more, Put(v, failed, []));
      assert Put(v, failed, []).state == VmmState(w.state, c);
      assert w.log + [Emit(StartVmm)] + [Started(Vmm)] == w.log + [Emit(StartVmm), Started(Vmm)];
    }
  }

  lemma Five(log: seq<Action>, a: Action, b: Action, c: Action, d: Action, e: Action)
    ensures log + [a] + [b] + [c] + [d] + [e] == log + [a, b, c, d, e]
  {
  }

  /** Both flags are set and Ready reported, whatever the probes of ssh say. */
  lemma ReadyAlone(w: World, answers: Tries) returns (labels: seq<Label>, v: World)
    requires StarterMoves(w.state, SshCheck(SSH_TRIES))
    ensures OnlyStarter(labels) && Run(w, labels) == Some(v)
    ensures v.state == w.state.(starter := Running(SpawnWaiters), sshReady := true, podmanReady := true)
    ensures v.log == w.log + [SetSSHReady] + [Emit(Ready)]
  {
    labels := SshWaitAlone(w, SSH_TRIES, 0, answers);
    var x := World(At(w.state, SetReady), w.log);
    var more := SshIsReady(x);
    var y := World(x.state.(starter := Running(SetPodmanReady), sshReady := true), x.log + [SetSSHReady]);
    labels := Chain(w, labels, x, more, y);
    more := PodmanIsReady(y);
    v := World(y.state.(starter := Running(SpawnWaiters), podmanReady := true), y.log + [Emit(Ready)]);
    labels := Chain(w, labels, y, more, v);
  }

  // ---- the whole start ----

  lemma PickAlone(w: World, known: bool) returns (labels: seq<Label>)
    requires StarterMoves(w.state, PickProvider)
    ensures OnlyStarter(labels)
    ensures Run(w, labels) == Some(if known then World(w.state.(starter := Running(NetPrepare), after := Armed), w.log)
                                   else World(w.state.(starter := Returning(Some(BadProvider))), w.log))
  {
    if known {
      var u := World(At(w.state, RegisterAfterFunc), w.log);
      labels := More(w, [], w, PickProvider, true, u);
      labels := More(w, labels, u, RegisterAfterFunc, true, World(w.state.(starter := Running(NetPrepare), after := Armed), w.log));
    } else {
      labels := More(w, [], w, PickProvider, false, World(w.state.(starter := Returning(Some(BadProvider))), w.log));
    }
  }

  lemma FreshStart(w: World)
    requires Reachable(w) && w.state.spawned && w.state.starter == Running(PickProvider)
    ensures w.state.kids == IDLE_KIDS && !w.state.sshReady && !w.state.podmanReady
    ensures !w.state.main.Gone? && w.state.cells.innerCause.None?
  {
    ReachableInv(w);
    ReadyMeansBothFlags(w);
  }

  /**
   From every reachable state in which the starter is about to begin, the starter alone
   gets to where its calls add up to, and does nothing else.
   */
  lemma StartAlone(w: World, known: bool, c: Calls) returns (labels: seq<Label>)
    requires Reachable(w) && w.state.spawned && w.state.starter == Running(PickProvider)
    requires forall i :: !c.socketDone(i)
    ensures OnlyStarter(labels)
    ensures Run(w, labels) == Some(World(StartState(w.state, known, c), w.log + StartLog(known, c)))
  {
    FreshStart(w);
    labels := PickAlone(w, known);
    if known {
      var u := World(w.state.(starter := Running(NetPrepare), after := Armed), w.log);
      labels := KnownAlone(w, labels, u, c);
    } else {
      UnknownAlone(w, c);
    }
  }

  lemma UnknownAlone(w: World, c: Calls)
    requires w.state.kids == IDLE_KIDS && !w.state.sshReady && !w.state.podmanReady
    ensures World(w.state.(starter := Returning(Some(BadProvider))), w.log) ==
            World(StartState(w.state, false, c), w.log + StartLog(false, c))
  {
    assert w.log + [] == w.log;
  }

  lemma KnownAlone(w: World, done: seq<Label>, u: World, c: Calls) returns (labels: seq<Label>)
    requires w.state.spawned && !w.state.main.Gone? && w.state.cells.innerCause.None? && !w.state.sshReady && !w.state.podmanReady
    requires w.state.kids == IDLE_KIDS && forall i :: !c.socketDone(i)
    requires u.state == w.state.(starter := Running(NetPrepare), after := Armed) && u.log == w.log
    requires OnlyStarter(done) && Run(w, done) == Some(u)
    ensures OnlyStarter(labels)
    ensures Run(w, labels) == Some(World(StartState(w.state, true, c), w.log + StartLog(true, c)))
  {
    var more := NetworkAlone(u, c);
    var v := PutKids(u, if NetworkUp(c) then Running(ExtractDisk) else Returning(Some(NetworkFailed)), NetKids(c), NetLog(c));
    labels := Chain(w, done, u, more, v);
    if NetworkUp(c) {
      labels := MachineAlone(w, labels, v, c);
    } else {
      assert v.state == StartState(w.state, true, c);
      assert NetLog(c) + [] == NetLog(c);
    }
  }

  lemma MachineAlone(w: World, done: seq<Label>, v: World, c: Calls) returns (labels: seq<Label>)
    requires w.state.spawned && !w.state.main.Gone? && w.state.cells.innerCause.None? && !w.state.sshReady && !w.state.podmanReady
    requires NetworkUp(c) && v.state == w.state.(starter := Running(ExtractDisk), after := Armed, kids := NetKids(c))
    requires v.log == w.log + NetLog(c)
    requires OnlyStarter(done) && Run(w, done) == Some(v)
    ensures OnlyStarter(labels)
    ensures Run(w, labels) == Some(World(StartState(w.state, true, c), w.log + StartLog(true, c)))
  {
    var more := ExtractSource(v, c.diskExtracted);
    var x := Put(v, if c.diskExtracted then Running(VmmPrepare) else Returning(Some(SourceDiskFailed)), []);
    labels := Chain(w, done, v, more, x);
    assert x.log == v.log;
    if c.diskExtracted {
      more := VmmAlone(x, c);
      var y := World(VmmState(x.state, c), x.log + VmmLog(c));
      labels := Chain(w, labels, x, more, y);
      assert y.state == StartState(w.state, true, c);
      assert (w.log + NetLog(c)) + VmmLog(c) == w.log + (NetLog(c) + VmmLog(c));
    } else {
      assert x.state == StartState(w.state, true, c);
      assert NetLog(c) + [] == NetLog(c);
    }
  }

  /** Once the inner context is done each of the three waits ends at its next turn, whatever the probes say. */
  lemma CancelledWaitsEnd(s: State, n: nat, ok: bool)
    requires s.spawned && !s.main.Gone? && s.cells.innerCause.Some?
    ensures s.starter == Running(SocketSelect(n)) ==> Next(s, StarterStep(ok)) == Quiet(s.(starter := Running(NetRegister(false))))
    ensures s.starter == Running(SshCheck(n)) ==> Next(s, StarterStep(ok)) == Quiet(s.(starter := Running(SetReady)))
    ensures s.starter == Running(PodmanSelect(n)) ==> Next(s, StarterStep(ok)) == Quiet(s.(starter := Running(SetPodmanReady)))
  {
  }
}
