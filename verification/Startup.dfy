/**
 One uninterleaved start of the machine, in place: the shared command list, the
 provider's state flags, and the three bounded waiting loops.  When a context is done
 and what a probe says, try by try, are functions of the try.
 */
module Startup {
  import opened Basics
  import opened RunProtocol

  type Tries = nat -> bool

  /** Some try within the limit succeeds before the context is found done. */
  ghost predicate InTime(limit: nat, done: Tries, probe: Tries) {
    exists k :: 0 <= k < limit && probe(k) && forall j :: 0 <= j <= k ==> !done(j)
  }

  method WaitForSocket(done: Tries, there: Tries) returns (ok: bool)
    ensures ok <==> InTime(100, done, there)
  {
    for i := 0 to SOCKET_TRIES
      invariant forall j :: 0 <= j < i ==> !done(j) && !there(j)
    {
      if done(i) {
        return false;
      }
      if there(i) {
        return true;
      }
    }
    ok := false;
  }

  method WaitSSHStarted(done: Tries, answers: Tries) returns (ok: bool)
    ensures ok <==> InTime(100, done, answers)
  {
    for i := 0 to SSH_TRIES
      invariant forall j :: 0 <= j < i ==> !done(j) && !answers(j)
    {
      if done(i) {
        return false;
      }
      if answers(i) {
        return true;
      }
    }
    ok := false;
  }

  /** The loop itself has no limit: the timer, which fires at try `timeout`, ends it. */
  method WaitPodmanReady(done: Tries, timeout: nat, answers: Tries) returns (ok: bool)
    ensures ok <==> InTime(timeout, done, answers)
  {
    var i := 0;
    while true
      invariant i <= timeout
      invariant forall j :: 0 <= j < i ==> !done(j) && !answers(j)
      decreases timeout - i
    {
      if done(i) || i == timeout {
        return false;
      }
      if answers(i) {
        return true;
      }
      i := i + 1;
    }
  }

  class Registry {
    var cmds: seq<Child>

    constructor ()
      ensures cmds == []
    {
      cmds := [];
    }

    method RegistryCmd(c: Child)
      modifies this
      ensures cmds == old(cmds) + [c]
    {
      cmds := cmds + [c];
    }

    function GetCmds(): seq<Child>
      reads this
    {
      cmds
    }
  }

  /** How the calls of one start turn out. */
  datatype Calls = Calls(
    netPrepared: bool, netSpawned: bool, socketDone: Tries, socketThere: Tries,
    diskExtracted: bool,
    vmmPrepared: bool, vmmSpawned: bool, pidWritten: bool,
    sshDone: Tries, sshAnswers: Tries, podmanDone: Tries, podmanTimeout: nat, podmanAnswers: Tries)

  /** The network is up: gvproxy runs and its socket has appeared. */
  ghost predicate NetworkUp(c: Calls) {
    c.netPrepared && c.netSpawned && InTime(100, c.socketDone, c.socketThere)
  }

  predicate VmmUp(c: Calls) {
    c.vmmPrepared && c.vmmSpawned && c.pidWritten
  }

  class Stubber {
    var sshReady: bool
    var podmanReady: bool
    var reported: seq<Event>
    var started: set<Child>

    constructor ()
      ensures !sshReady && !podmanReady && reported == [] && started == {}
    {
      sshReady, podmanReady, reported, started := false, false, [], {};
    }

    /** gvproxy is registered however the wait for its socket ends, but only if it was spawned. */
    method StartNetworkProvider(c: Calls, registry: Registry) returns (ok: bool)
      modifies this`reported, this`started, registry
      ensures ok <==> NetworkUp(c)
      ensures registry.cmds == old(registry.cmds) + if c.netPrepared && c.netSpawned then [Gvproxy] else []
      ensures started == old(started) + if c.netPrepared && c.netSpawned then {Gvproxy} else {}
      ensures reported == old(reported) + if c.netPrepared then [StartGvProxy] else []
    {
      if !c.netPrepared {
        return false;
      }
      reported := reported + [StartGvProxy];
      if !c.netSpawned {
        return false;
      }
      started := started + {Gvproxy};
      ok := WaitForSocket(c.socketDone, c.socketThere);
      registry.RegistryCmd(Gvproxy);
    }

    /** The VMM is registered only once its pid file is written; a VMM without one runs unregistered. */
    method StartKrunKit(c: Calls, registry: Registry) returns (ok: bool)
      modifies this`reported, this`started, registry
      ensures ok <==> VmmUp(c)
      ensures registry.cmds == old(registry.cmds) + if ok then [Vmm] else []
      ensures started == old(started) + if c.vmmPrepared && c.vmmSpawned then {Vmm} else {}
      ensures reported == old(reported) + if c.vmmPrepared then [StartVmm] else []
    {
      if !c.vmmPrepared {
        return false;
      }
      reported := reported + [StartVmm];
      if !c.vmmSpawned {
        return false;
      }
      started := started + {Vmm};
      if !c.pidWritten {
        return false;
      }
      registry.RegistryCmd(Vmm);
      ok := true;
    }

    /** Both flags are set and Ready is reported even if neither ssh nor Podman ever answered. */
    method StartVMProvider(c: Calls, registry: Registry) returns (ok: bool)
      modifies this, registry
      ensures ok <==> VmmUp(c)
      ensures registry.cmds == old(registry.cmds) + if ok then [Vmm] else []
      ensures started == old(started) + if c.vmmPrepared && c.vmmSpawned then {Vmm} else {}
      ensures reported == old(reported) + (if c.vmmPrepared then [StartVmm] else []) + if ok then [Ready] else []
      ensures sshReady == (old(sshReady) || ok) && podmanReady == (old(podmanReady) || ok)
    {
      ok := StartKrunKit(c, registry);
      if !ok {
        return;
      }
      var _ := WaitSSHStarted(c.sshDone, c.sshAnswers);
      sshReady := true;
      var _ := WaitPodmanReady(c.podmanDone, c.podmanTimeout, c.podmanAnswers);
      podmanReady := true;
      reported := reported + [Ready];
    }

    /** A start that fails leaves SSH not ready; one that succeeds leaves exactly gvproxy and the VMM on the list. */
    method Start(c: Calls, registry: Registry) returns (ok: bool)
      requires !sshReady && registry.cmds == [] && started == {} && reported == []
      modifies this, registry
      ensures ok <==> NetworkUp(c) && c.diskExtracted && VmmUp(c)
      ensures sshReady == ok && (ok ==> podmanReady)
      ensures registry.GetCmds() <= [Gvproxy, Vmm] && (ok ==> registry.GetCmds() == [Gvproxy, Vmm])
      ensures forall child :: child in registry.GetCmds() ==> child in started
      ensures reported <= [StartGvProxy, StartVmm, Ready] && (ok <==> Ready in reported)
    {
      ok := StartNetworkProvider(c, registry);
      if !ok || !c.diskExtracted {
        return false;
      }
      ok := StartVMProvider(c, registry);
    }
  }

  // ---- the same loops as steps of the transition system ----

  predicate StarterMoves(s: State, pc: StarterPc) {
    s.spawned && !s.main.Gone? && s.cells.innerCause.None? && s.starter == Running(pc)
  }

  lemma TwoSteps(w: World, a: Label, b: Label, rest: seq<Label>)
    requires Move(w, a).Some? && Move(Move(w, a).value, b).Some?
    ensures Run(w, [a, b] + rest) == Run(Move(Move(w, a).value, b).value, rest)
  {
    assert ([a, b] + rest)[1..] == [b] + rest && ([b] + rest)[1..] == rest;
  }

  lemma OneStep(w: World, a: Label)
    requires Move(w, a).Some?
    ensures Run(w, [a]) == Move(w, a)
  {
    assert [a][1..] == [];
  }

  /** Left alone with `n` tries, the starter ends its wait for the socket the way `WaitForSocket` does. */
  lemma {:induction false} SocketWaitAlone(w: World, n: nat, k: nat, there: Tries) returns (labels: seq<Label>, found: bool)
    requires StarterMoves(w.state, SocketSelect(n))
    ensures Run(w, labels) == Some(World(At(w.state, NetRegister(found)), w.log))
    ensures found <==> exists i :: k <= i < k + n && there(i)
    ensures forall l :: l in labels ==> l.StarterStep?
    decreases n
  {
    var go := StarterStep(true);
    if n == 0 {
      labels, found := [go], false;
      OneStep(w, go);
    } else {
      var probing := Move(w, go).value;
      if there(k) {
        labels, found := [go, go] + [], true;
        TwoSteps(w, go, go, []);
      } else {
        var again := Move(probing, StarterStep(false)).value;
        assert again == World(At(w.state, SocketSelect(n - 1)), w.log);
        var rest;
        rest, found := SocketWaitAlone(again, n - 1, k + 1, there);
        labels := [go, StarterStep(false)] + rest;
        TwoSteps(w, go, StarterStep(false), rest);
      }
    }
  }

  /** However the probes of ssh turn out, the starter left alone ends that wait ready to set the flag. */
  lemma {:induction false} SshWaitAlone(w: World, n: nat, k: nat, answers: Tries) returns (labels: seq<Label>)
    requires StarterMoves(w.state, SshCheck(n))
    ensures Run(w, labels) == Some(World(At(w.state, SetReady), w.log)) && |labels| <= 2 * n + 1
    ensures |labels| == 2 * n + 1 <==> forall i :: k <= i < k + n ==> !answers(i)
    ensures forall l :: l in labels ==> l.StarterStep?
    decreases n
  {
    var go := StarterStep(true);
    if n == 0 {
      labels := [go];
      OneStep(w, go);
    } else {
      var calling := Move(w, go).value;
      if answers(k) {
        labels := [go, go] + [];
        TwoSteps(w, go, go, []);
      } else {
        var again := Move(calling, StarterStep(false)).value;
        assert again == World(At(w.state, SshCheck(n - 1)), w.log);
        var rest := SshWaitAlone(again, n - 1, k + 1, answers);
        labels := [go, StarterStep(false)] + rest;
        TwoSteps(w, go, StarterStep(false), rest);
      }
    }
  }

  /** However Podman answers, and at whatever try the timer fires, the starter left alone ends that wait, and not before one of the two. */
  lemma {:induction false} PodmanWaitAlone(w: World, n: nat, k: nat, timeout: nat, answers: Tries) returns (labels: seq<Label>)
    requires StarterMoves(w.state, PodmanSelect(n)) && timeout <= n
    ensures Run(w, labels) == Some(World(At(w.state, SetPodmanReady), w.log)) && |labels| <= 2 * timeout + 1
    ensures |labels| == 2 * timeout + 1 <==> forall i :: k <= i < k + timeout ==> !answers(i)
    ensures forall l :: l in labels ==> l.StarterStep?
    decreases timeout
  {
    var go, no := StarterStep(true), StarterStep(false);
    if timeout == 0 {
      labels := [no];
      OneStep(w, no);
    } else {
      var calling := Move(w, go).value;
      if answers(k) {
        labels := [go, go] + [];
        TwoSteps(w, go, go, []);
      } else {
        var again := Move(calling, no).value;
        assert again == World(At(w.state, PodmanSelect(n - 1)), w.log);
        var rest := PodmanWaitAlone(again, n - 1, k + 1, timeout - 1, answers);
        labels := [go, no] + rest;
        TwoSteps(w, go, no, rest);
      }
    }
  }
}
