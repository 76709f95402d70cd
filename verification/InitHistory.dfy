/**
 Any sequence of runs of `init` for one machine, between which the rest of the world
 may do what it likes to every other file, lose or spoil the configuration, and take
 the old-layout disk away.
 */
module InitHistory {
  import opened Basics
  import opened Volumes
  import opened InitSpec
  import opened InitCommand
  import opened InitEffects
  import opened InitTheorems

  datatype Step = Init(user: Opts, out: Outcome) | Outside(fs: Fs)

  /** The files after a history, and the record of every run in it. */
  datatype World = World(fs: Fs, log: seq<Attempt>)

  /** Whose history it is. */
  datatype Host = Host(vm: string, arch: Arch, digest: Digest)

  /** What others may do: the two disks are not theirs, and they do not write configurations. */
  predicate LeavesDisks(a: Fs, b: Fs, h: Host) {
    && Lookup(b, BootPath(h.vm)) == Lookup(a, BootPath(h.vm))
    && Lookup(b, DataPath(h.vm)) == Lookup(a, DataPath(h.vm))
    && a.nextDisk <= b.nextDisk
    && (Lookup(b, OldDisk(h.arch)).Some? ==> Lookup(b, OldDisk(h.arch)) == Lookup(a, OldDisk(h.arch)))
    && (Persisted(b, ConfigPath(h.vm)).Some? ==> Persisted(b, ConfigPath(h.vm)) == Persisted(a, ConfigPath(h.vm)))
  }

  ghost function Next(w: World, step: Step, h: Host): Option<World> {
    match step
    case Init(user, out) =>
      if user.name != h.vm then None
      else
        var did := InitMachine(w.fs, user, h.arch, out, h.digest);
        Some(World(did.fs, w.log + [did.attempt]))
    case Outside(fs) => if LeavesDisks(w.fs, fs, h) then Some(World(fs, w.log)) else None
  }

  ghost function Run(w: World, steps: seq<Step>, h: Host): Option<World>
    decreases |steps|
  {
    if steps == [] then Some(w)
    else
      var mid := Next(w, steps[0], h);
      if mid.None? then None else Run(mid.value, steps[1..], h)
  }

  /** Before the first run: no configuration and no boot image; there may be data disks of either layout. */
  predicate Untried(fs: Fs, h: Host) {
    Persisted(fs, ConfigPath(h.vm)).None? && Lookup(fs, BootPath(h.vm)).None?
  }

  // ---- the boot image ----

  /** The last run that wrote to the boot image. */
  function LastTouching(log: seq<Attempt>): Option<Attempt> {
    if log == [] then None
    else if log[|log| - 1].touched.Some? then Some(log[|log| - 1])
    else LastTouching(log[..|log| - 1])
  }

  lemma LastTouchingOfConcat(log: seq<Attempt>, a: Attempt)
    ensures LastTouching(log + [a]) == if a.touched.Some? then Some(a) else LastTouching(log)
  {
    assert (log + [a])[..|log|] == log;
  }

  /** How the image, the persisted version and the last run that wrote the image hang together. */
  predicate ImageInv(image: Option<File>, persisted: Option<Config>, last: Option<Attempt>) {
    && (last.Some? ==> last.value.touched.Some? && last.value.touched.value.Image?)
    && image == (if last.Some? then last.value.touched else None)
    && (persisted.Some? ==> last.Some?)
    && (persisted.Some? && last.Some? && last.value.wrote.Some? ==> image == Some(Image(persisted.value.bootVersion, true)))
    && (persisted.Some? && last.Some? && last.value.wrote.None? && last.value.updating ==>
          image.value.version != persisted.value.bootVersion)
  }

  predicate Inv(w: World, h: Host) {
    && Genuine(w.fs, h.vm)
    && ImageInv(Lookup(w.fs, BootPath(h.vm)), Persisted(w.fs, ConfigPath(h.vm)), LastTouching(w.log))
  }

  lemma InitKeeps(w: World, user: Opts, out: Outcome, h: Host)
    requires Free(h.vm) && Inv(w, h) && user.name == h.vm
    ensures Inv(Next(w, Init(user, out), h).value, h)
  {
    var did := InitMachine(w.fs, user, h.arch, out, h.digest);
    RunFollows(w.fs, user, h.arch, out, h.digest, did);
    RunWrites(w.fs, user, h.arch, out, h.digest, did);
    LastTouchingOfConcat(w.log, did.attempt);
    PersistedSurvivesMigration(w.fs, h.vm, h.arch, out);
    var loaded := LoadedBy(w.fs, h.vm, h.arch, out);
    ImageStep(Lookup(w.fs, BootPath(h.vm)), Persisted(w.fs, ConfigPath(h.vm)), LastTouching(w.log), loaded, user, did.attempt);
  }

  lemma ImageStep(image: Option<File>, persisted: Option<Config>, last: Option<Attempt>, loaded: Option<Config>, user: Opts, a: Attempt)
    requires ImageInv(image, persisted, last) && VersionRules(loaded, user, a, a.wrote.Some?)
    requires loaded.Some? ==> loaded == persisted
    requires a.wrote.Some? ==> a.wrote.value.bootVersion == user.bootVersion
    ensures ImageInv(if a.touched.Some? then a.touched else image, if a.wrote.Some? then a.wrote else persisted,
                     if a.touched.Some? then Some(a) else last)
  {
  }

  lemma {:induction false} RunKeeps(w: World, steps: seq<Step>, h: Host)
    requires Free(h.vm) && Inv(w, h) && Run(w, steps, h).Some?
    ensures Inv(Run(w, steps, h).value, h)
    decreases |steps|
  {
    if steps != [] {
      if steps[0].Init? { InitKeeps(w, steps[0].user, steps[0].out, h); }
      RunKeeps(Next(w, steps[0], h).value, steps[1..], h);
    }
  }

  /**
   Where the boot image comes from, after any history: it is what the last run that wrote
   to it left.  If that run succeeded, the image is the whole image of the persisted
   version; if it failed although it had a configuration to update, the image is of
   another version than the persisted one, and stays so until a run writes it again.
   */
  lemma BootImageProvenance(fs: Fs, steps: seq<Step>, h: Host, w: World)
    requires Free(h.vm) && Untried(fs, h) && Run(World(fs, []), steps, h) == Some(w)
    ensures var last, image := LastTouching(w.log), Lookup(w.fs, BootPath(h.vm));
            var persisted := Persisted(w.fs, ConfigPath(h.vm));
            && image == (if last.Some? then last.value.touched else None)
            && (persisted.Some? ==> last.Some?)
            && (persisted.Some? && last.value.wrote.Some? ==> image == Some(Image(persisted.value.bootVersion, true)))
            && (persisted.Some? && last.value.wrote.None? && last.value.updating ==> image != Some(Image(persisted.value.bootVersion, true)))
  {
    RunKeeps(World(fs, []), steps, h);
  }

  /** The last run that wrote to the image left the whole image of this version. */
  predicate LastWrote(log: seq<Attempt>, version: string) {
    LastTouching(log).Some? && LastTouching(log).value.touched == Some(Image(version, true))
  }

  /**
   After any history, a successful run leaves the requested image if and only if it rebuilt
   the machine, or asked for another version than the persisted one, or the last run that
   wrote to the image had left just that image.  The last is sure if that run succeeded.
   */
  lemma RequestedImageAfterHistory(fs: Fs, steps: seq<Step>, h: Host, w: World, user: Opts, out: Outcome, did: Did)
    requires Free(h.vm) && Untried(fs, h) && Run(World(fs, []), steps, h) == Some(w)
    requires user.name == h.vm && did == InitMachine(w.fs, user, h.arch, out, h.digest) && did.ok
    ensures var loaded := LoadedBy(w.fs, h.vm, h.arch, out);
            Lookup(did.fs, BootPath(h.vm)) == Some(Image(user.bootVersion, true)) <==>
              loaded.None? || loaded.value.bootVersion != user.bootVersion || LastWrote(w.log, user.bootVersion)
    ensures (LastTouching(w.log).Some? && LastTouching(w.log).value.wrote.Some?)
            || Persisted(w.fs, ConfigPath(h.vm)).None? || Persisted(w.fs, ConfigPath(h.vm)).value.bootVersion != user.bootVersion ==>
              Lookup(did.fs, BootPath(h.vm)) == Some(Image(user.bootVersion, true))
  {
    BootImageProvenance(fs, steps, h, w);
    RunKeeps(World(fs, []), steps, h);
    PersistedSurvivesMigration(w.fs, h.vm, h.arch, out);
    ImageAfterSuccess(w.fs, user, h.arch, out, h.digest, did);
  }

  // ---- the data disk ----

  /** Neither was the disk dropped to be made anew nor was an old one moved over it. */
  predicate Harmless(a: Attempt) {
    a.moved.None? && !a.dropped
  }

  predicate AllHarmless(log: seq<Attempt>) {
    forall a :: a in log ==> Harmless(a)
  }

  lemma AllHarmlessOfConcat(log: seq<Attempt>, a: Attempt)
    ensures AllHarmless(log + [a]) <==> AllHarmless(log) && Harmless(a)
  {
    assert forall b :: b in log + [a] <==> b in log || b == a;
  }

  /** While nothing harmed it the disk is in its place; afterwards it is nowhere to be found. */
  predicate DiskInv(w: World, h: Host, disk: File) {
    && disk.Disk? && disk.id < w.fs.nextDisk
    && Lookup(w.fs, OldDisk(h.arch)) != Some(disk)
    && (Lookup(w.fs, DataPath(h.vm)) == Some(disk) <==> AllHarmless(w.log))
  }

  lemma DiskStep(w: World, step: Step, h: Host, disk: File)
    requires Free(h.vm) && Genuine(w.fs, h.vm) && DiskInv(w, h, disk) && Next(w, step, h).Some?
    ensures DiskInv(Next(w, step, h).value, h, disk) && Genuine(Next(w, step, h).value.fs, h.vm)
  {
    if step.Init? {
      var did := InitMachine(w.fs, step.user, h.arch, step.out, h.digest);
      RunFollows(w.fs, step.user, h.arch, step.out, h.digest, did);
      RunWrites(w.fs, step.user, h.arch, step.out, h.digest, did);
      AllHarmlessOfConcat(w.log, did.attempt);
    }
  }

  lemma {:induction false} DiskRun(w: World, steps: seq<Step>, h: Host, disk: File)
    requires Free(h.vm) && Genuine(w.fs, h.vm) && DiskInv(w, h, disk) && Run(w, steps, h).Some?
    ensures DiskInv(Run(w, steps, h).value, h, disk)
    decreases |steps|
  {
    if steps != [] {
      DiskStep(w, steps[0], h, disk);
      DiskRun(Next(w, steps[0], h).value, steps[1..], h, disk);
    }
  }

  // what a history asks for

  /** This step moves an old disk over the machine's, or drops it because another data version is asked for. */
  predicate Takes(fs: Fs, step: Step, h: Host) {
    step.Init? && (Moves(fs, h.vm, h.arch, step.out) || Drops(fs, step.user, h.arch, step.out))
  }

  /** Some step of the history takes the disk, given the files it finds. */
  ghost predicate TakenIn(w: World, steps: seq<Step>, h: Host)
    decreases |steps|
  {
    steps != [] &&
    (Takes(w.fs, steps[0], h) || (Next(w, steps[0], h).Some? && TakenIn(Next(w, steps[0], h).value, steps[1..], h)))
  }

  lemma StepIsHarmless(w: World, step: Step, h: Host, v: World)
    requires Free(h.vm) && Genuine(w.fs, h.vm) && Next(w, step, h) == Some(v)
    ensures AllHarmless(v.log) <==> AllHarmless(w.log) && !Takes(w.fs, step, h)
    ensures Genuine(v.fs, h.vm)
  {
    if step.Init? {
      var did := InitMachine(w.fs, step.user, h.arch, step.out, h.digest);
      RunFollows(w.fs, step.user, h.arch, step.out, h.digest, did);
      RunWrites(w.fs, step.user, h.arch, step.out, h.digest, did);
      DroppedExactly(w.fs, step.user, h.arch, step.out, h.digest, did);
      MovedIsSome(w.fs, h, step.out, did.attempt);
      AllHarmlessOfConcat(w.log, did.attempt);
    }
  }

  lemma MovedIsSome(fs: Fs, h: Host, out: Outcome, a: Attempt)
    requires a.moved.Some? <==> Moves(fs, h.vm, h.arch, out)
    ensures a.moved.None? <==> !Moves(fs, h.vm, h.arch, out)
  {
  }

  lemma {:induction false} RunIsHarmless(w: World, steps: seq<Step>, h: Host, v: World)
    requires Free(h.vm) && Genuine(w.fs, h.vm) && Run(w, steps, h) == Some(v)
    ensures AllHarmless(v.log) <==> AllHarmless(w.log) && !TakenIn(w, steps, h)
    decreases |steps|
  {
    if steps != [] {
      StepIsHarmless(w, steps[0], h, Next(w, steps[0], h).value);
      RunIsHarmless(Next(w, steps[0], h).value, steps[1..], h, v);
    }
  }

  /**
   Over any history, through failures and through lost or spoilt configurations, the
   user's data disk is still the same disk if and only if no run, given what it was asked
   and what it found, dropped it for another data version or moved an old-layout disk over
   it; the runs' own records say the same.
   */
  lemma UserDataSurvives(fs: Fs, disk: File, steps: seq<Step>, h: Host, w: World)
    requires Free(h.vm) && Genuine(fs, h.vm) && Run(World(fs, []), steps, h) == Some(w)
    requires Lookup(fs, DataPath(h.vm)) == Some(disk) && disk.Disk? && disk.id < fs.nextDisk
    requires Lookup(fs, OldDisk(h.arch)) != Some(disk)
    ensures Lookup(w.fs, DataPath(h.vm)) == Some(disk) <==> !TakenIn(World(fs, []), steps, h)
    ensures Lookup(w.fs, DataPath(h.vm)) == Some(disk) <==> AllHarmless(w.log)
  {
    DiskRun(World(fs, []), steps, h, disk);
    RunIsHarmless(World(fs, []), steps, h, w);
  }

  /** A run asks for the data version that is persisted, if one is. */
  predicate AsksToKeep(fs: Fs, step: Step, h: Host) {
    step.Init? && Persisted(fs, ConfigPath(h.vm)).Some? ==>
      Persisted(fs, ConfigPath(h.vm)).value.dataVersion == step.user.dataVersion
  }

  ghost predicate AllAskToKeep(w: World, steps: seq<Step>, h: Host)
    decreases |steps|
  {
    steps != [] ==>
      AsksToKeep(w.fs, steps[0], h) && (Next(w, steps[0], h).Some? ==> AllAskToKeep(Next(w, steps[0], h).value, steps[1..], h))
  }

  lemma KeepingStep(w: World, step: Step, h: Host, v: World)
    requires Free(h.vm) && Genuine(w.fs, h.vm) && Next(w, step, h) == Some(v)
    requires AsksToKeep(w.fs, step, h) && Lookup(w.fs, OldDisk(h.arch)).None?
    ensures !Takes(w.fs, step, h) && Lookup(v.fs, OldDisk(h.arch)).None? && Genuine(v.fs, h.vm)
  {
    if step.Init? {
      var did := InitMachine(w.fs, step.user, h.arch, step.out, h.digest);
      RunFollows(w.fs, step.user, h.arch, step.out, h.digest, did);
      RunWrites(w.fs, step.user, h.arch, step.out, h.digest, did);
      PersistedSurvivesMigration(w.fs, h.vm, h.arch, step.out);
    }
  }

  lemma {:induction false} KeepingTakesNothing(w: World, steps: seq<Step>, h: Host)
    requires Free(h.vm) && Genuine(w.fs, h.vm) && Run(w, steps, h).Some?
    requires AllAskToKeep(w, steps, h) && Lookup(w.fs, OldDisk(h.arch)).None?
    ensures !TakenIn(w, steps, h)
    decreases |steps|
  {
    if steps != [] {
      KeepingStep(w, steps[0], h, Next(w, steps[0], h).value);
      KeepingTakesNothing(Next(w, steps[0], h).value, steps[1..], h);
    }
  }

  /** If every run asks for the data version persisted at that point, or none is, and there is no old-layout disk, the disk survives. */
  lemma SameVersionKeepsDisk(fs: Fs, disk: File, steps: seq<Step>, h: Host, w: World)
    requires Free(h.vm) && Genuine(fs, h.vm) && Run(World(fs, []), steps, h) == Some(w)
    requires Lookup(fs, DataPath(h.vm)) == Some(disk) && disk.Disk? && disk.id < fs.nextDisk
    requires Lookup(fs, OldDisk(h.arch)).None? && AllAskToKeep(World(fs, []), steps, h)
    ensures Lookup(w.fs, DataPath(h.vm)) == Some(disk)
  {
    KeepingTakesNothing(World(fs, []), steps, h);
    UserDataSurvives(fs, disk, steps, h, w);
  }

  lemma {:induction false} FindTaken(w: World, steps: seq<Step>, h: Host) returns (k: nat, u: World)
    requires Run(w, steps, h).Some? && TakenIn(w, steps, h)
    ensures k < |steps| && Run(w, steps[..k], h) == Some(u) && Takes(u.fs, steps[k], h) && steps[k].user.name == h.vm
    decreases |steps|
  {
    if Takes(w.fs, steps[0], h) {
      k, u := 0, w;
    } else {
      k, u := FindTaken(Next(w, steps[0], h).value, steps[1..], h);
      assert steps[..k + 1][1..] == steps[1..][..k];
      k := k + 1;
    }
  }

  lemma {:induction false} GenuineRun(w: World, steps: seq<Step>, h: Host)
    requires Free(h.vm) && Genuine(w.fs, h.vm) && Run(w, steps, h).Some?
    ensures Genuine(Run(w, steps, h).value.fs, h.vm)
    decreases |steps|
  {
    if steps != [] {
      StepIsHarmless(w, steps[0], h, Next(w, steps[0], h).value);
      GenuineRun(Next(w, steps[0], h).value, steps[1..], h);
    }
  }

  /** If the disk is lost, some run found a configuration that could be loaded and was asked for another data version, or moved the old disk in. */
  lemma LossHasAReason(fs: Fs, disk: File, steps: seq<Step>, h: Host, w: World) returns (k: nat, u: World)
    requires Free(h.vm) && Genuine(fs, h.vm) && Run(World(fs, []), steps, h) == Some(w)
    requires Lookup(fs, DataPath(h.vm)) == Some(disk) && disk.Disk? && disk.id < fs.nextDisk
    requires Lookup(fs, OldDisk(h.arch)) != Some(disk) && Lookup(w.fs, DataPath(h.vm)) != Some(disk)
    ensures k < |steps| && Run(World(fs, []), steps[..k], h) == Some(u) && steps[k].Init?
    ensures var c := Persisted(u.fs, ConfigPath(h.vm));
            || Moves(u.fs, h.vm, h.arch, steps[k].out)
            || (c.Some? && LoadedBy(u.fs, h.vm, h.arch, steps[k].out) == c && c.value.dataVersion != steps[k].user.dataVersion)
  {
    UserDataSurvives(fs, disk, steps, h, w);
    k, u := FindTaken(World(fs, []), steps, h);
    GenuineRun(World(fs, []), steps[..k], h);
    PersistedSurvivesMigration(u.fs, h.vm, h.arch, steps[k].out);
  }

  /** Runs that ask for the persisted data version never drop the disk. */
  lemma DroppedOnlyWhenAsked(w: World, user: Opts, out: Outcome, h: Host, v: World)
    requires Free(h.vm) && Genuine(w.fs, h.vm) && Next(w, Init(user, out), h) == Some(v)
    ensures v.log[|w.log|].dropped ==>
              var c := LoadedBy(w.fs, h.vm, h.arch, out);
              c.Some? && c == Persisted(w.fs, ConfigPath(h.vm)) && c.value.dataVersion != user.dataVersion
  {
    var did := InitMachine(w.fs, user, h.arch, out, h.digest);
    RunWrites(w.fs, user, h.arch, out, h.digest, did);
    PersistedSurvivesMigration(w.fs, h.vm, h.arch, out);
    assert v.log[|w.log|] == did.attempt;
  }

  /** The old-layout disk is in its place until it is moved or taken away. */
  predicate OldInv(w: World, h: Host, disk: Option<File>) {
    && (Lookup(w.fs, OldDisk(h.arch)).Some? ==> Lookup(w.fs, OldDisk(h.arch)) == disk)
    && (forall i :: 0 <= i < |w.log| && w.log[i].moved.Some? ==> w.log[i].moved == disk && Lookup(w.fs, OldDisk(h.arch)).None?)
    && (forall i, j :: 0 <= i < j < |w.log| && w.log[i].moved.Some? ==> w.log[j].moved.None?)
  }

  lemma OldStep(w: World, step: Step, h: Host, disk: Option<File>)
    requires Free(h.vm) && Genuine(w.fs, h.vm) && OldInv(w, h, disk) && Next(w, step, h).Some?
    ensures OldInv(Next(w, step, h).value, h, disk) && Genuine(Next(w, step, h).value.fs, h.vm)
  {
    if step.Init? {
      var did := InitMachine(w.fs, step.user, h.arch, step.out, h.digest);
      RunFollows(w.fs, step.user, h.arch, step.out, h.digest, did);
      RunWrites(w.fs, step.user, h.arch, step.out, h.digest, did);
    }
  }

  lemma {:induction false} OldRun(w: World, steps: seq<Step>, h: Host, disk: Option<File>)
    requires Free(h.vm) && Genuine(w.fs, h.vm) && OldInv(w, h, disk) && Run(w, steps, h).Some?
    ensures OldInv(Run(w, steps, h).value, h, disk)
    decreases |steps|
  {
    if steps != [] {
      OldStep(w, steps[0], h, disk);
      OldRun(Next(w, steps[0], h).value, steps[1..], h, disk);
    }
  }

  /** Over any history the old-layout disk is moved in at most once, and what is moved is that disk. */
  lemma OldDiskMovesOnce(fs: Fs, steps: seq<Step>, h: Host, w: World)
    requires Free(h.vm) && Genuine(fs, h.vm) && Run(World(fs, []), steps, h) == Some(w)
    ensures forall i :: 0 <= i < |w.log| && w.log[i].moved.Some? ==> w.log[i].moved == Lookup(fs, OldDisk(h.arch))
    ensures forall i, j :: 0 <= i < |w.log| && 0 <= j < |w.log| && w.log[i].moved.Some? && w.log[j].moved.Some? ==> i == j
  {
    OldRun(World(fs, []), steps, h, Lookup(fs, OldDisk(h.arch)));
  }

  // ---- the command itself, again and again ----

  function AsSteps(runs: seq<(Opts, Outcome)>): seq<Step> {
    seq(|runs|, i requires 0 <= i < |runs| => Init(runs[i].0, runs[i].1))
  }

  lemma {:induction false} RunOfConcat(w: World, steps: seq<Step>, step: Step, h: Host)
    requires Run(w, steps, h).Some? && Next(Run(w, steps, h).value, step, h).Some?
    ensures Run(w, steps + [step], h) == Next(Run(w, steps, h).value, step, h)
    decreases |steps|
  {
    if steps == [] {
      assert (steps + [step])[1..] == [];
    } else {
      assert (steps + [step])[1..] == steps[1..] + [step];
      RunOfConcat(Next(w, steps[0], h).value, steps[1..], step, h);
    }
  }

  /** The histories above are those of the command on a workspace updated in place. */
  method Repeat(workspace: Workspace, runs: seq<(Opts, Outcome)>, h: Host)
    requires forall i :: 0 <= i < |runs| ==> runs[i].0.name == h.vm
    modifies workspace
    ensures var w := Run(World(old(workspace.Now()), []), AsSteps(runs), h); w.Some? && w.value.fs == workspace.Now()
  {
    ghost var start := World(workspace.Now(), []);
    for i := 0 to |runs|
      invariant Run(start, AsSteps(runs[..i]), h).Some? && Run(start, AsSteps(runs[..i]), h).value.fs == workspace.Now()
    {
      assert AsSteps(runs[..i + 1]) == AsSteps(runs[..i]) + [Init(runs[i].0, runs[i].1)];
      RunOfConcat(start, AsSteps(runs[..i]), Init(runs[i].0, runs[i].1), h);
      var _ := workspace.InitMachine(runs[i].0, h.arch, runs[i].1, h.digest);
    }
    assert runs[..|runs|] == runs;
  }
}
