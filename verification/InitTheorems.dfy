/** What repeated runs of `init` keep, over any sequence of succeeding and failing runs. */
module InitTheorems {
  import opened Basics
  import opened Volumes
  import opened InitSpec
  import opened InitEffects

  // ---- one run ----

  /** A configuration found at the machine's path is one that init wrote there. */
  predicate Genuine(fs: Fs, vm: string) {
    Persisted(fs, ConfigPath(vm)).Some? ==> Persisted(fs, ConfigPath(vm)).value.layout == LayoutOf(vm)
  }

  function LoadedBy(fs: Fs, vm: string, arch: Arch, out: Outcome): Option<Config> {
    LoadMachineFromPath(MigrateData(fs, vm, arch, out), ConfigPath(vm))
  }

  function Full(user: Opts): Opts {
    user.(volumes := user.volumes + [IGN_MNT])
  }

  /** The rebuild or the update inside one run. */
  function MadeBy(fs: Fs, user: Opts, arch: Arch, out: Outcome): Did {
    var m := MigrateData(fs, user.name, arch, out);
    var loaded := LoadedBy(fs, user.name, arch, out);
    if loaded.None? then InitializeVM(m, Full(user), out) else Update(m, loaded.value, Full(user), out)
  }

  lemma PersistedSurvivesMigration(fs: Fs, vm: string, arch: Arch, out: Outcome)
    requires Free(vm)
    ensures Lookup(MigrateData(fs, vm, arch, out), ConfigPath(vm)) == Lookup(fs, ConfigPath(vm))
    ensures Persisted(MigrateData(fs, vm, arch, out), ConfigPath(vm)) == Persisted(fs, ConfigPath(vm))
    ensures LoadedBy(fs, vm, arch, out).Some? ==> LoadedBy(fs, vm, arch, out) == Persisted(fs, ConfigPath(vm))
  {
    NamesDiffer(vm, arch);
    MigrateFrame(fs, vm, arch, out, ConfigPath(vm));
  }

  /** What the versions say about an attempt. */
  predicate VersionRules(loaded: Option<Config>, user: Opts, a: Attempt, ok: bool) {
    && (a.updating <==> loaded.Some?)
    && (a.touched.Some? ==> a.touched.value.Image? && a.touched.value.version == user.bootVersion)
    && (a.touched.Some? && loaded.Some? ==> loaded.value.bootVersion != user.bootVersion)
    && (ok ==> a.touched == if loaded.Some? && loaded.value.bootVersion == user.bootVersion then None else Some(Image(user.bootVersion, true)))
    && (a.dropped ==> loaded.Some? && loaded.value.dataVersion != user.dataVersion)
    && (ok && loaded.Some? && loaded.value.dataVersion != user.dataVersion ==> a.dropped && a.created.Some?)
  }

  lemma MadeRules(fs: Fs, user: Opts, arch: Arch, out: Outcome, made: Did)
    requires Free(user.name) && Genuine(fs, user.name) && made == MadeBy(fs, user, arch, out)
    ensures var m := MigrateData(fs, user.name, arch, out);
            OnlyMachineFiles(m, made.fs, LayoutOf(user.name)) && DisksFollow(m, made.fs, LayoutOf(user.name), made.attempt)
    ensures VersionRules(LoadedBy(fs, user.name, arch, out), user, made.attempt, made.ok)
    ensures made.attempt.moved.None? && made.attempt.wrote.None?
    ensures made.ok && made.attempt.created.Some? ==> made.attempt.created.value.Disk? && made.attempt.created.value.sized
  {
    var m := MigrateData(fs, user.name, arch, out);
    var loaded := LoadedBy(fs, user.name, arch, out);
    PersistedSurvivesMigration(fs, user.name, arch, out);
    if loaded.None? {
      RebuildEffects(m, Full(user), out, made);
    } else {
      UpdateEffects(m, loaded.value, Full(user), out, made);
    }
  }

  ghost function ConfigMeant(loaded: Option<Config>, user: Opts, out: Outcome, digest: Digest): Config {
    if loaded.Some? then Refreshed(loaded.value, Full(user), digest)
    else NewMachineConfig(Full(user), if SettledPort(out).Some? then SettledPort(out).value else 0, digest)
  }

  lemma RunUnfolds(fs: Fs, user: Opts, arch: Arch, out: Outcome, digest: Digest, did: Did)
    requires Free(user.name) && Genuine(fs, user.name) && did == InitMachine(fs, user, arch, out, digest)
    ensures var made := MadeBy(fs, user, arch, out);
            var c := ConfigMeant(LoadedBy(fs, user.name, arch, out), user, out, digest);
            && c.layout == LayoutOf(user.name)
            && (did.ok <==> made.ok && out.write)
            && did.fs == (if did.ok then Put(made.fs, ConfigPath(user.name), ConfigText(Some(c))) else made.fs)
            && did.attempt == made.attempt.(moved := if Moves(fs, user.name, arch, out) then Lookup(fs, OldDisk(arch)) else made.attempt.moved,
                                            wrote := if did.ok then Some(c) else made.attempt.wrote)
  {
    PersistedSurvivesMigration(fs, user.name, arch, out);
    CleanMoves(fs, user.name, arch, out);
  }

  /** Everything one run can do to the entries that matter, read off its record. */
  predicate Follows(fs: Fs, vm: string, arch: Arch, after: Fs, a: Attempt) {
    && Lookup(after, BootPath(vm)) == (if a.touched.Some? then a.touched else Lookup(fs, BootPath(vm)))
    && Lookup(after, DataPath(vm)) == (if a.created.Some? then a.created else if a.dropped then None
                                       else if a.moved.Some? then a.moved else Lookup(fs, DataPath(vm)))
    && (a.created.Some? ==> a.dropped || (a.moved.None? && Lookup(fs, DataPath(vm)).None?))
    && Numbered(fs, after, a)
    && Lookup(after, OldDisk(arch)) == (if a.moved.Some? then None else Lookup(fs, OldDisk(arch)))
    && (a.moved.Some? ==> a.moved == Lookup(fs, OldDisk(arch)))
    && Lookup(after, ConfigPath(vm)) == (if a.wrote.Some? then Some(ConfigText(a.wrote)) else Lookup(fs, ConfigPath(vm)))
  }

  lemma RunFollows(fs: Fs, user: Opts, arch: Arch, out: Outcome, digest: Digest, did: Did)
    requires Free(user.name) && Genuine(fs, user.name) && did == InitMachine(fs, user, arch, out, digest)
    ensures Follows(fs, user.name, arch, did.fs, did.attempt)
    ensures did.attempt.moved.Some? <==> Moves(fs, user.name, arch, out)
  {
    var vm := user.name;
    var m, made := MigrateData(fs, vm, arch, out), MadeBy(fs, user, arch, out);
    RunUnfolds(fs, user, arch, out, digest, did);
    MadeRules(fs, user, arch, out, made);
    DisksBeforeWrite(fs, user, arch, out);
    RunLeavesTheRest(fs, user, arch, out, digest, did);
    WriteLeavesDisks(made.fs, did.fs, vm, did.attempt.wrote);
  }

  lemma DisksBeforeWrite(fs: Fs, user: Opts, arch: Arch, out: Outcome)
    requires Free(user.name)
    ensures var m := MigrateData(fs, user.name, arch, out);
            && Lookup(m, BootPath(user.name)) == Lookup(fs, BootPath(user.name))
            && Lookup(m, DataPath(user.name)) == (if Moves(fs, user.name, arch, out) then Lookup(fs, OldDisk(arch)) else Lookup(fs, DataPath(user.name)))
            && m.nextDisk == fs.nextDisk
  {
    NamesDiffer(user.name, arch);
    MigrateFrame(fs, user.name, arch, out, BootPath(user.name));
    MigrateFrame(fs, user.name, arch, out, DataPath(user.name));
    MigrateOld(fs, user.name, arch, out);
  }

  lemma WriteLeavesDisks(before: Fs, after: Fs, vm: string, c: Option<Config>)
    requires Free(vm) && after == if c.Some? then Put(before, ConfigPath(vm), ConfigText(c)) else before
    ensures Lookup(after, BootPath(vm)) == Lookup(before, BootPath(vm)) && Lookup(after, DataPath(vm)) == Lookup(before, DataPath(vm))
    ensures after.nextDisk == before.nextDisk
  {
    NamesDiffer(vm, Arm64);
  }

  lemma RunLeavesTheRest(fs: Fs, user: Opts, arch: Arch, out: Outcome, digest: Digest, did: Did)
    requires Free(user.name) && Genuine(fs, user.name) && did == InitMachine(fs, user, arch, out, digest)
    ensures Lookup(did.fs, OldDisk(arch)) == (if Moves(fs, user.name, arch, out) then None else Lookup(fs, OldDisk(arch)))
    ensures Lookup(did.fs, ConfigPath(user.name)) ==
            if did.attempt.wrote.Some? then Some(ConfigText(did.attempt.wrote)) else Lookup(fs, ConfigPath(user.name))
  {
    var vm := user.name;
    var m, made := MigrateData(fs, vm, arch, out), MadeBy(fs, user, arch, out);
    RunUnfolds(fs, user, arch, out, digest, did);
    MadeRules(fs, user, arch, out, made);
    NamesDiffer(vm, arch);
    MigrateFrame(fs, vm, arch, out, ConfigPath(vm));
    MigrateOld(fs, vm, arch, out);
    OldUntouched(m, made.fs, vm, arch);
    assert Under(ConfigPath(vm), vm);
  }

  lemma OldUntouched(m: Fs, after: Fs, vm: string, arch: Arch)
    requires Free(vm) && OnlyMachineFiles(m, after, LayoutOf(vm))
    ensures Lookup(after, OldDisk(arch)) == Lookup(m, OldDisk(arch))
    ensures Lookup(after, ConfigPath(vm)) == Lookup(m, ConfigPath(vm))
  {
    NamesDiffer(vm, arch);
    var l := LayoutOf(vm);
    assert Under(l.bootPath, vm) && Under(l.dataPath, vm) && Under(l.privateKey, vm) && Under(l.publicKey, vm);
  }

  /** What the run asked for is what a successful run persists. */
  lemma RunWrites(fs: Fs, user: Opts, arch: Arch, out: Outcome, digest: Digest, did: Did)
    requires Free(user.name) && Genuine(fs, user.name) && did == InitMachine(fs, user, arch, out, digest)
    ensures did.ok <==> did.attempt.wrote.Some?
    ensures did.ok ==> var c := did.attempt.wrote.value;
                       && c.layout == LayoutOf(user.name) && c.bootVersion == user.bootVersion && c.dataVersion == user.dataVersion
                       && c.vmType == user.vmm && c.cpus == user.cpus && c.memoryInMB == user.memoryInMiB
                       && c.mounts == MountsOf(user.volumes + [IGN_MNT], digest)
    ensures Genuine(did.fs, user.name)
    ensures VersionRules(LoadedBy(fs, user.name, arch, out), user, did.attempt, did.ok)
  {
    RunUnfolds(fs, user, arch, out, digest, did);
    MadeRules(fs, user, arch, out, MadeBy(fs, user, arch, out));
    RunFollows(fs, user, arch, out, digest, did);
  }

  // ---- main results: one run ----

  /** A failed run leaves the persisted configuration as it was; a successful one replaces it. */
  lemma FailedInitKeepsConfig(fs: Fs, user: Opts, arch: Arch, out: Outcome, digest: Digest, did: Did)
    requires Free(user.name) && Genuine(fs, user.name) && did == InitMachine(fs, user, arch, out, digest)
    ensures !did.ok ==> Lookup(did.fs, ConfigPath(user.name)) == Lookup(fs, ConfigPath(user.name))
    ensures did.ok ==> Persisted(did.fs, ConfigPath(user.name)) == did.attempt.wrote && did.attempt.wrote.Some?
  {
    RunFollows(fs, user, arch, out, digest, did);
    RunWrites(fs, user, arch, out, digest, did);
  }

  /**
   A successful run leaves the requested boot image if and only if it rebuilt the
   machine, or the persisted version was another one, or the image was the requested
   one already.
   */
  lemma ImageAfterSuccess(fs: Fs, user: Opts, arch: Arch, out: Outcome, digest: Digest, did: Did)
    requires Free(user.name) && Genuine(fs, user.name) && did == InitMachine(fs, user, arch, out, digest) && did.ok
    ensures var loaded := LoadedBy(fs, user.name, arch, out);
            var asked := Some(Image(user.bootVersion, true));
            Lookup(did.fs, BootPath(user.name)) == asked <==>
              loaded.None? || loaded.value.bootVersion != user.bootVersion || Lookup(fs, BootPath(user.name)) == asked
  {
    RunFollows(fs, user, arch, out, digest, did);
    RunWrites(fs, user, arch, out, digest, did);
  }

  /**
   The data disk is still the same after a run if and only if no old-layout disk was
   moved over it and it was not dropped; and it is dropped only if a configuration
   could be loaded whose data version is not the requested one.
   */
  lemma DataDiskSurvives(fs: Fs, user: Opts, arch: Arch, out: Outcome, digest: Digest, did: Did)
    requires Free(user.name) && Genuine(fs, user.name) && did == InitMachine(fs, user, arch, out, digest)
    requires Lookup(fs, DataPath(user.name)).Some? && Lookup(fs, DataPath(user.name)).value.Disk?
    requires Lookup(fs, DataPath(user.name)).value.id < fs.nextDisk
    requires Lookup(fs, OldDisk(arch)) != Lookup(fs, DataPath(user.name))
    ensures Lookup(did.fs, DataPath(user.name)) == Lookup(fs, DataPath(user.name)) <==> !Moves(fs, user.name, arch, out) && !did.attempt.dropped
    ensures did.attempt.dropped ==>
              LoadedBy(fs, user.name, arch, out).Some? && LoadedBy(fs, user.name, arch, out).value.dataVersion != user.dataVersion
    ensures did.ok && LoadedBy(fs, user.name, arch, out).Some? && LoadedBy(fs, user.name, arch, out).value.dataVersion != user.dataVersion ==>
              did.attempt.dropped
  {
    RunFollows(fs, user, arch, out, digest, did);
    RunWrites(fs, user, arch, out, digest, did);
  }

  lemma LoadAfterWrite(fs: Fs, c: Config, p: Path)
    requires Lookup(fs, p) == Some(ConfigText(Some(c)))
    ensures LoadMachineFromPath(fs, p) == if Valid(c, fs) then Some(c) else None
  {
  }

  lemma LayoutStaysValid(before: Fs, after: Fs, l: Layout, f: File)
    requires ValidLayout(l, before) && l.configFile != [] && after == Put(before, l.configFile, f)
    ensures ValidLayout(l, after)
  {
  }

  lemma SuccessHasValidLayout(fs: Fs, user: Opts, arch: Arch, out: Outcome, digest: Digest, did: Did)
    requires Free(user.name) && Genuine(fs, user.name)
    requires did == InitMachine(fs, user, arch, out, digest) && did.ok
    ensures ValidLayout(LayoutOf(user.name), did.fs)
  {
    var m := MigrateData(fs, user.name, arch, out);
    var loaded, made := LoadedBy(fs, user.name, arch, out), MadeBy(fs, user, arch, out);
    RunUnfolds(fs, user, arch, out, digest, did);
    PersistedSurvivesMigration(fs, user.name, arch, out);
    if loaded.None? {
      RebuildIsValid(m, Full(user), out, made);
    } else {
      UpdateEffects(m, loaded.value, Full(user), out, made);
    }
    LayoutStaysValid(made.fs, did.fs, LayoutOf(user.name), ConfigText(did.attempt.wrote));
  }

  lemma SuccessHasPort(fs: Fs, user: Opts, arch: Arch, out: Outcome, digest: Digest, did: Did)
    requires Free(user.name) && Genuine(fs, user.name) && did == InitMachine(fs, user, arch, out, digest) && did.ok
    ensures did.attempt.wrote.Some? && did.attempt.wrote.value.sshPort != 0
  {
    RunUnfolds(fs, user, arch, out, digest, did);
    if LoadedBy(fs, user.name, arch, out).None? {
      RebuildEffects(MigrateData(fs, user.name, arch, out), Full(user), out, MadeBy(fs, user, arch, out));
    }
  }

  /** The next run can load what a successful run wrote if and only if the VMM and both versions were not empty. */
  lemma WrittenConfigLoads(fs: Fs, user: Opts, arch: Arch, out: Outcome, digest: Digest, did: Did)
    requires Free(user.name) && Genuine(fs, user.name)
    requires did == InitMachine(fs, user, arch, out, digest) && did.ok
    ensures LoadMachineFromPath(did.fs, ConfigPath(user.name)) ==
            if user.vmm != "" && user.bootVersion != "" && user.dataVersion != "" then did.attempt.wrote else None
  {
    RunWrites(fs, user, arch, out, digest, did);
    RunFollows(fs, user, arch, out, digest, did);
    SuccessHasValidLayout(fs, user, arch, out, digest, did);
    SuccessHasPort(fs, user, arch, out, digest, did);
    LoadAfterWrite(did.fs, did.attempt.wrote.value, ConfigPath(user.name));
  }

  /** The rebuild path and the update path persist the same configuration, but for the ssh port. */
  lemma PathsAgree(fs1: Fs, out1: Outcome, did1: Did, fs2: Fs, out2: Outcome, did2: Did, user: Opts, arch: Arch, digest: Digest)
    requires Free(user.name) && Genuine(fs1, user.name) && Genuine(fs2, user.name)
    requires did1 == InitMachine(fs1, user, arch, out1, digest) && did1.ok
    requires did2 == InitMachine(fs2, user, arch, out2, digest) && did2.ok
    ensures did1.attempt.wrote.Some? && did2.attempt.wrote.Some?
    ensures did1.attempt.wrote.value == did2.attempt.wrote.value.(sshPort := did1.attempt.wrote.value.sshPort)
  {
    RunWrites(fs1, user, arch, out1, digest, did1);
    RunWrites(fs2, user, arch, out2, digest, did2);
  }

  lemma UpdateKeepsPort(fs: Fs, user: Opts, arch: Arch, out: Outcome, digest: Digest, did: Did)
    requires Free(user.name) && Genuine(fs, user.name) && did == InitMachine(fs, user, arch, out, digest) && did.ok
    requires LoadedBy(fs, user.name, arch, out).Some?
    ensures did.attempt.wrote.value.sshPort == LoadedBy(fs, user.name, arch, out).value.sshPort
  {
    RunUnfolds(fs, user, arch, out, digest, did);
  }

  // ---- main results: running init again ----

  lemma LoadSurvivesMigration(fs: Fs, vm: string, arch: Arch, out: Outcome, c: Config)
    requires Free(vm) && c.layout == LayoutOf(vm) && LoadMachineFromPath(fs, ConfigPath(vm)) == Some(c)
    ensures LoadedBy(fs, vm, arch, out) == Some(c)
  {
    PersistedSurvivesMigration(fs, vm, arch, out);
    FileSurvives(fs, vm, arch, out, c.layout.bootPath);
    FileSurvives(fs, vm, arch, out, c.layout.dataPath);
    FileSurvives(fs, vm, arch, out, c.layout.privateKey);
    FileSurvives(fs, vm, arch, out, c.layout.publicKey);
    MigrateFrame(fs, vm, arch, out, c.layout.dirs.config);
    MigrateFrame(fs, vm, arch, out, c.layout.dirs.data);
    MigrateFrame(fs, vm, arch, out, c.layout.dirs.pids);
    MigrateFrame(fs, vm, arch, out, c.layout.dirs.logs);
    MigrateFrame(fs, vm, arch, out, c.layout.dirs.socks);
  }

  lemma FileSurvives(fs: Fs, vm: string, arch: Arch, out: Outcome, p: Path)
    requires Free(vm) && Under(p, vm) && p in fs.files
    ensures p in MigrateData(fs, vm, arch, out).files
  {
    assert Lookup(fs, p).Some?;
    MigrateFrame(fs, vm, arch, out, p);
    assert Lookup(MigrateData(fs, vm, arch, out), p).Some?;
  }

  /** With the versions that are persisted already, a run touches neither disk and persists the same disks' versions. */
  lemma SameVersionsRun(fs: Fs, user: Opts, arch: Arch, out: Outcome, digest: Digest, did: Did, c: Config)
    requires Free(user.name) && did == InitMachine(fs, user, arch, out, digest)
    requires LoadMachineFromPath(fs, ConfigPath(user.name)) == Some(c) && c.layout == LayoutOf(user.name)
    requires c.bootVersion == user.bootVersion && c.dataVersion == user.dataVersion && OldDisk(arch) !in fs.files
    ensures did.ok <==> out.write
    ensures did.attempt == NOTHING.(updating := true, wrote := if out.write then Some(Refreshed(c, Full(user), digest)) else None)
    ensures forall p :: Under(p, user.name) && p != ConfigPath(user.name) ==> Lookup(did.fs, p) == Lookup(fs, p)
  {
    var m := MigrateData(fs, user.name, arch, out);
    LoadSurvivesMigration(fs, user.name, arch, out, c);
    RunUnfolds(fs, user, arch, out, digest, did);
    SameVersionsDoNothing(m, c, Full(user), out);
    forall p | Under(p, user.name) && p != ConfigPath(user.name) ensures Lookup(did.fs, p) == Lookup(fs, p) {
      MigrateFrame(fs, user.name, arch, out, p);
    }
  }

  /**
   Init is a fixpoint: run again with the same options, whatever its steps would do,
   it changes no file of the machine and fails only if the write fails; the write
   puts back the configuration that is there.
   */
  lemma SecondInitChangesNothing(fs: Fs, user: Opts, arch: Arch, out: Outcome, again: Outcome, digest: Digest, did: Did, did2: Did)
    requires Free(user.name) && Genuine(fs, user.name)
    requires user.vmm != "" && user.bootVersion != "" && user.dataVersion != ""
    requires did == InitMachine(fs, user, arch, out, digest) && did.ok && OldDisk(arch) !in did.fs.files
    requires did2 == InitMachine(did.fs, user, arch, again, digest)
    ensures did2.ok <==> again.write
    ensures forall p :: Under(p, user.name) ==> Lookup(did2.fs, p) == Lookup(did.fs, p)
  {
    RunWrites(fs, user, arch, out, digest, did);
    WrittenConfigLoads(fs, user, arch, out, digest, did);
    var c := did.attempt.wrote.value;
    SameVersionsRun(did.fs, user, arch, again, digest, did2, c);
    assert Refreshed(c, Full(user), digest) == c;
    RunFollows(fs, user, arch, out, digest, did);
    RunFollows(did.fs, user, arch, again, digest, did2);
  }

  // ---- what a run does not promise ----

  const GOOD := Outcome({}, 2, true, false, None, 5, (true, true), true, (true, true), Whole, true, true, true, true)

  /**
   The boot image can stay stale: in any workspace that can be loaded, a run that asks for
   another version and fails to write its configuration leaves that version's image;
   a later run asking for the persisted version succeeds and leaves it there.
   */
  lemma StaleImage(fs: Fs, user: Opts, arch: Arch, digest: Digest, other: string, c: Config) returns (did1: Did, did2: Did)
    requires Free(user.name) && OldDisk(arch) !in fs.files && other != user.bootVersion
    requires LoadMachineFromPath(fs, ConfigPath(user.name)) == Some(c) && c.layout == LayoutOf(user.name)
    requires c.bootVersion == user.bootVersion && c.dataVersion == user.dataVersion
    ensures did1 == InitMachine(fs, user.(bootVersion := other), arch, GOOD.(write := false), digest) && !did1.ok
    ensures did2 == InitMachine(did1.fs, user, arch, GOOD, digest) && did2.ok
    ensures did2.attempt.wrote.Some? && did2.attempt.wrote.value.bootVersion == user.bootVersion
    ensures Lookup(did2.fs, BootPath(user.name)) == Some(Image(other, true))
  {
    var u1, o1 := user.(bootVersion := other), GOOD.(write := false);
    did1 := InitMachine(fs, u1, arch, o1, digest);
    did2 := InitMachine(did1.fs, user, arch, GOOD, digest);
    RunFollows(fs, u1, arch, o1, digest, did1);
    RunWrites(fs, u1, arch, o1, digest, did1);
    FailedUpdateStillLoads(fs, u1, arch, o1, digest, did1, c);
    SameVersionsRun(did1.fs, user, arch, GOOD, digest, did2, c);
    assert Under(BootPath(user.name), user.name);
    NamesDiffer(user.name, arch);
  }

  /** If only the write fails, what was loaded can be loaded again, and the image is the one asked for. */
  lemma FailedUpdateStillLoads(fs: Fs, user: Opts, arch: Arch, out: Outcome, digest: Digest, did: Did, c: Config)
    requires Free(user.name) && OldDisk(arch) !in fs.files && did == InitMachine(fs, user, arch, out, digest)
    requires LoadMachineFromPath(fs, ConfigPath(user.name)) == Some(c) && c.layout == LayoutOf(user.name)
    requires c.bootVersion != user.bootVersion && c.dataVersion == user.dataVersion
    requires out.unpack.Whole? && !out.write
    ensures did.attempt.touched == Some(Image(user.bootVersion, true)) && OldDisk(arch) !in did.fs.files
    ensures LoadMachineFromPath(did.fs, ConfigPath(user.name)) == Some(c)
  {
    var m := MigrateData(fs, user.name, arch, out);
    LoadSurvivesMigration(fs, user.name, arch, out, c);
    RunUnfolds(fs, user, arch, out, digest, did);
    RunFollows(fs, user, arch, out, digest, did);
    assert Lookup(did.fs, OldDisk(arch)) == None;
    UpdateEffects(m, c, Full(user), out, MadeBy(fs, user, arch, out));
    assert did.fs == MadeBy(fs, user, arch, out).fs;
  }

  /** A data disk of full size. */
  predicate Sized(f: Option<File>) {
    f.Some? && f.value.Disk? && f.value.sized
  }

  /** The disk the run finds once it has migrated the old layout. */
  function FoundDisk(fs: Fs, vm: string, arch: Arch, out: Outcome): Option<File> {
    if Moves(fs, vm, arch, out) then Lookup(fs, OldDisk(arch)) else Lookup(fs, DataPath(vm))
  }

  /**
   After a successful run there is a data disk.  It has its full size if and only if this
   run created it, because another data version was asked for or there was none, or the
   disk found or moved in had it: one that an earlier run could not size is kept.
   */
  lemma DiskAfterSuccess(fs: Fs, user: Opts, arch: Arch, out: Outcome, digest: Digest, did: Did)
    requires Free(user.name) && Genuine(fs, user.name) && did == InitMachine(fs, user, arch, out, digest) && did.ok
    ensures Lookup(did.fs, DataPath(user.name)).Some?
    ensures did.attempt.created.Some? ==>
              && did.attempt.created.value.Disk? && did.attempt.created.value.sized
              && Lookup(did.fs, DataPath(user.name)) == did.attempt.created
    ensures did.attempt.created.None? ==> Lookup(did.fs, DataPath(user.name)) == FoundDisk(fs, user.name, arch, out)
    ensures var loaded, found := LoadedBy(fs, user.name, arch, out), FoundDisk(fs, user.name, arch, out);
            Sized(Lookup(did.fs, DataPath(user.name))) <==>
              (loaded.Some? && loaded.value.dataVersion != user.dataVersion) || found.None? || Sized(found)
  {
    var m, made := MigrateData(fs, user.name, arch, out), MadeBy(fs, user, arch, out);
    RunFollows(fs, user, arch, out, digest, did);
    RunUnfolds(fs, user, arch, out, digest, did);
    RunWrites(fs, user, arch, out, digest, did);
    MadeRules(fs, user, arch, out, made);
    SuccessDropsOnlyToCreate(fs, user, arch, out);
  }

  /** Two runs on a workspace with no configuration and no disk: the first cannot size the disk it creates, and the second succeeds with it. */
  lemma UnsizedDiskIsKept(fs: Fs, user: Opts, arch: Arch, digest: Digest) returns (did1: Did, did2: Did)
    requires Free(user.name) && (user.vmm == KRUNKIT || user.vmm == VFKIT)
    requires Persisted(fs, ConfigPath(user.name)).None? && Lookup(fs, DataPath(user.name)).None? && OldDisk(arch) !in fs.files
    ensures did1 == InitMachine(fs, user, arch, GOOD.(sizeDisk := false), digest) && !did1.ok
    ensures did2 == InitMachine(did1.fs, user, arch, GOOD, digest) && did2.ok
    ensures Lookup(did2.fs, DataPath(user.name)) == Some(Disk(fs.nextDisk, false))
  {
    var out := GOOD.(sizeDisk := false);
    did1 := InitMachine(fs, user, arch, out, digest);
    did2 := InitMachine(did1.fs, user, arch, GOOD, digest);
    FirstRun(fs, user, arch, out, digest, did1);
    FirstRun(did1.fs, user, arch, GOOD, digest, did2);
  }

  /** A run that finds no configuration, and whose steps all work but perhaps the sizing of the disk. */
  lemma FirstRun(fs: Fs, user: Opts, arch: Arch, out: Outcome, digest: Digest, did: Did)
    requires Free(user.name) && (user.vmm == KRUNKIT || user.vmm == VFKIT) && out == GOOD.(sizeDisk := out.sizeDisk)
    requires Persisted(fs, ConfigPath(user.name)).None? && OldDisk(arch) !in fs.files
    requires did == InitMachine(fs, user, arch, out, digest)
    ensures did.ok <==> out.sizeDisk || Lookup(fs, DataPath(user.name)).Some?
    ensures Lookup(did.fs, DataPath(user.name)) ==
            if Lookup(fs, DataPath(user.name)).Some? then Lookup(fs, DataPath(user.name)) else Some(Disk(fs.nextDisk, out.sizeDisk))
    ensures OldDisk(arch) !in did.fs.files && (!did.ok ==> Persisted(did.fs, ConfigPath(user.name)).None?)
  {
    var m := MigrateData(fs, user.name, arch, out);
    RunUnfolds(fs, user, arch, out, digest, did);
    RunFollows(fs, user, arch, out, digest, did);
    PersistedSurvivesMigration(fs, user.name, arch, out);
    DisksBeforeWrite(fs, user, arch, out);
    RebuildCreates(m, Full(user), out);
    assert Lookup(did.fs, OldDisk(arch)) == None;
  }

  /** With every step before it working, the rebuild path comes to the disk, and creates it if there is none. */
  lemma RebuildCreates(fs: Fs, opts: Opts, out: Outcome)
    requires Free(opts.name) && (opts.vmm == KRUNKIT || opts.vmm == VFKIT) && out == GOOD.(sizeDisk := out.sizeDisk)
    ensures var did := InitializeVM(fs, opts, out);
            && (did.ok <==> out.sizeDisk || Lookup(fs, DataPath(opts.name)).Some?)
            && did.attempt.moved.None? && !did.attempt.dropped
            && did.attempt.created == if Lookup(fs, DataPath(opts.name)).Some? then None else Some(Disk(fs.nextDisk, out.sizeDisk))
  {
    var did := InitializeVM(fs, opts, out);
    RebuildEffects(fs, opts, out, did);
    var l := LayoutOf(opts.name);
    NamesDiffer(opts.name, Arm64);
    var f1 := MakeDirs(fs, l.dirs, out.dirsMade);
    MakeDirsEffects(fs, l.dirs, out.dirsMade, f1);
    var (f2, keys) := CreateSSHKey(f1, l, out);
    KeyEffects(f1, l, out, f2, keys);
    var f3 := UncompressZSTD(f2, l.bootPath, opts.bootVersion, out.unpack);
    UnpackEffects(f2, l.bootPath, opts.bootVersion, out.unpack, f3);
    assert Lookup(f3, l.dataPath) == Lookup(fs, l.dataPath);
  }

  lemma SuccessDropsOnlyToCreate(fs: Fs, user: Opts, arch: Arch, out: Outcome)
    requires Free(user.name) && Genuine(fs, user.name) && MadeBy(fs, user, arch, out).ok
    ensures MadeBy(fs, user, arch, out).attempt.dropped ==> MadeBy(fs, user, arch, out).attempt.created.Some?
    ensures Lookup(MadeBy(fs, user, arch, out).fs, DataPath(user.name)).Some?
  {
    var m, loaded := MigrateData(fs, user.name, arch, out), LoadedBy(fs, user.name, arch, out);
    PersistedSurvivesMigration(fs, user.name, arch, out);
    if loaded.None? {
      RebuildHasDisk(m, Full(user), out);
    } else {
      UpdateEffects(m, loaded.value, Full(user), out, MadeBy(fs, user, arch, out));
    }
  }

  lemma RebuildHasDisk(fs: Fs, opts: Opts, out: Outcome)
    requires Free(opts.name) && InitializeVM(fs, opts, out).ok
    ensures Lookup(InitializeVM(fs, opts, out).fs, DataPath(opts.name)).Some? && !InitializeVM(fs, opts, out).attempt.dropped
  {
    RebuildEffects(fs, opts, out, InitializeVM(fs, opts, out));
  }

  /** Every step of the update path and the write work. */
  predicate AllWorks(out: Outcome) {
    out.unpack.Whole? && out.dropDisk && out.openDisk && out.sizeDisk && out.write
  }

  /**
   Only the rebuild path knows which VMMs there are: whatever its steps would do, a run
   with an unknown one succeeds only if it updates, and then persists that name; without a
   configuration to load it does nothing but migrate.  If the steps work, it does succeed.
   */
  lemma UnknownVmm(fs: Fs, user: Opts, arch: Arch, out: Outcome, digest: Digest, did: Did)
    requires Free(user.name) && Genuine(fs, user.name) && did == InitMachine(fs, user, arch, out, digest)
    requires user.vmm != KRUNKIT && user.vmm != VFKIT
    ensures did.ok ==> LoadedBy(fs, user.name, arch, out).Some?
    ensures AllWorks(out) ==> (did.ok <==> LoadedBy(fs, user.name, arch, out).Some?)
    ensures did.ok ==> did.attempt.wrote.Some? && did.attempt.wrote.value.vmType == user.vmm
    ensures LoadedBy(fs, user.name, arch, out).None? ==> did.fs == MigrateData(fs, user.name, arch, out)
  {
    RunUnfolds(fs, user, arch, out, digest, did);
    RunWrites(fs, user, arch, out, digest, did);
  }

  // ---- when the disk is dropped ----

  /** A configuration with another data version could be loaded, and nothing failed on the way to deleting the disk. */
  predicate Drops(fs: Fs, user: Opts, arch: Arch, out: Outcome) {
    var loaded := LoadedBy(fs, user.name, arch, out);
    && loaded.Some? && loaded.value.dataVersion != user.dataVersion
    && (loaded.value.bootVersion == user.bootVersion || out.unpack.Whole?)
    && out.dropDisk
  }

  lemma UpdateDrops(fs: Fs, c: Config, opts: Opts, out: Outcome)
    ensures Update(fs, c, opts, out).attempt.dropped <==>
              c.dataVersion != opts.dataVersion && (c.bootVersion == opts.bootVersion || out.unpack.Whole?) && out.dropDisk
  {
  }

  lemma DroppedExactly(fs: Fs, user: Opts, arch: Arch, out: Outcome, digest: Digest, did: Did)
    requires Free(user.name) && Genuine(fs, user.name) && did == InitMachine(fs, user, arch, out, digest)
    ensures did.attempt.dropped <==> Drops(fs, user, arch, out)
  {
    RunUnfolds(fs, user, arch, out, digest, did);
    var m, loaded := MigrateData(fs, user.name, arch, out), LoadedBy(fs, user.name, arch, out);
    if loaded.Some? {
      UpdateDrops(m, loaded.value, Full(user), out);
    } else {
      RebuildEffects(m, Full(user), out, MadeBy(fs, user, arch, out));
    }
  }

  // ---- main results: which names are safe ----

  /** Migration, when it moves nothing, never takes the machine's data disk. */
  ghost predicate MigrationKeepsDisk(vm: string, arch: Arch) {
    forall fs: Fs, out: Outcome :: OldDisk(arch) !in fs.files ==>
      Lookup(MigrateData(fs, vm, arch, out), DataPath(vm)) == Lookup(fs, DataPath(vm))
  }

  /** An old-layout disk that is moved is found at its new place. */
  ghost predicate MovedDiskArrives(vm: string, arch: Arch) {
    forall fs: Fs, out: Outcome :: Moves(fs, vm, arch, out) ==>
      Lookup(MigrateData(fs, vm, arch, out), DataPath(vm)) == Lookup(fs, OldDisk(arch))
  }

  /**
   Among the names of one component, user data is safe from migration for exactly those
   that give a directory of their own: not the five directory names of the old layout, and
   not the two names that stand for the workspace itself.
   */
  lemma SafeNames(vm: string, arch: Arch)
    requires OneComponent(vm)
    ensures MigrationKeepsDisk(vm, arch) && MovedDiskArrives(vm, arch) <==> Free(vm)
    ensures Free(vm) <==> vm !in {"", ".", "logs", "pids", "config", "socks", "data"}
  {
    if Free(vm) {
      forall fs: Fs, out: Outcome
        ensures OldDisk(arch) !in fs.files ==> Lookup(MigrateData(fs, vm, arch, out), DataPath(vm)) == Lookup(fs, DataPath(vm))
        ensures Moves(fs, vm, arch, out) ==> Lookup(MigrateData(fs, vm, arch, out), DataPath(vm)) == Lookup(fs, OldDisk(arch))
      {
        assert Under(DataPath(vm), vm);
        MigrateFrame(fs, vm, arch, out, DataPath(vm));
      }
    } else if vm !in ROOTS {
      var fs := Fs(map[OldDisk(arch) := Disk(0, true)], {}, 1);
      assert Moves(fs, vm, arch, GOOD);
      DataNameLoses(fs, vm, arch);
    } else {
      var fs := Fs(map[DataPath(vm) := Disk(0, true)], {}, 1);
      OldDiskIsOutside(arch);
      assert OldDisk(arch) !in fs.files;
      RootNameLoses(fs, vm, arch);
      assert Lookup(fs, DataPath(vm)) == Some(Disk(0, true));
    }
  }

  /** Where the machine's data lies in the old layout's data directory, the disk is deleted right after it is moved. */
  lemma DataNameLoses(fs: Fs, vm: string, arch: Arch)
    requires (vm == "data" || vm == "" || vm == ".") && Moves(fs, vm, arch, GOOD)
    ensures Lookup(MigrateData(fs, vm, arch, GOOD), DataPath(vm)) == None
  {
    CleanMoves(fs, vm, arch, GOOD);
    assert DataPath(vm)[0] == "data";
    assert ["data"] <= DataPath(vm);
  }

  /** Where the machine's directory is the workspace itself or one of the removed ones, no configuration survives to be loaded. */
  lemma ConfigIsLost(fs: Fs, vm: string, arch: Arch, out: Outcome)
    requires vm in ROOTS || vm == "" || vm == "."
    requires ConfigPath(vm) !in out.spared
    ensures LoadedBy(fs, vm, arch, out).None?
  {
    ConfigIsRemoved(fs, vm, out.spared);
    MoveMakesNoConfig(CleanRoots(fs, out.spared), vm, arch, out);
  }

  lemma ConfigIsRemoved(fs: Fs, vm: string, spared: set<Path>)
    requires (vm in ROOTS || vm == "" || vm == ".") && ConfigPath(vm) !in spared
    ensures ConfigPath(vm) !in CleanRoots(fs, spared).files
  {
    var root := if vm in ROOTS then vm else "config";
    assert ConfigPath(vm)[0] == root;
    assert [root] <= ConfigPath(vm);
  }

  lemma MoveMakesNoConfig(fs: Fs, vm: string, arch: Arch, out: Outcome)
    requires ConfigPath(vm) !in fs.files
    ensures ConfigPath(vm) !in MoveOld(fs, vm, arch, out).files
  {
    assert ConfigPath(vm)[|VmDir(vm)|] == "config" && DataPath(vm)[|VmDir(vm)|] == "data";
  }

  lemma RootNameLoses(fs: Fs, vm: string, arch: Arch)
    requires vm in ROOTS && OldDisk(arch) !in fs.files
    ensures Lookup(MigrateData(fs, vm, arch, GOOD), DataPath(vm)) == None
  {
    CleanMoves(fs, vm, arch, GOOD);
    assert Lookup(fs, OldDisk(arch)) == None;
    assert DataPath(vm)[0] == vm;
    assert [vm] <= DataPath(vm);
    var f1 := RemoveAll(fs, ["logs"], {});
    var f2 := RemoveAll(f1, ["pids"], {});
    var f3 := RemoveAll(f2, ["config"], {});
    assert DataPath(vm) !in RemoveAll(f3, ["socks"], {}).files;
  }
}
