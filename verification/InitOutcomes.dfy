/**
 One run of `init` spelled out: the names of the files it works on, which old-layout disk
 it moves, what makes a configuration load, what the run needs to succeed, and what it
 leaves when it does.
 */
module InitOutcomes {
  import opened Basics
  import opened Volumes
  import opened InitSpec
  import opened InitEffects
  import opened InitTheorems

  // ---- the files of a machine ----

  lemma PathsOf(vm: string)
    requires Free(vm)
    ensures ConfigPath(vm) == [vm, "config", "config.json"]
    ensures BootPath(vm) == [vm, "data", vm + ".img"] && DataPath(vm) == [vm, "data", "data.img"]
  {
  }

  lemma DirsOf(vm: string)
    requires Free(vm)
    ensures LayoutOf(vm).dirs == Dirs([vm, "config"], [vm, "data"], [vm, "pids"], [vm, "logs"], [vm, "socks"])
  {
  }

  lemma FilesOf(vm: string)
    requires Free(vm)
    ensures var l := LayoutOf(vm);
            && l.bootPath == [vm, "data", vm + ".img"] && l.dataPath == [vm, "data", "data.img"]
            && l.configFile == [vm, "config", "config.json"]
            && l.privateKey == [vm, "data", "sshkey"] && l.publicKey == [vm, "data", "sshkey.pub"]
  {
    PathsOf(vm);
  }

  lemma SocketsOf(vm: string)
    requires Free(vm)
    ensures var l := LayoutOf(vm);
            && l.podmanInHost == [vm, "socks", "podman-api.sock"] && l.podmanInGuest == "/run/podman/podman.sock"
            && l.restApi == [vm, "socks", "ovm_restapi.socks"]
            && l.authLocal == [vm, "socks", "oo-ssh-agent-host.sock"] && l.authRemote == "/opt/ssh_auth/oo-ssh-agent.sock"
  {
  }

  lemma PidFilesOf(vm: string)
    requires Free(vm)
    ensures var l := LayoutOf(vm);
            && l.gvproxyPid == [vm, "pids", "gvproxy.pid"]
            && l.krunkitPid == [vm, "pids", "krunkit.pid"] && l.vfkitPid == [vm, "pids", "vfkit.pid"]
            && l.name == vm && l.remoteUser == "root" && l.dataDiskSizeGB == 100 && l.reportURL == ""
  {
  }

  // ---- which old-layout disk is moved ----

  /** On arm64 the disk that is moved is the one libkrun left, wherever else a disk may lie. */
  lemma OldArm64Disk(fs: Fs, vm: string, out: Outcome)
    requires Free(vm)
    ensures var from, m := ["data", "libkrun", "default-arm64-data.raw"], MigrateData(fs, vm, Arm64, out);
            if from in fs.files && out.makeData >= 2 && out.rename
            then Lookup(m, [vm, "data", "data.img"]) == Some(fs.files[from]) && from !in m.files
            else Lookup(m, [vm, "data", "data.img"]) == Lookup(fs, [vm, "data", "data.img"]) && Lookup(m, from) == Lookup(fs, from)
  {
    OldDiskMeaning(fs, vm, Arm64, out);
  }

  /** On amd64 it is the one vfkit left. */
  lemma OldAmd64Disk(fs: Fs, vm: string, out: Outcome)
    requires Free(vm)
    ensures var from, m := ["data", "vfkit", "default-amd64-data.raw"], MigrateData(fs, vm, Amd64, out);
            if from in fs.files && out.makeData >= 2 && out.rename
            then Lookup(m, [vm, "data", "data.img"]) == Some(fs.files[from]) && from !in m.files
            else Lookup(m, [vm, "data", "data.img"]) == Lookup(fs, [vm, "data", "data.img"]) && Lookup(m, from) == Lookup(fs, from)
  {
    OldDiskMeaning(fs, vm, Amd64, out);
  }

  lemma OldDiskMeaning(fs: Fs, vm: string, arch: Arch, out: Outcome)
    requires Free(vm)
    ensures var m := MigrateData(fs, vm, arch, out);
            if OldDisk(arch) in fs.files && out.makeData >= 2 && out.rename
            then Lookup(m, [vm, "data", "data.img"]) == Some(fs.files[OldDisk(arch)]) && OldDisk(arch) !in m.files
            else Lookup(m, [vm, "data", "data.img"]) == Lookup(fs, [vm, "data", "data.img"]) && Lookup(m, OldDisk(arch)) == Lookup(fs, OldDisk(arch))
  {
    PathsOf(vm);
    assert Moves(fs, vm, arch, out) <==> OldDisk(arch) in fs.files && out.makeData >= 2 && out.rename;
    MigrateFrame(fs, vm, arch, out, DataPath(vm));
    MigrateOld(fs, vm, arch, out);
  }

  /** A workspace that holds only the other architecture's disk keeps all it has under `data`. */
  lemma OtherArchStays(fs: Fs, vm: string, arch: Arch, out: Outcome, p: Path)
    requires if arch.Arm64? then ["data", "libkrun", "default-arm64-data.raw"] !in fs.files
             else ["data", "vfkit", "default-amd64-data.raw"] !in fs.files
    requires ["data"] <= p
    ensures Lookup(MigrateData(fs, vm, arch, out), p) == Lookup(fs, p)
  {
    CleanMoves(fs, vm, arch, out);
    CleanFrame(fs, out.spared, p);
    assert Lookup(fs, OldDisk(arch)).None?;
  }

  /** What a run moves in, in terms of the file it finds. */
  lemma MovedExactly(fs: Fs, user: Opts, arch: Arch, out: Outcome, digest: Digest, did: Did)
    requires Free(user.name) && Genuine(fs, user.name) && did == InitMachine(fs, user, arch, out, digest)
    ensures var from := if arch.Arm64? then ["data", "libkrun", "default-arm64-data.raw"] else ["data", "vfkit", "default-amd64-data.raw"];
            did.attempt.moved == if out.makeData >= 2 && out.rename then Lookup(fs, from) else None
  {
    RunFollows(fs, user, arch, out, digest, did);
    PathsOf(user.name);
    assert |VmDir(user.name) + ["data"]| == 2;
  }

  // ---- what loads ----

  predicate FilesAreThere(fs: Fs, vm: string) {
    && [vm, "data", vm + ".img"] in fs.files && [vm, "data", "data.img"] in fs.files
    && [vm, "data", "sshkey"] in fs.files && [vm, "data", "sshkey.pub"] in fs.files
  }

  predicate DirsAreThere(fs: Fs, vm: string) {
    && [vm, "config"] in fs.dirs && [vm, "data"] in fs.dirs && [vm, "pids"] in fs.dirs
    && [vm, "logs"] in fs.dirs && [vm, "socks"] in fs.dirs
  }

  lemma ValidLayoutExactly(fs: Fs, vm: string)
    requires Free(vm)
    ensures ValidLayout(LayoutOf(vm), fs) <==> FilesAreThere(fs, vm) && DirsAreThere(fs, vm)
  {
    FilesOf(vm);
    DirsOf(vm);
    SocketsOf(vm);
    PidFilesOf(vm);
  }

  /**
   A configuration that init wrote loads if and only if it is there, its VMM, versions and
   port are set, and the image, the disk, both keys and the five directories are there.
   */
  lemma LoadsExactly(fs: Fs, vm: string, c: Config)
    requires Free(vm) && c.layout == LayoutOf(vm)
    ensures LoadMachineFromPath(fs, [vm, "config", "config.json"]) == Some(c) <==>
              && Lookup(fs, [vm, "config", "config.json"]) == Some(ConfigText(Some(c)))
              && c.vmType != "" && c.bootVersion != "" && c.dataVersion != "" && c.sshPort != 0
              && [vm, "data", vm + ".img"] in fs.files && [vm, "data", "data.img"] in fs.files
              && [vm, "data", "sshkey"] in fs.files && [vm, "data", "sshkey.pub"] in fs.files
              && [vm, "config"] in fs.dirs && [vm, "data"] in fs.dirs && [vm, "pids"] in fs.dirs
              && [vm, "logs"] in fs.dirs && [vm, "socks"] in fs.dirs
  {
    ValidLayoutExactly(fs, vm);
  }

  /** A run rebuilds the machine if and only if one of these is missing; its own migration can only bring the disk. */
  lemma RebuildsExactly(fs: Fs, user: Opts, arch: Arch, out: Outcome, digest: Digest, did: Did, c: Config)
    requires Free(user.name) && Genuine(fs, user.name) && did == InitMachine(fs, user, arch, out, digest)
    requires Persisted(fs, ConfigPath(user.name)) == Some(c)
    ensures var m := MigrateData(fs, user.name, arch, out);
            did.attempt.updating <==>
              && c.vmType != "" && c.bootVersion != "" && c.dataVersion != "" && c.sshPort != 0
              && FilesAreThere(m, user.name) && DirsAreThere(m, user.name)
  {
    RunWrites(fs, user, arch, out, digest, did);
    PersistedSurvivesMigration(fs, user.name, arch, out);
    ValidLayoutExactly(MigrateData(fs, user.name, arch, out), user.name);
  }

  // ---- what a run needs to succeed ----

  /** The rebuild path gets as far as the keys. */
  predicate ComesToKeys(user: Opts, out: Outcome) {
    (user.vmm == "krunkit" || user.vmm == "vfkit") && (!out.portTaken || out.freePort.Some?) && out.dirsMade >= 5
  }

  /** The rebuild path gets as far as unpacking the image. */
  predicate Unpacks(user: Opts, out: Outcome) {
    ComesToKeys(user, out) && out.dropKeys == (true, true) && out.keygen
  }

  predicate DiskCanBeMade(out: Outcome) {
    out.openDisk && out.sizeDisk
  }

  /** A run succeeds if and only if every step that its path comes to works. */
  lemma SucceedsExactly(fs: Fs, user: Opts, arch: Arch, out: Outcome, digest: Digest, did: Did)
    requires Free(user.name) && Genuine(fs, user.name) && did == InitMachine(fs, user, arch, out, digest)
    ensures var loaded := LoadedBy(fs, user.name, arch, out);
            did.ok <==>
              && out.write
              && if loaded.None?
                 then Unpacks(user, out) && out.unpack.Whole? && (FoundDisk(fs, user.name, arch, out).Some? || DiskCanBeMade(out))
                 else (loaded.value.bootVersion == user.bootVersion || out.unpack.Whole?)
                      && (loaded.value.dataVersion == user.dataVersion || (out.dropDisk && DiskCanBeMade(out)))
  {
    var m, loaded := MigrateData(fs, user.name, arch, out), LoadedBy(fs, user.name, arch, out);
    RunUnfolds(fs, user, arch, out, digest, did);
    DisksBeforeWrite(fs, user, arch, out);
    if loaded.None? {
      RebuildExactly(m, Full(user), out);
    } else {
      UpdateExactly(m, loaded.value, Full(user), out);
    }
  }

  /** What the run wrote to the boot image, and the disk it created. */
  lemma TouchedAndCreated(fs: Fs, user: Opts, arch: Arch, out: Outcome, digest: Digest, did: Did)
    requires Free(user.name) && Genuine(fs, user.name) && did == InitMachine(fs, user, arch, out, digest)
    ensures var loaded := LoadedBy(fs, user.name, arch, out);
            did.attempt.touched ==
              if (if loaded.None? then Unpacks(user, out) else loaded.value.bootVersion != user.bootVersion) && !out.unpack.Untouched?
              then Some(Image(user.bootVersion, out.unpack.Whole?)) else None
    ensures var loaded := LoadedBy(fs, user.name, arch, out);
            did.attempt.created ==
              if out.openDisk && (if loaded.None?
                                  then Unpacks(user, out) && out.unpack.Whole? && FoundDisk(fs, user.name, arch, out).None?
                                  else loaded.value.dataVersion != user.dataVersion && out.dropDisk
                                       && (loaded.value.bootVersion == user.bootVersion || out.unpack.Whole?))
              then Some(Disk(fs.nextDisk, out.sizeDisk)) else None
  {
    var m, loaded := MigrateData(fs, user.name, arch, out), LoadedBy(fs, user.name, arch, out);
    RunUnfolds(fs, user, arch, out, digest, did);
    DisksBeforeWrite(fs, user, arch, out);
    if loaded.None? {
      RebuildExactly(m, Full(user), out);
    } else {
      UpdateExactly(m, loaded.value, Full(user), out);
    }
  }

  lemma RebuildExactly(fs: Fs, opts: Opts, out: Outcome)
    requires Free(opts.name)
    ensures var did := InitializeVM(fs, opts, out);
            && (did.ok <==> Unpacks(opts, out) && out.unpack.Whole? && (Lookup(fs, DataPath(opts.name)).Some? || DiskCanBeMade(out)))
            && did.attempt.touched == (if Unpacks(opts, out) && !out.unpack.Untouched? then Some(Image(opts.bootVersion, out.unpack.Whole?)) else None)
            && did.attempt.created == if out.openDisk && Unpacks(opts, out) && out.unpack.Whole? && Lookup(fs, DataPath(opts.name)).None?
                                      then Some(Disk(fs.nextDisk, out.sizeDisk)) else None
  {
    var l := LayoutOf(opts.name);
    NamesDiffer(opts.name, Arm64);
    var f1 := MakeDirs(fs, l.dirs, out.dirsMade);
    MakeDirsEffects(fs, l.dirs, out.dirsMade, f1);
    var (f2, keys) := CreateSSHKey(f1, l, out);
    KeyEffects(f1, l, out, f2, keys);
    var f3 := UncompressZSTD(f2, l.bootPath, opts.bootVersion, out.unpack);
    UnpackEffects(f2, l.bootPath, opts.bootVersion, out.unpack, f3);
    assert Lookup(f3, l.dataPath) == Lookup(fs, l.dataPath);
  }

  lemma UpdateExactly(fs: Fs, c: Config, opts: Opts, out: Outcome)
    ensures var did := Update(fs, c, opts, out);
            && (did.ok <==> (c.bootVersion == opts.bootVersion || out.unpack.Whole?)
                            && (c.dataVersion == opts.dataVersion || (out.dropDisk && DiskCanBeMade(out))))
            && did.attempt.touched == (if c.bootVersion != opts.bootVersion && !out.unpack.Untouched?
                                       then Some(Image(opts.bootVersion, out.unpack.Whole?)) else None)
            && did.attempt.created == if out.openDisk && c.dataVersion != opts.dataVersion && out.dropDisk
                                         && (c.bootVersion == opts.bootVersion || out.unpack.Whole?)
                                      then Some(Disk(fs.nextDisk, out.sizeDisk)) else None
  {
  }

  // ---- what a successful run leaves ----

  /** Whatever it started from, a run that succeeds leaves the image, the disk, both keys and the five directories. */
  lemma SuccessIsComplete(fs: Fs, user: Opts, arch: Arch, out: Outcome, digest: Digest, did: Did)
    requires Free(user.name) && Genuine(fs, user.name) && did == InitMachine(fs, user, arch, out, digest) && did.ok
    ensures Lookup(did.fs, BootPath(user.name)).Some? && Lookup(did.fs, [user.name, "data", user.name + ".img"]).Some?
    ensures FilesAreThere(did.fs, user.name) && DirsAreThere(did.fs, user.name)
  {
    SuccessHasValidLayout(fs, user, arch, out, digest, did);
    ValidLayoutExactly(did.fs, user.name);
    PathsOf(user.name);
  }

  /** A run that rebuilds persists the default port unless something listens on it, and then the free one it was given. */
  lemma RebuildPersistsPort(fs: Fs, user: Opts, arch: Arch, out: Outcome, digest: Digest, did: Did)
    requires Free(user.name) && Genuine(fs, user.name) && did == InitMachine(fs, user, arch, out, digest) && did.ok
    requires !did.attempt.updating
    ensures did.attempt.wrote.Some?
    ensures if out.portTaken then out.freePort == Some(did.attempt.wrote.value.sshPort) else did.attempt.wrote.value.sshPort == 61234
  {
    RunUnfolds(fs, user, arch, out, digest, did);
    RunWrites(fs, user, arch, out, digest, did);
    SucceedsExactly(fs, user, arch, out, digest, did);
  }

  /** What becomes of the private and the public key: old ones go before new ones are made, and a failure may leave none. */
  function PrivateKeyAfter(before: Option<File>, out: Outcome): Option<File> {
    if !out.dropKeys.0 then before
    else if out.dropKeys.1 && (out.keygen || out.keysLeft.0) then Some(Key)
    else None
  }

  function PublicKeyAfter(before: Option<File>, out: Outcome): Option<File> {
    if !out.dropKeys.0 || !out.dropKeys.1 then before
    else if out.keygen || out.keysLeft.1 then Some(Key)
    else None
  }

  /** An updating run leaves both keys as they are, and so does one that fails before it comes to them. */
  lemma KeysExactly(fs: Fs, user: Opts, arch: Arch, out: Outcome, digest: Digest, did: Did)
    requires Free(user.name) && Genuine(fs, user.name) && did == InitMachine(fs, user, arch, out, digest)
    ensures var before, anew := Lookup(fs, [user.name, "data", "sshkey"]), !did.attempt.updating && ComesToKeys(user, out);
            Lookup(did.fs, [user.name, "data", "sshkey"]) == if anew then PrivateKeyAfter(before, out) else before
    ensures var before, anew := Lookup(fs, [user.name, "data", "sshkey.pub"]), !did.attempt.updating && ComesToKeys(user, out);
            Lookup(did.fs, [user.name, "data", "sshkey.pub"]) == if anew then PublicKeyAfter(before, out) else before
  {
    var m, loaded := MigrateData(fs, user.name, arch, out), LoadedBy(fs, user.name, arch, out);
    var l := LayoutOf(user.name);
    FilesOf(user.name);
    NamesDiffer(user.name, arch);
    RunUnfolds(fs, user, arch, out, digest, did);
    RunWrites(fs, user, arch, out, digest, did);
    MigrateFrame(fs, user.name, arch, out, l.privateKey);
    MigrateFrame(fs, user.name, arch, out, l.publicKey);
    if loaded.None? {
      RebuildKeys(m, Full(user), out);
    } else {
      UpdateKeepsFile(m, loaded.value, Full(user), out, l.privateKey);
      UpdateKeepsFile(m, loaded.value, Full(user), out, l.publicKey);
    }
  }

  lemma KeysMade(fs: Fs, l: Layout, out: Outcome)
    requires l.privateKey != l.publicKey
    ensures Lookup(CreateSSHKey(fs, l, out).0, l.privateKey) == PrivateKeyAfter(Lookup(fs, l.privateKey), out)
    ensures Lookup(CreateSSHKey(fs, l, out).0, l.publicKey) == PublicKeyAfter(Lookup(fs, l.publicKey), out)
  {
  }

  lemma RebuildKeys(fs: Fs, opts: Opts, out: Outcome)
    requires Free(opts.name)
    ensures var l, did := LayoutOf(opts.name), InitializeVM(fs, opts, out);
            && Lookup(did.fs, l.privateKey) == (if ComesToKeys(opts, out) then PrivateKeyAfter(Lookup(fs, l.privateKey), out) else Lookup(fs, l.privateKey))
            && Lookup(did.fs, l.publicKey) == (if ComesToKeys(opts, out) then PublicKeyAfter(Lookup(fs, l.publicKey), out) else Lookup(fs, l.publicKey))
  {
    var l := LayoutOf(opts.name);
    NamesDiffer(opts.name, Arm64);
    var f1 := MakeDirs(fs, l.dirs, out.dirsMade);
    MakeDirsEffects(fs, l.dirs, out.dirsMade, f1);
    KeysMade(f1, l, out);
    var (f2, keys) := CreateSSHKey(f1, l, out);
    var f3 := UncompressZSTD(f2, l.bootPath, opts.bootVersion, out.unpack);
    UnpackEffects(f2, l.bootPath, opts.bootVersion, out.unpack, f3);
    var a := NOTHING.(touched := TouchOf(opts.bootVersion, out.unpack));
    DiskEffects(f3, l.dataPath, false, out, a, CreateAndResizeDisk(f3, l.dataPath, false, out, a));
  }

  lemma UpdateKeepsFile(fs: Fs, c: Config, opts: Opts, out: Outcome, p: Path)
    requires p != c.layout.bootPath && p != c.layout.dataPath
    ensures Lookup(Update(fs, c, opts, out).fs, p) == Lookup(fs, p)
  {
  }

  // ---- directories ----

  lemma MkdirExactly(fs: Fs, vm: string, name: string, made: nat, p: Path)
    requires Under(p, vm)
    ensures p in MkdirAll(fs, [vm, name], made).dirs <==>
              p in fs.dirs || (p == [vm] && made >= 1) || (p == [vm, name] && made >= 2)
  {
    var path := [vm, name];
    assert path[..0] == [] && path[..1] == [vm] && path[..2] == path;
    var new_ := set k | 0 <= k <= |path| && k <= made :: path[..k];
    assert made >= 1 ==> path[..1] in new_;
    assert made >= 2 ==> path[..2] in new_;
  }

  /** Migration makes the machine's data directory for an old disk it finds, as far as it gets, and keeps it even if the move fails. */
  lemma DirsAfterMigration(fs: Fs, vm: string, arch: Arch, out: Outcome, p: Path)
    requires Free(vm) && Under(p, vm)
    ensures var from := if arch.Arm64? then ["data", "libkrun", "default-arm64-data.raw"] else ["data", "vfkit", "default-amd64-data.raw"];
            p in MigrateData(fs, vm, arch, out).dirs <==>
              p in fs.dirs || (from in fs.files && ((p == [vm] && out.makeData >= 1) || (p == [vm, "data"] && out.makeData >= 2)))
  {
    var f1 := CleanRoots(fs, out.spared);
    CleanFrame(fs, out.spared, p);
    CleanMoves(fs, vm, arch, out);
    assert Lookup(f1, OldDisk(arch)) == Lookup(fs, OldDisk(arch));
    assert VmDir(vm) + ["data"] == [vm, "data"];
    MkdirExactly(f1, vm, "data", out.makeData, p);
    if Moves(f1, vm, arch, out) {
      RemoveAllFrame(Put(Remove(MkdirAll(f1, VmDir(vm) + ["data"], out.makeData), OldDisk(arch)), DataPath(vm), f1.files[OldDisk(arch)]),
                     "data", out.spared, p);
    }
  }

  /** The five directories are made in the order logs, config, socks, data, pids. */
  lemma DirsMadeInOrder(fs: Fs, vm: string, made: nat, p: Path)
    requires Free(vm) && Under(p, vm)
    ensures p in MakeDirs(fs, LayoutOf(vm).dirs, made).dirs <==>
              || p in fs.dirs
              || (made >= 1 && (p == [vm] || p == [vm, "logs"]))
              || (made >= 2 && p == [vm, "config"])
              || (made >= 3 && p == [vm, "socks"])
              || (made >= 4 && p == [vm, "data"])
              || (made >= 5 && p == [vm, "pids"])
  {
    DirsOf(vm);
    var f1 := if made >= 1 then MkdirAll(fs, [vm, "logs"], 2) else fs;
    var f2 := if made >= 2 then MkdirAll(f1, [vm, "config"], 2) else f1;
    var f3 := if made >= 3 then MkdirAll(f2, [vm, "socks"], 2) else f2;
    var f4 := if made >= 4 then MkdirAll(f3, [vm, "data"], 2) else f3;
    MkdirExactly(fs, vm, "logs", 2, p);
    MkdirExactly(f1, vm, "config", 2, p);
    MkdirExactly(f2, vm, "socks", 2, p);
    MkdirExactly(f3, vm, "data", 2, p);
    MkdirExactly(f4, vm, "pids", 2, p);
  }
}
