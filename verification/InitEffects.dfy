/** What one `init` can change: each entry of the workspace that matters, step by step. */
module InitEffects {
  import opened Basics
  import opened Volumes
  import opened InitSpec

  const ROOTS := {"logs", "pids", "config", "socks"}

  /** A name that is one component of a path, if any. */
  predicate OneComponent(vm: string) {
    '/' !in vm && vm != ".."
  }

  /** Machine names that give a directory of their own, which is not one of the old layout's. */
  predicate Free(vm: string) {
    OneComponent(vm) && vm != "" && vm != "." && vm !in ROOTS && vm != "data"
  }

  predicate Under(p: Path, vm: string) {
    p != [] && p[0] == vm
  }

  // ---- migrateData ----

  lemma RemoveAllFrame(fs: Fs, root: string, spared: set<Path>, p: Path)
    requires p != [] && p[0] != root
    ensures Lookup(RemoveAll(fs, [root], spared), p) == Lookup(fs, p)
    ensures p in RemoveAll(fs, [root], spared).dirs <==> p in fs.dirs
  {
    assert !([root] <= p);
  }

  lemma CleanFrame(fs: Fs, spared: set<Path>, p: Path)
    requires p != [] && p[0] !in ROOTS
    ensures Lookup(CleanRoots(fs, spared), p) == Lookup(fs, p)
    ensures p in CleanRoots(fs, spared).dirs <==> p in fs.dirs
  {
    var f1 := RemoveAll(fs, ["logs"], spared);
    var f2 := RemoveAll(f1, ["pids"], spared);
    var f3 := RemoveAll(f2, ["config"], spared);
    RemoveAllFrame(fs, "logs", spared, p);
    RemoveAllFrame(f1, "pids", spared, p);
    RemoveAllFrame(f2, "config", spared, p);
    RemoveAllFrame(f3, "socks", spared, p);
  }

  lemma OldDiskIsOutside(arch: Arch)
    ensures OldDisk(arch)[0] == "data" && "data" !in ROOTS
  {
  }

  lemma MoveFrame(fs: Fs, vm: string, arch: Arch, out: Outcome, p: Path)
    requires Free(vm) && Under(p, vm)
    ensures Lookup(MoveOld(fs, vm, arch, out), p) ==
            if p == DataPath(vm) && Moves(fs, vm, arch, out) then Lookup(fs, OldDisk(arch)) else Lookup(fs, p)
    ensures p in fs.dirs ==> p in MoveOld(fs, vm, arch, out).dirs
  {
    if Moves(fs, vm, arch, out) {
      OldDiskIsOutside(arch);
      var f1 := MkdirAll(fs, VmDir(vm) + ["data"], out.makeData);
      RemoveAllFrame(Put(Remove(f1, OldDisk(arch)), DataPath(vm), fs.files[OldDisk(arch)]), "data", out.spared, p);
    }
  }

  /** Under the machine's own directory, migration changes the data disk and nothing else, and only by moving the old one in. */
  lemma MigrateFrame(fs: Fs, vm: string, arch: Arch, out: Outcome, p: Path)
    requires Free(vm) && Under(p, vm)
    ensures Lookup(MigrateData(fs, vm, arch, out), p) ==
            if p == DataPath(vm) && Moves(fs, vm, arch, out) then Lookup(fs, OldDisk(arch)) else Lookup(fs, p)
    ensures p in fs.dirs ==> p in MigrateData(fs, vm, arch, out).dirs
  {
    CleanMoves(fs, vm, arch, out);
    CleanFrame(fs, out.spared, p);
    MoveFrame(CleanRoots(fs, out.spared), vm, arch, out, p);
  }

  lemma CleanMoves(fs: Fs, vm: string, arch: Arch, out: Outcome)
    ensures Moves(CleanRoots(fs, out.spared), vm, arch, out) <==> Moves(fs, vm, arch, out)
    ensures Lookup(CleanRoots(fs, out.spared), OldDisk(arch)) == Lookup(fs, OldDisk(arch))
  {
    OldDiskIsOutside(arch);
    CleanFrame(fs, out.spared, OldDisk(arch));
  }

  lemma MigrateOld(fs: Fs, vm: string, arch: Arch, out: Outcome)
    requires Free(vm)
    ensures Lookup(MigrateData(fs, vm, arch, out), OldDisk(arch)) ==
            if Moves(fs, vm, arch, out) then None else Lookup(fs, OldDisk(arch))
    ensures MigrateData(fs, vm, arch, out).nextDisk == fs.nextDisk
  {
    CleanMoves(fs, vm, arch, out);
    OldDiskIsOutside(arch);
    assert DataPath(vm)[0] == vm;
  }

  // ---- names of files ----

  lemma LastNames(vm: string)
    requires Free(vm)
    ensures var l := LayoutOf(vm);
            && |l.bootPath| == |l.dataPath| == |l.privateKey| == |l.publicKey| == |ConfigPath(vm)| == 3
            && l.bootPath[2] == vm + ".img" && l.dataPath[2] == "data.img" && l.privateKey[2] == "sshkey" && l.publicKey[2] == "sshkey.pub"
            && l.bootPath[1] == l.dataPath[1] == l.privateKey[1] == l.publicKey[1] == "data" && ConfigPath(vm)[1] == "config"
  {
  }

  /** No two of the files an init works on are the same. */
  lemma NamesDiffer(vm: string, arch: Arch)
    requires Free(vm)
    ensures var l := LayoutOf(vm);
            && l.bootPath != l.dataPath && l.bootPath != l.privateKey && l.bootPath != l.publicKey
            && l.dataPath != l.privateKey && l.dataPath != l.publicKey && l.privateKey != l.publicKey
            && ConfigPath(vm) != l.bootPath && ConfigPath(vm) != l.dataPath
            && ConfigPath(vm) != l.privateKey && ConfigPath(vm) != l.publicKey
    ensures forall p :: Under(p, vm) ==> p != OldDisk(arch)
  {
    var image := vm + ".img";
    assert image[|image| - 1] == 'g' && "sshkey"[5] == 'y' && "sshkey.pub"[9] == 'b';
    assert image[..|image| - 4] == vm && "data.img"[..4] == "data";
    LastNames(vm);
    OldDiskIsOutside(arch);
  }

  // ---- the rebuild path ----

  /** Nothing but the boot image, the data disk and the keys is written. */
  ghost predicate OnlyMachineFiles(before: Fs, after: Fs, l: Layout) {
    forall p :: p != l.bootPath && p != l.dataPath && p != l.privateKey && p != l.publicKey ==> Lookup(after, p) == Lookup(before, p)
  }

  /** A created disk gets a new number. */
  predicate Numbered(before: Fs, after: Fs, a: Attempt) {
    && before.nextDisk <= after.nextDisk
    && (a.created.Some? ==> a.created.value.Disk? && before.nextDisk == a.created.value.id < after.nextDisk)
  }

  /** The two disks, in terms of what the attempt reports. */
  predicate DisksFollow(before: Fs, after: Fs, l: Layout, a: Attempt) {
    && Lookup(after, l.bootPath) == (if a.touched.Some? then a.touched else Lookup(before, l.bootPath))
    && Lookup(after, l.dataPath) == (if a.created.Some? then a.created
                                     else if a.dropped then None else Lookup(before, l.dataPath))
    && (a.created.Some? ==> a.dropped || Lookup(before, l.dataPath).None?)
    && Numbered(before, after, a)
  }

  lemma DiskEffects(fs: Fs, p: Path, force: bool, out: Outcome, a: Attempt, did: Did)
    requires did == CreateAndResizeDisk(fs, p, force, out, a) && a.created.None? && !a.dropped
    ensures forall q :: q != p ==> Lookup(did.fs, q) == Lookup(fs, q)
    ensures Lookup(did.fs, p) == (if did.attempt.created.Some? then did.attempt.created else if did.attempt.dropped then None else Lookup(fs, p))
    ensures did.attempt.created.Some? ==> did.attempt.dropped || Lookup(fs, p).None?
    ensures Numbered(fs, did.fs, did.attempt)
    ensures did.attempt.dropped ==> force
    ensures did.ok ==> Lookup(did.fs, p).Some? && (force ==> did.attempt.dropped && did.attempt.created.Some?)
    ensures did.ok && did.attempt.created.Some? ==> did.attempt.created.value.Disk? && did.attempt.created.value.sized
    ensures did.attempt == a.(dropped := did.attempt.dropped, created := did.attempt.created)
    ensures did.fs.dirs == fs.dirs
  {
  }

  lemma KeyEffects(fs: Fs, l: Layout, out: Outcome, after: Fs, ok: bool)
    requires (after, ok) == CreateSSHKey(fs, l, out) && l.privateKey != l.publicKey
    ensures forall q :: q != l.privateKey && q != l.publicKey ==> Lookup(after, q) == Lookup(fs, q)
    ensures ok ==> l.privateKey in after.files && l.publicKey in after.files
    ensures after.dirs == fs.dirs && after.nextDisk == fs.nextDisk
  {
  }

  lemma UnpackEffects(fs: Fs, p: Path, version: string, unpack: Unpack, after: Fs)
    requires after == UncompressZSTD(fs, p, version, unpack)
    ensures forall q :: q != p ==> Lookup(after, q) == Lookup(fs, q)
    ensures Lookup(after, p) == (if TouchOf(version, unpack).Some? then TouchOf(version, unpack) else Lookup(fs, p))
    ensures after.dirs == fs.dirs && after.nextDisk == fs.nextDisk
  {
  }

  lemma MakeDirsEffects(fs: Fs, d: Dirs, made: nat, after: Fs)
    requires after == MakeDirs(fs, d, made)
    ensures after.files == fs.files && after.nextDisk == fs.nextDisk
    ensures made >= 5 ==> d.logs in after.dirs && d.config in after.dirs && d.socks in after.dirs && d.data in after.dirs && d.pids in after.dirs
  {
    assert d.logs[..|d.logs|] == d.logs && d.config[..|d.config|] == d.config && d.socks[..|d.socks|] == d.socks;
    assert d.data[..|d.data|] == d.data && d.pids[..|d.pids|] == d.pids;
  }

  lemma RebuildEffects(fs: Fs, opts: Opts, out: Outcome, did: Did)
    requires Free(opts.name) && did == InitializeVM(fs, opts, out)
    ensures OnlyMachineFiles(fs, did.fs, LayoutOf(opts.name))
    ensures DisksFollow(fs, did.fs, LayoutOf(opts.name), did.attempt)
    ensures !did.attempt.updating && !did.attempt.dropped && did.attempt.moved.None? && did.attempt.wrote.None?
    ensures did.attempt.touched.Some? ==> did.attempt.touched == TouchOf(opts.bootVersion, out.unpack)
    ensures did.ok ==> did.attempt.touched == Some(Image(opts.bootVersion, true)) && SettledPort(out).Some?
    ensures did.ok ==> opts.vmm == KRUNKIT || opts.vmm == VFKIT
    ensures did.ok && did.attempt.created.Some? ==> did.attempt.created.value.Disk? && did.attempt.created.value.sized
  {
    var l := LayoutOf(opts.name);
    NamesDiffer(opts.name, Arm64);
    var f1 := MakeDirs(fs, l.dirs, out.dirsMade);
    MakeDirsEffects(fs, l.dirs, out.dirsMade, f1);
    var (f2, keys) := CreateSSHKey(f1, l, out);
    KeyEffects(f1, l, out, f2, keys);
    var f3 := UncompressZSTD(f2, l.bootPath, opts.bootVersion, out.unpack);
    UnpackEffects(f2, l.bootPath, opts.bootVersion, out.unpack, f3);
    var a := NOTHING.(touched := TouchOf(opts.bootVersion, out.unpack));
    DiskEffects(f3, l.dataPath, false, out, a, CreateAndResizeDisk(f3, l.dataPath, false, out, a));
  }

  lemma RebuildIsValid(fs: Fs, opts: Opts, out: Outcome, did: Did)
    requires Free(opts.name) && did == InitializeVM(fs, opts, out) && did.ok
    ensures ValidLayout(LayoutOf(opts.name), did.fs)
  {
    var l := LayoutOf(opts.name);
    NamesDiffer(opts.name, Arm64);
    var f1 := MakeDirs(fs, l.dirs, out.dirsMade);
    MakeDirsEffects(fs, l.dirs, out.dirsMade, f1);
    var (f2, keys) := CreateSSHKey(f1, l, out);
    KeyEffects(f1, l, out, f2, keys);
    var f3 := UncompressZSTD(f2, l.bootPath, opts.bootVersion, out.unpack);
    UnpackEffects(f2, l.bootPath, opts.bootVersion, out.unpack, f3);
    var a := NOTHING.(touched := TouchOf(opts.bootVersion, out.unpack));
    DiskEffects(f3, l.dataPath, false, out, a, did);
    assert Lookup(did.fs, l.bootPath).Some? && Lookup(did.fs, l.dataPath).Some?;
    assert Lookup(did.fs, l.privateKey).Some? && Lookup(did.fs, l.publicKey).Some?;
  }

  // ---- the update path ----

  lemma UpdateEffects(fs: Fs, c: Config, opts: Opts, out: Outcome, did: Did)
    requires Free(opts.name) && c.layout == LayoutOf(opts.name) && did == Update(fs, c, opts, out)
    ensures OnlyMachineFiles(fs, did.fs, c.layout)
    ensures DisksFollow(fs, did.fs, c.layout, did.attempt)
    ensures did.attempt.updating && did.attempt.moved.None? && did.attempt.wrote.None?
    ensures did.attempt.dropped ==> c.dataVersion != opts.dataVersion
    ensures did.attempt.touched.Some? ==> c.bootVersion != opts.bootVersion && did.attempt.touched == TouchOf(opts.bootVersion, out.unpack)
    ensures did.ok && c.bootVersion != opts.bootVersion ==> did.attempt.touched == Some(Image(opts.bootVersion, true))
    ensures did.ok && c.dataVersion != opts.dataVersion ==> did.attempt.dropped && did.attempt.created.Some?
    ensures did.ok && Valid(c, fs) ==> ValidLayout(c.layout, did.fs)
    ensures did.ok && did.attempt.created.Some? ==> did.attempt.created.value.Disk? && did.attempt.created.value.sized
  {
    var l := c.layout;
    NamesDiffer(opts.name, Arm64);
    var reboot := c.bootVersion != opts.bootVersion;
    var f1 := if reboot then UncompressZSTD(fs, l.bootPath, opts.bootVersion, out.unpack) else fs;
    if reboot { UnpackEffects(fs, l.bootPath, opts.bootVersion, out.unpack, f1); }
    var start := NOTHING.(updating := true);
    var a := if reboot then start.(touched := TouchOf(opts.bootVersion, out.unpack)) else start;
    DiskEffects(f1, l.dataPath, true, out, a, CreateAndResizeDisk(f1, l.dataPath, true, out, a));
  }

  lemma SameVersionsDoNothing(fs: Fs, c: Config, opts: Opts, out: Outcome)
    requires c.bootVersion == opts.bootVersion && c.dataVersion == opts.dataVersion
    ensures Update(fs, c, opts, out) == Did(fs, true, NOTHING.(updating := true))
  {
  }
}
