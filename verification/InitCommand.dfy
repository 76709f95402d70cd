/** The `init` command step by step, on a workspace and a configuration that are updated in place. */
module InitCommand {
  import opened Basics
  import opened Volumes
  import opened InitSpec

  class MachineConfig {
    var vmType: string
    var cpus: int
    var memoryInMB: int
    var mounts: seq<Mount>
    var bootVersion: string
    var dataVersion: string
    var sshPort: int
    const layout: Layout

    function Value(): Config
      reads this
    {
      Config(vmType, cpus, memoryInMB, mounts, bootVersion, dataVersion, sshPort, layout)
    }

    constructor Loaded(c: Config)
      ensures Value() == c
    {
      vmType, cpus, memoryInMB, mounts := c.vmType, c.cpus, c.memoryInMB, c.mounts;
      bootVersion, dataVersion, sshPort, layout := c.bootVersion, c.dataVersion, c.sshPort, c.layout;
    }

    constructor New(opts: Opts, digest: Digest)
      ensures Value() == InitSpec.NewMachineConfig(opts, DEFAULT_SSH_PORT, digest)
    {
      vmType, cpus, memoryInMB := opts.vmm, opts.cpus, opts.memoryInMiB;
      bootVersion, dataVersion, sshPort, layout := opts.bootVersion, opts.dataVersion, DEFAULT_SSH_PORT, LayoutOf(opts.name);
      mounts := [];
      new;
      mounts := CmdLineVolumesToMounts(opts.volumes, digest);
    }

    method GetSSHPort(out: Outcome) returns (ok: bool)
      modifies this`sshPort
      ensures ok <==> !out.portTaken || out.freePort.Some?
      ensures Value() == old(Value()).(sshPort := if out.portTaken && ok then out.freePort.value else old(sshPort))
    {
      if out.portTaken {
        if out.freePort.None? {
          return false;
        }
        sshPort := out.freePort.value;
      }
      ok := true;
    }
  }

  class Workspace {
    var files: map<Path, File>
    var dirs: set<Path>
    var nextDisk: nat

    function Now(): Fs
      reads this
    {
      Fs(files, dirs, nextDisk)
    }

    constructor (fs: Fs)
      ensures Now() == fs
    {
      files, dirs, nextDisk := fs.files, fs.dirs, fs.nextDisk;
    }

    // ---- the calls to the operating system ----

    method RemoveAll(root: Path, spared: set<Path>)
      modifies this
      ensures Now() == InitSpec.RemoveAll(old(Now()), root, spared)
    {
      files := map p | p in files && (root <= p ==> p in spared) :: files[p];
      dirs := set p | p in dirs && (root <= p ==> p in spared);
    }

    method MkdirAll(p: Path, made: nat) returns (ok: bool)
      modifies this`dirs
      ensures ok <==> made >= |p|
      ensures Now() == InitSpec.MkdirAll(old(Now()), p, made)
    {
      ok := made >= |p|;
      dirs := dirs + set k | 0 <= k <= |p| && k <= made :: p[..k];
    }

    method Delete(p: Path, works: bool) returns (ok: bool)
      modifies this`files
      ensures ok == works
      ensures Now() == if works then Remove(old(Now()), p) else old(Now())
    {
      ok := works;
      if works {
        files := files - {p};
      }
    }

    method WriteFile(p: Path, f: File)
      modifies this`files
      ensures Now() == Put(old(Now()), p, f)
    {
      files := files[p := f];
    }

    // ---- migrateData ----

    method MigrateData(vm: string, arch: Arch, out: Outcome)
      modifies this
      ensures Now() == InitSpec.MigrateData(old(Now()), vm, arch, out)
    {
      RemoveAll(["logs"], out.spared);
      RemoveAll(["pids"], out.spared);
      RemoveAll(["config"], out.spared);
      RemoveAll(["socks"], out.spared);
      var oldDisk := OldDisk(arch);
      if oldDisk !in files {
        return;
      }
      var made := MkdirAll(VmDir(vm) + ["data"], out.makeData);
      if !made {
        return;
      }
      if !out.rename {
        return;
      }
      var disk := files[oldDisk];
      files := files - {oldDisk};
      files := files[DataPath(vm) := disk];
      RemoveAll(["data"], out.spared);
    }

    // ---- the image and the disk ----

    method UncompressZSTD(target: Path, version: string, out: Outcome) returns (ok: bool)
      modifies this`files
      ensures ok <==> out.unpack.Whole?
      ensures Now() == InitSpec.UncompressZSTD(old(Now()), target, version, out.unpack)
    {
      ok := out.unpack.Whole?;
      if !out.unpack.Untouched? {
        WriteFile(target, Image(version, ok));
      }
    }

    method CreateAndResizeDisk(p: Path, force: bool, out: Outcome, ghost soFar: Attempt) returns (ok: bool)
      modifies this`files, this`nextDisk
      ensures var did := InitSpec.CreateAndResizeDisk(old(Now()), p, force, out, soFar); Now() == did.fs && ok == did.ok
    {
      if force {
        ok := Delete(p, out.dropDisk);
        if !ok {
          return;
        }
      }
      if p in files {
        return true;
      }
      if !out.openDisk {
        return false;
      }
      ghost var before := files;
      WriteFile(p, Disk(nextDisk, false));
      if out.sizeDisk {
        WriteFile(p, Disk(nextDisk, true));
      }
      assert files == before[p := Disk(nextDisk, out.sizeDisk)];
      nextDisk := nextDisk + 1;
      ok := out.sizeDisk;
    }

    // ---- the rebuild path ----

    method MakeDirs(d: Dirs, made: nat) returns (ok: bool)
      modifies this`dirs
      ensures ok <==> made >= 5
      ensures Now() == InitSpec.MakeDirs(old(Now()), d, made)
    {
      if made < 1 {
        return false;
      }
      ok := MkdirAll(d.logs, |d.logs|);
      if made < 2 {
        return false;
      }
      ok := MkdirAll(d.config, |d.config|);
      if made < 3 {
        return false;
      }
      ok := MkdirAll(d.socks, |d.socks|);
      if made < 4 {
        return false;
      }
      ok := MkdirAll(d.data, |d.data|);
      if made < 5 {
        return false;
      }
      ok := MkdirAll(d.pids, |d.pids|);
    }

    method CreateSSHKey(l: Layout, out: Outcome) returns (ok: bool)
      modifies this`files
      ensures (Now(), ok) == InitSpec.CreateSSHKey(old(Now()), l, out)
    {
      ok := Delete(l.privateKey, out.dropKeys.0);
      if !ok {
        return;
      }
      ok := Delete(l.publicKey, out.dropKeys.1);
      if !ok {
        return;
      }
      if out.keygen || out.keysLeft.0 {
        WriteFile(l.privateKey, Key);
      }
      if out.keygen || out.keysLeft.1 {
        WriteFile(l.publicKey, Key);
      }
      ok := out.keygen;
    }

    method InitializeVM(opts: Opts, out: Outcome, digest: Digest) returns (mc: MachineConfig?)
      modifies this
      ensures var did := InitSpec.InitializeVM(old(Now()), opts, out); Now() == did.fs && (mc != null <==> did.ok)
      ensures mc != null ==> fresh(mc) && mc.Value() == InitSpec.NewMachineConfig(opts, SettledPort(out).value, digest)
    {
      mc := null;
      if opts.vmm != KRUNKIT && opts.vmm != VFKIT {
        return;
      }
      var c := new MachineConfig.New(opts, digest);
      var ok := c.GetSSHPort(out);
      if !ok {
        return;
      }
      ok := MakeDirs(c.layout.dirs, out.dirsMade);
      if !ok {
        return;
      }
      ok := CreateSSHKey(c.layout, out);
      if !ok {
        return;
      }
      ok := UncompressZSTD(c.layout.bootPath, opts.bootVersion, out);
      if !ok {
        return;
      }
      ok := CreateAndResizeDisk(c.layout.dataPath, false, out, NOTHING.(touched := TouchOf(opts.bootVersion, out.unpack)));
      if ok {
        mc := c;
      }
    }

    // ---- the update path ----

    /** On failure the configuration may be left half updated; it is dropped then. */
    method Update(mc: MachineConfig, opts: Opts, out: Outcome, digest: Digest) returns (ok: bool)
      modifies this, mc
      ensures var did := InitSpec.Update(old(Now()), old(mc.Value()), opts, out); Now() == did.fs && ok == did.ok
      ensures ok ==> mc.Value() == Refreshed(old(mc.Value()), opts, digest)
    {
      ghost var soFar := NOTHING.(updating := true);
      mc.vmType := opts.vmm;
      mc.cpus := opts.cpus;
      mc.memoryInMB := opts.memoryInMiB;
      mc.mounts := CmdLineVolumesToMounts(opts.volumes, digest);
      if mc.bootVersion != opts.bootVersion {
        ok := UncompressZSTD(mc.layout.bootPath, opts.bootVersion, out);
        if !ok {
          return;
        }
        mc.bootVersion := opts.bootVersion;
        soFar := soFar.(touched := TouchOf(opts.bootVersion, out.unpack));
      }
      if mc.dataVersion != opts.dataVersion {
        ok := CreateAndResizeDisk(mc.layout.dataPath, true, out, soFar);
        if !ok {
          return;
        }
        mc.dataVersion := opts.dataVersion;
      }
      ok := true;
    }

    // ---- the command ----

    method LoadMachineFromPath(p: Path) returns (mc: MachineConfig?)
      ensures mc != null <==> InitSpec.LoadMachineFromPath(Now(), p).Some?
      ensures mc != null ==> fresh(mc) && mc.Value() == InitSpec.LoadMachineFromPath(Now(), p).value
    {
      mc := null;
      if p in files && files[p].ConfigText? && files[p].config.Some? {
        var c := files[p].config.value;
        if Valid(c, Now()) {
          mc := new MachineConfig.Loaded(c);
        }
      }
    }

    method Write(mc: MachineConfig, out: Outcome) returns (ok: bool)
      modifies this`files
      ensures ok <==> mc.layout.configFile != [] && out.write
      ensures Now() == if ok then Put(old(Now()), mc.layout.configFile, ConfigText(Some(mc.Value()))) else old(Now())
    {
      ok := mc.layout.configFile != [] && out.write;
      if ok {
        WriteFile(mc.layout.configFile, ConfigText(Some(mc.Value())));
      }
    }

    method InitMachine(user: Opts, arch: Arch, out: Outcome, digest: Digest) returns (ok: bool)
      modifies this
      ensures var did := InitSpec.InitMachine(old(Now()), user, arch, out, digest); Now() == did.fs && ok == did.ok
    {
      MigrateData(user.name, arch, out);
      var opts := user.(volumes := user.volumes + [IGN_MNT]);
      var mc := LoadMachineFromPath(ConfigPath(opts.name));
      if mc == null {
        mc := InitializeVM(opts, out, digest);
        if mc == null {
          return false;
        }
      } else {
        ok := Update(mc, opts, out, digest);
        if !ok {
          return;
        }
      }
      ok := Write(mc, out);
    }
  }
}
