/**
 What one `init` does to the workspace, as a function of the files it finds and of
 how each of its steps turns out.  Contents are identities: which version an image
 was unpacked for and whether it is whole, which disk a data disk is.
 */
module InitSpec {
  import opened Basics
  import opened Volumes

  /** Path components below the workspace directory. */
  type Path = seq<string>

  datatype Dirs = Dirs(config: Path, data: Path, pids: Path, logs: Path, socks: Path)

  /** The part of a machine configuration that depends on the machine's name alone. */
  datatype Layout = Layout(
    name: string, dirs: Dirs, bootPath: Path, dataPath: Path, configFile: Path, dataDiskSizeGB: int,
    privateKey: Path, publicKey: Path, remoteUser: string,
    podmanInHost: Path, podmanInGuest: string, restApi: Path, authLocal: Path, authRemote: string,
    gvproxyPid: Path, krunkitPid: Path, vfkitPid: Path, reportURL: string)

  datatype Config = Config(
    vmType: string, cpus: int, memoryInMB: int, mounts: seq<Mount>,
    bootVersion: string, dataVersion: string, sshPort: int, layout: Layout)

  datatype File =
    | Image(version: string, whole: bool)
    | Disk(id: nat, sized: bool)
    | ConfigText(config: Option<Config>) // None: text that is no configuration
    | Key
    | Other

  datatype Fs = Fs(files: map<Path, File>, dirs: set<Path>, nextDisk: nat)

  datatype Arch = Arm64 | Amd64

  datatype Opts = Opts(
    name: string, vmm: string, cpus: int, memoryInMiB: int, volumes: seq<string>,
    bootVersion: string, dataVersion: string)

  // ---- how the steps turn out ----

  datatype Unpack = Untouched | Partial | Whole

  type Port = p: nat | 0 < p witness 1

  datatype Outcome = Outcome(
    spared: set<Path>,          // what removing the old layout fails to remove
    makeData: nat,              // how many components MkdirAll makes before the move
    rename: bool,
    portTaken: bool,            // whether something listens on the default port
    freePort: Option<Port>,     // the port the system gives instead, if any
    dirsMade: nat,              // how many of the five directories are made
    dropKeys: (bool, bool),
    keygen: bool, keysLeft: (bool, bool),
    unpack: Unpack,
    dropDisk: bool, openDisk: bool, sizeDisk: bool,
    write: bool)

  // ---- the file system ----

  function Lookup(fs: Fs, p: Path): Option<File> {
    if p in fs.files then Some(fs.files[p]) else None
  }

  function Put(fs: Fs, p: Path, f: File): Fs {
    fs.(files := fs.files[p := f])
  }

  function Remove(fs: Fs, p: Path): Fs {
    fs.(files := fs.files - {p})
  }

  function RemoveAll(fs: Fs, root: Path, spared: set<Path>): Fs {
    fs.(files := map p | p in fs.files && (root <= p ==> p in spared) :: fs.files[p],
        dirs := set p | p in fs.dirs && (root <= p ==> p in spared))
  }

  function MkdirAll(fs: Fs, p: Path, made: nat): Fs {
    fs.(dirs := fs.dirs + set k | 0 <= k <= |p| && k <= made :: p[..k])
  }

  // ---- the layout of a machine ----

  /** filepath.Join of the workspace and a name of one component: an empty name and a dot leave no trace. */
  function VmDir(vm: string): Path {
    if vm == "" || vm == "." then [] else [vm]
  }

  function ConfigPath(vm: string): Path {
    VmDir(vm) + ["config", "config.json"]
  }

  function BootPath(vm: string): Path {
    VmDir(vm) + ["data", vm + ".img"]
  }

  function DataPath(vm: string): Path {
    VmDir(vm) + ["data", "data.img"]
  }

  function OldDisk(arch: Arch): Path {
    match arch
    case Arm64 => ["data", "libkrun", "default-arm64-data.raw"]
    case Amd64 => ["data", "vfkit", "default-amd64-data.raw"]
  }

  function LayoutOf(vm: string): Layout {
    var data, socks, pids := VmDir(vm) + ["data"], VmDir(vm) + ["socks"], VmDir(vm) + ["pids"];
    Layout(vm, Dirs(VmDir(vm) + ["config"], data, pids, VmDir(vm) + ["logs"], socks),
           BootPath(vm), DataPath(vm), ConfigPath(vm), 100,
           data + ["sshkey"], data + ["sshkey.pub"], "root",
           socks + ["podman-api.sock"], "/run/podman/podman.sock", socks + ["ovm_restapi.socks"],
           socks + ["oo-ssh-agent-host.sock"], "/opt/ssh_auth/oo-ssh-agent.sock",
           pids + ["gvproxy.pid"], pids + ["krunkit.pid"], pids + ["vfkit.pid"], "")
  }

  // ---- loading ----

  predicate ValidDirs(d: Dirs, fs: Fs) {
    && d.config != [] && d.config in fs.dirs && d.data != [] && d.data in fs.dirs
    && d.pids != [] && d.pids in fs.dirs && d.logs != [] && d.logs in fs.dirs
    && d.socks != [] && d.socks in fs.dirs
  }

  predicate ValidLayout(l: Layout, fs: Fs) {
    && l.name != "" && ValidDirs(l.dirs, fs)
    && l.bootPath != [] && l.bootPath in fs.files && l.dataPath != [] && l.dataPath in fs.files
    && l.configFile != []
    && l.privateKey != [] && l.privateKey in fs.files && l.publicKey != [] && l.publicKey in fs.files
    && l.remoteUser != ""
    && l.podmanInHost != [] && l.podmanInGuest != "" && l.restApi != [] && l.authLocal != [] && l.authRemote != ""
  }

  /** The struct validation: required fields are set, and the files and directories named exist. */
  predicate Valid(c: Config, fs: Fs) {
    c.vmType != "" && c.bootVersion != "" && c.dataVersion != "" && c.sshPort != 0 && ValidLayout(c.layout, fs)
  }

  /** Some text at the path is a configuration, whether it is valid or not. */
  function Persisted(fs: Fs, p: Path): Option<Config> {
    var f := Lookup(fs, p);
    if f.Some? && f.value.ConfigText? then f.value.config else None
  }

  function LoadMachineFromPath(fs: Fs, p: Path): Option<Config> {
    var c := Persisted(fs, p);
    if c.Some? && Valid(c.value, fs) then c else None
  }

  // ---- the steps ----

  /** What one init did, apart from what it left alone. */
  datatype Attempt = Attempt(
    moved: Option<File>,       // the old-layout disk that was moved in
    updating: bool,            // a configuration could be loaded
    touched: Option<File>,     // what was written to the boot image
    dropped: bool,             // the data disk was deleted to be made anew
    created: Option<File>,     // the data disk that was created
    wrote: Option<Config>)     // the configuration persisted at the end

  const NOTHING := Attempt(None, false, None, false, None, None)

  function CleanRoots(fs: Fs, spared: set<Path>): Fs {
    RemoveAll(RemoveAll(RemoveAll(RemoveAll(fs, ["logs"], spared), ["pids"], spared), ["config"], spared), ["socks"], spared)
  }

  predicate Moves(fs: Fs, vm: string, arch: Arch, out: Outcome) {
    OldDisk(arch) in fs.files && out.makeData >= |VmDir(vm) + ["data"]| && out.rename
  }

  function MoveOld(fs: Fs, vm: string, arch: Arch, out: Outcome): Fs {
    if OldDisk(arch) !in fs.files then fs
    else
      var f1 := MkdirAll(fs, VmDir(vm) + ["data"], out.makeData);
      if !Moves(fs, vm, arch, out) then f1
      else RemoveAll(Put(Remove(f1, OldDisk(arch)), DataPath(vm), fs.files[OldDisk(arch)]), ["data"], out.spared)
  }

  function MigrateData(fs: Fs, vm: string, arch: Arch, out: Outcome): Fs {
    MoveOld(CleanRoots(fs, out.spared), vm, arch, out)
  }

  function UncompressZSTD(fs: Fs, target: Path, version: string, unpack: Unpack): Fs {
    match unpack
    case Untouched => fs
    case Partial => Put(fs, target, Image(version, false))
    case Whole => Put(fs, target, Image(version, true))
  }

  function TouchOf(version: string, unpack: Unpack): Option<File> {
    match unpack
    case Untouched => None
    case Partial => Some(Image(version, false))
    case Whole => Some(Image(version, true))
  }

  /** What a step returns: the files it leaves, whether it came back without an error, and its part of the record. */
  datatype Did = Did(fs: Fs, ok: bool, attempt: Attempt)

  function CreateAndResizeDisk(fs: Fs, p: Path, force: bool, out: Outcome, a: Attempt): Did {
    if force && !out.dropDisk then Did(fs, false, a)
    else
      var f1 := if force then Remove(fs, p) else fs;
      var a1 := if force then a.(dropped := true) else a;
      if p in f1.files then Did(f1, true, a1)
      else if !out.openDisk then Did(f1, false, a1)
      else
        var disk := Disk(f1.nextDisk, out.sizeDisk);
        Did(Put(f1, p, disk).(nextDisk := f1.nextDisk + 1), out.sizeDisk, a1.(created := Some(disk)))
  }

  function MakeDirs(fs: Fs, d: Dirs, made: nat): Fs {
    var f1 := if made >= 1 then MkdirAll(fs, d.logs, |d.logs|) else fs;
    var f2 := if made >= 2 then MkdirAll(f1, d.config, |d.config|) else f1;
    var f3 := if made >= 3 then MkdirAll(f2, d.socks, |d.socks|) else f2;
    var f4 := if made >= 4 then MkdirAll(f3, d.data, |d.data|) else f3;
    if made >= 5 then MkdirAll(f4, d.pids, |d.pids|) else f4
  }

  function CreateSSHKey(fs: Fs, l: Layout, out: Outcome): (Fs, bool) {
    if !out.dropKeys.0 then (fs, false)
    else
      var f1 := Remove(fs, l.privateKey);
      if !out.dropKeys.1 then (f1, false)
      else
        var f2 := Remove(f1, l.publicKey);
        if out.keygen then (Put(Put(f2, l.privateKey, Key), l.publicKey, Key), true)
        else
          var f3 := if out.keysLeft.0 then Put(f2, l.privateKey, Key) else f2;
          (if out.keysLeft.1 then Put(f3, l.publicKey, Key) else f3, false)
  }

  const DEFAULT_SSH_PORT: Port := 61234

  /** The port GetSSHPort settles on. */
  function SettledPort(out: Outcome): Option<Port> {
    if out.portTaken then out.freePort else Some(DEFAULT_SSH_PORT)
  }

  ghost function NewMachineConfig(opts: Opts, port: int, digest: Digest): Config {
    Config(opts.vmm, opts.cpus, opts.memoryInMiB, MountsOf(opts.volumes, digest),
           opts.bootVersion, opts.dataVersion, port, LayoutOf(opts.name))
  }

  const KRUNKIT := "krunkit"
  const VFKIT := "vfkit"

  /** The rebuild path: everything is made anew, except a data disk that is already there. */
  function InitializeVM(fs: Fs, opts: Opts, out: Outcome): Did {
    var l := LayoutOf(opts.name);
    if (opts.vmm != KRUNKIT && opts.vmm != VFKIT) || SettledPort(out).None? then Did(fs, false, NOTHING)
    else
      var f1 := MakeDirs(fs, l.dirs, out.dirsMade);
      if out.dirsMade < 5 then Did(f1, false, NOTHING)
      else
        var (f2, keys) := CreateSSHKey(f1, l, out);
        if !keys then Did(f2, false, NOTHING)
        else
          var f3 := UncompressZSTD(f2, l.bootPath, opts.bootVersion, out.unpack);
          var a := NOTHING.(touched := TouchOf(opts.bootVersion, out.unpack));
          if !out.unpack.Whole? then Did(f3, false, a) else CreateAndResizeDisk(f3, l.dataPath, false, out, a)
  }

  ghost function Refreshed(c: Config, opts: Opts, digest: Digest): Config {
    c.(vmType := opts.vmm, cpus := opts.cpus, memoryInMB := opts.memoryInMiB, mounts := MountsOf(opts.volumes, digest),
       bootVersion := opts.bootVersion, dataVersion := opts.dataVersion)
  }

  /** The update path: the image and the disk are made anew only if their versions differ. */
  function Update(fs: Fs, c: Config, opts: Opts, out: Outcome): Did {
    var start := NOTHING.(updating := true);
    var reboot := c.bootVersion != opts.bootVersion;
    var f1 := if reboot then UncompressZSTD(fs, c.layout.bootPath, opts.bootVersion, out.unpack) else fs;
    var a := if reboot then start.(touched := TouchOf(opts.bootVersion, out.unpack)) else start;
    if reboot && !out.unpack.Whole? then Did(f1, false, a)
    else if c.dataVersion != opts.dataVersion then CreateAndResizeDisk(f1, c.layout.dataPath, true, out, a)
    else Did(f1, true, a)
  }

  /** The whole command, from the files it finds to the files it leaves. */
  ghost function InitMachine(fs: Fs, user: Opts, arch: Arch, out: Outcome, digest: Digest): Did {
    var moved := Moves(CleanRoots(fs, out.spared), user.name, arch, out);
    var m := MigrateData(fs, user.name, arch, out);
    var opts := user.(volumes := user.volumes + [IGN_MNT]);
    var loaded := LoadMachineFromPath(m, ConfigPath(opts.name));
    var made := if loaded.None? then InitializeVM(m, opts, out) else Update(m, loaded.value, opts, out);
    var c := if loaded.Some? then Refreshed(loaded.value, opts, digest)
             else NewMachineConfig(opts, if SettledPort(out).Some? then SettledPort(out).value else 0, digest);
    var a := if moved then made.attempt.(moved := Lookup(CleanRoots(fs, out.spared), OldDisk(arch))) else made.attempt;
    if !made.ok || c.layout.configFile == [] || !out.write then Did(made.fs, false, a)
    else Did(Put(made.fs, c.layout.configFile, ConfigText(Some(c))), true, a.(wrote := Some(c)))
  }
}
