/**
 The script the guest runs at boot, printed from templates into a growing buffer,
 and the devices the host attaches: what the guest reads out of the script agrees
 with the mounts the host was given.
 */
module MountScript {
  import opened Basics
  import opened ShellWords
  import opened ShellScript
  import opened ScriptPrinter
  import opened Volumes
  import opened EventPrinter

  // ---- the templates ----

  function EchoLine(text: string): string {
    "echo " + Quote(text) + "\n"
  }

  function MkdirLine(dir: string): string {
    "mkdir -p " + Quote(dir) + "\n"
  }

  function MountLine(m: Mount): string {
    "mount -t " + Quote(m.kind) + " " + Quote(m.tag) + " " + Quote(m.target) + " || echo " + Quote(Failing(m)) + "\n"
  }

  function Mounting(m: Mount): string {
    "Mounting " + m.source + (" Tag " + m.tag) + (" to " + m.target)
  }

  function Failing(m: Mount): string {
    "Error: Mounting " + m.source + (" to " + m.target) + " failed"
  }

  function MountText(m: Mount): string {
    "\n" + EchoLine(Mounting(m)) + MkdirLine(m.target) + MountLine(m)
  }

  const SSH_DIR := "/root/.ssh/"
  const SSH_KEYS := SSH_DIR + "authorized_keys"
  const KEY_NOTE := "Writing SSH public key to " + SSH_KEYS
  const ZONE_NOTE := "Setting timezone to "
  const ZONE_DIR := "/usr/share/zoneinfo/"
  const LOCALTIME := "/etc/localtime"
  const MACHINE_NOTE := "Generating podman " + "machine config"
  const MACHINE_FILE := "/etc/containers/podman-machine"

  function KeyText(key: string): string {
    "\n" + EchoLine(KEY_NOTE) + MkdirLine(SSH_DIR) + ("echo " + Quote(key) + " >> " + Quote(SSH_KEYS) + "\n")
  }

  function ZoneText(zone: string): string {
    "\n" + EchoLine(ZONE_NOTE + zone) + ("ln -sf " + Quote(ZONE_DIR + zone) + " " + Quote(LOCALTIME) + "\n")
  }

  function MachineText(vmType: string): string {
    "\n" + EchoLine(MACHINE_NOTE) + ("echo " + Quote(vmType) + " > " + Quote(MACHINE_FILE) + "\n")
  }

  // ---- the builder ----

  /** filepath.Dir of a clean path. */
  function DirOf(path: string): string {
    if path == "" then "" else if path[|path| - 1] == '/' then path[..|path| - 1] else DirOf(path[..|path| - 1])
  }

  predicate Scripted(m: Mount, dir: string) {
    m.kind == VIRTIOFS && !(dir <= m.target)
  }

  function Selected(mounts: seq<Mount>, dir: string): seq<Mount> {
    if mounts == [] then [] else IfScripted(mounts[0], dir) + Selected(mounts[1..], dir)
  }

  function IfScripted(m: Mount, dir: string): seq<Mount> {
    if Scripted(m, dir) then [m] else []
  }

  function MountTexts(mounts: seq<Mount>): string {
    if mounts == [] then "" else MountText(mounts[0]) + MountTexts(mounts[1..])
  }

  function TrimPrefix(s: string, prefix: string): string {
    if prefix <= s then s[|prefix|..] else s
  }

  const ZONE_LINK := "/var/db/timezone/zoneinfo/"

  /** The whole script; `key` is `None` when no identity path is configured. */
  function ScriptText(mounts: seq<Mount>, key: Option<string>, zone: string, vmType: string): string {
    MountTexts(mounts) + ((if key.Some? then KeyText(key.value) else "") + (ZoneText(zone) + MachineText(vmType)))
  }

  /** What the builder reads from the host: the public key file and the link of the local time, if they can be read. */
  datatype Host = Host(publicKey: Option<string>, localtime: Option<string>)

  method MountBuffer(mounts: seq<Mount>, dir: string) returns (buffer: string)
    ensures buffer == MountTexts(Selected(mounts, dir))
  {
    buffer := "";
    for i := 0 to |mounts|
      invariant buffer == MountTexts(Selected(mounts[..i], dir))
    {
      TextsWithOneMore(mounts, i, dir);
      if mounts[i].kind == VIRTIOFS && !(dir <= mounts[i].target) {
        buffer := buffer + MountText(mounts[i]);
      }
    }
    assert mounts[..|mounts|] == mounts;
  }

  class Ignition {
    const file: string
    const identityPath: string
    const vmType: string
    const mounts: seq<Mount>
    var codeBuffer: string

    constructor (file: string, identityPath: string, vmType: string, mounts: seq<Mount>)
      ensures this.file == file && this.identityPath == identityPath && this.vmType == vmType && this.mounts == mounts
      ensures codeBuffer == ""
    {
      this.file, this.identityPath, this.vmType, this.mounts := file, identityPath, vmType, mounts;
      codeBuffer := "";
    }

    /** The mounts the script makes. */
    function ScriptMounts(): seq<Mount> {
      Selected(mounts, DirOf(file))
    }

    /** The key the script hands on. */
    function ScriptKey(host: Host): Option<string> {
      if identityPath != "" && host.publicKey.Some? then Some(TrimSpace(host.publicKey.value)) else None
    }

    method GenerateMountScripts()
      modifies this`codeBuffer
      ensures codeBuffer == old(codeBuffer) + MountTexts(Selected(mounts, DirOf(file)))
    {
      var buffer := MountBuffer(mounts, DirOf(file));
      codeBuffer := codeBuffer + buffer;
    }

    method CopySSHIdPub(host: Host) returns (ok: bool)
      modifies this`codeBuffer
      ensures ok <==> host.publicKey.Some?
      ensures codeBuffer == old(codeBuffer) + if ok then KeyText(TrimSpace(host.publicKey.value)) else ""
    {
      ok := host.publicKey.Some?;
      if ok {
        codeBuffer := codeBuffer + KeyText(TrimSpace(host.publicKey.value));
      }
    }

    method UpdateTimeZone(host: Host) returns (ok: bool)
      modifies this`codeBuffer
      ensures ok <==> host.localtime.Some?
      ensures codeBuffer == old(codeBuffer) + if ok then ZoneText(TrimPrefix(host.localtime.value, ZONE_LINK)) else ""
    {
      ok := host.localtime.Some?;
      if ok {
        codeBuffer := codeBuffer + ZoneText(TrimPrefix(host.localtime.value, ZONE_LINK));
      }
    }

    method GeneratePodmanMachineConfig()
      modifies this`codeBuffer
      ensures codeBuffer == old(codeBuffer) + MachineText(vmType)
    {
      codeBuffer := codeBuffer + MachineText(vmType);
    }

    /** The buffer starts afresh, and the mounts come first. */
    method GenerateConfig(host: Host) returns (ok: bool)
      modifies this`codeBuffer
      ensures ok <==> (identityPath != "" ==> host.publicKey.Some?) && host.localtime.Some?
      ensures ok ==> codeBuffer == ScriptText(ScriptMounts(), ScriptKey(host), TrimPrefix(host.localtime.value, ZONE_LINK), vmType)
      ensures ok ==> forall zone :: ZoneOf(host.localtime.value, zone) && AllTextsPlain(ScriptMounts(), ScriptKey(host), zone, vmType) ==>
                       SetsUp(codeBuffer, ScriptMounts(), ScriptKey(host), zone, vmType)
    {
      codeBuffer := "";
      GenerateMountScripts();
      ghost var mountTexts := MountTexts(Selected(mounts, DirOf(file)));
      assert codeBuffer == mountTexts;
      if identityPath != "" {
        ok := CopySSHIdPub(host);
        if !ok {
          return;
        }
      }
      ok := UpdateTimeZone(host);
      if !ok {
        return;
      }
      GeneratePodmanMachineConfig();
      Assoc(mountTexts, if identityPath != "" then KeyText(TrimSpace(host.publicKey.value)) else "",
            ZoneText(TrimPrefix(host.localtime.value, ZONE_LINK)), MachineText(vmType));
      forall zone | ZoneOf(host.localtime.value, zone) && AllTextsPlain(ScriptMounts(), ScriptKey(host), zone, vmType)
        ensures SetsUp(codeBuffer, ScriptMounts(), ScriptKey(host), zone, vmType)
      {
        ScriptSetsUp(ScriptMounts(), ScriptKey(host), host.localtime.value, zone, vmType);
      }
    }
  }

  lemma {:induction false} SelectedConcat(a: seq<Mount>, b: seq<Mount>, dir: string)
    ensures Selected(a + b, dir) == Selected(a, dir) + Selected(b, dir)
  {
    if a == [] {
      assert a + b == b;
    } else {
      assert (a + b)[1..] == a[1..] + b;
      SelectedConcat(a[1..], b, dir);
      SeqAssoc(IfScripted(a[0], dir), Selected(a[1..], dir), Selected(b, dir));
    }
  }

  lemma SelectedOne(m: Mount, dir: string)
    ensures Selected([m], dir) == if Scripted(m, dir) then [m] else []
  {
    assert [m][1..] == [];
  }

  lemma MountTextsOne(m: Mount)
    ensures MountTexts([m]) == MountText(m)
  {
    assert [m][1..] == [] && MountText(m) + "" == MountText(m);
  }

  lemma {:induction false} MountTextsConcat(a: seq<Mount>, b: seq<Mount>)
    ensures MountTexts(a + b) == MountTexts(a) + MountTexts(b)
  {
    if a == [] {
      assert a + b == b;
    } else {
      assert (a + b)[1..] == a[1..] + b;
      MountTextsConcat(a[1..], b);
      SeqAssoc(MountText(a[0]), MountTexts(a[1..]), MountTexts(b));
    }
  }

  lemma TextsWithOneMore(mounts: seq<Mount>, i: nat, dir: string)
    requires i < |mounts|
    ensures Scripted(mounts[i], dir) ==>
              MountTexts(Selected(mounts[..i + 1], dir)) == MountTexts(Selected(mounts[..i], dir)) + MountText(mounts[i])
    ensures !Scripted(mounts[i], dir) ==> MountTexts(Selected(mounts[..i + 1], dir)) == MountTexts(Selected(mounts[..i], dir))
  {
    var m, before := mounts[i], mounts[..i];
    assert mounts[..i + 1] == before + [m];
    SelectedConcat(before, [m], dir);
    SelectedOne(m, dir);
    if Scripted(m, dir) {
      MountTextsConcat(Selected(before, dir), [m]);
      MountTextsOne(m);
    } else {
      assert Selected(before, dir) + [] == Selected(before, dir);
    }
  }

  lemma Assoc(a: string, b: string, c: string, d: string)
    ensures a + (b + (c + d)) == a + b + c + d
    ensures a + ("" + (c + d)) == a + c + d
  {
  }

  // ---- what the guest reads ----

  function Run(words: seq<string>): Command {
    Command(Always, words, NoRedirect)
  }

  function MountCommands(m: Mount): seq<Command> {
    [Run(["echo", Mounting(m)]), Run(["mkdir", "-p", m.target]), Run(["mount", "-t", m.kind, m.tag, m.target]),
     Command(OrElse, ["echo", Failing(m)], NoRedirect)]
  }

  function AllMountCommands(mounts: seq<Mount>): seq<Command> {
    if mounts == [] then [] else MountCommands(mounts[0]) + AllMountCommands(mounts[1..])
  }

  function KeyCommands(key: string): seq<Command> {
    [Run(["echo", KEY_NOTE]), Run(["mkdir", "-p", SSH_DIR]), Command(Always, ["echo", key], Append(SSH_KEYS))]
  }

  function ZoneCommands(zone: string): seq<Command> {
    [Run(["echo", ZONE_NOTE + zone]), Run(["ln", "-sf", ZONE_DIR + zone, LOCALTIME])]
  }

  function MachineCommands(vmType: string): seq<Command> {
    [Run(["echo", MACHINE_NOTE]), Command(Always, ["echo", vmType], Write(MACHINE_FILE))]
  }

  function ScriptCommands(mounts: seq<Mount>, key: Option<string>, zone: string, vmType: string): seq<Command> {
    AllMountCommands(mounts) + ((if key.Some? then KeyCommands(key.value) else []) + (ZoneCommands(zone) + MachineCommands(vmType)))
  }

  /** Every text that is printed for the mount means itself between double quotes. */
  predicate Readable(m: Mount) {
    Plain(Mounting(m)) && Plain(m.target) && Plain(m.kind) && Plain(m.tag) && Plain(Failing(m))
  }

  predicate AllReadable(mounts: seq<Mount>) {
    forall m :: m in mounts ==> Readable(m)
  }

  // ---- plain texts ----

  /** No character of the text has a meaning between double quotes. */
  predicate Ordinary(w: string) {
    forall i :: 0 <= i < |w| ==> w[i] != '"' && w[i] != '$' && w[i] != '`' && w[i] != '\\'
  }

  lemma OrdinaryIsPlain(w: string)
    requires Ordinary(w)
    ensures Plain(w)
  {
  }

  lemma PlainConcat(a: string, b: string)
    requires Plain(a) && Plain(b)
    ensures Plain(a + b)
  {
    var w := a + b;
    forall i | 0 <= i < |w| && w[i] == '\\' ensures i + 1 < |w| && w[i + 1] != '\\' && w[i + 1] != '\n' {
      if i < |a| { assert a[i] == '\\'; } else { assert b[i - |a|] == '\\'; }
    }
  }

  lemma SshKeysIsPlain()
    ensures Plain(SSH_DIR) && Plain(SSH_KEYS)
  {
    OrdinaryIsPlain(SSH_DIR);
    OrdinaryIsPlain("authorized_keys");
    PlainConcat(SSH_DIR, "authorized_keys");
  }

  lemma KeyNoteIsPlain()
    ensures Plain(KEY_NOTE)
  {
    SshKeysIsPlain();
    OrdinaryIsPlain("Writing SSH public key to ");
    PlainConcat("Writing SSH public key to ", SSH_KEYS);
  }

  lemma LocaltimeIsPlain()
    ensures Plain(LOCALTIME)
  {
    OrdinaryIsPlain(LOCALTIME);
  }

  lemma MachineNoteIsPlain()
    ensures Plain(MACHINE_NOTE)
  {
    OrdinaryIsPlain("Generating podman ");
    OrdinaryIsPlain("machine config");
    PlainConcat("Generating podman ", "machine config");
  }

  lemma MachineFileIsPlain()
    ensures Plain(MACHINE_FILE)
  {
    OrdinaryIsPlain(MACHINE_FILE);
  }

  /** It is enough that the fields of the mount are plain. */
  lemma PlainMountIsReadable(m: Mount)
    requires Plain(m.source) && Plain(m.tag) && Plain(m.target) && Plain(m.kind)
    ensures Readable(m)
  {
    OrdinaryIsPlain("Mounting ");
    OrdinaryIsPlain(" Tag ");
    OrdinaryIsPlain(" to ");
    PlainConcat(" Tag ", m.tag);
    PlainConcat(" to ", m.target);
    PlainConcat("Mounting ", m.source);
    PlainConcat("Mounting " + m.source, " Tag " + m.tag);
    PlainConcat("Mounting " + m.source + (" Tag " + m.tag), " to " + m.target);
    FailingIsPlain(m);
  }

  lemma FailingIsPlain(m: Mount)
    requires Plain(m.source) && Plain(m.target)
    ensures Plain(Failing(m))
  {
    OrdinaryIsPlain("Error: Mounting ");
    OrdinaryIsPlain(" to ");
    OrdinaryIsPlain(" failed");
    PlainConcat(" to ", m.target);
    PlainConcat("Error: Mounting ", m.source);
    PlainConcat("Error: Mounting " + m.source, " to " + m.target);
    PlainConcat("Error: Mounting " + m.source + (" to " + m.target), " failed");
  }

  lemma OrdinaryFront(a: string, b: string)
    requires Ordinary(a)
    ensures Plain(a + b) <==> Plain(b)
  {
    var w := a + b;
    if Plain(b) {
      OrdinaryIsPlain(a);
      PlainConcat(a, b);
    }
    if Plain(w) {
      assert forall c :: c in b ==> c in w;
      forall i | 0 <= i < |b| && b[i] == '\\' ensures i + 1 < |b| && b[i + 1] != '\\' && b[i + 1] != '\n' {
        assert w[|a| + i] == b[i] && w[|a| + i + 1..] == b[i + 1..];
      }
    }
  }

  // ---- the templates as lines ----

  const ECHO := ["echo"]
  const MKDIR := ["mkdir", "-p"]
  const MOUNT := ["mount", "-t"]
  const LINK := ["ln", "-sf"]

  function MountLines(m: Mount): seq<Line> {
    [Empty, Simple(ECHO, [], Mounting(m)), Simple(MKDIR, [], m.target), Fallback(MOUNT, [m.kind, m.tag, m.target], ECHO, Failing(m))]
  }

  function KeyLines(key: string): seq<Line> {
    [Empty, Simple(ECHO, [], KEY_NOTE), Simple(MKDIR, [], SSH_DIR), Redirected(ECHO, [key], true, SSH_KEYS)]
  }

  function ZoneLines(zone: string): seq<Line> {
    [Empty, Simple(ECHO, [], ZONE_NOTE + zone), Simple(LINK, [ZONE_DIR + zone], LOCALTIME)]
  }

  function MachineLines(vmType: string): seq<Line> {
    [Empty, Simple(ECHO, [], MACHINE_NOTE), Redirected(ECHO, [vmType], false, MACHINE_FILE)]
  }

  function AllMountLines(mounts: seq<Mount>): seq<Line> {
    if mounts == [] then [] else MountLines(mounts[0]) + AllMountLines(mounts[1..])
  }

  function ScriptLines(mounts: seq<Mount>, key: Option<string>, zone: string, vmType: string): seq<Line> {
    AllMountLines(mounts) + ((if key.Some? then KeyLines(key.value) else []) + (ZoneLines(zone) + MachineLines(vmType)))
  }

  lemma BareTwo(a: string, b: string)
    ensures BareText([a]) == a + " " && BareText([a, b]) == a + " " + (b + " ")
  {
    assert [a][1..] == [] && [a, b][1..] == [b] && [b][1..] == [];
    assert BareText([a]) == a + " " + "" && BareText([b]) == b + " " + "";
  }

  lemma BareWordsAre()
    ensures AllSafe(ECHO) && BareText(ECHO) == "echo "
    ensures AllSafe(MKDIR) && BareText(MKDIR) == "mkdir -p "
    ensures AllSafe(MOUNT) && BareText(MOUNT) == "mount -t "
    ensures AllSafe(LINK) && BareText(LINK) == "ln -sf "
  {
    BareTwo("echo", "");
    BareTwo("mkdir", "-p");
    BareTwo("mount", "-t");
    BareTwo("ln", "-sf");
  }

  lemma EchoIsLine(text: string)
    ensures EchoLine(text) == LineText(Simple(ECHO, [], text))
  {
    BareWordsAre();
    assert QuotedText([]) + (Quote(text) + "\n") == Quote(text) + "\n";
  }

  lemma MkdirIsLine(dir: string)
    ensures MkdirLine(dir) == LineText(Simple(MKDIR, [], dir))
  {
    BareWordsAre();
    assert QuotedText([]) + (Quote(dir) + "\n") == Quote(dir) + "\n";
  }

  lemma QuotedOne(a: string)
    ensures QuotedText([a]) == Quote(a) + " "
  {
    assert [a][1..] == [];
    assert QuotedText([a]) == Quote(a) + " " + "";
  }

  lemma QuotedThree(a: string, b: string, c: string)
    ensures QuotedText([a, b, c]) == Quote(a) + " " + (Quote(b) + " " + (Quote(c) + " "))
  {
    assert [a, b, c][1..] == [b, c] && [b, c][1..] == [c];
    QuotedOne(c);
  }

  lemma MountIsLine(m: Mount)
    ensures MountLine(m) == LineText(Fallback(MOUNT, [m.kind, m.tag, m.target], ECHO, Failing(m)))
  {
    BareWordsAre();
    QuotedThree(m.kind, m.tag, m.target);
    assert " || echo " == " " + "|| " + "echo ";
    MountRegroup("mount -t ", Quote(m.kind), Quote(m.tag), Quote(m.target), "|| ", "echo ", Quote(Failing(m)) + "\n");
  }

  lemma MountRegroup(a: string, k: string, g: string, t: string, bars: string, echo: string, f: string)
    ensures a + k + " " + g + " " + t + (" " + bars + echo) + f
            == a + ((k + " " + (g + " " + (t + " "))) + (bars + (echo + f)))
  {
  }

  lemma OneLine(l: Line)
    ensures Text([l]) == LineText(l) && Commands([l]) == LineCommands(l)
    ensures AllSound([l]) <==> Sound(l)
    ensures AllLinesPlain([l]) <==> AllPlain(LineWords(l))
  {
    assert [l][1..] == [] && l in [l];
    assert LineText(l) + "" == LineText(l) && LineCommands(l) + [] == LineCommands(l);
  }

  lemma AddLine(l: Line, ls: seq<Line>)
    ensures Text([l] + ls) == LineText(l) + Text(ls) && Commands([l] + ls) == LineCommands(l) + Commands(ls)
    ensures AllSound([l] + ls) <==> Sound(l) && AllSound(ls)
    ensures AllLinesPlain([l] + ls) <==> AllPlain(LineWords(l)) && AllLinesPlain(ls)
  {
    OneLine(l);
    TextOfConcat([l], ls);
    CommandsOfConcat([l], ls);
    LinesOfConcat([l], ls);
  }

  lemma ThreeLines(a: Line, b: Line, c: Line)
    ensures Text([a, b, c]) == LineText(a) + LineText(b) + LineText(c)
    ensures Commands([a, b, c]) == LineCommands(a) + LineCommands(b) + LineCommands(c)
    ensures AllSound([a, b, c]) <==> Sound(a) && Sound(b) && Sound(c)
    ensures AllLinesPlain([a, b, c]) <==> AllPlain(LineWords(a)) && AllPlain(LineWords(b)) && AllPlain(LineWords(c))
  {
    assert [a, b, c] == [a] + ([b] + [c]);
    AddLine(a, [b] + [c]);
    AddLine(b, [c]);
    OneLine(c);
    SeqAssoc(LineText(a), LineText(b), LineText(c));
    SeqAssoc(LineCommands(a), LineCommands(b), LineCommands(c));
  }

  lemma FourLines(a: Line, b: Line, c: Line, d: Line)
    ensures Text([a, b, c, d]) == LineText(a) + (LineText(b) + LineText(c) + LineText(d))
    ensures Commands([a, b, c, d]) == LineCommands(a) + (LineCommands(b) + LineCommands(c) + LineCommands(d))
    ensures AllSound([a, b, c, d]) <==> Sound(a) && Sound(b) && Sound(c) && Sound(d)
    ensures AllLinesPlain([a, b, c, d]) <==>
              AllPlain(LineWords(a)) && AllPlain(LineWords(b)) && AllPlain(LineWords(c)) && AllPlain(LineWords(d))
  {
    assert [a, b, c, d] == [a] + [b, c, d];
    AddLine(a, [b, c, d]);
    ThreeLines(b, c, d);
  }

  lemma MountTextIsLines(m: Mount)
    ensures MountText(m) == Text(MountLines(m)) && MountCommands(m) == Commands(MountLines(m))
  {
    var ls := MountLines(m);
    FourLines(ls[0], ls[1], ls[2], ls[3]);
    EchoIsLine(Mounting(m));
    MkdirIsLine(m.target);
    MountIsLine(m);
    FourAssoc("\n", EchoLine(Mounting(m)), MkdirLine(m.target), MountLine(m));
    MountCommandsAreLines(m, LineCommands(ls[0]), LineCommands(ls[1]), LineCommands(ls[2]), LineCommands(ls[3]));
  }

  lemma MountCommandsAreLines(m: Mount, a: seq<Command>, b: seq<Command>, c: seq<Command>, d: seq<Command>)
    requires a == LineCommands(Empty) && b == LineCommands(Simple(ECHO, [], Mounting(m)))
    requires c == LineCommands(Simple(MKDIR, [], m.target))
    requires d == LineCommands(Fallback(MOUNT, [m.kind, m.tag, m.target], ECHO, Failing(m)))
    ensures MountCommands(m) == a + (b + c + d)
  {
    NoteCommand(Mounting(m));
    MkdirCommand(m.target);
    MountLineCommands(m);
  }

  lemma FourAssoc<T>(a: seq<T>, b: seq<T>, c: seq<T>, d: seq<T>)
    ensures a + b + c + d == a + (b + c + d)
  {
  }

  lemma MkdirCommand(dir: string)
    ensures LineCommands(Simple(MKDIR, [], dir)) == [Run(["mkdir", "-p", dir])]
  {
    assert MKDIR + [] + [dir] == ["mkdir", "-p", dir];
  }

  lemma MountLineCommands(m: Mount)
    ensures LineCommands(Fallback(MOUNT, [m.kind, m.tag, m.target], ECHO, Failing(m)))
            == [Run(["mount", "-t", m.kind, m.tag, m.target]), Command(OrElse, ["echo", Failing(m)], NoRedirect)]
  {
    assert MOUNT + [m.kind, m.tag, m.target] == ["mount", "-t", m.kind, m.tag, m.target];
    assert ECHO + [Failing(m)] == ["echo", Failing(m)];
  }

  /** The line that writes a text to a file. */
  lemma EchoTo(text: string, file: string)
    ensures "echo " + Quote(text) + " >> " + Quote(file) + "\n" == LineText(Redirected(ECHO, [text], true, file))
    ensures "echo " + Quote(text) + " > " + Quote(file) + "\n" == LineText(Redirected(ECHO, [text], false, file))
    ensures ECHO + [text] == ["echo", text]
  {
    BareWordsAre();
    QuotedOne(text);
    assert " >> " == " " + ">> " && " > " == " " + "> ";
  }

  lemma NoteCommand(text: string)
    ensures LineCommands(Simple(ECHO, [], text)) == [Run(["echo", text])]
  {
    assert ECHO + [] + [text] == ["echo", text];
  }

  lemma KeyTextIsLines(key: string)
    ensures KeyText(key) == Text(KeyLines(key)) && KeyCommands(key) == Commands(KeyLines(key))
  {
    NoteThenEcho(KEY_NOTE, SSH_DIR, key, SSH_KEYS);
  }

  lemma NoteThenEcho(note: string, dir: string, text: string, file: string)
    ensures var ls := [Empty, Simple(ECHO, [], note), Simple(MKDIR, [], dir), Redirected(ECHO, [text], true, file)];
            && Text(ls) == "\n" + EchoLine(note) + MkdirLine(dir) + ("echo " + Quote(text) + " >> " + Quote(file) + "\n")
            && Commands(ls) == [Run(["echo", note]), Run(["mkdir", "-p", dir]), Command(Always, ["echo", text], Append(file))]
  {
    var last := Redirected(ECHO, [text], true, file);
    FourLines(Empty, Simple(ECHO, [], note), Simple(MKDIR, [], dir), last);
    EchoIsLine(note);
    MkdirIsLine(dir);
    EchoTo(text, file);
    FourAssoc("\n", EchoLine(note), MkdirLine(dir), LineText(last));
    NoteCommand(note);
    MkdirCommand(dir);
  }

  lemma ZoneTextIsLines(zone: string)
    ensures ZoneText(zone) == Text(ZoneLines(zone)) && ZoneCommands(zone) == Commands(ZoneLines(zone))
  {
    var ls := ZoneLines(zone);
    ThreeLines(ls[0], ls[1], ls[2]);
    EchoIsLine(ZONE_NOTE + zone);
    NoteCommand(ZONE_NOTE + zone);
    LinkIsLine(ZONE_DIR + zone, LOCALTIME);
  }

  lemma LinkIsLine(from: string, to: string)
    ensures "ln -sf " + Quote(from) + " " + Quote(to) + "\n" == LineText(Simple(LINK, [from], to))
    ensures LineCommands(Simple(LINK, [from], to)) == [Run(["ln", "-sf", from, to])]
  {
    BareWordsAre();
    QuotedOne(from);
    assert LINK + [from] + [to] == ["ln", "-sf", from, to];
  }

  lemma MachineTextIsLines(vmType: string)
    ensures MachineText(vmType) == Text(MachineLines(vmType)) && MachineCommands(vmType) == Commands(MachineLines(vmType))
  {
    var ls := MachineLines(vmType);
    ThreeLines(ls[0], ls[1], ls[2]);
    EchoIsLine(MACHINE_NOTE);
    NoteCommand(MACHINE_NOTE);
    EchoTo(vmType, MACHINE_FILE);
  }

  lemma {:induction false} MountTextsAreLines(mounts: seq<Mount>)
    ensures MountTexts(mounts) == Text(AllMountLines(mounts)) && AllMountCommands(mounts) == Commands(AllMountLines(mounts))
  {
    if mounts != [] {
      MountTextIsLines(mounts[0]);
      MountTextsAreLines(mounts[1..]);
      TextOfConcat(MountLines(mounts[0]), AllMountLines(mounts[1..]));
      CommandsOfConcat(MountLines(mounts[0]), AllMountLines(mounts[1..]));
    }
  }

  lemma TailIsLines(key: Option<string>, zone: string, vmType: string)
    ensures (if key.Some? then KeyText(key.value) else "") + (ZoneText(zone) + MachineText(vmType))
            == Text((if key.Some? then KeyLines(key.value) else []) + (ZoneLines(zone) + MachineLines(vmType)))
    ensures (if key.Some? then KeyCommands(key.value) else []) + (ZoneCommands(zone) + MachineCommands(vmType))
            == Commands((if key.Some? then KeyLines(key.value) else []) + (ZoneLines(zone) + MachineLines(vmType)))
  {
    var keys := if key.Some? then KeyLines(key.value) else [];
    if key.Some? { KeyTextIsLines(key.value); }
    ZoneTextIsLines(zone);
    MachineTextIsLines(vmType);
    TextOfConcat(ZoneLines(zone), MachineLines(vmType));
    CommandsOfConcat(ZoneLines(zone), MachineLines(vmType));
    TextOfConcat(keys, ZoneLines(zone) + MachineLines(vmType));
    CommandsOfConcat(keys, ZoneLines(zone) + MachineLines(vmType));
  }

  lemma ScriptIsLines(mounts: seq<Mount>, key: Option<string>, zone: string, vmType: string)
    ensures ScriptText(mounts, key, zone, vmType) == Text(ScriptLines(mounts, key, zone, vmType))
    ensures ScriptCommands(mounts, key, zone, vmType) == Commands(ScriptLines(mounts, key, zone, vmType))
  {
    var tail := (if key.Some? then KeyLines(key.value) else []) + (ZoneLines(zone) + MachineLines(vmType));
    MountTextsAreLines(mounts);
    TailIsLines(key, zone, vmType);
    TextOfConcat(AllMountLines(mounts), tail);
    CommandsOfConcat(AllMountLines(mounts), tail);
  }

  // ---- which lines are plain ----

  lemma LinesOfConcat(a: seq<Line>, b: seq<Line>)
    ensures AllSound(a + b) <==> AllSound(a) && AllSound(b)
    ensures AllLinesPlain(a + b) <==> AllLinesPlain(a) && AllLinesPlain(b)
  {
    assert forall l :: l in a + b <==> l in a || l in b;
  }

  lemma NotePlain(bare: seq<string>, w: string)
    ensures AllPlain(LineWords(Simple(bare, [], w))) <==> Plain(w)
    ensures AllPlain([w]) <==> Plain(w)
  {
    assert [] + [w] == [w] && w in [w];
  }

  lemma FourPlain(a: string, b: string, c: string, d: string)
    ensures AllPlain([a, b, c] + [d]) <==> Plain(a) && Plain(b) && Plain(c) && Plain(d)
  {
    var ws := [a, b, c] + [d];
    assert ws[0] in ws && ws[1] in ws && ws[2] in ws && ws[3] in ws;
  }

  lemma TwoPlain(a: string, b: string)
    ensures AllPlain([a] + [b]) <==> Plain(a) && Plain(b)
  {
    var ws := [a] + [b];
    assert ws[0] in ws && ws[1] in ws;
  }

  lemma MountLinesPlain(m: Mount)
    ensures AllSound(MountLines(m)) && (AllLinesPlain(MountLines(m)) <==> Readable(m))
  {
    var ls := MountLines(m);
    FourLines(ls[0], ls[1], ls[2], ls[3]);
    BareWordsAre();
    NotePlain(ECHO, Mounting(m));
    NotePlain(MKDIR, m.target);
    FourPlain(m.kind, m.tag, m.target, Failing(m));
  }

  lemma KeyLinesPlain(key: string)
    ensures AllSound(KeyLines(key)) && (AllLinesPlain(KeyLines(key)) <==> Plain(key))
  {
    var ls := KeyLines(key);
    FourLines(ls[0], ls[1], ls[2], ls[3]);
    BareWordsAre();
    SshKeysIsPlain();
    KeyNoteIsPlain();
    NotePlain(ECHO, KEY_NOTE);
    NotePlain(MKDIR, SSH_DIR);
    NotePlain(ECHO, key);
  }

  lemma ZoneTextsPlain(zone: string)
    ensures Plain(ZONE_NOTE + zone) <==> Plain(zone)
    ensures Plain(ZONE_DIR + zone) <==> Plain(zone)
  {
    OrdinaryFront(ZONE_NOTE, zone);
    OrdinaryFront(ZONE_DIR, zone);
  }

  lemma ZoneLinesPlain(zone: string)
    ensures AllSound(ZoneLines(zone)) && (AllLinesPlain(ZoneLines(zone)) <==> Plain(zone))
  {
    var ls := ZoneLines(zone);
    ThreeLines(ls[0], ls[1], ls[2]);
    BareWordsAre();
    LocaltimeIsPlain();
    ZoneTextsPlain(zone);
    NotePlain(ECHO, ZONE_NOTE + zone);
    TwoPlain(ZONE_DIR + zone, LOCALTIME);
  }

  lemma MachineLinesPlain(vmType: string)
    ensures AllSound(MachineLines(vmType)) && (AllLinesPlain(MachineLines(vmType)) <==> Plain(vmType))
  {
    var ls := MachineLines(vmType);
    ThreeLines(ls[0], ls[1], ls[2]);
    BareWordsAre();
    MachineNoteIsPlain();
    MachineFileIsPlain();
    NotePlain(ECHO, MACHINE_NOTE);
    NotePlain(ECHO, vmType);
  }

  lemma {:induction false} AllMountLinesPlain(mounts: seq<Mount>)
    ensures AllSound(AllMountLines(mounts)) && (AllLinesPlain(AllMountLines(mounts)) <==> AllReadable(mounts))
  {
    if mounts != [] {
      MountLinesPlain(mounts[0]);
      AllMountLinesPlain(mounts[1..]);
      LinesOfConcat(MountLines(mounts[0]), AllMountLines(mounts[1..]));
      assert forall m :: m in mounts <==> m == mounts[0] || m in mounts[1..];
    }
  }

  // ---- main results: the script ----

  /**
   The guest reads the generated script as exactly the commands meant, in order and with
   their redirections, if and only if every text put into it is plain.
   */
  lemma ScriptIsRead(mounts: seq<Mount>, key: Option<string>, zone: string, vmType: string)
    ensures ReadScript(ScriptText(mounts, key, zone, vmType)) == Some(ScriptCommands(mounts, key, zone, vmType))
            <==> AllReadable(mounts) && (key.Some? ==> Plain(key.value)) && Plain(zone) && Plain(vmType)
  {
    var keys := if key.Some? then KeyLines(key.value) else [];
    ScriptIsLines(mounts, key, zone, vmType);
    AllMountLinesPlain(mounts);
    if key.Some? { KeyLinesPlain(key.value); }
    ZoneLinesPlain(zone);
    MachineLinesPlain(vmType);
    LinesOfConcat(ZoneLines(zone), MachineLines(vmType));
    LinesOfConcat(keys, ZoneLines(zone) + MachineLines(vmType));
    LinesOfConcat(AllMountLines(mounts), keys + (ZoneLines(zone) + MachineLines(vmType)));
    ScriptRoundTrip(ScriptLines(mounts, key, zone, vmType));
  }

  // ---- main results: what the guest sets up ----

  predicate HasAt(cs: seq<Command>, i: nat, part: seq<Command>) {
    i + |part| <= |cs| && cs[i..i + |part|] == part
  }

  /** The script can be read, and the commands are among those it holds, one right after the other. */
  ghost predicate Runs(script: string, part: seq<Command>) {
    ReadScript(script).Some? && exists i: nat :: HasAt(ReadScript(script).value, i, part)
  }

  lemma HasInConcat(a: seq<Command>, b: seq<Command>, i: nat, part: seq<Command>)
    ensures HasAt(a, i, part) ==> HasAt(a + b, i, part)
    ensures HasAt(b, i, part) ==> HasAt(a + b, |a| + i, part)
  {
    if HasAt(a, i, part) { assert (a + b)[i..i + |part|] == a[i..i + |part|]; }
    if HasAt(b, i, part) { assert (a + b)[|a| + i..|a| + i + |part|] == b[i..i + |part|]; }
  }

  /** The time zone a link of the local time stands for: what follows the directory of the zones, or all of a link that leads elsewhere. */
  predicate ZoneOf(link: string, zone: string) {
    link == "/var/db/timezone/zoneinfo/" + zone || (!("/var/db/timezone/zoneinfo/" <= link) && zone == link)
  }

  lemma TrimPrefixMeaning(s: string, prefix: string)
    ensures TrimPrefix(prefix + s, prefix) == s
    ensures !(prefix <= s) ==> TrimPrefix(s, prefix) == s
  {
    assert (prefix + s)[|prefix|..] == s;
  }

  lemma ZoneOfLink(link: string, zone: string)
    requires ZoneOf(link, zone)
    ensures TrimPrefix(link, ZONE_LINK) == zone
  {
    TrimPrefixMeaning(zone, ZONE_LINK);
  }

  /** The host's key is appended to the keys of root. */
  ghost predicate TakesKey(script: string, key: string) {
    Runs(script, [Command(Always, ["mkdir", "-p", "/root/.ssh/"], NoRedirect),
                  Command(Always, ["echo", key], Append("/root/.ssh/" + "authorized_keys"))])
  }

  ghost predicate TakesZone(script: string, zone: string) {
    Runs(script, [Command(Always, ["ln", "-sf", "/usr/share/zoneinfo/" + zone, "/etc/localtime"], NoRedirect)])
  }

  ghost predicate TakesVmType(script: string, vmType: string) {
    Runs(script, [Command(Always, ["echo", vmType], Write("/etc/containers/podman-machine"))])
  }

  /** The directory is made, then the mount, and only a mount that fails is complained about. */
  ghost predicate TakesMount(script: string, m: Mount) {
    Runs(script, [Command(Always, ["mkdir", "-p", m.target], NoRedirect),
                  Command(Always, ["mount", "-t", m.kind, m.tag, m.target], NoRedirect),
                  Command(OrElse, ["echo", "Error: Mounting " + m.source + (" to " + m.target) + " failed"], NoRedirect)])
  }

  /** The key handed on is the text of the public key file without the white space around it, and only if an identity is configured. */
  lemma KeyHandedOn(ignition: Ignition, host: Host) returns (before: string, after: string)
    ensures ignition.ScriptKey(host).Some? <==> ignition.identityPath != "" && host.publicKey.Some?
    ensures var key := ignition.ScriptKey(host);
            key.Some? ==>
              && host.publicKey.value == before + key.value + after && AllSpace(before) && AllSpace(after)
              && (key.value != "" ==> !IsSpace(key.value[0]) && !IsSpace(key.value[|key.value| - 1]))
  {
    before, after := "", "";
    if ignition.ScriptKey(host).Some? {
      before, after := TrimSpaceMeaning(host.publicKey.value);
    }
  }

  /** Every text the builder puts into the script is plain. */
  predicate AllTextsPlain(mounts: seq<Mount>, key: Option<string>, zone: string, vmType: string) {
    AllReadable(mounts) && (key.Some? ==> Plain(key.value)) && Plain(zone) && Plain(vmType)
  }

  lemma KeyIsTaken(mounts: seq<Mount>, key: string, zone: string, vmType: string)
    requires AllTextsPlain(mounts, Some(key), zone, vmType)
    ensures TakesKey(ScriptText(mounts, Some(key), zone, vmType), key)
  {
    ScriptIsRead(mounts, Some(key), zone, vmType);
    var cs := KeyCommands(key);
    assert HasAt(cs, 1, cs[1..]);
    HasInConcat(cs, ZoneCommands(zone) + MachineCommands(vmType), 1, cs[1..]);
    HasInConcat(AllMountCommands(mounts), cs + (ZoneCommands(zone) + MachineCommands(vmType)), 1, cs[1..]);
  }

  lemma ZoneIsTaken(mounts: seq<Mount>, key: Option<string>, zone: string, vmType: string)
    requires AllTextsPlain(mounts, key, zone, vmType)
    ensures TakesZone(ScriptText(mounts, key, zone, vmType), zone)
  {
    ScriptIsRead(mounts, key, zone, vmType);
    var cs, keys := ZoneCommands(zone), if key.Some? then KeyCommands(key.value) else [];
    assert HasAt(cs, 1, cs[1..]);
    HasInConcat(cs, MachineCommands(vmType), 1, cs[1..]);
    HasInConcat(keys, cs + MachineCommands(vmType), 1, cs[1..]);
    HasInConcat(AllMountCommands(mounts), keys + (cs + MachineCommands(vmType)), |keys| + 1, cs[1..]);
  }

  lemma VmTypeIsTaken(mounts: seq<Mount>, key: Option<string>, zone: string, vmType: string)
    requires AllTextsPlain(mounts, key, zone, vmType)
    ensures TakesVmType(ScriptText(mounts, key, zone, vmType), vmType)
  {
    ScriptIsRead(mounts, key, zone, vmType);
    var cs, keys := MachineCommands(vmType), if key.Some? then KeyCommands(key.value) else [];
    assert HasAt(cs, 1, cs[1..]);
    HasInConcat(ZoneCommands(zone), cs, 1, cs[1..]);
    HasInConcat(keys, ZoneCommands(zone) + cs, |ZoneCommands(zone)| + 1, cs[1..]);
    HasInConcat(AllMountCommands(mounts), keys + (ZoneCommands(zone) + cs), |keys| + (|ZoneCommands(zone)| + 1), cs[1..]);
  }

  lemma {:induction false} CommandsOfMount(mounts: seq<Mount>, m: Mount) returns (i: nat)
    requires m in mounts
    ensures HasAt(AllMountCommands(mounts), i, MountCommands(m)[1..])
  {
    var cs, rest := MountCommands(mounts[0]), AllMountCommands(mounts[1..]);
    if m == mounts[0] {
      i := 1;
      assert HasAt(cs, 1, cs[1..]);
      HasInConcat(cs, rest, 1, cs[1..]);
    } else {
      i := CommandsOfMount(mounts[1..], m);
      HasInConcat(cs, rest, i, MountCommands(m)[1..]);
      i := |cs| + i;
    }
  }

  lemma MountIsTaken(mounts: seq<Mount>, key: Option<string>, zone: string, vmType: string, m: Mount)
    requires AllTextsPlain(mounts, key, zone, vmType) && m in mounts
    ensures TakesMount(ScriptText(mounts, key, zone, vmType), m)
  {
    ScriptIsRead(mounts, key, zone, vmType);
    var i := CommandsOfMount(mounts, m);
    var tail := (if key.Some? then KeyCommands(key.value) else []) + (ZoneCommands(zone) + MachineCommands(vmType));
    HasInConcat(AllMountCommands(mounts), tail, i, MountCommands(m)[1..]);
  }

  /** What the guest does once it reads the script: the zone, the VM type, the key if there is one, and every mount. */
  ghost predicate SetsUp(script: string, mounts: seq<Mount>, key: Option<string>, zone: string, vmType: string) {
    && TakesZone(script, zone) && TakesVmType(script, vmType)
    && (key.Some? ==> TakesKey(script, key.value))
    && forall m :: m in mounts ==> TakesMount(script, m)
  }

  lemma ScriptSetsUp(mounts: seq<Mount>, key: Option<string>, link: string, zone: string, vmType: string)
    requires AllTextsPlain(mounts, key, zone, vmType) && ZoneOf(link, zone)
    ensures SetsUp(ScriptText(mounts, key, TrimPrefix(link, ZONE_LINK), vmType), mounts, key, zone, vmType)
  {
    ZoneOfLink(link, zone);
    ZoneIsTaken(mounts, key, zone, vmType);
    VmTypeIsTaken(mounts, key, zone, vmType);
    if key.Some? { KeyIsTaken(mounts, key.value, zone, vmType); }
    forall m | m in mounts ensures TakesMount(ScriptText(mounts, key, zone, vmType), m) {
      MountIsTaken(mounts, key, zone, vmType, m);
    }
  }

  datatype GuestMount = GuestMount(kind: string, tag: string, target: string)

  predicate IsMount(c: Command) {
    c.link.Always? && |c.words| == 5 && c.words[0] == "mount" && c.words[1] == "-t"
  }

  /** The mounts a script makes, in order. */
  function GuestMounts(cs: seq<Command>): seq<GuestMount> {
    if cs == [] then [] else IfMount(cs[0]) + GuestMounts(cs[1..])
  }

  function IfMount(c: Command): seq<GuestMount> {
    if IsMount(c) then [GuestMount(c.words[2], c.words[3], c.words[4])] else []
  }

  function AsGuest(m: Mount): GuestMount {
    GuestMount(m.kind, m.tag, m.target)
  }

  function AllAsGuest(mounts: seq<Mount>): seq<GuestMount> {
    if mounts == [] then [] else [AsGuest(mounts[0])] + AllAsGuest(mounts[1..])
  }

  lemma {:induction false} GuestMountsOfConcat(a: seq<Command>, b: seq<Command>)
    ensures GuestMounts(a + b) == GuestMounts(a) + GuestMounts(b)
  {
    if a == [] {
      assert a + b == b;
    } else {
      assert (a + b)[1..] == a[1..] + b;
      GuestMountsOfConcat(a[1..], b);
      SeqAssoc(IfMount(a[0]), GuestMounts(a[1..]), GuestMounts(b));
    }
  }

  lemma {:induction false} NoMounts(cs: seq<Command>)
    requires forall c :: c in cs ==> !IsMount(c)
    ensures GuestMounts(cs) == []
  {
    if cs != [] { NoMounts(cs[1..]); }
  }

  lemma OneMount(m: Mount)
    ensures GuestMounts(MountCommands(m)) == [AsGuest(m)]
  {
    var cs := MountCommands(m);
    NoMounts(cs[..2]);
    NoMounts(cs[3..]);
    assert cs == cs[..2] + ([cs[2]] + cs[3..]);
    GuestMountsOfConcat(cs[..2], [cs[2]] + cs[3..]);
    GuestMountsOfConcat([cs[2]], cs[3..]);
    assert [cs[2]][1..] == [];
  }

  lemma {:induction false} MountsOfCommands(mounts: seq<Mount>)
    ensures GuestMounts(AllMountCommands(mounts)) == AllAsGuest(mounts)
  {
    if mounts != [] {
      OneMount(mounts[0]);
      MountsOfCommands(mounts[1..]);
      GuestMountsOfConcat(MountCommands(mounts[0]), AllMountCommands(mounts[1..]));
    }
  }

  /**
   Run over the whole script, the guest mounts exactly the virtiofs mounts whose
   target does not begin with the script's directory: same type, tag and target,
   in the order of the list.
   */
  lemma GuestMountsAreSelected(mounts: seq<Mount>, dir: string, key: Option<string>, zone: string, vmType: string)
    requires AllReadable(Selected(mounts, dir)) && (key.Some? ==> Plain(key.value)) && Plain(zone) && Plain(vmType)
    ensures var read := ReadScript(ScriptText(Selected(mounts, dir), key, zone, vmType));
            read.Some? && GuestMounts(read.value) == AllAsGuest(Selected(mounts, dir))
  {
    var selected := Selected(mounts, dir);
    ScriptIsRead(selected, key, zone, vmType);
    var tail := (if key.Some? then KeyCommands(key.value) else []) + (ZoneCommands(zone) + MachineCommands(vmType));
    MountsOfCommands(selected);
    TailHasNoMounts(key, zone, vmType);
    GuestMountsOfConcat(AllMountCommands(selected), tail);
    assert AllAsGuest(selected) + [] == AllAsGuest(selected);
  }

  lemma TailHasNoMounts(key: Option<string>, zone: string, vmType: string)
    ensures GuestMounts((if key.Some? then KeyCommands(key.value) else []) + (ZoneCommands(zone) + MachineCommands(vmType))) == []
  {
    NoMounts(ZoneCommands(zone));
    NoMounts(MachineCommands(vmType));
    GuestMountsOfConcat(ZoneCommands(zone), MachineCommands(vmType));
    if key.Some? { NoMounts(KeyCommands(key.value)); }
    GuestMountsOfConcat(if key.Some? then KeyCommands(key.value) else [], ZoneCommands(zone) + MachineCommands(vmType));
  }

  // ---- the devices ----

  datatype Device = Blk(path: string) | Rng | Net(mac: string, socket: string) | Fs(source: string, tag: string)

  /** Which devices the device library agrees to create. */
  datatype Library = Library(blk: string -> bool, rng: bool, net: string -> bool, fs: (string, string) -> bool)

  const MAC := "5a:94:ef:e4:0c:ee"

  function FsDevices(mounts: seq<Mount>): seq<Device> {
    seq(|mounts|, i requires 0 <= i < |mounts| => Fs(mounts[i].source, mounts[i].tag))
  }

  predicate AllCreated(mounts: seq<Mount>, lib: Library) {
    forall m :: m in mounts ==> lib.fs(m.source, m.tag)
  }

  method VirtIOFsToVFKitVirtIODevice(mounts: seq<Mount>, lib: Library) returns (devices: Option<seq<Device>>)
    ensures devices == if AllCreated(mounts, lib) then Some(FsDevices(mounts)) else None
  {
    var made: seq<Device> := [];
    for i := 0 to |mounts|
      invariant made == FsDevices(mounts[..i])
      invariant forall k :: 0 <= k < i ==> lib.fs(mounts[k].source, mounts[k].tag)
    {
      if !lib.fs(mounts[i].source, mounts[i].tag) {
        assert mounts[i] in mounts;
        return None;
      }
      made := made + [Fs(mounts[i].source, mounts[i].tag)];
    }
    assert mounts[..|mounts|] == mounts;
    return Some(made);
  }

  /** Boot disk, entropy, network, data disk and source disk come first, in this order; then one device a mount. */
  method SetupDevices(boot: string, data: string, source: string, socket: string, mounts: seq<Mount>, lib: Library)
    returns (devices: Option<seq<Device>>)
    ensures devices.Some? <==>
              lib.blk(boot) && lib.rng && lib.blk(data) && lib.blk(source) && lib.net("5a:94:ef:e4:0c:ee") && AllCreated(mounts, lib)
    ensures devices.Some? ==> devices.value == [Blk(boot), Rng, Net("5a:94:ef:e4:0c:ee", socket), Blk(data), Blk(source)] + FsDevices(mounts)
  {
    if !lib.blk(boot) || !lib.rng || !lib.blk(data) || !lib.blk(source) || !lib.net(MAC) {
      return None;
    }
    var fixed := [Blk(boot), Rng, Net(MAC, socket), Blk(data), Blk(source)];
    var shares := VirtIOFsToVFKitVirtIODevice(mounts, lib);
    if shares.None? {
      return None;
    }
    return Some(fixed + shares.value);
  }

  // ---- main results: host and guest ----

  lemma {:induction false} SelectedMembers(mounts: seq<Mount>, dir: string)
    ensures forall m :: m in Selected(mounts, dir) <==> m in mounts && m.kind == "virtiofs" && !(dir <= m.target)
  {
    if mounts != [] { SelectedMembers(mounts[1..], dir); }
  }

  lemma {:induction false} AsGuestMembers(mounts: seq<Mount>, g: GuestMount)
    ensures g in AllAsGuest(mounts) <==> exists m :: m in mounts && AsGuest(m) == g
  {
    if mounts != [] {
      AsGuestMembers(mounts[1..], g);
      assert mounts[0] in mounts;
    }
  }

  /** Every tag the guest mounts belongs to a device the host attaches, with the mount's own source. */
  lemma TagsAreAttached(mounts: seq<Mount>, dir: string, g: GuestMount) returns (m: Mount)
    requires g in AllAsGuest(Selected(mounts, dir))
    ensures m in mounts && AsGuest(m) == g && Fs(m.source, g.tag) in FsDevices(mounts)
  {
    AsGuestMembers(Selected(mounts, dir), g);
    m :| m in Selected(mounts, dir) && AsGuest(m) == g;
    SelectedMembers(mounts, dir);
    var i :| 0 <= i < |mounts| && mounts[i] == m;
    assert FsDevices(mounts)[i] == Fs(m.source, g.tag);
  }

  /** A mount the host attaches is mounted by the guest if and only if it is a virtiofs mount whose target does not begin with the directory's text. */
  lemma MountedUnlessPrefixed(mounts: seq<Mount>, dir: string, m: Mount)
    requires m in mounts
    ensures Fs(m.source, m.tag) in FsDevices(mounts)
    ensures AsGuest(m) in AllAsGuest(Selected(mounts, dir)) <==> m.kind == "virtiofs" && !(dir <= m.target)
  {
    var i :| 0 <= i < |mounts| && mounts[i] == m;
    assert FsDevices(mounts)[i] == Fs(m.source, m.tag);
    AsGuestMembers(Selected(mounts, dir), AsGuest(m));
    SelectedMembers(mounts, dir);
  }

  lemma {:induction false} DirOfFile(dir: string, file: string)
    requires '/' !in file
    ensures DirOf(dir + "/" + file) == dir
  {
    var path := dir + "/" + file;
    if file == "" {
      assert path[..|path| - 1] == dir;
    } else {
      assert path[..|path| - 1] == dir + "/" + file[..|file| - 1];
      assert file[|file| - 1] in file;
      DirOfFile(dir, file[..|file| - 1]);
    }
  }

  /** The ignition script, in the directory that init has mounted. */
  const SCRIPT_FILE := INITFS + "/" + "ovm_ign.sh"

  /**
   For the mounts of any volumes, with the one init appends: the script directory
   is always attached and never mounted by the script; and so is, unnoticed, any
   volume whose target only begins with the same text.
   */
  lemma InitfsIsAttached(volumes: seq<string>, digest: Digest, source: string, suffix: string)
    requires ':' !in source && ':' !in suffix
    ensures var mounts := MountsOf(volumes + [source + ":" + (INITFS + suffix)] + [IGN_MNT], digest);
            && Fs(INITFS + "/", digest(INITFS + "/")) in FsDevices(mounts)
            && Fs(source + "/", digest(INITFS + suffix + "/")) in FsDevices(mounts)
            && forall g :: g in AllAsGuest(Selected(mounts, DirOf(SCRIPT_FILE))) ==>
                 g.target != INITFS + "/" && g.target != INITFS + suffix + "/"
  {
    assert ':' !in INITFS && '/' !in "ovm_ign.sh";
    DirOfFile(INITFS, "ovm_ign.sh");
    PrefixedIsAttached(volumes, digest, source, INITFS, suffix);
  }

  lemma NeverPrefixed(mounts: seq<Mount>, dir: string)
    ensures forall g :: g in AllAsGuest(Selected(mounts, dir)) ==> !(dir <= g.target)
  {
    forall g | g in AllAsGuest(Selected(mounts, dir)) ensures !(dir <= g.target) {
      var m := TagsAreAttached(mounts, dir, g);
      AsGuestMembers(Selected(mounts, dir), g);
      SelectedMembers(mounts, dir);
    }
  }

  lemma LastTwoMounts(volumes: seq<string>, digest: Digest, source: string, target: string, dir: string)
    requires ':' !in source && ':' !in target && ':' !in dir
    ensures MountsOf(volumes + [source + ":" + target] + [dir + ":" + dir], digest) == MountsOf(volumes, digest) +
            [Mount(false, source + "/", digest(target + "/"), target + "/", VIRTIOFS)] +
            [Mount(false, dir + "/", digest(dir + "/"), dir + "/", VIRTIOFS)]
  {
    VolumeIsLast(volumes + [source + ":" + target], dir, digest);
    MountsOfConcat(volumes, [source + ":" + target], digest);
    MountsOfOne(source + ":" + target, digest);
    ShortVolumes(source, target, digest);
  }

  lemma PrefixedIsAttached(volumes: seq<string>, digest: Digest, source: string, dir: string, suffix: string)
    requires ':' !in source && ':' !in suffix && ':' !in dir
    ensures var mounts := MountsOf(volumes + [source + ":" + (dir + suffix)] + [dir + ":" + dir], digest);
            && Fs(dir + "/", digest(dir + "/")) in FsDevices(mounts)
            && Fs(source + "/", digest(dir + suffix + "/")) in FsDevices(mounts)
            && forall g :: g in AllAsGuest(Selected(mounts, dir)) ==> g.target != dir + "/" && g.target != dir + suffix + "/"
  {
    var mounts := MountsOf(volumes + [source + ":" + (dir + suffix)] + [dir + ":" + dir], digest);
    LastTwoMounts(volumes, digest, source, dir + suffix, dir);
    var n := |MountsOf(volumes, digest)|;
    assert FsDevices(mounts)[n] == Fs(source + "/", digest(dir + suffix + "/"));
    assert FsDevices(mounts)[n + 1] == Fs(dir + "/", digest(dir + "/"));
    NeverPrefixed(mounts, dir);
    assert dir <= dir + suffix + "/" && dir <= dir + "/";
  }
}
