/**
 Volume arguments of the form `source:target:options` and the mounts they stand
 for.  The digest behind a mount's tag is a parameter: the first 36 characters of
 the hexadecimal SHA-256 of the target.
 */
module Volumes {
  import opened Basics

  type Digest = string -> string

  datatype Mount = Mount(readOnly: bool, source: string, tag: string, target: string, kind: string)

  const VIRTIOFS := "virtiofs"

  // ---- strings.SplitN for a separator of one character ----

  function IndexOf(s: string, sep: char): (i: nat)
    ensures i <= |s| && sep !in s[..i] && (i < |s| ==> s[i] == sep)
  {
    if s == "" || s[0] == sep then 0
    else
      var i := IndexOf(s[1..], sep);
      assert s[..i + 1] == [s[0]] + s[1..][..i];
      i + 1
  }

  function SplitN(s: string, sep: char, n: nat): (parts: seq<string>)
    requires n >= 1
    ensures 1 <= |parts| <= n
    decreases n
  {
    var i := IndexOf(s, sep);
    if n == 1 || i == |s| then [s] else [s[..i]] + SplitN(s[i + 1..], sep, n - 1)
  }

  /** strings.Split: there are never more parts than this. */
  function Split(s: string, sep: char): (parts: seq<string>)
    ensures |parts| >= 1
  {
    SplitN(s, sep, |s| + 1)
  }

  /** Only the last part may contain the separator, and only if there are as many parts as allowed. */
  predicate Separated(parts: seq<string>, sep: char, n: nat) {
    if |parts| <= 1 then parts != [] && n > 0 && (n > 1 ==> sep !in parts[0])
    else n > 1 && sep !in parts[0] && Separated(parts[1..], sep, n - 1)
  }

  lemma SeparatedCons(a: string, rest: seq<string>, sep: char, n: nat)
    requires sep !in a && Separated(rest, sep, n)
    ensures Separated([a] + rest, sep, n + 1)
  {
    assert ([a] + rest)[1..] == rest;
  }

  lemma JoinCons(a: string, rest: seq<string>, sep: char)
    requires rest != []
    ensures JoinWith([a] + rest, sep) == a + [sep] + JoinWith(rest, sep)
  {
    assert ([a] + rest)[1..] == rest;
  }

  lemma PutBack(s: string, i: nat, sep: char, n: nat, rest: seq<string>)
    requires i < |s| && s[i] == sep && sep !in s[..i] && n > 1
    requires Separated(rest, sep, n - 1) && JoinWith(rest, sep) == s[i + 1..]
    ensures Separated([s[..i]] + rest, sep, n) && JoinWith([s[..i]] + rest, sep) == s
  {
    SeparatedCons(s[..i], rest, sep, n - 1);
    JoinCons(s[..i], rest, sep);
    assert s == s[..i] + [sep] + s[i + 1..];
  }

  lemma {:induction false} SplitSeparates(s: string, sep: char, n: nat)
    requires n >= 1
    ensures Separated(SplitN(s, sep, n), sep, n) && JoinWith(SplitN(s, sep, n), sep) == s
    decreases n
  {
    var i := IndexOf(s, sep);
    if n > 1 && i < |s| {
      SplitSeparates(s[i + 1..], sep, n - 1);
      PutBack(s, i, sep, n, SplitN(s[i + 1..], sep, n - 1));
    } else if n > 1 {
      assert s[..i] == s;
    }
  }

  lemma {:induction false} IndexOfFirst(a: string, sep: char, rest: string)
    requires sep !in a
    ensures IndexOf(a + [sep] + rest, sep) == |a|
  {
    var s := a + [sep] + rest;
    if a != "" {
      assert s[1..] == a[1..] + [sep] + rest;
      IndexOfFirst(a[1..], sep, rest);
    }
  }

  lemma {:induction false} IndexOfNone(a: string, sep: char)
    requires sep !in a
    ensures IndexOf(a, sep) == |a|
  {
    if a != "" { IndexOfNone(a[1..], sep); }
  }

  lemma {:induction false} JoinIsSplit(parts: seq<string>, sep: char, n: nat)
    requires Separated(parts, sep, n)
    ensures SplitN(JoinWith(parts, sep), sep, n) == parts
    decreases n
  {
    if |parts| == 1 {
      if n > 1 { IndexOfNone(parts[0], sep); }
      assert parts == [parts[0]];
    } else {
      SplitFront(parts[0], sep, JoinWith(parts[1..], sep), n);
      JoinIsSplit(parts[1..], sep, n - 1);
      assert parts == [parts[0]] + parts[1..];
    }
  }

  lemma SplitFront(a: string, sep: char, rest: string, n: nat)
    requires sep !in a && n > 1
    ensures SplitN(a + [sep] + rest, sep, n) == [a] + SplitN(rest, sep, n - 1)
  {
    var s := a + [sep] + rest;
    IndexOfFirst(a, sep, rest);
    assert s[..|a|] == a && s[|a| + 1..] == rest;
  }

  /**
   Splitting is exactly undone by joining: of all part lists of the right shape
   there is one whose join is `s`, and `SplitN` finds it.
   */
  lemma SplitIsTheOnlyOne(s: string, sep: char, n: nat, parts: seq<string>)
    requires n >= 1
    ensures parts == SplitN(s, sep, n) <==> Separated(parts, sep, n) && JoinWith(parts, sep) == s
  {
    SplitSeparates(s, sep, n);
    if Separated(parts, sep, n) { JoinIsSplit(parts, sep, n); }
  }

  // ---- one volume ----

  function PathsFromVolume(volume: string): (paths: seq<string>)
    ensures 1 <= |paths| <= 3
  {
    SplitN(volume, ':', 3)
  }

  function ExtractSourcePath(paths: seq<string>): string
    requires paths != []
  {
    paths[0] + "/"
  }

  function ExtractTargetPath(paths: seq<string>): string
    requires paths != []
  {
    if |paths| > 1 then paths[1] + "/" else paths[0] + "/"
  }

  /** Some "ro" comes after the last "rw". */
  ghost predicate EndsReadOnly(options: seq<string>) {
    exists i :: 0 <= i < |options| && options[i] == "ro" && forall j :: i < j < |options| ==> options[j] != "rw"
  }

  ghost predicate ReadOnlyPaths(paths: seq<string>) {
    |paths| > 2 && EndsReadOnly(Split(paths[2], ','))
  }

  method ExtractMountOptions(paths: seq<string>) returns (readonly: bool)
    ensures readonly <==> ReadOnlyPaths(paths)
  {
    readonly := false;
    if |paths| > 2 {
      var options := Split(paths[2], ',');
      for k := 0 to |options|
        invariant readonly <==> exists i :: 0 <= i < k && options[i] == "ro" && forall j :: i < j < k ==> options[j] != "rw"
      {
        if options[k] == "rw" {
          readonly := false;
        } else if options[k] == "ro" {
          readonly := true;
        }
      }
    }
  }

  function Decimal(n: nat): string {
    if n < 10 then ["0123456789"[n]] else Decimal(n / 10) + ["0123456789"[n % 10]]
  }

  function NumberOf(digits: string): int {
    if digits == "" then 0 else 10 * NumberOf(digits[..|digits| - 1]) + (digits[|digits| - 1] as int - '0' as int)
  }

  lemma DigitOf(d: nat)
    requires d < 10
    ensures "0123456789"[d] as int - '0' as int == d
  {
  }

  /** The digits read back as the number, with none in front that could be left out. */
  lemma {:induction false} DecimalReads(n: nat)
    ensures NumberOf(Decimal(n)) == n
    ensures Decimal(n) != "" && (n > 0 ==> Decimal(n)[0] != '0')
  {
    if n < 10 {
      DigitOf(n);
      assert [Decimal(n)[0]][..0] == "";
    } else {
      DecimalReads(n / 10);
      DigitOf(n % 10);
      assert Decimal(n)[..|Decimal(n)| - 1] == Decimal(n / 10);
    }
  }

  /** The position of the volume on the command line shows in nothing but the tag, which the caller drops. */
  method SplitVolume(idx: nat, volume: string) returns (tag: string, source: string, target: string, readonly: bool)
    ensures tag == "vol" + Decimal(idx)
    ensures source == ExtractSourcePath(PathsFromVolume(volume))
    ensures target == ExtractTargetPath(PathsFromVolume(volume))
    ensures readonly <==> ReadOnlyPaths(PathsFromVolume(volume))
  {
    tag := "vol" + Decimal(idx);
    var paths := PathsFromVolume(volume);
    source := ExtractSourcePath(paths);
    target := ExtractTargetPath(paths);
    readonly := ExtractMountOptions(paths);
  }

  // ---- mounts ----

  function NewVirtIoFsMount(source: string, target: string, readOnly: bool, digest: Digest): Mount {
    Mount(readOnly, source, digest(target), target, VIRTIOFS)
  }

  ghost function MountOf(volume: string, digest: Digest): Mount {
    var paths := PathsFromVolume(volume);
    NewVirtIoFsMount(ExtractSourcePath(paths), ExtractTargetPath(paths), ReadOnlyPaths(paths), digest)
  }

  /** The mounts of the non-empty volumes, in order. */
  ghost function MountsOf(volumes: seq<string>, digest: Digest): seq<Mount> {
    if volumes == [] then [] else Mounted(volumes[0], digest) + MountsOf(volumes[1..], digest)
  }

  ghost function Mounted(volume: string, digest: Digest): seq<Mount> {
    if volume == "" then [] else [MountOf(volume, digest)]
  }

  lemma {:induction false} MountsOfConcat(a: seq<string>, b: seq<string>, digest: Digest)
    ensures MountsOf(a + b, digest) == MountsOf(a, digest) + MountsOf(b, digest)
  {
    if a == [] {
      assert a + b == b;
    } else {
      assert (a + b)[1..] == a[1..] + b;
      MountsOfConcat(a[1..], b, digest);
      MountsAssoc(Mounted(a[0], digest), MountsOf(a[1..], digest), MountsOf(b, digest));
    }
  }

  lemma MountsAssoc(a: seq<Mount>, b: seq<Mount>, c: seq<Mount>)
    ensures a + (b + c) == a + b + c
  {
  }

  lemma MountsOfOne(volume: string, digest: Digest)
    ensures MountsOf([volume], digest) == if volume == "" then [] else [MountOf(volume, digest)]
  {
    assert [volume][1..] == [];
  }

  method CmdLineVolumesToMounts(volumes: seq<string>, digest: Digest) returns (mounts: seq<Mount>)
    ensures mounts == MountsOf(volumes, digest)
  {
    mounts := [];
    for i := 0 to |volumes|
      invariant mounts == MountsOf(volumes[..i], digest)
    {
      assert volumes[..i + 1] == volumes[..i] + [volumes[i]];
      MountsOfConcat(volumes[..i], [volumes[i]], digest);
      MountsOfOne(volumes[i], digest);
      if volumes[i] == "" {
        continue;
      }
      var _, source, target, readOnly := SplitVolume(i, volumes[i]);
      mounts := mounts + [NewVirtIoFsMount(source, target, readOnly, digest)];
    }
    assert volumes[..|volumes|] == volumes;
  }

  // ---- main results ----

  predicate CommaFree(options: seq<string>) {
    forall i :: 0 <= i < |options| ==> ',' !in options[i]
  }

  /** The mount `source:target:options` is meant to stand for. */
  ghost function VolumeMeant(source: string, target: string, options: seq<string>, digest: Digest): Mount {
    Mount(EndsReadOnly(options), source + "/", digest(target + "/"), target + "/", "virtiofs")
  }

  /**
   `source:target:options` gives back both paths, each with a slash, and the mode the last
   "ro" or "rw" decides, if and only if neither path has a colon in it.
   */
  lemma VolumeRoundTrip(source: string, target: string, options: seq<string>, digest: Digest)
    requires options != [] && CommaFree(options)
    ensures MountOf(source + ":" + target + ":" + JoinWith(options, ','), digest) == VolumeMeant(source, target, options, digest)
            <==> ':' !in source && ':' !in target
  {
    var text := JoinWith(options, ',');
    if ':' in source {
      SourceIsCut(source, target, text, options, digest);
    } else if ':' in target {
      TargetIsCut(source, target, text, options, digest);
    } else {
      ThreePaths(source, target, text);
      SplitOptions(options);
      MountOfPaths(source + ":" + target + ":" + text, [source, target, text], options, digest);
    }
  }

  /** A path with a colon in it is cut off there. */
  lemma FirstPath(path: string, more: string, n: nat)
    requires ':' in path && n >= 2
    ensures |SplitN(path + more, ':', n)[0]| < |path|
  {
    ColonInside(path, more);
  }

  lemma {:induction false} ColonInside(path: string, more: string)
    requires ':' in path
    ensures IndexOf(path + more, ':') < |path|
  {
    assert (path + more)[0] == path[0];
    if path[0] != ':' {
      assert (path + more)[1..] == path[1..] + more;
      ColonInside(path[1..], more);
    }
  }

  lemma SourceIsCut(source: string, target: string, text: string, options: seq<string>, digest: Digest)
    requires ':' in source
    ensures MountOf(source + ":" + target + ":" + text, digest) != VolumeMeant(source, target, options, digest)
  {
    var volume := source + ":" + target + ":" + text;
    assert volume == source + (":" + target + ":" + text);
    FirstPath(source, ":" + target + ":" + text, 3);
    ShorterSource(volume, PathsFromVolume(volume), digest);
    assert |VolumeMeant(source, target, options, digest).source| == |source| + 1;
  }

  lemma ShorterSource(volume: string, paths: seq<string>, digest: Digest)
    requires paths == PathsFromVolume(volume)
    ensures |MountOf(volume, digest).source| == |paths[0]| + 1
    ensures |paths| > 1 ==> |MountOf(volume, digest).target| == |paths[1]| + 1
  {
  }

  lemma TargetIsCut(source: string, target: string, text: string, options: seq<string>, digest: Digest)
    requires ':' !in source && ':' in target
    ensures MountOf(source + ":" + target + ":" + text, digest) != VolumeMeant(source, target, options, digest)
  {
    var volume := source + ":" + target + ":" + text;
    var more := target + (":" + text);
    assert volume == source + [':'] + more;
    SplitFront(source, ':', more, 3);
    FirstPath(target, ":" + text, 2);
    var paths := PathsFromVolume(volume);
    assert paths[1] == SplitN(more, ':', 2)[0];
    ShorterSource(volume, paths, digest);
    assert |VolumeMeant(source, target, options, digest).target| == |target| + 1;
  }

  lemma MountOfPaths(volume: string, paths: seq<string>, options: seq<string>, digest: Digest)
    requires PathsFromVolume(volume) == paths && |paths| == 3 && Split(paths[2], ',') == options
    ensures MountOf(volume, digest)
            == Mount(EndsReadOnly(options), paths[0] + "/", digest(paths[1] + "/"), paths[1] + "/", VIRTIOFS)
  {
  }

  lemma SplitOptions(options: seq<string>)
    requires options != [] && CommaFree(options)
    ensures Split(JoinWith(options, ','), ',') == options
  {
    JoinLength(options, ',');
    CommaFreeIsSeparated(options, |JoinWith(options, ',')| + 1);
    JoinIsSplit(options, ',', |JoinWith(options, ',')| + 1);
  }

  lemma ThreePaths(source: string, target: string, text: string)
    requires ':' !in source && ':' !in target
    ensures PathsFromVolume(source + ":" + target + ":" + text) == [source, target, text]
  {
    assert source + ":" + target + ":" + text == source + [':'] + (target + [':'] + text);
    SplitFront(source, ':', target + [':'] + text, 3);
    SplitFront(target, ':', text, 2);
  }

  lemma {:induction false} CommaFreeIsSeparated(options: seq<string>, n: nat)
    requires options != [] && CommaFree(options) && |options| <= n
    ensures Separated(options, ',', n)
  {
    if |options| > 1 { CommaFreeIsSeparated(options[1..], n - 1); }
  }

  lemma JoinOfTwo(a: string, b: string)
    ensures JoinWith([a, b], ':') == a + ":" + b
  {
    JoinCons(a, [b], ':');
    assert [a] + [b] == [a, b];
  }

  lemma {:induction false} JoinLength(parts: seq<string>, sep: char)
    requires parts != []
    ensures |parts| <= |JoinWith(parts, sep)| + 1
  {
    if |parts| > 1 { JoinLength(parts[1..], sep); }
  }

  /** Without options a volume is writable, and without a target it is mounted where it comes from. */
  lemma ShortVolumes(source: string, target: string, digest: Digest)
    requires ':' !in source && ':' !in target
    ensures MountOf(source + ":" + target, digest) == Mount(false, source + "/", digest(target + "/"), target + "/", "virtiofs")
    ensures MountOf(source, digest) == Mount(false, source + "/", digest(source + "/"), source + "/", "virtiofs")
  {
    JoinOfTwo(source, target);
    JoinIsSplit([source, target], ':', 3);
    JoinIsSplit([source], ':', 3);
  }

  const INITFS := "/tmp/initfs"
  const IGN_MNT := INITFS + ":" + INITFS

  lemma VolumeIsLast(volumes: seq<string>, dir: string, digest: Digest)
    requires ':' !in dir
    ensures MountsOf(volumes + [dir + ":" + dir], digest) ==
            MountsOf(volumes, digest) + [Mount(false, dir + "/", digest(dir + "/"), dir + "/", VIRTIOFS)]
  {
    MountsOfConcat(volumes, [dir + ":" + dir], digest);
    MountsOfOne(dir + ":" + dir, digest);
    ShortVolumes(dir, dir, digest);
  }

  /** The volume that init appends always becomes the last mount, whatever the user asked for. */
  lemma InitfsIsLast(volumes: seq<string>, digest: Digest)
    ensures MountsOf(volumes + [IGN_MNT], digest) ==
            MountsOf(volumes, digest) + [Mount(false, INITFS + "/", digest(INITFS + "/"), INITFS + "/", "virtiofs")]
    ensures INITFS == "/tmp/initfs" && IGN_MNT == "/tmp/initfs" + ":" + "/tmp/initfs"
  {
    assert ':' !in INITFS;
    VolumeIsLast(volumes, INITFS, digest);
  }
}
