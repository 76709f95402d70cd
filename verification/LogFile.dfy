/** The log file: lines are appended, and every start-up drops the first part of a file that has grown too large. */
module LogFile {

  const MIB := 1048576

  type Bytes = seq<char>

  class File {
    var content: Bytes

    constructor ()
      ensures content == []
    {
      content := [];
    }

    method Append(p: Bytes)
      modifies this
      ensures content == old(content) + p
    {
      content := content + p;
    }

    /** The part after the first `n` MiB is copied to a temporary file that then takes the file's place. */
    method DiscardBytesAtBegin(n: nat, found: bool) returns (ok: bool)
      modifies this
      ensures ok == found
      ensures content == if found then Trimmed(old(content), n) else old(content)
      ensures content == if found && |old(content)| > n * 1048576 then old(content)[n * 1048576..] else old(content)
    {
      if !found {
        return false;
      }
      var offset := n * MIB;
      if |content| <= offset {
        return true;
      }
      var temp := content[offset..];
      content := temp;
      ok := true;
    }
  }

  function Trimmed(c: Bytes, n: nat): Bytes {
    if |c| <= n * MIB then c else c[n * MIB..]
  }

  datatype Op = Append(p: Bytes) | Trim(n: nat, found: bool)

  /** What a sequence of appends and start-up trims leaves in the file. */
  function Content(ops: seq<Op>): Bytes {
    if ops == [] then []
    else
      var before, op := Content(ops[..|ops| - 1]), ops[|ops| - 1];
      match op
      case Append(p) => before + p
      case Trim(n, found) => if found then Trimmed(before, n) else before
  }

  /** Everything that was ever logged. */
  function Logged(ops: seq<Op>): Bytes {
    if ops == [] then []
    else Logged(ops[..|ops| - 1]) + if ops[|ops| - 1].Append? then ops[|ops| - 1].p else []
  }

  /** How much the trims that found the file too large have dropped. */
  function Dropped(ops: seq<Op>): nat {
    if ops == [] then 0
    else
      var before, op := ops[..|ops| - 1], ops[|ops| - 1];
      Dropped(before) + if op.Trim? && op.found && |Content(before)| > op.n * MIB then op.n * MIB else 0
  }

  lemma DropMore(all: Bytes, d: nat, more: nat)
    requires d + more <= |all|
    ensures all[d..][more..] == all[d + more..]
  {
  }

  /** The file is what was logged without its first bytes: a contiguous suffix, short by what the trims dropped. */
  lemma {:induction false} ContentIsSuffix(ops: seq<Op>)
    ensures Dropped(ops) <= |Logged(ops)| && Content(ops) == Logged(ops)[Dropped(ops)..]
  {
    if ops != [] {
      var before, op := ops[..|ops| - 1], ops[|ops| - 1];
      ContentIsSuffix(before);
      match op {
        case Append(p) => assert (Logged(before) + p)[Dropped(before)..] == Logged(before)[Dropped(before)..] + p;
        case Trim(n, found) =>
          assert Logged(ops) == Logged(before);
          if found && |Content(before)| > n * MIB { DropMore(Logged(before), Dropped(before), n * MIB); }
      }
    }
  }

  /** A trim bounds the file only halfway: it ends up within the limit if and only if it was within twice the limit. */
  lemma TrimBound(c: Bytes, n: nat)
    ensures |Trimmed(c, n)| <= n * MIB <==> |c| <= 2 * n * MIB
  {
  }

  /** Applied to a file object, a sequence of operations leaves what `Content` says. */
  method Replay(ops: seq<Op>) returns (f: File)
    ensures fresh(f) && f.content == Content(ops)
  {
    f := new File();
    for i := 0 to |ops|
      invariant fresh(f) && f.content == Content(ops[..i])
    {
      assert ops[..i + 1][..i] == ops[..i];
      match ops[i]
      case Append(p) => f.Append(p);
      case Trim(n, found) => var _ := f.DiscardBytesAtBegin(n, found);
    }
    assert ops[..|ops|] == ops;
  }
}
