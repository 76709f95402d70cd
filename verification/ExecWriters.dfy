/** The writers the `/exec` command's output goes through, and the channel they feed. */
module ExecWriters {

  /** The sending side of an unbounded channel: a send never waits. */
  class OutChannel {
    var queue: seq<string>
    var closed: bool

    constructor ()
      ensures queue == [] && !closed
    {
      queue, closed := [], false;
    }

    method Send(v: string)
      requires !closed
      modifies this`queue
      ensures queue == old(queue) + [v]
    {
      queue := queue + [v];
    }
  }

  /** Stdout: every write becomes one value of the channel. */
  class ChWriter {
    const ch: OutChannel

    constructor (ch: OutChannel)
      ensures this.ch == ch
    {
      this.ch := ch;
    }

    method Write(p: string) returns (n: nat)
      requires !ch.closed
      modifies ch`queue
      ensures n == |p| && ch.queue == old(ch.queue) + [p]
    {
      ch.Send(p);
      n := |p|;
    }
  }

  /** Stderr: the same, remembering the last write. */
  class RecordingWriter {
    const w: ChWriter
    var last: string

    constructor (w: ChWriter)
      ensures this.w == w && last == ""
    {
      this.w := w;
      last := "";
    }

    method Write(p: string) returns (n: nat)
      requires !w.ch.closed
      modifies this`last, w.ch`queue
      ensures n == |p| && last == p && w.ch.queue == old(w.ch.queue) + [p]
    {
      last := p;
      n := w.Write(p);
    }

    function LastRecord(): string
      reads this
    {
      last
    }
  }

  /** Two writers over one channel: whatever order they write in, nothing is dropped or reordered, and only stderr is recorded. */
  method CopyBoth(out: ChWriter, err: RecordingWriter, writes: seq<(bool, string)>)
    requires out.ch == err.w.ch && !out.ch.closed
    modifies err`last, out.ch`queue
    ensures out.ch.queue == old(out.ch.queue) + AllTexts(writes)
    ensures err.LastRecord() == LastStderr(old(err.LastRecord()), writes)
  {
    for i := 0 to |writes|
      invariant !out.ch.closed
      invariant out.ch.queue == old(out.ch.queue) + AllTexts(writes[..i])
      invariant err.last == LastStderr(old(err.last), writes[..i])
    {
      assert writes[..i + 1][..i] == writes[..i];
      var n;
      if writes[i].0 {
        n := err.Write(writes[i].1);
      } else {
        n := out.Write(writes[i].1);
      }
    }
    assert writes[..|writes|] == writes;
  }

  function AllTexts(writes: seq<(bool, string)>): seq<string> {
    if writes == [] then [] else AllTexts(writes[..|writes| - 1]) + [writes[|writes| - 1].1]
  }

  function LastStderr(before: string, writes: seq<(bool, string)>): string {
    if writes == [] then before
    else if writes[|writes| - 1].0 then writes[|writes| - 1].1
    else LastStderr(before, writes[..|writes| - 1])
  }
}
