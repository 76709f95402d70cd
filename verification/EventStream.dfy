/**
 The event-stream format of the HTML Living Standard: a parser written after
 sections 9.2.5 (parsing) and 9.2.6 (interpreting), on decoded text.
 */
module EventStream {
  import opened Basics

  datatype Message = Message(kind: string, data: string)

  // ---- section 9.2.5: lines end with CRLF, LF or CR ----

  datatype Cut = NoEol | Cut(line: string, rest: string)

  predicate EolFree(s: string) {
    '\r' !in s && '\n' !in s
  }

  function FirstLine(s: string): (c: Cut)
    ensures c.Cut? ==> |c.rest| < |s| && EolFree(c.line)
  {
    if s == "" then NoEol
    else if s[0] == '\n' then Cut("", s[1..])
    else if s[0] == '\r' then Cut("", if |s| > 1 && s[1] == '\n' then s[2..] else s[1..])
    else
      match FirstLine(s[1..])
      case NoEol => NoEol
      case Cut(line, rest) => Cut([s[0]] + line, rest)
  }

  /** The complete lines of a text; an unfinished last line can no longer be dispatched. */
  function Lines(s: string): (lines: seq<string>)
    ensures forall l :: l in lines ==> EolFree(l)
    decreases |s|
  {
    match FirstLine(s)
    case NoEol => []
    case Cut(line, rest) => [line] + Lines(rest)
  }

  const BOM: char := '\U{FEFF}'

  function StripBom(s: string): string {
    if s != "" && s[0] == BOM then s[1..] else s
  }

  // ---- section 9.2.6: fields, buffers and dispatch ----

  datatype Buffers = Buffers(kind: string, data: string)

  const CLEAR := Buffers("", "")

  function ColonAt(line: string): nat {
    if line == "" || line[0] == ':' then 0 else 1 + ColonAt(line[1..])
  }

  function Field(b: Buffers, name: string, value: string): Buffers {
    if name == "event" then b.(kind := value)
    else if name == "data" then b.(data := b.data + value + "\n")
    else b
  }

  function DropSpace(v: string): string {
    if v != "" && v[0] == ' ' then v[1..] else v
  }

  lemma {:induction false} ColonAtRange(line: string)
    ensures ColonAt(line) <= |line|
    ensures ColonAt(line) < |line| ==> line[ColonAt(line)] == ':'
  {
    if line != "" && line[0] != ':' { ColonAtRange(line[1..]); }
  }

  function Process(b: Buffers, line: string): Buffers {
    ColonAtRange(line);
    var c := ColonAt(line);
    if c == |line| then Field(b, line, "")
    else if c == 0 then b
    else Field(b, line[..c], DropSpace(line[c + 1..]))
  }

  function Dispatch(b: Buffers): seq<Message> {
    if b.data == "" then []
    else [Message(if b.kind == "" then "message" else b.kind,
                  if b.data[|b.data| - 1] == '\n' then b.data[..|b.data| - 1] else b.data)]
  }

  function Interpret(lines: seq<string>, b: Buffers): seq<Message> {
    if lines == [] then []
    else if lines[0] == "" then Dispatch(b) + Interpret(lines[1..], CLEAR)
    else Interpret(lines[1..], Process(b, lines[0]))
  }

  function Parse(s: string): seq<Message> {
    Interpret(Lines(StripBom(s)), CLEAR)
  }

  // ---- properties of the parser alone ----

  lemma {:induction false} FirstLineOfConcat(p: string, s: string)
    requires EolFree(p)
    ensures FirstLine(p + s) ==
            match FirstLine(s) { case NoEol => NoEol case Cut(line, rest) => Cut(p + line, rest) }
  {
    if p == "" {
      assert p + s == s;
      match FirstLine(s) {
        case NoEol =>
        case Cut(line, rest) => assert p + line == line;
      }
    } else {
      assert (p + s)[1..] == p[1..] + s;
      FirstLineOfConcat(p[1..], s);
      match FirstLine(s) {
        case NoEol =>
        case Cut(line, rest) => assert [p[0]] + (p[1..] + line) == p + line;
      }
    }
  }

  lemma LinesOfLf(p: string, s: string)
    requires EolFree(p)
    ensures Lines(p + "\n" + s) == [p] + Lines(s)
  {
    assert p + "\n" + s == p + ("\n" + s);
    FirstLineOfConcat(p, "\n" + s);
    assert FirstLine("\n" + s) == Cut("", s);
    assert p + "" == p;
  }

  lemma LinesOfCrlf(p: string, s: string)
    requires EolFree(p)
    ensures Lines(p + "\r\n" + s) == [p] + Lines(s)
  {
    assert p + "\r\n" + s == p + ("\r\n" + s);
    FirstLineOfConcat(p, "\r\n" + s);
    assert ("\r\n" + s)[2..] == s;
    assert FirstLine("\r\n" + s) == Cut("", s);
    assert p + "" == p;
  }

  /** Cutting a text short cuts its lines short; a split CRLF still ends one line. */
  lemma {:induction false} FirstLineOfPrefix(p: string, q: string)
    ensures FirstLine(p).Cut? ==>
              FirstLine(p + q).Cut? && FirstLine(p + q).line == FirstLine(p).line
              && (FirstLine(p + q).rest == FirstLine(p).rest + q || FirstLine(p).rest == "")
  {
    if p != "" && p[0] != '\n' && p[0] != '\r' {
      assert (p + q)[1..] == p[1..] + q;
      FirstLineOfPrefix(p[1..], q);
    } else if p != "" {
      assert (p + q)[1..] == p[1..] + q;
      if |p| > 1 { assert (p + q)[2..] == p[2..] + q; }
    }
  }

  lemma {:induction false} LinesOfPrefix(p: string, q: string)
    ensures Lines(p) <= Lines(p + q)
    decreases |p|
  {
    FirstLineOfPrefix(p, q);
    match FirstLine(p) {
      case NoEol =>
      case Cut(line, rest) => if rest != "" { LinesOfPrefix(rest, q); }
    }
  }

  lemma {:induction false} InterpretOfPrefix(ls: seq<string>, ms: seq<string>, b: Buffers)
    ensures Interpret(ls, b) <= Interpret(ls + ms, b)
  {
    if ls != [] {
      assert (ls + ms)[1..] == ls[1..] + ms;
      InterpretOfPrefix(ls[1..], ms, if ls[0] == "" then CLEAR else Process(b, ls[0]));
    }
  }

  lemma StripBomOfConcat(p: string, q: string)
    requires p != ""
    ensures StripBom(p + q) == StripBom(p) + q
  {
    if p[0] == BOM { assert (p + q)[1..] == p[1..] + q; }
  }

  /** A client that has received only the beginning of a stream has dispatched only a beginning of its messages. */
  lemma ParseOfPrefix(p: string, q: string)
    ensures Parse(p) <= Parse(p + q)
  {
    if p != "" {
      StripBomOfConcat(p, q);
      var text := StripBom(p);
      LinesOfPrefix(text, q);
      var ls, all := Lines(text), Lines(text + q);
      assert all == ls + all[|ls|..];
      InterpretOfPrefix(ls, all[|ls|..], CLEAR);
    }
  }

  predicate CrFree(m: Message) {
    '\r' !in m.kind && '\r' !in m.data
  }

  lemma {:induction false} InterpretIsCrFree(lines: seq<string>, b: Buffers)
    requires forall l :: l in lines ==> EolFree(l)
    requires '\r' !in b.kind && '\r' !in b.data
    ensures forall m :: m in Interpret(lines, b) ==> CrFree(m)
  {
    if lines != [] {
      assert lines[0] in lines;
      if lines[0] == "" {
        InterpretIsCrFree(lines[1..], CLEAR);
      } else {
        var l := lines[0];
        ColonAtRange(l);
        assert '\r' !in l;
        var b' := Process(b, l);
        assert '\r' !in b'.kind && '\r' !in b'.data;
        InterpretIsCrFree(lines[1..], b');
      }
    }
  }

  /** No message ever contains a carriage return. */
  lemma ParseIsCrFree(s: string)
    ensures forall m :: m in Parse(s) ==> CrFree(m)
  {
    InterpretIsCrFree(Lines(StripBom(s)), CLEAR);
  }
}
