/**
 What the `/exec` handler prints, and the proof that an event-stream parser
 reads back exactly the events that were meant.
 */
module EventPrinter {
  import opened Basics
  import opened EventStream

  // ---- the text functions the printer uses ----

  /** unicode.IsSpace. */
  predicate IsSpace(c: char) {
    || c == ' ' || ('\t' <= c <= '\r')
    || c == '\U{85}' || c == '\U{A0}' || c == '\U{1680}' || ('\U{2000}' <= c <= '\U{200A}')
    || c == '\U{2028}' || c == '\U{2029}' || c == '\U{202F}' || c == '\U{205F}' || c == '\U{3000}'
  }

  /** The white space of Unicode, by code point. */
  lemma SpaceCodePoints(c: char)
    ensures IsSpace(c) <==> c as int in {0x9, 0xA, 0xB, 0xC, 0xD, 0x20, 0x85, 0xA0, 0x1680, 0x2000, 0x2001, 0x2002, 0x2003, 0x2004,
                                         0x2005, 0x2006, 0x2007, 0x2008, 0x2009, 0x200A, 0x2028, 0x2029, 0x202F, 0x205F, 0x3000}
  {
  }

  function TrimLeft(s: string): string {
    if s != "" && IsSpace(s[0]) then TrimLeft(s[1..]) else s
  }

  function TrimRight(s: string): string {
    if s != "" && IsSpace(s[|s| - 1]) then TrimRight(s[..|s| - 1]) else s
  }

  function TrimSpace(s: string): string {
    TrimRight(TrimLeft(s))
  }

  /** strings.ReplaceAll for a pattern of one character. */
  function ReplaceAll(s: string, what: char, into: string): string {
    if s == "" then "" else (if s[0] == what then into else [s[0]]) + ReplaceAll(s[1..], what, into)
  }

  /** Every line break starts a new data line. */
  function Body(t: string): string {
    ReplaceAll(t, '\n', "\ndata: ")
  }

  function EncodeSSE(s: string): string {
    Body(TrimSpace(s))
  }

  predicate AllSpace(s: string) {
    forall c :: c in s ==> IsSpace(c)
  }

  /** Trimming takes white space off both ends, all of it, and nothing else. */
  lemma {:induction false} TrimSpaceMeaning(s: string) returns (before: string, after: string)
    ensures s == before + TrimSpace(s) + after && AllSpace(before) && AllSpace(after)
    ensures TrimSpace(s) != "" ==> !IsSpace(TrimSpace(s)[0]) && !IsSpace(TrimSpace(s)[|TrimSpace(s)| - 1])
  {
    before := TrimLeftMeaning(s);
    after := TrimRightMeaning(TrimLeft(s));
    assert s == before + (TrimSpace(s) + after) == before + TrimSpace(s) + after;
    if TrimSpace(s) != "" {
      assert TrimLeft(s)[0] == TrimSpace(s)[0];
    }
  }

  lemma {:induction false} TrimLeftMeaning(s: string) returns (before: string)
    ensures s == before + TrimLeft(s) && AllSpace(before)
    ensures TrimLeft(s) != "" ==> !IsSpace(TrimLeft(s)[0])
  {
    before := "";
    if s != "" && IsSpace(s[0]) {
      before := TrimLeftMeaning(s[1..]);
      assert s == [s[0]] + s[1..] == [s[0]] + before + TrimLeft(s);
      before := [s[0]] + before;
    }
  }

  lemma {:induction false} TrimRightMeaning(s: string) returns (after: string)
    ensures s == TrimRight(s) + after && AllSpace(after)
    ensures TrimRight(s) != "" ==> !IsSpace(TrimRight(s)[|TrimRight(s)| - 1])
  {
    after := "";
    if s != "" && IsSpace(s[|s| - 1]) {
      after := TrimRightMeaning(s[..|s| - 1]);
      assert s == s[..|s| - 1] + [s[|s| - 1]] == TrimRight(s) + (after + [s[|s| - 1]]);
      after := after + [s[|s| - 1]];
    }
  }

  // ---- what is printed ----

  datatype Output = OutEvent(text: string) | ErrorEvent(text: string) | Ping | Done

  /** The two Fprintf calls for one event. */
  function EventText(kind: string, data: string): string {
    "event: " + kind + "\n" + ("data: " + data + "\n\n")
  }

  function Print(o: Output): string {
    match o
    case OutEvent(text) => EventText("out", EncodeSSE(text))
    case ErrorEvent(text) => EventText("error", EncodeSSE(text))
    case Ping => ": ping\n\n"
    case Done => EventText("done", "done")
  }

  function PrintAll(os: seq<Output>): string {
    if os == [] then "" else Print(os[0]) + PrintAll(os[1..])
  }

  // ---- what is meant ----

  function CrlfToLf(s: string): string {
    if |s| >= 2 && s[0] == '\r' && s[1] == '\n' then "\n" + CrlfToLf(s[2..])
    else if s == "" then ""
    else [s[0]] + CrlfToLf(s[1..])
  }

  /** Every CR is half of a CRLF. */
  predicate NoLoneCr(s: string) {
    forall i :: 0 <= i < |s| && s[i] == '\r' ==> i + 1 < |s| && s[i + 1] == '\n'
  }

  function TextMeant(text: string): string {
    CrlfToLf(TrimSpace(text))
  }

  function Meant(o: Output): seq<Message> {
    match o
    case OutEvent(text) => [Message("out", TextMeant(text))]
    case ErrorEvent(text) => [Message("error", TextMeant(text))]
    case Ping => []
    case Done => [Message("done", "done")]
  }

  function MeantAll(os: seq<Output>): seq<Message> {
    if os == [] then [] else Meant(os[0]) + MeantAll(os[1..])
  }

  predicate Clean(o: Output) {
    o.OutEvent? || o.ErrorEvent? ==> NoLoneCr(TrimSpace(o.text))
  }

  predicate AllClean(os: seq<Output>) {
    forall o :: o in os ==> Clean(o)
  }

  // ---- the data lines of one event ----

  const DATA := "data: "

  /** The lines a text is printed as, when `p` is already on the current line. */
  function BodyLines(p: string, t: string): seq<string>
    decreases |t|
  {
    if t == "" then [p]
    else if t[0] == '\n' then [p] + BodyLines(DATA, t[1..])
    else if |t| >= 2 && t[0] == '\r' && t[1] == '\n' then [p] + BodyLines(DATA, t[2..])
    else BodyLines(p + [t[0]], t[1..])
  }

  lemma BodyOfLf(p: string, t: string, rest: string)
    requires t != "" && t[0] == '\n'
    ensures p + Body(t) + "\n" + rest == p + "\n" + (DATA + Body(t[1..]) + "\n" + rest)
  {
    assert "\ndata: " == "\n" + DATA;
  }

  lemma BodyOfCrlf(p: string, t: string, rest: string)
    requires |t| >= 2 && t[0] == '\r' && t[1] == '\n'
    ensures p + Body(t) + "\n" + rest == p + "\r\n" + (DATA + Body(t[2..]) + "\n" + rest)
  {
    assert t[1..][1..] == t[2..];
    assert "\ndata: " == "\n" + DATA;
    assert Body(t) == "\r" + Body(t[1..]);
  }

  lemma BodyOfChar(p: string, t: string, rest: string)
    requires t != "" && t[0] != '\n'
    ensures p + Body(t) + "\n" + rest == (p + [t[0]]) + Body(t[1..]) + "\n" + rest
  {
  }

  lemma {:induction false} LinesOfBody(p: string, t: string, rest: string)
    requires EolFree(p) && NoLoneCr(t)
    ensures Lines(p + Body(t) + "\n" + rest) == BodyLines(p, t) + Lines(rest)
    decreases |t|
  {
    if t == "" {
      assert p + Body(t) == p;
      LinesOfLf(p, rest);
    } else if t[0] == '\n' {
      BodyOfLf(p, t, rest);
      LinesOfLf(p, DATA + Body(t[1..]) + "\n" + rest);
      NoLoneCrTail(t, 1);
      LinesOfBody(DATA, t[1..], rest);
    } else if t[0] == '\r' {
      BodyOfCrlf(p, t, rest);
      LinesOfCrlf(p, DATA + Body(t[2..]) + "\n" + rest);
      NoLoneCrTail(t, 2);
      LinesOfBody(DATA, t[2..], rest);
    } else {
      BodyOfChar(p, t, rest);
      NoLoneCrTail(t, 1);
      LinesOfBody(p + [t[0]], t[1..], rest);
    }
  }

  lemma NoLoneCrTail(t: string, n: nat)
    requires NoLoneCr(t) && n <= |t|
    ensures NoLoneCr(t[n..])
  {
    forall i | 0 <= i < |t[n..]| && t[n..][i] == '\r' ensures i + 1 < |t[n..]| && t[n..][i + 1] == '\n' {
      assert t[n + i] == '\r';
    }
  }

  // ---- how one event is interpreted ----

  lemma ProcessData(b: Buffers, q: string)
    ensures Process(b, DATA + q) == b.(data := b.data + q + "\n")
  {
    var l := DATA + q;
    ColonAtOf("data", " " + q);
    assert l == "data" + ([':'] + (" " + q));
    assert l[..4] == "data" && l[5..] == " " + q;
    assert DropSpace(" " + q) == q;
  }

  lemma {:induction false} ColonAtOf(name: string, v: string)
    requires ':' !in name
    ensures ColonAt(name + ([':'] + v)) == |name|
  {
    var l := name + ([':'] + v);
    if name != "" {
      assert l[1..] == name[1..] + ([':'] + v);
      ColonAtOf(name[1..], v);
    }
  }

  lemma ProcessKind(kind: string)
    ensures Process(CLEAR, "event: " + kind) == Buffers(kind, "")
  {
    var l := "event: " + kind;
    ColonAtOf("event", " " + kind);
    assert l == "event" + ([':'] + (" " + kind));
    assert l[..5] == "event" && l[6..] == " " + kind;
    assert DropSpace(" " + kind) == kind;
  }

  lemma InterpretLastData(kind: string, d: string, q: string, rest: seq<string>)
    requires kind != ""
    ensures Interpret([DATA + q] + [""] + rest, Buffers(kind, d)) == [Message(kind, d + q)] + Interpret(rest, CLEAR)
  {
    var b := Buffers(kind, d + q + "\n");
    ProcessData(Buffers(kind, d), q);
    var ls := [DATA + q] + [""] + rest;
    assert ls[1..] == [""] + rest && ls[1..][1..] == rest;
    assert b.data[..|b.data| - 1] == d + q;
  }

  lemma InterpretDataLine(b: Buffers, q: string, rest: seq<string>)
    ensures Interpret([DATA + q] + rest, b) == Interpret(rest, b.(data := b.data + q + "\n"))
  {
    ProcessData(b, q);
    assert ([DATA + q] + rest)[1..] == rest;
  }

  /** A line break in the text ends one data line and begins the next. */
  lemma InterpretBreak(kind: string, d: string, q: string, t: string, n: nat, rest: seq<string>)
    requires kind != "" && NoLoneCr(t) && t != "" && (t[0] == '\n' || t[0] == '\r') && n == (if t[0] == '\n' then 1 else 2)
    ensures n <= |t|
    ensures Interpret(BodyLines(DATA + q, t) + [""] + rest, Buffers(kind, d)) ==
            Interpret(BodyLines(DATA + "", t[n..]) + [""] + rest, Buffers(kind, d + q + "\n"))
  {
    var more := BodyLines(DATA, t[n..]) + [""] + rest;
    assert BodyLines(DATA + q, t) + [""] + rest == [DATA + q] + more;
    InterpretDataLine(Buffers(kind, d), q, more);
    assert DATA + "" == DATA;
  }

  lemma MeantBreak(d: string, q: string, t: string, n: nat)
    requires NoLoneCr(t) && t != "" && (t[0] == '\n' || t[0] == '\r') && n == (if t[0] == '\n' then 1 else 2)
    ensures n <= |t| && d + q + "\n" + "" + CrlfToLf(t[n..]) == d + q + CrlfToLf(t)
  {
    var more := CrlfToLf(t[n..]);
    CrlfAtBreak(t, n);
    Reassociate(d + q, "\n", more);
  }

  lemma CrlfAtBreak(t: string, n: nat)
    requires NoLoneCr(t) && t != "" && (t[0] == '\n' || t[0] == '\r') && n == (if t[0] == '\n' then 1 else 2)
    ensures n <= |t| && CrlfToLf(t) == "\n" + CrlfToLf(t[n..])
  {
  }

  lemma Reassociate(a: string, b: string, c: string)
    ensures a + b + "" + c == a + (b + c)
  {
  }

  lemma {:induction false} InterpretBody(kind: string, d: string, q: string, t: string, rest: seq<string>)
    requires kind != "" && NoLoneCr(t)
    ensures Interpret(BodyLines(DATA + q, t) + [""] + rest, Buffers(kind, d)) ==
            [Message(kind, d + q + CrlfToLf(t))] + Interpret(rest, CLEAR)
    decreases |t|
  {
    if t == "" {
      InterpretLastData(kind, d, q, rest);
      assert d + q + "" == d + q;
    } else if t[0] == '\n' || t[0] == '\r' {
      var n := if t[0] == '\n' then 1 else 2;
      NoLoneCrTail(t, n);
      InterpretBreak(kind, d, q, t, n, rest);
      InterpretBody(kind, d + q + "\n", "", t[n..], rest);
      MeantBreak(d, q, t, n);
    } else {
      assert DATA + q + [t[0]] == DATA + (q + [t[0]]);
      NoLoneCrTail(t, 1);
      InterpretBody(kind, d, q + [t[0]], t[1..], rest);
      assert d + (q + [t[0]]) + CrlfToLf(t[1..]) == d + q + ([t[0]] + CrlfToLf(t[1..]));
    }
  }

  lemma EventLines(kind: string, t: string, rest: string)
    requires EolFree(kind) && NoLoneCr(t)
    ensures Lines(EventText(kind, Body(t)) + rest) == ["event: " + kind] + (BodyLines(DATA, t) + [""] + Lines(rest))
  {
    var more := DATA + Body(t) + "\n" + ("\n" + rest);
    assert EventText(kind, Body(t)) + rest == "event: " + kind + "\n" + more;
    LinesOfLf("event: " + kind, more);
    LinesOfBody(DATA, t, "\n" + rest);
    assert "" + "\n" + rest == "\n" + rest;
    LinesOfLf("", rest);
    assert BodyLines(DATA, t) + ([""] + Lines(rest)) == BodyLines(DATA, t) + [""] + Lines(rest);
  }

  /** One printed event, followed by anything, is read as that event followed by the rest. */
  lemma EventIsRead(kind: string, t: string, rest: string)
    requires EolFree(kind) && kind != "" && NoLoneCr(t)
    ensures Interpret(Lines(EventText(kind, Body(t)) + rest), CLEAR)
            == [Message(kind, CrlfToLf(t))] + Interpret(Lines(rest), CLEAR)
  {
    EventLines(kind, t, rest);
    var body := BodyLines(DATA, t) + [""] + Lines(rest);
    assert (["event: " + kind] + body)[1..] == body;
    ProcessKind(kind);
    assert DATA + "" == DATA;
    InterpretBody(kind, "", "", t, Lines(rest));
    assert "" + "" + CrlfToLf(t) == CrlfToLf(t);
  }

  lemma PingIsRead(rest: string)
    ensures Interpret(Lines(Print(Ping) + rest), CLEAR) == Interpret(Lines(rest), CLEAR)
  {
    assert Print(Ping) + rest == ": ping" + "\n" + ("" + "\n" + rest);
    LinesOfLf(": ping", "" + "\n" + rest);
    LinesOfLf("", rest);
    var ls := [": ping"] + ([""] + Lines(rest));
    assert ls[1..] == [""] + Lines(rest) && ls[1..][1..] == Lines(rest);
    assert Process(CLEAR, ": ping") == CLEAR;
  }

  lemma PlainText()
    ensures Body("done") == "done" == CrlfToLf("done")
  {
    assert "done"[1..] == "one" && "one"[1..] == "ne" && "ne"[1..] == "e" && "e"[1..] == "";
    assert Body("e") == "e" && Body("ne") == "ne" && Body("one") == "one";
    assert CrlfToLf("e") == "e" && CrlfToLf("ne") == "ne" && CrlfToLf("one") == "one";
  }

  lemma OutputIsRead(o: Output, rest: string)
    requires Clean(o)
    ensures Interpret(Lines(Print(o) + rest), CLEAR) == Meant(o) + Interpret(Lines(rest), CLEAR)
  {
    match o
    case OutEvent(text) => EventIsRead("out", TrimSpace(text), rest);
    case ErrorEvent(text) => EventIsRead("error", TrimSpace(text), rest);
    case Ping => PingIsRead(rest);
    case Done => PlainText(); EventIsRead("done", "done", rest);
  }

  lemma {:induction false} CleanStreamIsRead(os: seq<Output>)
    requires AllClean(os)
    ensures Interpret(Lines(PrintAll(os)), CLEAR) == MeantAll(os)
  {
    if os != [] {
      OutputIsRead(os[0], PrintAll(os[1..]));
      CleanStreamIsRead(os[1..]);
    }
  }

  lemma NoBom(os: seq<Output>)
    ensures StripBom(PrintAll(os)) == PrintAll(os)
  {
    if os != [] {
      assert Print(os[0])[0] == 'e' || Print(os[0])[0] == ':';
      assert PrintAll(os)[0] == Print(os[0])[0];
    }
  }

  // ---- a lone CR is fatal ----

  lemma {:induction false} LoneCrSurvives(s: string, i: nat)
    requires i < |s| && s[i] == '\r' && (i + 1 == |s| || s[i + 1] != '\n')
    ensures '\r' in CrlfToLf(s)
    decreases i
  {
    if |s| >= 2 && s[0] == '\r' && s[1] == '\n' {
      LoneCrSurvives(s[2..], i - 2);
    } else if i > 0 {
      LoneCrSurvives(s[1..], i - 1);
    }
  }

  lemma {:induction false} MeantMember(os: seq<Output>, o: Output)
    requires o in os && (o.OutEvent? || o.ErrorEvent?)
    ensures Meant(o)[0] in MeantAll(os)
  {
    if o != os[0] { MeantMember(os[1..], o); }
  }

  /** When every CR belongs to a CRLF, reading CRLF as LF is dropping the CRs. */
  lemma {:induction false} CrlfToLfDropsCr(s: string)
    requires NoLoneCr(s)
    ensures CrlfToLf(s) == ReplaceAll(s, '\r', "")
    decreases |s|
  {
    if |s| >= 2 && s[0] == '\r' && s[1] == '\n' {
      NoLoneCrTail(s, 2);
      CrlfToLfDropsCr(s[2..]);
      assert s[1..][1..] == s[2..];
      assert ReplaceAll(s, '\r', "") == "" + ReplaceAll(s[1..], '\r', "");
    } else if s != "" {
      NoLoneCrTail(s, 1);
      CrlfToLfDropsCr(s[1..]);
    }
  }

  lemma UncleanIsMisread(os: seq<Output>, o: Output)
    requires o in os && !Clean(o)
    ensures Parse(PrintAll(os)) != MeantAll(os)
  {
    var t := TrimSpace(o.text);
    var i :| 0 <= i < |t| && t[i] == '\r' && (i + 1 == |t| || t[i + 1] != '\n');
    LoneCrSurvives(t, i);
    MeantMember(os, o);
    ParseIsCrFree(PrintAll(os));
    assert !CrFree(Meant(o)[0]);
  }

  lemma CleanRoundTrip(os: seq<Output>)
    requires AllClean(os)
    ensures Parse(PrintAll(os)) == MeantAll(os)
  {
    NoBom(os);
    CleanStreamIsRead(os);
  }

  // ---- main result ----

  /**
   The printed stream parses to exactly the events meant, pings leaving no trace,
   if and only if no printed text has, once trimmed, a CR that no LF follows.
   */
  lemma StreamRoundTrip(os: seq<Output>)
    ensures Parse(PrintAll(os)) == MeantAll(os) <==> AllClean(os)
  {
    if AllClean(os) {
      CleanRoundTrip(os);
    } else {
      var o :| o in os && !Clean(o);
      UncleanIsMisread(os, o);
    }
  }

  /** A client that was cut off has seen a beginning of the events meant. */
  lemma CutOffRoundTrip(os: seq<Output>, n: nat)
    requires n <= |PrintAll(os)| && AllClean(os)
    ensures Parse(PrintAll(os)[..n]) <= MeantAll(os)
  {
    CleanRoundTrip(os);
    assert PrintAll(os)[..n] + PrintAll(os)[n..] == PrintAll(os);
    ParseOfPrefix(PrintAll(os)[..n], PrintAll(os)[n..]);
  }
}
