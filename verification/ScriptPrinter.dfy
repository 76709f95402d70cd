/**
 Scripts printed line by line, with every text that is put in between double quotes,
 and when a shell reads them as the commands that were meant.
 */
module ScriptPrinter {
  import opened Basics
  import opened ShellWords
  import opened ShellScript

  datatype Line =
    | Empty
    | Simple(bare: seq<string>, quoted: seq<string>, last: string)
    | Fallback(bare: seq<string>, quoted: seq<string>, bare2: seq<string>, last: string)
    | Redirected(bare: seq<string>, quoted: seq<string>, twice: bool, file: string)

  function LineText(l: Line): string {
    match l
    case Empty => "\n"
    case Simple(bare, quoted, last) => BareText(bare) + (QuotedText(quoted) + (Quote(last) + "\n"))
    case Fallback(bare, quoted, bare2, last) =>
      BareText(bare) + (QuotedText(quoted) + ("|| " + (BareText(bare2) + (Quote(last) + "\n"))))
    case Redirected(bare, quoted, twice, file) =>
      BareText(bare) + (QuotedText(quoted) + ((if twice then ">> " else "> ") + (Quote(file) + "\n")))
  }

  function LineCommands(l: Line): seq<Command> {
    match l
    case Empty => []
    case Simple(bare, quoted, last) => [Command(Always, bare + quoted + [last], NoRedirect)]
    case Fallback(bare, quoted, bare2, last) =>
      [Command(Always, bare + quoted, NoRedirect), Command(OrElse, bare2 + [last], NoRedirect)]
    case Redirected(bare, quoted, twice, file) =>
      [Command(Always, bare + quoted, if twice then Append(file) else Write(file))]
  }

  /** The texts that are put in. */
  function LineWords(l: Line): seq<string> {
    match l
    case Empty => []
    case Simple(bare, quoted, last) => quoted + [last]
    case Fallback(bare, quoted, bare2, last) => quoted + [last]
    case Redirected(bare, quoted, twice, file) => quoted
  }

  /** The fixed parts of the line mean themselves. */
  predicate Sound(l: Line) {
    match l
    case Empty => true
    case Simple(bare, quoted, last) => AllSafe(bare)
    case Fallback(bare, quoted, bare2, last) => AllSafe(bare) && bare != [] && AllSafe(bare2)
    case Redirected(bare, quoted, twice, file) => AllSafe(bare) && bare != [] && Plain(file)
  }

  function Text(ls: seq<Line>): string {
    if ls == [] then "" else LineText(ls[0]) + Text(ls[1..])
  }

  function Commands(ls: seq<Line>): seq<Command> {
    if ls == [] then [] else LineCommands(ls[0]) + Commands(ls[1..])
  }

  predicate AllSound(ls: seq<Line>) {
    forall l :: l in ls ==> Sound(l)
  }

  /** Every text that is put in means itself between double quotes. */
  predicate AllLinesPlain(ls: seq<Line>) {
    forall l :: l in ls ==> AllPlain(LineWords(l))
  }

  lemma {:induction false} TextOfConcat(a: seq<Line>, b: seq<Line>)
    ensures Text(a + b) == Text(a) + Text(b)
  {
    if a == [] {
      assert a + b == b;
    } else {
      assert (a + b)[1..] == a[1..] + b;
      TextOfConcat(a[1..], b);
      SeqAssoc(LineText(a[0]), Text(a[1..]), Text(b));
    }
  }

  lemma {:induction false} CommandsOfConcat(a: seq<Line>, b: seq<Line>)
    ensures Commands(a + b) == Commands(a) + Commands(b)
  {
    if a == [] {
      assert a + b == b;
    } else {
      assert (a + b)[1..] == a[1..] + b;
      CommandsOfConcat(a[1..], b);
      SeqAssoc(LineCommands(a[0]), Commands(a[1..]), Commands(b));
    }
  }

  // ---- plain texts are read ----

  function PrependAll(cs: seq<Command>, more: Option<seq<Command>>): Option<seq<Command>> {
    if more.None? then None else Some(cs + more.value)
  }

  lemma PrependTwo(a: Command, b: Command, more: Option<seq<Command>>)
    ensures Prepend(a, Prepend(b, more)) == PrependAll([a, b], more)
  {
    if more.Some? { assert [a] + ([b] + more.value) == [a, b] + more.value; }
  }

  lemma SimpleIsRead(bare: seq<string>, quoted: seq<string>, last: string, tail: string)
    requires AllSafe(bare) && AllPlain(quoted) && Plain(last)
    ensures ReadScript(LineText(Simple(bare, quoted, last)) + tail)
            == PrependAll(LineCommands(Simple(bare, quoted, last)), ReadScript(tail))
  {
    Regroup(BareText(bare), QuotedText(quoted), Quote(last) + "\n", tail);
    ReadLine(bare, quoted, last, tail, Always);
  }

  lemma Regroup(a: string, b: string, c: string, d: string)
    ensures a + (b + c) + d == a + (b + (c + d))
  {
  }

  lemma FallbackIsRead(bare: seq<string>, quoted: seq<string>, bare2: seq<string>, last: string, tail: string)
    requires AllSafe(bare) && bare != [] && AllSafe(bare2) && AllPlain(quoted) && Plain(last)
    ensures ReadScript(LineText(Fallback(bare, quoted, bare2, last)) + tail)
            == PrependAll(LineCommands(Fallback(bare, quoted, bare2, last)), ReadScript(tail))
  {
    var second := BareText(bare2) + (Quote(last) + "\n" + tail);
    FallbackText(bare, quoted, bare2, last, tail);
    ReadOrElse(bare, quoted, second);
    ReadAfterBlank(second, OrElse);
    assert QuotedText([]) + (Quote(last) + "\n" + tail) == Quote(last) + "\n" + tail;
    ReadLine(bare2, [], last, tail, OrElse);
    assert bare2 + [] + [last] == bare2 + [last];
    PrependTwo(Command(Always, bare + quoted, NoRedirect), Command(OrElse, bare2 + [last], NoRedirect), ReadScript(tail));
  }

  lemma FallbackText(bare: seq<string>, quoted: seq<string>, bare2: seq<string>, last: string, tail: string)
    ensures LineText(Fallback(bare, quoted, bare2, last)) + tail
            == BareText(bare) + (QuotedText(quoted) + ("|| " + (BareText(bare2) + (Quote(last) + "\n" + tail))))
  {
    var second := BareText(bare2) + (Quote(last) + "\n");
    Regroup(BareText(bare), QuotedText(quoted), "|| " + second, tail);
    Regroup("|| ", BareText(bare2), Quote(last) + "\n", tail);
  }

  lemma RedirectedIsRead(bare: seq<string>, quoted: seq<string>, twice: bool, file: string, tail: string)
    requires AllSafe(bare) && bare != [] && AllPlain(quoted) && Plain(file)
    ensures ReadScript(LineText(Redirected(bare, quoted, twice, file)) + tail)
            == PrependAll(LineCommands(Redirected(bare, quoted, twice, file)), ReadScript(tail))
  {
    var op := if twice then ">> " else "> ";
    Regroup(BareText(bare), QuotedText(quoted), op + (Quote(file) + "\n"), tail);
    SeqAssoc(op, Quote(file) + "\n", tail);
    ReadRedirect(bare, quoted, twice, file, tail);
  }

  lemma LineIsRead(l: Line, tail: string)
    requires Sound(l) && AllPlain(LineWords(l))
    ensures ReadScript(LineText(l) + tail) == PrependAll(LineCommands(l), ReadScript(tail))
  {
    match l
    case Empty =>
      ReadBlankLine(tail);
      if ReadScript(tail).Some? { assert [] + ReadScript(tail).value == ReadScript(tail).value; }
    case Simple(bare, quoted, last) => SimpleIsRead(bare, quoted, last, tail);
    case Fallback(bare, quoted, bare2, last) => FallbackIsRead(bare, quoted, bare2, last, tail);
    case Redirected(bare, quoted, twice, file) => RedirectedIsRead(bare, quoted, twice, file, tail);
  }

  lemma {:induction false} PlainLinesAreRead(ls: seq<Line>)
    requires AllSound(ls) && AllLinesPlain(ls)
    ensures ReadScript(Text(ls)) == Some(Commands(ls))
  {
    if ls != [] {
      assert ls[0] in ls;
      LineIsRead(ls[0], Text(ls[1..]));
      PlainLinesAreRead(ls[1..]);
    }
  }

  // ---- what a reader can have used up ----

  function TallyCommand(c: Command): Tally {
    match c.output
    case NoRedirect => TallyAll(c.words)
    case Write(file) => Plus(TallyAll(c.words), TallyOf(file))
    case Append(file) => Plus(TallyAll(c.words), TallyOf(file))
  }

  function TallyCommands(cs: seq<Command>): Tally {
    if cs == [] then ZERO else Plus(TallyCommand(cs[0]), TallyCommands(cs[1..]))
  }

  lemma TallyPrepend(c: Command, cs: seq<Command>)
    ensures TallyCommands([c] + cs) == Plus(TallyCommand(c), TallyCommands(cs))
  {
    assert ([c] + cs)[1..] == cs;
  }

  lemma SpentPlus(a: Tally, x: Tally, b: Tally, y: Tally)
    requires Spent(a, x, false) && Spent(b, y, false)
    ensures Spent(Plus(a, b), Plus(x, y), false)
  {
  }

  lemma DiffersPlus(a: Tally, x: Tally, b: Tally, y: Tally)
    requires Differs(a, x) && Spent(a, x, false) && Spent(b, y, false)
    ensures Differs(Plus(a, b), Plus(x, y))
  {
  }

  lemma TallyDrop(s: string, n: nat)
    requires n <= |s| && TallyOf(s[..n]) == ZERO
    ensures TallyOf(s) == TallyOf(s[n..])
  {
    SkipText(s[..n], s[n..], s);
  }

  lemma NewlineMark(rest: string)
    requires rest != "" && rest[0] == '\n'
    ensures TallyOf(rest) == TallyOf(rest[1..])
  {
    MarkTexts();
    assert rest[..1] == "\n";
    TallyDrop(rest, 1);
  }

  lemma BarMark(rest: string)
    requires |rest| > 1 && rest[0] == '|' && rest[1] == '|'
    ensures TallyOf(rest) == TallyOf(rest[2..])
  {
    MarkTexts();
    assert rest[..2] == "||";
    TallyDrop(rest, 2);
  }

  lemma RedirectMark(rest: string, n: nat)
    requires rest != "" && rest[0] == '>' && n == (if |rest| > 1 && rest[1] == '>' then 2 else 1)
    ensures TallyOf(rest) == TallyOf(rest[n..])
  {
    MarkTexts();
    assert rest[..n] == if n == 2 then ">>" else ">";
    TallyDrop(rest, n);
  }

  lemma WordsSpend(s: string)
    requires Tokenize(s).Words?
    ensures Spent(Used(s, Tokenize(s).rest), TallyAll(Tokenize(s).words), false)
  {
    ScanSpends(s, Between, "", []);
    assert Out(Tokenize(s).words, [], "") == TallyAll(Tokenize(s).words);
  }

  lemma ReadAtEnd(s: string, link: Link)
    requires ReadFrom(s, link).Some? && NextWords(s).rest == ""
    ensures TallyCommands(ReadFrom(s, link).value) == TallyAll(NextWords(s).words)
  {
    var t := NextWords(s);
    if t.words != [] {
      TallyPrepend(Command(link, t.words, NoRedirect), []);
      assert [Command(link, t.words, NoRedirect)] + [] == [Command(link, t.words, NoRedirect)];
      PlusAssoc(TallyAll(t.words), ZERO, ZERO);
    }
  }

  lemma ReadAtNewline(s: string, link: Link) returns (next: Link)
    requires ReadFrom(s, link).Some? && NextWords(s).rest != "" && NextWords(s).rest[0] == '\n'
    ensures ReadFrom(NextWords(s).rest[1..], next).Some?
    ensures TallyCommands(ReadFrom(s, link).value) ==
            Plus(TallyAll(NextWords(s).words), TallyCommands(ReadFrom(NextWords(s).rest[1..], next).value))
  {
    var t := NextWords(s);
    next := if t.words == [] then link else Always;
    var cs := ReadFrom(t.rest[1..], next).value;
    if t.words == [] {
      PlusAssoc(TallyCommands(cs), ZERO, ZERO);
    } else {
      TallyPrepend(Command(link, t.words, NoRedirect), cs);
    }
  }

  lemma ReadAtBar(s: string, link: Link)
    requires ReadFrom(s, link).Some? && NextWords(s).rest != "" && NextWords(s).rest[0] == '|'
    ensures |NextWords(s).rest| > 1 && NextWords(s).rest[1] == '|' && ReadFrom(NextWords(s).rest[2..], OrElse).Some?
    ensures TallyCommands(ReadFrom(s, link).value) ==
            Plus(TallyAll(NextWords(s).words), TallyCommands(ReadFrom(NextWords(s).rest[2..], OrElse).value))
  {
    var t := NextWords(s);
    TallyPrepend(Command(link, t.words, NoRedirect), ReadFrom(t.rest[2..], OrElse).value);
  }

  /** What follows the operator of a redirection: the file and the commands after it. */
  function AfterRedirect(rest: string): Tally
    requires rest != "" && NextFile(rest).Words? && |NextFile(rest).words| == 1 && ReadFrom(NextFile(rest).rest, Always).Some?
  {
    Plus(TallyOf(NextFile(rest).words[0]), TallyCommands(ReadFrom(NextFile(rest).rest, Always).value))
  }

  lemma ReadAtRedirect(s: string, link: Link)
    requires ReadFrom(s, link).Some? && NextWords(s).rest != "" && NextWords(s).rest[0] != '\n' && NextWords(s).rest[0] != '|'
    ensures var rest := NextWords(s).rest;
            && rest[0] == '>' && NextFile(rest).Words? && |NextFile(rest).words| == 1 && ReadFrom(NextFile(rest).rest, Always).Some?
            && TallyCommands(ReadFrom(s, link).value) == Plus(TallyAll(NextWords(s).words), AfterRedirect(rest))
  {
    var t := NextWords(s);
    var f := NextFile(t.rest);
    var output := if |t.rest| > 1 && t.rest[1] == '>' then Append(f.words[0]) else Write(f.words[0]);
    TallyPrepend(Command(link, t.words, output), ReadFrom(f.rest, Always).value);
    PlusMore(TallyAll(t.words), TallyOf(f.words[0]), TallyCommands(ReadFrom(f.rest, Always).value));
  }

  lemma PlusMore(a: Tally, b: Tally, c: Tally)
    ensures Plus(Plus(a, b), c) == Plus(a, Plus(b, c))
  {
  }

  lemma NothingSpent()
    ensures TallyOf("") == ZERO && Spent(ZERO, ZERO, false)
  {
  }

  /**
   What a script is read as falls into the words of its first command and the rest, and
   the rest has spent no more than what was left of the script.
   */
  lemma {:induction false} ReadDecomposes(s: string, link: Link) returns (y: Tally)
    requires ReadFrom(s, link).Some?
    ensures Tokenize(s).Words? && Spent(TallyOf(Tokenize(s).rest), y, false)
    ensures TallyCommands(ReadFrom(s, link).value) == Plus(TallyAll(Tokenize(s).words), y)
    decreases |s|, 1
  {
    var t := NextWords(s);
    if t.rest == "" {
      y := ZERO;
      ReadAtEnd(s, link);
      PlusZero(TallyAll(t.words));
      NothingSpent();
    } else if t.rest[0] == '\n' {
      var next := ReadAtNewline(s, link);
      NewlineMark(t.rest);
      ReadSpends(t.rest[1..], next);
      y := TallyCommands(ReadFrom(t.rest[1..], next).value);
    } else if t.rest[0] == '|' {
      ReadAtBar(s, link);
      BarMark(t.rest);
      ReadSpends(t.rest[2..], OrElse);
      y := TallyCommands(ReadFrom(t.rest[2..], OrElse).value);
    } else {
      ReadAtRedirect(s, link);
      RedirectSpends(t.rest);
      y := AfterRedirect(t.rest);
    }
  }

  lemma {:induction false} RedirectSpends(rest: string)
    requires rest != "" && rest[0] == '>' && NextFile(rest).Words? && |NextFile(rest).words| == 1
    requires ReadFrom(NextFile(rest).rest, Always).Some?
    ensures Spent(TallyOf(rest), AfterRedirect(rest), false)
    decreases |rest|, 0
  {
    var file, left := FileSpends(rest);
    ReadSpends(left, Always);
    SpentPlus(Used(rest, left), TallyOf(file), TallyOf(left), TallyCommands(ReadFrom(left, Always).value));
    UsedWhole(rest, left);
  }

  lemma FileSpends(rest: string) returns (file: string, left: string)
    requires rest != "" && rest[0] == '>' && NextFile(rest).Words? && |NextFile(rest).words| == 1
    ensures file == NextFile(rest).words[0] && left == NextFile(rest).rest
    ensures Spent(Used(rest, left), TallyOf(file), false)
  {
    var n := if |rest| > 1 && rest[1] == '>' then 2 else 1;
    var f := NextWords(rest[n..]);
    file, left := f.words[0], f.rest;
    RedirectMark(rest, n);
    WordsSpend(rest[n..]);
    assert f.words == [file];
    OneWord(file);
  }

  lemma OneWord(w: string)
    ensures TallyAll([w]) == TallyOf(w)
  {
    assert [w][1..] == [];
    PlusAssoc(TallyOf(w), ZERO, ZERO);
  }

  lemma UsedWhole(s: string, rest: string)
    ensures Plus(Used(s, rest), TallyOf(rest)) == TallyOf(s)
  {
    PlusMinus(TallyOf(s), TallyOf(rest));
  }

  lemma PlusMinus(a: Tally, b: Tally)
    ensures Plus(Minus(a, b), b) == a
  {
  }

  /** Reading a script invents no quote, and if it drops no single quote every double quote and backslash has cost a backslash. */
  lemma {:induction false} ReadSpends(s: string, link: Link)
    requires ReadFrom(s, link).Some?
    ensures Spent(TallyOf(s), TallyCommands(ReadFrom(s, link).value), false)
    decreases |s|, 2
  {
    var y := ReadDecomposes(s, link);
    WordsSpend(s);
    SpentPlus(Used(s, Tokenize(s).rest), TallyAll(Tokenize(s).words), TallyOf(Tokenize(s).rest), y);
    UsedWhole(s, Tokenize(s).rest);
  }

  // ---- what a printed line holds ----

  /** As many single quotes and backslashes. */
  predicate Same(i: Tally, o: Tally) {
    i.sq == o.sq && i.bs == o.bs
  }

  lemma SamePlus(a: Tally, x: Tally, b: Tally, y: Tally)
    requires Same(a, x) && Same(b, y)
    ensures Same(Plus(a, b), Plus(x, y))
  {
  }

  lemma SafeTail(w: string)
    requires Safe(w)
    ensures One(w[0]) == ZERO && (w[1..] == "" || Safe(w[1..]))
  {
    assert w[0] in w;
    forall c | c in w[1..] ensures c in w {
    }
  }

  lemma {:induction false} SafeTally(w: string)
    requires w == "" || Safe(w)
    ensures TallyOf(w) == ZERO
  {
    if w != "" {
      SafeTail(w);
      SafeTally(w[1..]);
    }
  }

  lemma {:induction false} BareTally(words: seq<string>)
    requires AllSafe(words)
    ensures TallyOf(BareText(words)) == ZERO && TallyAll(words) == ZERO
  {
    if words != [] {
      SafeTally(words[0]);
      BareTally(words[1..]);
      var more := BareText(words[1..]);
      assert BareText(words) == words[0] + ([' '] + more);
      TallyConcat(words[0], [' '] + more);
      MarkTexts();
      SkipText(" ", more, [' '] + more);
      PlusAssoc(ZERO, ZERO, ZERO);
    }
  }

  lemma QuoteTally(w: string, more: string)
    ensures Same(TallyOf(Quote(w) + more), Plus(TallyOf(w), TallyOf(more)))
  {
    TallyConcat(Quote(w), more);
    TallyOfQuote(w);
  }

  lemma {:induction false} QuotedTally(words: seq<string>, more: string)
    ensures Same(TallyOf(QuotedText(words) + more), Plus(TallyAll(words), TallyOf(more)))
  {
    if words == [] {
      assert QuotedText(words) + more == more;
      PlusAssoc(TallyOf(more), ZERO, ZERO);
    } else {
      var rest := QuotedText(words[1..]) + more;
      assert QuotedText(words) + more == Quote(words[0]) + ([' '] + rest);
      QuoteTally(words[0], [' '] + rest);
      MarkTexts();
      SkipText(" ", rest, [' '] + rest);
      QuotedTally(words[1..], more);
      SamePlus(TallyOf(words[0]), TallyOf(words[0]), TallyOf(rest), Plus(TallyAll(words[1..]), TallyOf(more)));
      PlusMore(TallyOf(words[0]), TallyAll(words[1..]), TallyOf(more));
    }
  }

  /** The text of a command up to `more`. */
  lemma CommandTally(bare: seq<string>, quoted: seq<string>, more: string)
    requires AllSafe(bare)
    ensures Same(TallyOf(BareText(bare) + (QuotedText(quoted) + more)), Plus(TallyAll(bare + quoted), TallyOf(more)))
    ensures TallyAll(bare + quoted) == TallyAll(quoted)
  {
    TallyConcat(BareText(bare), QuotedText(quoted) + more);
    BareTally(bare);
    QuotedTally(quoted, more);
    TallyAllConcat(bare, quoted);
    PlusAssoc(TallyAll(quoted), ZERO, ZERO);
    PlusAssoc(TallyOf(QuotedText(quoted) + more), ZERO, ZERO);
  }

  lemma EndTally(w: string, tail: string)
    ensures Same(TallyOf(Quote(w) + "\n" + tail), Plus(TallyOf(w), TallyOf(tail)))
  {
    assert Quote(w) + "\n" + tail == Quote(w) + (['\n'] + tail);
    QuoteTally(w, ['\n'] + tail);
    MarkTexts();
    SkipText("\n", tail, ['\n'] + tail);
  }

  lemma {:induction false} NoQuoteTally(w: string)
    requires '"' !in w
    ensures TallyOf(w).dq == 0
  {
    if w != "" { NoQuoteTally(w[1..]); }
  }

  lemma {:induction false} PlainTally(words: seq<string>)
    requires AllPlain(words)
    ensures TallyAll(words).dq == 0
  {
    if words != [] {
      assert words[0] in words;
      NoQuoteTally(words[0]);
      PlainTally(words[1..]);
    }
  }

  // ---- a text that is not plain shows ----

  lemma DiffersShift(i: Tally, o: Tally, a: Tally, x: Tally, all: Tally)
    requires Differs(i, o) && x.dq == 0 && Same(all, Plus(x, i))
    ensures Differs(all, Plus(x, o))
  {
  }

  lemma UsedShows(s: string, inner: string, rest: string, words: seq<string>, before: seq<string>)
    requires Same(TallyOf(s), Plus(TallyAll(before), TallyOf(inner))) && TallyAll(before).dq == 0
    requires Differs(Used(inner, rest), Out(words, before, ""))
    ensures Differs(Used(s, rest), TallyAll(words))
  {
    assert TallyOf("") == ZERO;
  }

  lemma BadWordInCommand(bare: seq<string>, good: seq<string>, bad: string, tail: string, link: Link)
    requires AllSafe(bare) && AllPlain(good) && '"' !in bad && !Plain(bad)
    requires ReadFrom(BareText(bare) + (QuotedText(good) + (Quote(bad) + tail)), link).Some?
    ensures var s := BareText(bare) + (QuotedText(good) + (Quote(bad) + tail));
            Differs(TallyOf(s), TallyCommands(ReadFrom(s, link).value))
  {
    var s := BareText(bare) + (QuotedText(good) + (Quote(bad) + tail));
    CommandWords(bare, good, Quote(bad) + tail);
    OpenQuote(bad, tail, bare + good);
    var y := ReadDecomposes(s, link);
    var t := Tokenize(s);
    ScanBad(bad, tail, "", bare + good);
    CommandTally(bare, good, Quote(bad) + tail);
    PlainTally(good);
    InnerTally(bad, tail, bad + "\"" + tail, Quote(bad) + tail);
    UsedShows(s, bad + "\"" + tail, t.rest, t.words, bare + good);
    WordsSpend(s);
    DiffersPlus(Used(s, t.rest), TallyAll(t.words), TallyOf(t.rest), y);
    UsedWhole(s, t.rest);
  }

  lemma InnerTally(bad: string, tail: string, inner: string, all: string)
    requires inner == bad + "\"" + tail && all == Quote(bad) + tail
    ensures Same(TallyOf(all), TallyOf(inner))
  {
    assert all == "\"" + inner;
    TallyAfterQuote(inner, all);
  }

  lemma TallyAfterQuote(s: string, t: string)
    requires t == "\"" + s
    ensures Same(TallyOf(t), TallyOf(s))
  {
    TallyConcat("\"", s);
    TallySingle('"');
    QuoteIsNeither(TallyOf(s));
  }

  lemma QuoteIsNeither(a: Tally)
    ensures Same(Plus(One('"'), a), a)
  {
  }

  lemma {:induction false} QuotedSplit(a: seq<string>, b: seq<string>)
    requires b != []
    ensures QuotedText(a + b) == QuotedText(a) + (Quote(b[0]) + (" " + QuotedText(b[1..])))
  {
    if a == [] {
      assert a + b == b;
    } else {
      assert (a + b)[1..] == a[1..] + b;
      QuotedSplit(a[1..], b);
    }
  }

  /** A bad word among the quoted ones. */
  lemma BadQuoted(bare: seq<string>, quoted: seq<string>, more: string, link: Link)
    requires AllSafe(bare) && !AllPlain(quoted) && (forall w :: w in quoted ==> '"' !in w)
    requires ReadFrom(BareText(bare) + (QuotedText(quoted) + more), link).Some?
    ensures var s := BareText(bare) + (QuotedText(quoted) + more);
            Differs(TallyOf(s), TallyCommands(ReadFrom(s, link).value))
  {
    var a, b := FirstBad(quoted);
    assert b[0] in quoted;
    QuotedSplit(a, b);
    var tail := " " + QuotedText(b[1..]) + more;
    assert QuotedText(quoted) + more == QuotedText(a) + (Quote(b[0]) + tail);
    BadWordInCommand(bare, a, b[0], tail, link);
  }

  /** A bad last word. */
  lemma BadLast(bare: seq<string>, quoted: seq<string>, last: string, tail: string, link: Link)
    requires AllSafe(bare) && AllPlain(quoted) && !Plain(last) && '"' !in last
    requires ReadFrom(BareText(bare) + (QuotedText(quoted) + (Quote(last) + "\n" + tail)), link).Some?
    ensures var s := BareText(bare) + (QuotedText(quoted) + (Quote(last) + "\n" + tail));
            Differs(TallyOf(s), TallyCommands(ReadFrom(s, link).value))
  {
    assert Quote(last) + "\n" + tail == Quote(last) + ("\n" + tail);
    BadWordInCommand(bare, quoted, last, "\n" + tail, link);
  }

  lemma BadFallback(bare: seq<string>, quoted: seq<string>, bare2: seq<string>, last: string, tail: string)
    requires AllSafe(bare) && bare != [] && AllSafe(bare2) && AllPlain(quoted) && !Plain(last) && '"' !in last
    requires ReadScript(LineText(Fallback(bare, quoted, bare2, last)) + tail).Some?
    ensures var s := LineText(Fallback(bare, quoted, bare2, last)) + tail;
            Differs(TallyOf(s), TallyCommands(ReadScript(s).value))
  {
    var second := BareText(bare2) + (Quote(last) + "\n" + tail);
    var s := LineText(Fallback(bare, quoted, bare2, last)) + tail;
    FallbackText(bare, quoted, bare2, last, tail);
    ReadOrElse(bare, quoted, second);
    ReadAfterBlank(second, OrElse);
    assert QuotedText([]) + (Quote(last) + "\n" + tail) == Quote(last) + "\n" + tail;
    BadLast(bare2, [], last, tail, OrElse);
    TallyPrepend(Command(Always, bare + quoted, NoRedirect), ReadFrom(second, OrElse).value);
    CommandTally(bare, quoted, "|| " + second);
    BarTally(second);
    PlainTally(quoted);
    DiffersShift(TallyOf(second), TallyCommands(ReadFrom(second, OrElse).value), TallyOf(s), TallyAll(bare + quoted), TallyOf(s));
  }

  lemma BarTally(s: string)
    ensures TallyOf("|| " + s) == TallyOf(s)
  {
    MarkTexts();
    SkipText("|| ", s, "|| " + s);
  }

  lemma BadLine(l: Line, tail: string)
    requires Sound(l) && !AllPlain(LineWords(l)) && forall w :: w in LineWords(l) ==> '"' !in w
    requires ReadScript(LineText(l) + tail).Some?
    ensures Differs(TallyOf(LineText(l) + tail), TallyCommands(ReadScript(LineText(l) + tail).value))
  {
    match l
    case Simple(bare, quoted, last) =>
      Regroup(BareText(bare), QuotedText(quoted), Quote(last) + "\n", tail);
      if AllPlain(quoted) { BadLast(bare, quoted, last, tail, Always); } else { BadQuoted(bare, quoted, Quote(last) + "\n" + tail, Always); }
    case Fallback(bare, quoted, bare2, last) =>
      if AllPlain(quoted) {
        BadFallback(bare, quoted, bare2, last, tail);
      } else {
        FallbackText(bare, quoted, bare2, last, tail);
        BadQuoted(bare, quoted, "|| " + (BareText(bare2) + (Quote(last) + "\n" + tail)), Always);
      }
    case Redirected(bare, quoted, twice, file) =>
      var op := if twice then ">> " else "> ";
      Regroup(BareText(bare), QuotedText(quoted), op + (Quote(file) + "\n"), tail);
      BadQuoted(bare, quoted, op + (Quote(file) + "\n") + tail, Always);
    case Empty =>
  }

  // ---- what is meant holds as much as what is printed ----

  lemma RedirectMarks(twice: bool, s: string)
    ensures TallyOf((if twice then ">> " else "> ") + s) == TallyOf(s)
  {
    MarkTexts();
    var op := if twice then ">> " else "> ";
    SkipText(op, s, op + s);
  }

  lemma OneCommand(c: Command)
    ensures TallyCommands([c]) == TallyCommand(c)
  {
    TallyPrepend(c, []);
    assert [c] + [] == [c];
    PlusAssoc(TallyCommand(c), ZERO, ZERO);
  }

  lemma SimpleCounts(bare: seq<string>, quoted: seq<string>, last: string)
    requires AllSafe(bare)
    ensures Same(TallyOf(LineText(Simple(bare, quoted, last))), TallyAll(bare + quoted + [last]))
    ensures TallyAll(bare + quoted + [last]) == TallyAll(quoted + [last])
  {
    CommandTally(bare, quoted, Quote(last) + "\n");
    LastTally(last);
    OneMore(bare + quoted, last);
    OneMore(quoted, last);
    SamePlus(TallyAll(quoted), TallyAll(quoted), TallyOf(Quote(last) + "\n"), TallyOf(last));
  }

  lemma OneMore(words: seq<string>, last: string)
    ensures TallyAll(words + [last]) == Plus(TallyAll(words), TallyOf(last))
  {
    TallyAllConcat(words, [last]);
    OneWord(last);
  }

  lemma LastTally(last: string)
    ensures Same(TallyOf(Quote(last) + "\n"), TallyOf(last))
  {
    assert Quote(last) + "\n" + "" == Quote(last) + "\n";
    EndTally(last, "");
    NothingSpent();
    PlusZero(TallyOf(last));
  }

  lemma FallbackCounts(bare: seq<string>, quoted: seq<string>, bare2: seq<string>, last: string)
    requires AllSafe(bare) && AllSafe(bare2)
    ensures Same(TallyOf(LineText(Fallback(bare, quoted, bare2, last))), Plus(TallyAll(bare + quoted), TallyAll(bare2 + [last])))
    ensures Plus(TallyAll(bare + quoted), TallyAll(bare2 + [last])) == TallyAll(quoted + [last])
  {
    var second := BareText(bare2) + (Quote(last) + "\n");
    CommandTally(bare, quoted, "|| " + second);
    BarTally(second);
    SimpleCounts(bare2, [], last);
    assert bare2 + [] + [last] == bare2 + [last] && [] + [last] == [last];
    assert QuotedText([]) + (Quote(last) + "\n") == Quote(last) + "\n";
    TallyAllConcat(quoted, [last]);
    SamePlus(TallyAll(quoted), TallyAll(quoted), TallyOf(second), TallyAll(bare2 + [last]));
  }

  lemma RedirectedCounts(bare: seq<string>, quoted: seq<string>, twice: bool, file: string)
    requires AllSafe(bare) && Plain(file)
    ensures Same(TallyOf(LineText(Redirected(bare, quoted, twice, file))), Plus(TallyAll(bare + quoted), TallyOf(file)))
    ensures Plus(TallyAll(bare + quoted), TallyOf(file)).dq == TallyAll(quoted).dq
  {
    CommandTally(bare, quoted, (if twice then ">> " else "> ") + (Quote(file) + "\n"));
    RedirectMarks(twice, Quote(file) + "\n");
    assert Quote(file) + "\n" + "" == Quote(file) + "\n";
    EndTally(file, "");
    NoQuoteTally(file);
  }

  /** What is meant by a line holds as much as what is printed for it, and as many double quotes as its texts. */
  predicate Counted(l: Line) {
    && Same(TallyOf(LineText(l)), TallyCommands(LineCommands(l)))
    && TallyCommands(LineCommands(l)).dq == TallyAll(LineWords(l)).dq
  }

  lemma EmptyCounts()
    ensures Counted(Empty)
  {
    MarkTexts();
    assert LineText(Empty) == "\n" && LineCommands(Empty) == [] && LineWords(Empty) == [];
  }

  lemma SimpleCounted(bare: seq<string>, quoted: seq<string>, last: string)
    requires AllSafe(bare)
    ensures Counted(Simple(bare, quoted, last))
  {
    SimpleCounts(bare, quoted, last);
    OneCommand(Command(Always, bare + quoted + [last], NoRedirect));
  }

  lemma FallbackCounted(bare: seq<string>, quoted: seq<string>, bare2: seq<string>, last: string)
    requires AllSafe(bare) && AllSafe(bare2)
    ensures Counted(Fallback(bare, quoted, bare2, last))
  {
    var a, b := Command(Always, bare + quoted, NoRedirect), Command(OrElse, bare2 + [last], NoRedirect);
    FallbackCounts(bare, quoted, bare2, last);
    TwoCommands(LineCommands(Fallback(bare, quoted, bare2, last)), a, b);
  }

  lemma TwoCommands(cs: seq<Command>, a: Command, b: Command)
    requires cs == [a, b]
    ensures TallyCommands(cs) == Plus(TallyCommand(a), TallyCommand(b))
  {
    var rest := cs[1..];
    assert rest == [b] && cs == [a] + rest;
    OneCommand(b);
    TallyPrepend(a, rest);
  }

  lemma RedirectedCounted(bare: seq<string>, quoted: seq<string>, twice: bool, file: string)
    requires AllSafe(bare) && Plain(file)
    ensures Counted(Redirected(bare, quoted, twice, file))
  {
    RedirectedCounts(bare, quoted, twice, file);
    OneCommand(Command(Always, bare + quoted, if twice then Append(file) else Write(file)));
  }

  lemma LineCounts(l: Line)
    requires Sound(l)
    ensures Counted(l)
  {
    match l
    case Empty => EmptyCounts();
    case Simple(bare, quoted, last) => SimpleCounted(bare, quoted, last);
    case Fallback(bare, quoted, bare2, last) => FallbackCounted(bare, quoted, bare2, last);
    case Redirected(bare, quoted, twice, file) => RedirectedCounted(bare, quoted, twice, file);
  }

  lemma {:induction false} TallyCommandsConcat(a: seq<Command>, b: seq<Command>)
    ensures TallyCommands(a + b) == Plus(TallyCommands(a), TallyCommands(b))
  {
    if a == [] {
      assert a + b == b;
      PlusAssoc(TallyCommands(b), ZERO, ZERO);
    } else {
      assert (a + b)[1..] == a[1..] + b;
      TallyCommandsConcat(a[1..], b);
      PlusMore(TallyCommand(a[0]), TallyCommands(a[1..]), TallyCommands(b));
    }
  }

  function AllWords(ls: seq<Line>): seq<string> {
    if ls == [] then [] else LineWords(ls[0]) + AllWords(ls[1..])
  }

  lemma CountsAdd(a: Tally, x: Tally, v: Tally, b: Tally, y: Tally, w: Tally)
    requires Same(a, x) && x.dq == v.dq && Same(b, y) && y.dq == w.dq
    ensures Same(Plus(a, b), Plus(x, y)) && Plus(x, y).dq == Plus(v, w).dq
  {
  }

  lemma {:induction false} ScriptCounts(ls: seq<Line>)
    requires AllSound(ls)
    ensures Same(TallyOf(Text(ls)), TallyCommands(Commands(ls)))
    ensures TallyCommands(Commands(ls)).dq == TallyAll(AllWords(ls)).dq
  {
    if ls != [] {
      assert ls[0] in ls;
      LineCounts(ls[0]);
      ScriptCounts(ls[1..]);
      TallyConcat(LineText(ls[0]), Text(ls[1..]));
      TallyCommandsConcat(LineCommands(ls[0]), Commands(ls[1..]));
      TallyAllConcat(LineWords(ls[0]), AllWords(ls[1..]));
      CountsAdd(TallyOf(LineText(ls[0])), TallyCommands(LineCommands(ls[0])), TallyAll(LineWords(ls[0])),
                TallyOf(Text(ls[1..])), TallyCommands(Commands(ls[1..])), TallyAll(AllWords(ls[1..])));
    }
  }

  lemma {:induction false} WordsAreAll(ls: seq<Line>)
    ensures forall l, w :: l in ls && w in LineWords(l) ==> w in AllWords(ls)
  {
    if ls != [] { WordsAreAll(ls[1..]); }
  }

  /** The first bad line is found, wherever it is. */
  lemma {:induction false} BadScript(ls: seq<Line>)
    requires AllSound(ls) && !AllLinesPlain(ls) && ReadScript(Text(ls)).Some?
    requires forall l, w :: l in ls && w in LineWords(l) ==> '"' !in w
    ensures Differs(TallyOf(Text(ls)), TallyCommands(ReadScript(Text(ls)).value))
  {
    var l, rest := ls[0], Text(ls[1..]);
    assert l in ls;
    if AllPlain(LineWords(l)) {
      LineIsRead(l, rest);
      BadScript(ls[1..]);
      LineCounts(l);
      PlainTally(LineWords(l));
      TallyConcat(LineText(l), rest);
      TallyCommandsConcat(LineCommands(l), ReadScript(rest).value);
      SamePlus(TallyOf(LineText(l)), TallyCommands(LineCommands(l)), TallyOf(rest), TallyOf(rest));
      DiffersShift(TallyOf(rest), TallyCommands(ReadScript(rest).value), TallyOf(LineText(l)), TallyCommands(LineCommands(l)), TallyOf(Text(ls)));
    } else {
      BadLine(l, rest);
    }
  }

  // ---- main result ----

  lemma ReadBackMeansNoQuote(ls: seq<Line>)
    requires AllSound(ls) && ReadScript(Text(ls)) == Some(Commands(ls))
    ensures TallyCommands(Commands(ls)).dq == 0
    ensures forall l, w :: l in ls && w in LineWords(l) ==> '"' !in w
  {
    ReadSpends(Text(ls), Always);
    ScriptCounts(ls);
    QuotesAreCounted(AllWords(ls));
    WordsAreAll(ls);
  }

  /**
   A shell reads a printed script as exactly the commands meant, with their words and
   redirections, if and only if every text that was put in is plain.
   */
  lemma ScriptRoundTrip(ls: seq<Line>)
    requires AllSound(ls)
    ensures ReadScript(Text(ls)) == Some(Commands(ls)) <==> AllLinesPlain(ls)
  {
    if AllLinesPlain(ls) {
      PlainLinesAreRead(ls);
    } else if ReadScript(Text(ls)) == Some(Commands(ls)) {
      ReadBackMeansNoQuote(ls);
      BadScript(ls);
      ScriptCounts(ls);
      assert false;
    }
  }
}
