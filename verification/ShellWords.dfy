/**
 How a POSIX shell divides one command line into words: quoting after sections
 2.2.1 to 2.2.3 and token recognition after section 2.3 of XCU (POSIX.1-2017).
 Input whose words depend on expansions is rejected.
 */
module ShellWords {
  import opened Basics

  /** The words up to the end of the line, or to the operator or comment `rest` begins with. */
  datatype Tokens = Reject | Words(words: seq<string>, rest: string)

  datatype Mode = Between | Bare | Double | Single

  predicate Blank(c: char) {
    c == ' ' || c == '\t'
  }

  predicate Operator(c: char) {
    c == '|' || c == '&' || c == ';' || c == '<' || c == '>' || c == '(' || c == ')' || c == '\n'
  }

  predicate Expands(c: char) {
    c == '$' || c == '`'
  }

  /** The characters a backslash escapes inside double quotes, apart from newline. */
  predicate DoubleSpecial(c: char) {
    c == '$' || c == '`' || c == '"' || c == '\\'
  }

  function Scan(s: string, mode: Mode, word: string, acc: seq<string>): Tokens
    decreases |s|, if mode.Between? then 1 else 0
  {
    if s == "" then
      (match mode
       case Between => Words(acc, "")
       case Bare => Words(acc + [word], "")
       case Double => Reject
       case Single => Reject)
    else
      var c := s[0];
      match mode
      case Between =>
        if Blank(c) then Scan(s[1..], Between, "", acc)
        else if Operator(c) || c == '#' then Words(acc, s)
        else Scan(s, Bare, "", acc)
      case Bare =>
        if Blank(c) then Scan(s[1..], Between, "", acc + [word])
        else if Operator(c) then Words(acc + [word], s)
        else if Expands(c) then Reject
        else if c == '"' then Scan(s[1..], Double, word, acc)
        else if c == '\'' then Scan(s[1..], Single, word, acc)
        else if c == '\\' then
          (if |s| == 1 then Reject
           else if s[1] == '\n' then Scan(s[2..], Bare, word, acc)
           else Scan(s[2..], Bare, word + [s[1]], acc))
        else Scan(s[1..], Bare, word + [c], acc)
      case Double =>
        if c == '"' then Scan(s[1..], Bare, word, acc)
        else if Expands(c) then Reject
        else if c == '\\' && |s| > 1 && DoubleSpecial(s[1]) then Scan(s[2..], Double, word + [s[1]], acc)
        else if c == '\\' && |s| > 1 && s[1] == '\n' then Scan(s[2..], Double, word, acc)
        else Scan(s[1..], Double, word + [c], acc)
      case Single =>
        if c == '\'' then Scan(s[1..], Bare, word, acc)
        else Scan(s[1..], Single, word + [c], acc)
  }

  function Tokenize(line: string): Tokens {
    Scan(line, Between, "", [])
  }

  // ---- a printer that wraps every word in double quotes ----

  function Quote(w: string): string {
    "\"" + w + "\""
  }

  function QuoteAll(words: seq<string>): seq<string> {
    if words == [] then [] else [Quote(words[0])] + QuoteAll(words[1..])
  }

  function CommandLine(words: seq<string>): string {
    JoinWith(QuoteAll(words), ' ')
  }

  /** A word that means itself between double quotes. */
  predicate Plain(w: string) {
    && '"' !in w && '$' !in w && '`' !in w
    && (forall i :: 0 <= i < |w| && w[i] == '\\' ==> i + 1 < |w| && w[i + 1] != '\\' && w[i + 1] != '\n')
  }

  predicate AllPlain(words: seq<string>) {
    forall w :: w in words ==> Plain(w)
  }

  // ---- plain words come back ----

  lemma PlainTail(w: string)
    requires Plain(w) && w != ""
    ensures Plain(w[1..])
  {
    forall i | 0 <= i < |w[1..]| && w[1..][i] == '\\'
      ensures i + 1 < |w[1..]| && w[1..][i + 1] != '\\' && w[1..][i + 1] != '\n'
    {
      assert w[i + 1] == '\\';
    }
  }

  lemma {:induction false} ScanPlain(w: string, tail: string, word: string, acc: seq<string>)
    requires Plain(w)
    ensures Scan(w + "\"" + tail, Double, word, acc) == Scan(tail, Bare, word + w, acc)
    decreases |w|
  {
    var s := w + "\"" + tail;
    if w == "" {
      assert s[1..] == tail && word + w == word;
    } else {
      PlainTail(w);
      assert s[0] == w[0] && s[1..] == w[1..] + "\"" + tail;
      if w[0] == '\\' { assert s[1] == w[1]; }
      ScanPlain(w[1..], tail, word + [w[0]], acc);
      assert word + [w[0]] + w[1..] == word + w;
    }
  }

  lemma ScanQuoted(w: string, tail: string, acc: seq<string>)
    requires Plain(w)
    ensures Scan(Quote(w) + tail, Between, "", acc) == Scan(tail, Bare, w, acc)
  {
    OpenQuote(w, tail, acc);
    ScanPlain(w, tail, "", acc);
    assert "" + w == w;
  }

  lemma OpenQuote(w: string, tail: string, acc: seq<string>)
    ensures Scan(Quote(w) + tail, Between, "", acc) == Scan(w + "\"" + tail, Double, "", acc)
  {
    var s := Quote(w) + tail;
    assert s[0] == '"' && s[1..] == w + "\"" + tail;
  }

  /** What is left of the line after the first word. */
  function Remainder(words: seq<string>): string
    requires words != []
  {
    if |words| == 1 then "" else " " + CommandLine(words[1..])
  }

  lemma CommandLineStep(words: seq<string>)
    requires words != []
    ensures CommandLine(words) == Quote(words[0]) + Remainder(words)
  {
    var q := QuoteAll(words);
    assert q[1..] == QuoteAll(words[1..]);
    if |words| == 1 {
      assert words[1..] == [] && |q| == 1;
    } else {
      assert |QuoteAll(words[1..])| > 0;
      assert q[0] + " " + JoinWith(q[1..], ' ') == Quote(words[0]) + (" " + CommandLine(words[1..]));
    }
  }

  lemma AfterWord(words: seq<string>, acc: seq<string>)
    requires words != []
    ensures Scan(Remainder(words), Bare, words[0], acc) ==
            if |words| == 1 then Words(acc + [words[0]], "") else Scan(CommandLine(words[1..]), Between, "", acc + [words[0]])
  {
    if |words| > 1 {
      assert Remainder(words)[1..] == CommandLine(words[1..]);
    }
  }

  lemma {:induction false} PlainComesBack(words: seq<string>, acc: seq<string>)
    requires AllPlain(words)
    ensures Scan(CommandLine(words), Between, "", acc) == Words(acc + words, "")
    decreases |words|
  {
    if words == [] {
      assert acc + words == acc;
    } else {
      CommandLineStep(words);
      ScanQuoted(words[0], Remainder(words), acc);
      AfterWord(words, acc);
      if |words| > 1 {
        PlainComesBack(words[1..], acc + [words[0]]);
        assert acc + [words[0]] + words[1..] == acc + words;
      } else {
        assert words == [words[0]];
      }
    }
  }

  // ---- nothing else comes back ----

  /** How many double quotes, single quotes and backslashes. */
  datatype Tally = Tally(dq: int, sq: int, bs: int)

  function Plus(a: Tally, b: Tally): Tally {
    Tally(a.dq + b.dq, a.sq + b.sq, a.bs + b.bs)
  }

  function One(c: char): Tally {
    if c == '"' then Tally(1, 0, 0) else if c == '\'' then Tally(0, 1, 0) else if c == '\\' then Tally(0, 0, 1) else ZERO
  }

  const ZERO := Tally(0, 0, 0)

  function TallyOf(s: string): Tally {
    if s == "" then ZERO else Plus(One(s[0]), TallyOf(s[1..]))
  }

  function TallyAll(words: seq<string>): Tally {
    if words == [] then ZERO else Plus(TallyOf(words[0]), TallyAll(words[1..]))
  }

  lemma PlusAssoc(a: Tally, b: Tally, c: Tally)
    ensures Plus(Plus(a, b), c) == Plus(a, Plus(b, c)) && Plus(ZERO, a) == a && Plus(a, b) == Plus(b, a)
  {
  }

  lemma PlusZero(a: Tally)
    ensures Plus(ZERO, a) == a && Plus(a, ZERO) == a
  {
  }

  lemma TallyFirst(c: char, s: string, t: string)
    requires t == [c] + s
    ensures TallyOf(t) == Plus(One(c), TallyOf(s))
  {
    assert t[0] == c && t[1..] == s;
  }

  lemma {:induction false} TallyConcat(s: string, t: string)
    ensures TallyOf(s + t) == Plus(TallyOf(s), TallyOf(t))
  {
    if s == "" {
      assert s + t == t;
      PlusAssoc(TallyOf(t), ZERO, ZERO);
    } else {
      assert (s + t)[1..] == s[1..] + t;
      TallyConcat(s[1..], t);
      PlusAssoc(One(s[0]), TallyOf(s[1..]), TallyOf(t));
    }
  }

  lemma TallySingle(c: char)
    ensures TallyOf([c]) == One(c)
  {
    assert [c][1..] == "";
    PlusAssoc(One(c), ZERO, ZERO);
  }

  /** What stands between the words of a script. */
  lemma MarkTexts()
    ensures TallyOf("") == ZERO && TallyOf(" ") == ZERO && TallyOf("\n") == ZERO
    ensures TallyOf("|") == ZERO && TallyOf("||") == ZERO && TallyOf("|| ") == ZERO
    ensures TallyOf(">") == ZERO && TallyOf(">>") == ZERO && TallyOf("> ") == ZERO && TallyOf(">> ") == ZERO
  {
  }

  lemma SkipText(m: string, s: string, t: string)
    requires t == m + s && TallyOf(m) == ZERO
    ensures TallyOf(t) == TallyOf(s)
  {
    TallyConcat(m, s);
    PlusZero(TallyOf(s));
  }

  lemma {:induction false} TallyAllConcat(a: seq<string>, b: seq<string>)
    ensures TallyAll(a + b) == Plus(TallyAll(a), TallyAll(b))
  {
    if a == [] {
      assert a + b == b;
    } else {
      assert (a + b)[1..] == a[1..] + b;
      TallyAllConcat(a[1..], b);
    }
  }

  lemma TallyWord(acc: seq<string>, word: string)
    ensures TallyAll(acc + [word]) == Plus(TallyAll(acc), TallyOf(word))
  {
    TallyAllConcat(acc, [word]);
    assert [word][1..] == [];
  }

  lemma {:induction false} TallyNonNegative(s: string)
    ensures TallyOf(s).dq >= 0 && TallyOf(s).sq >= 0 && TallyOf(s).bs >= 0
  {
    if s != "" { TallyNonNegative(s[1..]); }
  }

  function Minus(a: Tally, b: Tally): Tally {
    Tally(a.dq - b.dq, a.sq - b.sq, a.bs - b.bs)
  }

  /** What `words` holds beyond `acc` and the word begun. */
  function Out(words: seq<string>, acc: seq<string>, word: string): Tally {
    Minus(Minus(TallyAll(words), TallyAll(acc)), TallyOf(word))
  }

  lemma MinusPlus(w: Tally, a: Tally, b: Tally)
    ensures Minus(Minus(w, Plus(a, b)), ZERO) == Minus(Minus(w, a), b)
  {
  }

  /**
   Scanning never invents a single quote; and if it drops none, then every double
   quote and every backslash put out has used up a backslash of the input.
   */
  predicate Spent(input: Tally, output: Tally, single: bool) {
    && output.dq >= 0
    && output.sq <= input.sq
    && (single ==> output.sq < input.sq)
    && (output.sq == input.sq ==> output.dq + output.bs <= input.bs)
  }

  /** One step inside a word: how many characters it takes, the character it adds, and the mode it leads to. */
  datatype Step = Step(n: nat, add: Option<char>, next: Mode)

  function WordStep(s: string, mode: Mode): (st: Step)
    requires s != ""
    ensures 1 <= st.n <= |s| && st.n <= 2
  {
    var c := s[0];
    if mode.Single? then
      (if c == '\'' then Step(1, None, Bare) else Step(1, Some(c), Single))
    else if mode.Double? then
      (if c == '"' then Step(1, None, Bare)
       else if c == '\\' && |s| > 1 && DoubleSpecial(s[1]) then Step(2, Some(s[1]), Double)
       else if c == '\\' && |s| > 1 && s[1] == '\n' then Step(2, None, Double)
       else Step(1, Some(c), Double))
    else
      (if c == '"' then Step(1, None, Double)
       else if c == '\'' then Step(1, None, Single)
       else if c == '\\' && |s| > 1 then Step(2, if s[1] == '\n' then None else Some(s[1]), Bare)
       else Step(1, Some(c), Bare))
  }

  function AddTo(word: string, add: Option<char>): string {
    match add
    case None => word
    case Some(c) => word + [c]
  }

  function Added(st: Step): Tally {
    match st.add
    case None => ZERO
    case Some(c) => One(c)
  }

  function Taken(s: string, st: Step): Tally
    requires st.n <= |s| && 1 <= st.n <= 2
  {
    if st.n == 1 then One(s[0]) else Plus(One(s[0]), One(s[1]))
  }

  lemma TallyFront(s: string, st: Step)
    requires 1 <= st.n <= 2 && st.n <= |s|
    ensures TallyOf(s) == Plus(TallyOf(s[st.n..]), Taken(s, st))
  {
    PlusAssoc(One(s[0]), TallyOf(s[1..]), ZERO);
    if st.n == 2 {
      assert s[1..][1..] == s[2..];
      PlusAssoc(One(s[0]), One(s[1]), TallyOf(s[2..]));
      PlusAssoc(Plus(One(s[0]), One(s[1])), TallyOf(s[2..]), ZERO);
    }
  }

  lemma TallyChar(word: string, c: char)
    ensures TallyOf(word + [c]) == Plus(TallyOf(word), One(c))
  {
    TallyConcat(word, [c]);
    TallySingle(c);
  }

  lemma TallyAdd(word: string, st: Step)
    ensures TallyOf(AddTo(word, st.add)) == Plus(TallyOf(word), Added(st))
  {
    match st.add
    case None => PlusAssoc(ZERO, TallyOf(word), ZERO); PlusAssoc(TallyOf(word), ZERO, ZERO);
    case Some(c) => TallyChar(word, c);
  }

  lemma ScanStep(s: string, mode: Mode, word: string, acc: seq<string>)
    requires !mode.Between? && s != "" && Scan(s, mode, word, acc).Words?
    requires mode.Bare? ==> !Blank(s[0]) && !Operator(s[0])
    ensures mode.Bare? && s[0] == '\\' ==> |s| > 1
    ensures mode.Bare? || mode.Double? ==> !Expands(s[0])
    ensures var st := WordStep(s, mode);
            !st.next.Between? && Scan(s, mode, word, acc) == Scan(s[st.n..], st.next, AddTo(word, st.add), acc)
  {
  }

  /** No step invents a quote; outside single quotes a double quote or backslash costs a backslash. */
  predicate Balanced(taken: Tally, added: Tally, before: bool, after: bool) {
    && 0 <= added.dq && added.sq <= taken.sq
    && (before != after ==> added.sq < taken.sq)
    && (!before && added.sq == taken.sq ==> added.dq + added.bs <= taken.bs)
  }

  lemma SingleBalance(s: string)
    requires s != ""
    ensures Balanced(Taken(s, WordStep(s, Single)), Added(WordStep(s, Single)), true, WordStep(s, Single).next.Single?)
  {
  }

  lemma DoubleBalance(s: string)
    requires s != ""
    ensures Balanced(Taken(s, WordStep(s, Double)), Added(WordStep(s, Double)), false, WordStep(s, Double).next.Single?)
  {
    if WordStep(s, Double).n == 2 { EscapeBalance(s[1]); } else { CharBalance(s[0]); }
  }

  /** Any one character but a quote or a backslash that is put out stands for itself. */
  lemma CharBalance(c: char)
    ensures c == '"' || c == '\\' || Balanced(One(c), One(c), false, false)
    ensures Balanced(One(c), ZERO, false, false)
  {
  }

  lemma BareBalance(s: string)
    requires s != "" && (s[0] == '\\' ==> |s| > 1)
    ensures Balanced(Taken(s, WordStep(s, Bare)), Added(WordStep(s, Bare)), false, WordStep(s, Bare).next.Single?)
  {
    if s[0] == '\\' { EscapeBalance(s[1]); }
  }

  /** A backslash pays for whatever character it escapes. */
  lemma EscapeBalance(c: char)
    ensures Balanced(Plus(One('\\'), One(c)), One(c), false, false)
    ensures Balanced(Plus(One('\\'), One(c)), ZERO, false, false)
  {
  }

  lemma StepBalance(s: string, mode: Mode)
    requires !mode.Between? && s != "" && (mode.Bare? && s[0] == '\\' ==> |s| > 1)
    ensures Balanced(Taken(s, WordStep(s, mode)), Added(WordStep(s, mode)), mode.Single?, WordStep(s, mode).next.Single?)
  {
    match mode
    case Bare => BareBalance(s);
    case Double => DoubleBalance(s);
    case Single => SingleBalance(s);
  }

  lemma SpentStep(i: Tally, o: Tally, taken: Tally, added: Tally, before: bool, after: bool)
    requires Spent(i, o, after) && Balanced(taken, added, before, after)
    ensures Spent(Plus(i, taken), Plus(o, added), before)
  {
  }

  /** What scanning has used up of the input when it stops before `rest`. */
  function Used(s: string, rest: string): Tally {
    Minus(TallyOf(s), TallyOf(rest))
  }

  lemma UsedFront(s: string, st: Step, rest: string)
    requires 1 <= st.n <= 2 && st.n <= |s|
    ensures Used(s, rest) == Plus(Used(s[st.n..], rest), Taken(s, st))
  {
    TallyFront(s, st);
    MinusOfPlus(TallyOf(s[st.n..]), Taken(s, st), TallyOf(rest));
  }

  lemma MinusOfPlus(a: Tally, b: Tally, c: Tally)
    ensures Minus(Plus(a, b), c) == Plus(Minus(a, c), b)
  {
  }

  lemma ScanSpendsStep(s: string, mode: Mode, word: string, acc: seq<string>, words: seq<string>, rest: string)
    requires !mode.Between? && s != "" && (mode.Bare? && s[0] == '\\' ==> |s| > 1)
    requires var st := WordStep(s, mode);
             Spent(Used(s[st.n..], rest), Out(words, acc, AddTo(word, st.add)), st.next.Single?)
    ensures Spent(Used(s, rest), Out(words, acc, word), mode.Single?)
  {
    var st := WordStep(s, mode);
    StepBalance(s, mode);
    TallyAdd(word, st);
    UsedFront(s, st, rest);
    SpentStep(Used(s[st.n..], rest), Out(words, acc, AddTo(word, st.add)), Taken(s, st), Added(st), mode.Single?, st.next.Single?);
  }

  lemma SpentAtEnd(s: string, acc: seq<string>, word: string)
    ensures Spent(Used(s, s), Out(acc + [word], acc, word), false)
    ensures Spent(Used(s, s), Out(acc, acc, ""), false)
  {
    TallyWord(acc, word);
  }

  lemma SpentBlank(s: string, o: Tally, rest: string)
    requires s != "" && Blank(s[0]) && Spent(Used(s[1..], rest), o, false)
    ensures Spent(Used(s, rest), o, false)
  {
    assert One(s[0]) == ZERO;
    PlusAssoc(TallyOf(s[1..]), ZERO, ZERO);
  }

  lemma OutAfterWord(words: seq<string>, acc: seq<string>, word: string)
    ensures Out(words, acc + [word], "") == Out(words, acc, word)
  {
    TallyWord(acc, word);
    MinusPlus(TallyAll(words), TallyAll(acc), TallyOf(word));
  }

  lemma {:induction false} ScanSpends(s: string, mode: Mode, word: string, acc: seq<string>)
    requires mode.Between? ==> word == ""
    requires Scan(s, mode, word, acc).Words?
    ensures Spent(Used(s, Scan(s, mode, word, acc).rest), Out(Scan(s, mode, word, acc).words, acc, word), mode.Single?)
    decreases |s|, if mode.Between? then 1 else 0
  {
    var words, rest := Scan(s, mode, word, acc).words, Scan(s, mode, word, acc).rest;
    if s == "" || (mode.Between? && (Operator(s[0]) || s[0] == '#')) || (mode.Bare? && Operator(s[0])) {
      SpentAtEnd(s, acc, word);
    } else if Blank(s[0]) && mode.Between? {
      ScanSpends(s[1..], Between, "", acc);
      SpentBlank(s, Out(words, acc, ""), rest);
    } else if mode.Between? {
      ScanSpends(s, Bare, "", acc);
    } else if Blank(s[0]) && mode.Bare? {
      ScanSpends(s[1..], Between, "", acc + [word]);
      OutAfterWord(words, acc, word);
      SpentBlank(s, Out(words, acc, word), rest);
    } else {
      ScanStep(s, mode, word, acc);
      var st := WordStep(s, mode);
      ScanSpends(s[st.n..], st.next, AddTo(word, st.add), acc);
      ScanSpendsStep(s, mode, word, acc, words, rest);
    }
  }

  /** A quote or a backslash has been lost, or a double quote found, between input and output. */
  predicate Differs(i: Tally, o: Tally) {
    o.sq < i.sq || o.dq + o.bs < i.bs || o.dq > 0
  }

  /** An escape that is read inside double quotes shows. */
  lemma EscapeShows(i: Tally, o: Tally, s: string, st: Step)
    requires s != "" && st == WordStep(s, Double) && st.n == 2 && Spent(i, o, st.next.Single?)
    ensures Differs(Plus(i, Taken(s, st)), Plus(o, Added(st)))
  {
  }

  lemma PlainCons(w: string)
    requires w != "" && Plain(w[1..]) && w[0] != '"' && !Expands(w[0])
    requires w[0] == '\\' ==> |w| > 1 && w[1] != '\\' && w[1] != '\n'
    ensures Plain(w)
  {
    assert w == [w[0]] + w[1..];
    forall i | 0 <= i < |w| && w[i] == '\\' ensures i + 1 < |w| && w[i + 1] != '\\' && w[i + 1] != '\n' {
      if i > 0 { assert w[1..][i - 1] == '\\'; }
    }
  }

  lemma NotPlainTail(w: string)
    requires '"' !in w && !Plain(w) && w != "" && !Expands(w[0])
    requires w[0] == '\\' ==> |w| > 1 && w[1] != '\\' && w[1] != '\n'
    ensures !Plain(w[1..]) && '"' !in w[1..]
  {
    assert w[0] in w;
    if Plain(w[1..]) {
      PlainCons(w);
    }
  }

  /** A word with no double quote that is still not plain does not come back between double quotes. */
  lemma {:induction false} ScanBad(w: string, tail: string, word: string, acc: seq<string>)
    requires '"' !in w && !Plain(w)
    requires Scan(w + "\"" + tail, Double, word, acc).Words?
    ensures Differs(Used(w + "\"" + tail, Scan(w + "\"" + tail, Double, word, acc).rest),
                    Out(Scan(w + "\"" + tail, Double, word, acc).words, acc, word))
    decreases |w|
  {
    var s := w + "\"" + tail;
    var words, rest := Scan(s, Double, word, acc).words, Scan(s, Double, word, acc).rest;
    ScanStep(s, Double, word, acc);
    var st := WordStep(s, Double);
    UsedFront(s, st, rest);
    TallyAdd(word, st);
    assert s[0] == w[0];
    if st.n == 2 {
      ScanSpends(s[2..], st.next, AddTo(word, st.add), acc);
      EscapeShows(Used(s[2..], rest), Out(words, acc, AddTo(word, st.add)), s, st);
    } else {
      assert s[1..] == w[1..] + "\"" + tail;
      if w[0] == '\\' { assert s[1] == (w + "\"")[1]; }
      NotPlainTail(w);
      ScanBad(w[1..], tail, word + [w[0]], acc);
    }
  }

  // ---- main result ----

  lemma TallyOfSpaced(line: string)
    ensures TallyOf(" " + line) == TallyOf(line)
  {
    MarkTexts();
    SkipText(" ", line, " " + line);
  }

  lemma TallyOfFirst(w: string, rest: string)
    ensures TallyOf(Quote(w) + rest).sq == TallyOf(w).sq + TallyOf(rest).sq
    ensures TallyOf(Quote(w) + rest).bs == TallyOf(w).bs + TallyOf(rest).bs
  {
    TallyConcat(Quote(w), rest);
    TallyOfQuote(w);
  }

  lemma {:induction false} TallyOfLine(words: seq<string>)
    ensures TallyOf(CommandLine(words)).sq == TallyAll(words).sq
    ensures TallyOf(CommandLine(words)).bs == TallyAll(words).bs
    decreases |words|
  {
    if words != [] {
      CommandLineStep(words);
      TallyOfFirst(words[0], Remainder(words));
      TallyOfLine(words[1..]);
      if |words| > 1 { TallyOfSpaced(CommandLine(words[1..])); }
    }
  }

  lemma TallyOfQuote(w: string)
    ensures TallyOf(Quote(w)).sq == TallyOf(w).sq && TallyOf(Quote(w)).bs == TallyOf(w).bs
  {
    TallyConcat(['"'] + w, ['"']);
    TallyConcat(['"'], w);
    TallySingle('"');
  }

  lemma {:induction false} QuoteIsCounted(w: string)
    ensures TallyOf(w).dq >= 0 && ('"' in w ==> TallyOf(w).dq > 0)
  {
    if w != "" {
      QuoteIsCounted(w[1..]);
      assert w == [w[0]] + w[1..];
      assert TallyOf(w).dq == One(w[0]).dq + TallyOf(w[1..]).dq;
    }
  }

  lemma {:induction false} QuotesAreCounted(words: seq<string>)
    ensures TallyAll(words).dq >= 0
    ensures forall w :: w in words && '"' in w ==> TallyAll(words).dq > 0
  {
    if words != [] {
      QuoteIsCounted(words[0]);
      QuotesAreCounted(words[1..]);
      assert TallyAll(words).dq == TallyOf(words[0]).dq + TallyAll(words[1..]).dq;
      forall w | w in words && '"' in w ensures TallyAll(words).dq > 0 {
        assert w == words[0] || w in words[1..];
      }
    }
  }

  /** Up to the first word that is not plain, scanning the line gives the words themselves. */
  lemma {:induction false} ScanToBad(a: seq<string>, b: seq<string>, acc: seq<string>)
    requires b != [] && AllPlain(a)
    ensures Scan(CommandLine(a + b), Between, "", acc) == Scan(CommandLine(b), Between, "", acc + a)
    decreases |a|
  {
    if a == [] {
      assert a + b == b && acc + a == acc;
    } else {
      var words := a + b;
      assert words[0] == a[0] && words[1..] == a[1..] + b;
      CommandLineStep(words);
      ScanQuoted(a[0], Remainder(words), acc);
      AfterWord(words, acc);
      ScanToBad(a[1..], b, acc + [a[0]]);
      assert acc + [a[0]] + a[1..] == acc + a;
    }
  }

  lemma {:induction false} FirstBad(words: seq<string>) returns (a: seq<string>, b: seq<string>)
    requires !AllPlain(words)
    ensures words == a + b && AllPlain(a) && b != [] && !Plain(b[0])
  {
    if !Plain(words[0]) {
      a, b := [], words;
    } else {
      a, b := FirstBad(words[1..]);
      a := [words[0]] + a;
      assert words == [words[0]] + words[1..];
    }
  }

  /** If all words come back, none of them has a double quote. */
  lemma NoQuoteComesBack(words: seq<string>)
    requires Tokenize(CommandLine(words)).Words? && Tokenize(CommandLine(words)).words == words
    ensures TallyAll(words).dq == 0
    ensures forall w :: w in words ==> '"' !in w
  {
    ScanSpends(CommandLine(words), Between, "", []);
    TallyNonNegative(Tokenize(CommandLine(words)).rest);
    TallyOfLine(words);
    QuotesAreCounted(words);
    assert Out(words, [], "") == TallyAll(words);
  }

  lemma QuotesNonNegative(words: seq<string>)
    ensures TallyAll(words).dq >= 0
  {
    QuotesAreCounted(words);
  }

  /** When the words are those of the line, what comes after some of them differs in no count. */
  lemma NothingShows(a: seq<string>, b: seq<string>)
    requires TallyAll(a + b).dq == 0
    ensures !Differs(TallyAll(b), Out(a + b, a, ""))
  {
    TallyAllConcat(a, b);
    QuotesNonNegative(a);
    QuotesNonNegative(b);
    NoDifference(TallyAll(a + b), TallyAll(a), TallyAll(b), TallyOf(""));
  }

  lemma NoDifference(all: Tally, a: Tally, b: Tally, none: Tally)
    requires all == Plus(a, b) && none == ZERO && a.dq >= 0 && b.dq >= 0 && all.dq == 0
    ensures !Differs(b, Minus(Minus(all, a), none))
  {
  }

  lemma BadDoesNotComeBack(words: seq<string>, rest: string)
    requires !AllPlain(words)
    ensures Tokenize(CommandLine(words)) != Words(words, rest)
  {
    if Tokenize(CommandLine(words)) == Words(words, rest) {
      NoQuoteComesBack(words);
      var a, b := FirstBad(words);
      assert b[0] in words;
      BadWordShows(a, b);
      NothingShows(a, b);
    }
  }

  lemma BadWordShows(a: seq<string>, b: seq<string>)
    requires AllPlain(a) && b != [] && !Plain(b[0]) && '"' !in b[0]
    requires Tokenize(CommandLine(a + b)).Words?
    ensures Differs(TallyAll(b), Out(Tokenize(CommandLine(a + b)).words, a, ""))
  {
    var t := Tokenize(CommandLine(a + b));
    ScanToBad(a, b, []);
    assert [] + a == a;
    CommandLineStep(b);
    QuotedBad(b[0], Remainder(b), a, t);
    LineShows(b, b[0] + "\"" + Remainder(b), t.rest, Out(t.words, a, ""));
  }

  lemma QuotedBad(w: string, tail: string, acc: seq<string>, t: Tokens)
    requires t == Scan(Quote(w) + tail, Between, "", acc) && t.Words? && !Plain(w) && '"' !in w
    ensures Differs(Used(w + "\"" + tail, t.rest), Out(t.words, acc, ""))
  {
    OpenQuote(w, tail, acc);
    ScanBad(w, tail, "", acc);
  }

  lemma LineShows(b: seq<string>, s: string, rest: string, o: Tally)
    requires CommandLine(b) == "\"" + s && Differs(Used(s, rest), o)
    ensures Differs(TallyAll(b), o)
  {
    TallyNonNegative(rest);
    TallyOfLine(b);
    assert ("\"" + s)[1..] == s;
  }

  /**
   A command line of double-quoted words is divided into exactly those words, empty
   ones included, if and only if every word is plain: free of double quote, dollar
   and backquote, and no backslash in it is last or stands before a backslash or newline.
   */
  lemma QuotingRoundTrip(words: seq<string>)
    ensures Tokenize(CommandLine(words)) == Words(words, "") <==> AllPlain(words)
  {
    if AllPlain(words) {
      PlainComesBack(words, []);
      assert [] + words == words;
    } else {
      BadDoesNotComeBack(words, "");
    }
  }
}
