/**
 How a POSIX shell reads a script of simple commands (section 2.9.1 of XCU in
 POSIX.1-2017): one command a line, possibly with one redirection of its output or
 followed by `||` and another command.  Anything else is not read at all.
 */
module ShellScript {
  import opened Basics
  import opened ShellWords

  /** Whether a command is run in any case, or only when the one before it has failed. */
  datatype Link = Always | OrElse

  datatype Redirect = NoRedirect | Write(file: string) | Append(file: string)

  datatype Command = Command(link: Link, words: seq<string>, output: Redirect)

  lemma {:induction false} RestIsShorter(s: string, mode: Mode, word: string, acc: seq<string>)
    ensures Scan(s, mode, word, acc).Words? ==> |Scan(s, mode, word, acc).rest| <= |s|
    decreases |s|, if mode.Between? then 1 else 0
  {
    if s == "" || (mode.Between? && (Operator(s[0]) || s[0] == '#')) || (mode.Bare? && Operator(s[0])) {
    } else if mode.Between? && !Blank(s[0]) {
      RestIsShorter(s, Bare, "", acc);
    } else if Blank(s[0]) && !mode.Single? && !mode.Double? {
      RestIsShorter(s[1..], Between, "", if mode.Between? then acc else acc + [word]);
    } else if Scan(s, mode, word, acc).Words? {
      ScanStep(s, mode, word, acc);
      var st := WordStep(s, mode);
      RestIsShorter(s[st.n..], st.next, AddTo(word, st.add), acc);
    }
  }

  function Prepend(c: Command, cs: Option<seq<Command>>): Option<seq<Command>> {
    if cs.None? then None else Some([c] + cs.value)
  }

  /** The next command's words and what comes after them, never longer than the script. */
  function NextWords(s: string): (t: Tokens)
    ensures t == Tokenize(s)
    ensures t.Words? ==> |t.rest| <= |s|
  {
    RestIsShorter(s, Between, "", []);
    Tokenize(s)
  }

  /** The file a redirection operator at the front of `rest` names, and what follows it. */
  function NextFile(rest: string): (t: Tokens)
    requires rest != ""
    ensures t.Words? ==> |t.rest| < |rest|
  {
    var n := if |rest| > 1 && rest[1] == '>' then 2 else 1;
    var t := NextWords(rest[n..]);
    if t.Words? && |t.words| == 1 && (t.rest == "" || t.rest[0] == '\n') then t else Reject
  }

  function ReadFrom(s: string, link: Link): Option<seq<Command>>
    decreases |s|
  {
    var t := NextWords(s);
    if t.Reject? then None
    else if t.rest == "" then
      (if t.words != [] then Some([Command(link, t.words, NoRedirect)]) else if link.OrElse? then None else Some([]))
    else if t.rest[0] == '\n' then
      (if t.words == [] then ReadFrom(t.rest[1..], link)
       else Prepend(Command(link, t.words, NoRedirect), ReadFrom(t.rest[1..], Always)))
    else if t.words == [] then None
    else if |t.rest| > 1 && t.rest[0] == '|' && t.rest[1] == '|' then
      Prepend(Command(link, t.words, NoRedirect), ReadFrom(t.rest[2..], OrElse))
    else if t.rest[0] == '>' then
      var f := NextFile(t.rest);
      if f.Reject? then None
      else
        var output := if |t.rest| > 1 && t.rest[1] == '>' then Append(f.words[0]) else Write(f.words[0]);
        Prepend(Command(link, t.words, output), ReadFrom(f.rest, Always))
    else None
  }

  function ReadScript(s: string): Option<seq<Command>> {
    ReadFrom(s, Always)
  }

  // ---- one word at a time ----

  /** A word that needs no quoting. */
  predicate Safe(w: string) {
    w != "" && forall c :: c in w ==> 'a' <= c <= 'z' || c == '-'
  }

  lemma {:induction false} ScanSafe(w: string, tail: string, word: string, acc: seq<string>)
    requires w == "" || Safe(w)
    ensures Scan(w + " " + tail, Bare, word, acc) == Scan(tail, Between, "", acc + [word + w])
    decreases |w|
  {
    var s := w + " " + tail;
    if w == "" {
      assert s[1..] == tail && word + w == word;
    } else {
      assert s[0] == w[0] && w[0] in w && s[1..] == w[1..] + " " + tail;
      assert forall c :: c in w[1..] ==> c in w;
      ScanSafe(w[1..], tail, word + [w[0]], acc);
      assert word + [w[0]] + w[1..] == word + w;
    }
  }

  lemma BareWord(w: string, tail: string, acc: seq<string>)
    requires Safe(w)
    ensures Scan(w + " " + tail, Between, "", acc) == Scan(tail, Between, "", acc + [w])
  {
    assert (w + " " + tail)[0] == w[0] && w[0] in w;
    ScanSafe(w, tail, "", acc);
    assert "" + w == w;
  }

  lemma QuotedWord(w: string, tail: string, acc: seq<string>)
    requires Plain(w)
    ensures Scan(Quote(w) + " " + tail, Between, "", acc) == Scan(tail, Between, "", acc + [w])
  {
    assert Quote(w) + " " + tail == Quote(w) + (" " + tail);
    ScanQuoted(w, " " + tail, acc);
    assert (" " + tail)[1..] == tail;
  }

  lemma LastWord(w: string, tail: string, acc: seq<string>)
    requires Plain(w)
    ensures Scan(Quote(w) + "\n" + tail, Between, "", acc) == Words(acc + [w], "\n" + tail)
  {
    assert Quote(w) + "\n" + tail == Quote(w) + ("\n" + tail);
    ScanQuoted(w, "\n" + tail, acc);
  }

  // ---- one command at a time ----

  /** Words written bare, each with a blank after it. */
  function BareText(words: seq<string>): string {
    if words == [] then "" else words[0] + " " + BareText(words[1..])
  }

  /** Words written between double quotes, each with a blank after it. */
  function QuotedText(words: seq<string>): string {
    if words == [] then "" else Quote(words[0]) + " " + QuotedText(words[1..])
  }

  predicate AllSafe(words: seq<string>) {
    forall w :: w in words ==> Safe(w)
  }

  lemma {:induction false} BareWords(words: seq<string>, tail: string, acc: seq<string>)
    requires AllSafe(words)
    ensures Scan(BareText(words) + tail, Between, "", acc) == Scan(tail, Between, "", acc + words)
  {
    if words == [] {
      assert BareText(words) + tail == tail && acc + words == acc;
    } else {
      var more := BareText(words[1..]) + tail;
      SeqAssoc(words[0] + " ", BareText(words[1..]), tail);
      BareWord(words[0], more, acc);
      BareWords(words[1..], tail, acc + [words[0]]);
      assert acc + [words[0]] + words[1..] == acc + words;
    }
  }

  lemma {:induction false} QuotedWords(words: seq<string>, tail: string, acc: seq<string>)
    requires AllPlain(words)
    ensures Scan(QuotedText(words) + tail, Between, "", acc) == Scan(tail, Between, "", acc + words)
  {
    if words == [] {
      assert QuotedText(words) + tail == tail && acc + words == acc;
    } else {
      var more := QuotedText(words[1..]) + tail;
      SeqAssoc(Quote(words[0]) + " ", QuotedText(words[1..]), tail);
      QuotedWord(words[0], more, acc);
      QuotedWords(words[1..], tail, acc + [words[0]]);
      assert acc + [words[0]] + words[1..] == acc + words;
    }
  }

  /** A command line of bare words and quoted words up to `tail`. */
  lemma CommandWords(bare: seq<string>, quoted: seq<string>, tail: string)
    requires AllSafe(bare) && AllPlain(quoted)
    ensures Tokenize(BareText(bare) + (QuotedText(quoted) + tail)) == Scan(tail, Between, "", bare + quoted)
  {
    BareWords(bare, QuotedText(quoted) + tail, []);
    assert [] + bare == bare;
    QuotedWords(quoted, tail, bare);
  }

  lemma ReadBlankLine(tail: string)
    ensures ReadFrom("\n" + tail, Always) == ReadFrom(tail, Always)
  {
    assert ("\n" + tail)[1..] == tail;
  }

  lemma ReadLine(bare: seq<string>, quoted: seq<string>, last: string, tail: string, link: Link)
    requires AllSafe(bare) && AllPlain(quoted) && Plain(last)
    ensures ReadFrom(BareText(bare) + (QuotedText(quoted) + (Quote(last) + "\n" + tail)), link)
            == Prepend(Command(link, bare + quoted + [last], NoRedirect), ReadFrom(tail, Always))
  {
    CommandWords(bare, quoted, Quote(last) + "\n" + tail);
    LastWord(last, tail, bare + quoted);
    assert ("\n" + tail)[1..] == tail;
  }

  lemma ReadOrElse(bare: seq<string>, quoted: seq<string>, tail: string)
    requires AllSafe(bare) && AllPlain(quoted) && bare != []
    ensures ReadFrom(BareText(bare) + (QuotedText(quoted) + ("|| " + tail)), Always)
            == Prepend(Command(Always, bare + quoted, NoRedirect), ReadFrom(" " + tail, OrElse))
  {
    CommandWords(bare, quoted, "|| " + tail);
    assert ("|| " + tail)[2..] == " " + tail;
  }

  lemma ReadAfterBlank(tail: string, link: Link)
    ensures ReadFrom(" " + tail, link) == ReadFrom(tail, link)
  {
    assert (" " + tail)[1..] == tail;
    assert Tokenize(" " + tail) == Tokenize(tail);
  }

  lemma ReadRedirect(bare: seq<string>, quoted: seq<string>, twice: bool, file: string, tail: string)
    requires AllSafe(bare) && AllPlain(quoted) && Plain(file) && bare != []
    ensures ReadFrom(BareText(bare) + (QuotedText(quoted) + ((if twice then ">> " else "> ") + (Quote(file) + "\n" + tail))), Always)
            == Prepend(Command(Always, bare + quoted, if twice then Append(file) else Write(file)), ReadFrom(tail, Always))
  {
    var op := if twice then ">> " else "> ";
    var rest := op + (Quote(file) + "\n" + tail);
    CommandWords(bare, quoted, rest);
    var n := if twice then 2 else 1;
    assert rest[n..] == " " + (Quote(file) + "\n" + tail);
    assert (" " + (Quote(file) + "\n" + tail))[1..] == Quote(file) + "\n" + tail;
    assert Tokenize(rest[n..]) == Scan(Quote(file) + "\n" + tail, Between, "", []);
    LastWord(file, tail, []);
    ReadBlankLine(tail);
  }
}
