/** A command to be run over ssh: the setters, and the printer of the line that is logged and executed. */
module SshCmd {
  import opened Basics
  import opened ShellWords

  class Cmd {
    var name: string
    var args: array<string>

    constructor ()
      ensures name == "" && fresh(args) && args[..] == []
    {
      name := "";
      args := new string[0];
    }

    /** The words the command is meant to consist of. */
    ghost function Meant(): seq<string>
      reads this, args
    {
      [name] + args[..]
    }

    /** The slice is kept, not copied. */
    method SetCmdLine(name: string, args: array<string>)
      modifies this
      ensures this.name == name && this.args == args
    {
      this.name, this.args := name, args;
    }

    /** Each word is wrapped in place in a fresh slice; the command itself stays as it was. */
    method String() returns (line: string)
      ensures line == CommandLine(Meant())
      ensures Tokenize(line) == Words(Meant(), "") <==> AllPlain(Meant())
    {
      ghost var meant := Meant();
      var words := new string[1 + args.Length];
      words[0] := name;
      for i := 0 to args.Length
        modifies words
        invariant words[0] == name
        invariant forall k :: 0 <= k < i ==> words[k + 1] == args[k]
      {
        words[i + 1] := args[i];
      }
      assert words[..] == meant;
      for i := 0 to words.Length
        modifies words
        invariant forall k :: 0 <= k < i ==> words[k] == Quote(meant[k])
        invariant forall k :: i <= k < words.Length ==> words[k] == meant[k]
      {
        words[i] := Quote(words[i]);
      }
      QuoteAllAt(meant, words[..]);
      line := JoinWith(words[..], ' ');
      QuotingRoundTrip(meant);
    }
  }

  lemma {:induction false} QuoteAllAt(words: seq<string>, quoted: seq<string>)
    requires |quoted| == |words| && forall k :: 0 <= k < |words| ==> quoted[k] == Quote(words[k])
    ensures quoted == QuoteAll(words)
  {
    if words != [] { QuoteAllAt(words[1..], quoted[1..]); }
  }

  /** The line that is logged is the line that is executed, and a shell reads it as name and arguments if they are plain. */
  method RunLogged(name: string, args: array<string>) returns (logged: string, executed: string)
    ensures logged == executed
    ensures Tokenize(executed) == Words([name] + args[..], "") <==> AllPlain([name] + args[..])
  {
    var cmd := new Cmd();
    cmd.SetCmdLine(name, args);
    logged := cmd.String();
    executed := cmd.String();
  }
}
