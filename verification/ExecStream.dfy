/**
 The `/exec` request as a transition system: the producer goroutine, the two
 goroutines that copy the remote command's output, the three channels between
 them and the handler, the request context, and the handler's select loop.
 Whatever the select chooses among the ready cases is a label.
 */
module ExecStream {
  import opened Basics
  import opened EventStream
  import opened EventPrinter

  /** What the remote command writes, write by write. */
  datatype Source = Source(stdout: seq<string>, stderr: seq<string>)

  datatype Chunk = Chunk(fromStderr: bool, text: string)

  datatype ProducerPc =
    | ReadKey | Dial | NewSession | HookContext | StartCommand | Streaming
    | SendErr(msg: string) | SendDone | CloseOut | CloseErr | Finished

  /** The handler is looping, about to run its deferred function, or back; `byDone` says it took from `doneCh`. */
  datatype HandlerPc = Looping | Deferring(byDone: bool) | Ended(byDone: bool)

  datatype State = State(
    producer: ProducerPc,
    stdoutPos: nat,
    stderrPos: nat,
    held: seq<string>,
    last: string,
    outQueue: seq<string>,
    outClosed: bool,
    errQueue: seq<string>,
    errClosed: bool,
    doneQueue: nat,
    ctxDone: bool,
    handler: HandlerPc,
    written: seq<Output>,
    sent: seq<Chunk>,
    errSent: seq<string>,
    doneSent: nat)

  const Init := State(ReadKey, 0, 0, [], "", [], false, [], false, 0, false, Looping, [], [], [], 0)

  datatype Label =
    | ProducerStep(ok: bool, msg: string)
    | StdoutWrite
    | StderrRecord
    | StderrWrite
    | Disconnect
    | TakeDone
    | TakeErr
    | TakeOut
    | SeeDisconnect
    | PingTimer
    | RunDeferred

  // ---- the producer ----

  /** The error text of a failed run: the last write to stderr, then the error. */
  function RunError(last: string, msg: string): string {
    last + "\n" + msg
  }

  function NextProducer(s: State, ok: bool, msg: string): Option<State> {
    match s.producer
    case ReadKey => Some(s.(producer := if ok then Dial else SendDone))
    case Dial => Some(s.(producer := if ok then NewSession else SendErr("dial ssh error " + msg)))
    case NewSession => Some(s.(producer := if ok then HookContext else SendErr("create session error " + msg)))
    case HookContext => Some(s.(producer := StartCommand))
    case StartCommand => Some(s.(producer := if ok then Streaming else SendErr(RunError(s.last, msg))))
    case Streaming =>
      // Run waits for both copying goroutines
      if s.held != [] then None
      else Some(s.(producer := if ok then SendDone else SendErr(RunError(s.last, msg))))
    case SendErr(m) =>
      // errCh has room for one
      if |s.errQueue| >= 1 || s.errClosed then None
      else Some(s.(producer := SendDone, errQueue := s.errQueue + [m], errSent := s.errSent + [m]))
    case SendDone =>
      if s.doneQueue >= 1 then None
      else Some(s.(producer := CloseOut, doneQueue := s.doneQueue + 1, doneSent := s.doneSent + 1))
    case CloseOut => Some(s.(producer := CloseErr, outClosed := true))
    case CloseErr => Some(s.(producer := Finished, errClosed := true))
    case Finished => None
  }

  // ---- the copying goroutines ----

  function NextStdout(src: Source, s: State): Option<State> {
    if !s.producer.Streaming? || s.stdoutPos >= |src.stdout| || s.outClosed then None
    else
      var p := src.stdout[s.stdoutPos];
      Some(s.(stdoutPos := s.stdoutPos + 1, outQueue := s.outQueue + [p], sent := s.sent + [Chunk(false, p)]))
  }

  function NextStderrRecord(src: Source, s: State): Option<State> {
    if !s.producer.Streaming? || s.stderrPos >= |src.stderr| || s.held != [] then None
    else
      var p := src.stderr[s.stderrPos];
      Some(s.(stderrPos := s.stderrPos + 1, last := p, held := [p]))
  }

  function NextStderrWrite(s: State): Option<State> {
    if s.held == [] || s.outClosed then None
    else Some(s.(held := [], outQueue := s.outQueue + [s.held[0]], sent := s.sent + [Chunk(true, s.held[0])]))
  }

  // ---- the handler ----

  function Write(s: State, o: Output): State {
    s.(written := s.written + [o])
  }

  function NextHandler(s: State, l: Label): Option<State> {
    if s.handler.Deferring? then
      if !l.RunDeferred? then None
      else if s.ctxDone then Some(s.(handler := Ended(s.handler.byDone)))
      // once ServeHTTP is back the server cancels the request context
      else Some(Write(s.(handler := Ended(s.handler.byDone), ctxDone := true), Done))
    else if s.handler.Ended? then None
    else
      match l
      case TakeDone => if s.doneQueue == 0 then None else Some(s.(doneQueue := s.doneQueue - 1, handler := Deferring(true)))
      case TakeErr =>
        if s.errQueue != [] then Some(Write(s.(errQueue := s.errQueue[1..]), ErrorEvent(s.errQueue[0])))
        else if s.errClosed then Some(s) else None
      case TakeOut =>
        if s.outQueue != [] then Some(Write(s.(outQueue := s.outQueue[1..]), OutEvent(s.outQueue[0])))
        else if s.outClosed then Some(s) else None
      case SeeDisconnect => if s.ctxDone then Some(s.(handler := Deferring(false))) else None
      case PingTimer => Some(Write(s, Ping))
      case _ => None
  }

  function Next(src: Source, s: State, l: Label): Option<State> {
    match l
    case ProducerStep(ok, msg) => NextProducer(s, ok, msg)
    case StdoutWrite => NextStdout(src, s)
    case StderrRecord => NextStderrRecord(src, s)
    case StderrWrite => NextStderrWrite(s)
    case Disconnect => Some(s.(ctxDone := true))
    case _ => NextHandler(s, l)
  }

  function Run(src: Source, s: State, labels: seq<Label>): Option<State>
    decreases |labels|
  {
    if labels == [] then Some(s)
    else
      match Next(src, s, labels[0])
      case None => None
      case Some(t) => Run(src, t, labels[1..])
  }

  ghost predicate Reachable(src: Source, s: State) {
    exists labels: seq<Label> :: Run(src, Init, labels) == Some(s)
  }

  // ---- projections ----

  function Texts(cs: seq<Chunk>): seq<string> {
    if cs == [] then [] else [cs[0].text] + Texts(cs[1..])
  }

  /** The chunks of one of the two streams, in the order they were sent. */
  function From(cs: seq<Chunk>, stderr: bool): seq<string> {
    if cs == [] then [] else (if cs[0].fromStderr == stderr then [cs[0].text] else []) + From(cs[1..], stderr)
  }

  function OutTexts(os: seq<Output>): seq<string> {
    if os == [] then [] else (if os[0].OutEvent? then [os[0].text] else []) + OutTexts(os[1..])
  }

  function ErrorTexts(os: seq<Output>): seq<string> {
    if os == [] then [] else (if os[0].ErrorEvent? then [os[0].text] else []) + ErrorTexts(os[1..])
  }

  /** The data of the messages of one type. */
  function DataOf(ms: seq<Message>, kind: string): seq<string> {
    if ms == [] then [] else (if ms[0].kind == kind then [ms[0].data] else []) + DataOf(ms[1..], kind)
  }

  function AllMeant(texts: seq<string>): seq<string> {
    if texts == [] then [] else [TextMeant(texts[0])] + AllMeant(texts[1..])
  }

  lemma {:induction false} ProjectChunk(cs: seq<Chunk>, c: Chunk)
    ensures Texts(cs + [c]) == Texts(cs) + [c.text]
    ensures forall stderr :: From(cs + [c], stderr) == From(cs, stderr) + (if c.fromStderr == stderr then [c.text] else [])
  {
    if cs != [] {
      assert (cs + [c])[1..] == cs[1..] + [c];
      ProjectChunk(cs[1..], c);
    }
  }

  lemma {:induction false} ProjectOutput(os: seq<Output>, o: Output)
    ensures OutTexts(os + [o]) == OutTexts(os) + (if o.OutEvent? then [o.text] else [])
    ensures ErrorTexts(os + [o]) == ErrorTexts(os) + (if o.ErrorEvent? then [o.text] else [])
  {
    if os != [] {
      assert (os + [o])[1..] == os[1..] + [o];
      ProjectOutput(os[1..], o);
    }
  }

  // ---- the invariant ----

  /** The producer has not yet come to `errCh <-`. */
  predicate BeforeErr(p: ProducerPc) {
    p.ReadKey? || p.Dial? || p.NewSession? || p.HookContext? || p.StartCommand? || p.Streaming? || p.SendErr?
  }

  predicate BeforeStream(p: ProducerPc) {
    p.ReadKey? || p.Dial? || p.NewSession? || p.HookContext? || p.StartCommand?
  }

  predicate SourceInv(src: Source, s: State) {
    && s.stdoutPos <= |src.stdout| && s.stderrPos <= |src.stderr|
    && From(s.sent, false) == src.stdout[..s.stdoutPos]
    && From(s.sent, true) + s.held == src.stderr[..s.stderrPos]
    && s.last == (if s.stderrPos == 0 then "" else src.stderr[s.stderrPos - 1])
    && (s.held != [] ==> s.producer.Streaming? && |s.held| == 1)
    && (BeforeStream(s.producer) ==> s.stdoutPos == 0 && s.stderrPos == 0)
  }

  predicate OutInv(written: seq<Output>, queue: seq<string>, sent: seq<Chunk>) {
    OutTexts(written) + queue == Texts(sent)
  }

  predicate ErrInv(s: State) {
    && ErrorTexts(s.written) + s.errQueue == s.errSent
    && |s.errSent| <= 1
    && (BeforeErr(s.producer) ==> s.errSent == [])
  }

  predicate DoneInv(s: State) {
    && s.doneSent == (if BeforeErr(s.producer) || s.producer.SendDone? then 0 else 1)
    && s.doneSent == s.doneQueue + (if !s.handler.Looping? && s.handler.byDone then 1 else 0)
    && (s.outClosed <==> s.producer.CloseErr? || s.producer.Finished?)
    && (s.errClosed <==> s.producer.Finished?)
    && (!s.handler.Looping? && !s.handler.byDone ==> s.ctxDone)
  }

  predicate LastInv(handler: HandlerPc, written: seq<Output>) {
    && (forall i :: 0 <= i < |written| - 1 ==> !written[i].Done?)
    && (!handler.Ended? ==> forall i :: 0 <= i < |written| ==> !written[i].Done?)
  }

  predicate Inv(src: Source, s: State) {
    SourceInv(src, s) && OutInv(s.written, s.outQueue, s.sent) && ErrInv(s) && DoneInv(s) && LastInv(s.handler, s.written)
  }

  lemma ProducerSendsErr(src: Source, s: State, ok: bool, msg: string, t: State)
    requires Inv(src, s) && s.producer.SendErr? && NextProducer(s, ok, msg) == Some(t)
    ensures Inv(src, t)
  {
    var m := s.producer.msg;
    assert ErrorTexts(s.written) + (s.errQueue + [m]) == (ErrorTexts(s.written) + s.errQueue) + [m];
  }

  lemma ProducerChannels(s: State, ok: bool, msg: string, t: State)
    requires DoneInv(s) && ErrInv(s) && !s.producer.SendErr? && NextProducer(s, ok, msg) == Some(t)
    ensures DoneInv(t) && ErrInv(t)
    ensures t.written == s.written && t.handler == s.handler
  {
    ProducerDone(s, ok, msg, t);
    ProducerErrs(s, ok, msg, t);
  }

  lemma ProducerDone(s: State, ok: bool, msg: string, t: State)
    requires DoneInv(s) && !s.producer.SendErr? && NextProducer(s, ok, msg) == Some(t)
    ensures DoneInv(t)
  {
  }

  lemma ProducerErrs(s: State, ok: bool, msg: string, t: State)
    requires !s.producer.SendErr? && NextProducer(s, ok, msg) == Some(t)
    ensures t.written == s.written && t.handler == s.handler && t.errSent == s.errSent && t.errQueue == s.errQueue
    ensures BeforeErr(t.producer) ==> BeforeErr(s.producer)
  {
  }

  lemma ProducerFrame(s: State, ok: bool, msg: string, t: State)
    requires !s.producer.SendErr? && NextProducer(s, ok, msg) == Some(t)
    ensures t.stdoutPos == s.stdoutPos && t.stderrPos == s.stderrPos && t.held == s.held && t.last == s.last
    ensures t.outQueue == s.outQueue && t.sent == s.sent
    ensures BeforeStream(t.producer) ==> BeforeStream(s.producer)
    ensures s.producer.Streaming? ==> s.held == []
  {
  }

  lemma ProducerKeeps(src: Source, s: State, ok: bool, msg: string, t: State)
    requires Inv(src, s) && NextProducer(s, ok, msg) == Some(t)
    ensures Inv(src, t)
  {
    if s.producer.SendErr? {
      ProducerSendsErr(src, s, ok, msg, t);
    } else {
      ProducerChannels(s, ok, msg, t);
      ProducerFrame(s, ok, msg, t);
    }
  }

  lemma StdoutKeeps(src: Source, s: State, t: State)
    requires Inv(src, s) && NextStdout(src, s) == Some(t)
    ensures Inv(src, t)
  {
    var c := Chunk(false, src.stdout[s.stdoutPos]);
    ProjectChunk(s.sent, c);
    assert OutTexts(s.written) + (s.outQueue + [c.text]) == (OutTexts(s.written) + s.outQueue) + [c.text];
    assert src.stdout[..t.stdoutPos] == src.stdout[..s.stdoutPos] + [c.text];
    assert From(t.sent, true) == From(s.sent, true) + [] == From(s.sent, true);
  }

  lemma StderrRecordKeeps(src: Source, s: State, t: State)
    requires Inv(src, s) && NextStderrRecord(src, s) == Some(t)
    ensures Inv(src, t)
  {
    assert From(s.sent, true) + [] == From(s.sent, true);
    assert src.stderr[..t.stderrPos] == src.stderr[..s.stderrPos] + [src.stderr[s.stderrPos]];
  }

  lemma StderrWriteKeeps(src: Source, s: State, t: State)
    requires Inv(src, s) && NextStderrWrite(s) == Some(t)
    ensures Inv(src, t)
  {
    var c := Chunk(true, s.held[0]);
    ProjectChunk(s.sent, c);
    assert s.held == [c.text];
    assert OutTexts(s.written) + (s.outQueue + [c.text]) == (OutTexts(s.written) + s.outQueue) + [c.text];
    assert From(t.sent, false) == From(s.sent, false) + [] == From(s.sent, false);
    assert From(t.sent, true) + [] == From(t.sent, true);
  }

  lemma MovedOver(done: seq<string>, moved: seq<string>, left: seq<string>)
    ensures (done + moved) + left == done + (moved + left)
  {
  }

  /** What the handler prints comes off the front of the queue it belongs to. */
  lemma TakenIs(s: State, o: Output, t: State, l: Label)
    requires NextHandler(s, l) == Some(t) && t.written == s.written + [o]
    ensures s.outQueue == (if o.OutEvent? then [o.text] else []) + t.outQueue
    ensures s.errQueue == (if o.ErrorEvent? then [o.text] else []) + t.errQueue
    ensures t.sent == s.sent && t.errSent == s.errSent && t.producer == s.producer
  {
    assert t.written[|s.written|] == o;
    match l
    case TakeErr =>
      assert o == ErrorEvent(s.errQueue[0]);
      assert s.errQueue == [s.errQueue[0]] + s.errQueue[1..];
    case TakeOut =>
      assert o == OutEvent(s.outQueue[0]);
      assert s.outQueue == [s.outQueue[0]] + s.outQueue[1..];
    case _ =>
  }

  lemma OutputKeeps(s: State, o: Output, t: State, l: Label)
    requires NextHandler(s, l) == Some(t) && t.written == s.written + [o]
    requires OutInv(s.written, s.outQueue, s.sent) && ErrInv(s)
    ensures OutInv(t.written, t.outQueue, t.sent) && ErrInv(t)
  {
    TakenIs(s, o, t, l);
    ProjectOutput(s.written, o);
    MovedOver(OutTexts(s.written), if o.OutEvent? then [o.text] else [], t.outQueue);
    MovedOver(ErrorTexts(s.written), if o.ErrorEvent? then [o.text] else [], t.errQueue);
  }

  /** The handler leaves what the producer side owns alone, and writes at most one thing at a time. */
  lemma HandlerFrame(s: State, l: Label, t: State)
    requires NextHandler(s, l) == Some(t)
    ensures t.producer == s.producer && t.stdoutPos == s.stdoutPos && t.stderrPos == s.stderrPos
    ensures t.held == s.held && t.last == s.last && t.sent == s.sent && t.errSent == s.errSent
    ensures t.written == s.written || t.written == s.written + [t.written[|t.written| - 1]]
    ensures t.written == s.written ==> t.outQueue == s.outQueue && t.errQueue == s.errQueue
  {
  }

  lemma HandlerDone(s: State, l: Label, t: State)
    requires DoneInv(s) && LastInv(s.handler, s.written) && NextHandler(s, l) == Some(t)
    ensures DoneInv(t) && LastInv(t.handler, t.written)
  {
  }

  lemma HandlerKeeps(src: Source, s: State, l: Label, t: State)
    requires Inv(src, s) && NextHandler(s, l) == Some(t)
    ensures Inv(src, t)
  {
    HandlerFrame(s, l, t);
    HandlerDone(s, l, t);
    if t.written != s.written {
      OutputKeeps(s, t.written[|s.written|], t, l);
    }
  }

  lemma StepKeeps(src: Source, s: State, l: Label)
    requires Inv(src, s) && Next(src, s, l).Some?
    ensures Inv(src, Next(src, s, l).value)
  {
    var t := Next(src, s, l).value;
    match l
    case ProducerStep(ok, msg) => ProducerKeeps(src, s, ok, msg, t);
    case StdoutWrite => StdoutKeeps(src, s, t);
    case StderrRecord => StderrRecordKeeps(src, s, t);
    case StderrWrite => StderrWriteKeeps(src, s, t);
    case Disconnect =>
    case _ => HandlerKeeps(src, s, l, t);
  }

  lemma {:induction false} RunKeeps(src: Source, s: State, labels: seq<Label>)
    requires Inv(src, s) && Run(src, s, labels).Some?
    ensures Inv(src, Run(src, s, labels).value)
    decreases |labels|
  {
    if labels != [] {
      StepKeeps(src, s, labels[0]);
      RunKeeps(src, Next(src, s, labels[0]).value, labels[1..]);
    }
  }

  lemma ReachableInv(src: Source, s: State)
    requires Reachable(src, s)
    ensures Inv(src, s)
  {
    var labels :| Run(src, Init, labels) == Some(s);
    assert src.stdout[..0] == [] && src.stderr[..0] == [];
    RunKeeps(src, Init, labels);
  }

  // ---- main results: safety of the stream ----

  /**
   Conservation: the chunks sent are the chunks printed followed by those still
   queued; the same for errors, of which there is never more than one.
   */
  lemma NothingLostOnTheWay(src: Source, s: State)
    requires Reachable(src, s)
    ensures OutTexts(s.written) + s.outQueue == Texts(s.sent)
    ensures OutTexts(s.written) <= Texts(s.sent)
    ensures ErrorTexts(s.written) + s.errQueue == s.errSent && |s.errSent| <= 1
    ensures (OutTexts(s.written) == Texts(s.sent)) <==> (s.outQueue == [])
  {
    ReachableInv(src, s);
  }

  /** The chunks sent interleave a beginning of stdout and a beginning of stderr, each in its own order. */
  lemma ChunksInterleave(src: Source, s: State)
    requires Reachable(src, s)
    ensures From(s.sent, false) <= src.stdout && From(s.sent, true) <= src.stderr
    ensures |s.sent| == |From(s.sent, false)| + |From(s.sent, true)|
  {
    ReachableInv(src, s);
    assert From(s.sent, true) <= src.stderr[..s.stderrPos];
    CountChunks(s.sent);
  }

  lemma {:induction false} CountChunks(cs: seq<Chunk>)
    ensures |cs| == |From(cs, false)| + |From(cs, true)|
  {
    if cs != [] { CountChunks(cs[1..]); }
  }

  /** `done` is printed at most once, last, and only by a handler that has come back. */
  lemma DoneIsLast(src: Source, s: State, i: nat)
    requires Reachable(src, s) && i < |s.written| && s.written[i].Done?
    ensures i == |s.written| - 1 && s.handler.Ended?
  {
    ReachableInv(src, s);
  }

  // ---- main results: which error is sent ----

  function LastOf(texts: seq<string>): string {
    if texts == [] then "" else texts[|texts| - 1]
  }

  /**
   What every failing call of the producer has to say: nothing about a key that cannot be
   read; which call failed and its error when there is no session; and once there is one, the last thing
   the command wrote to stderr, a line break, and the error.
   */
  lemma LastStderrIsKept(src: Source, s: State, msg: string, t: State)
    requires Reachable(src, s) && NextProducer(s, false, msg) == Some(t)
    ensures s.producer.ReadKey? ==> t.producer.SendDone?
    ensures s.producer.Dial? ==> t.producer == SendErr("dial ssh error " + msg)
    ensures s.producer.NewSession? ==> t.producer == SendErr("create session error " + msg)
    ensures s.producer.StartCommand? ==> t.producer == SendErr("" + "\n" + msg)
    ensures s.producer.Streaming? ==> t.producer == SendErr(LastOf(From(s.sent, true)) + "\n" + msg)
  {
    ReachableInv(src, s);
    LastWritten(src, s);
  }

  lemma LastWritten(src: Source, s: State)
    requires SourceInv(src, s)
    ensures s.held == [] ==> s.last == LastOf(From(s.sent, true))
    ensures BeforeStream(s.producer) ==> s.last == ""
  {
    assert From(s.sent, true) + [] == From(s.sent, true);
  }

  /** The text owed to the client by one step: that of a failing call, if it has one. */
  function Failure(s: State, l: Label): Option<string> {
    if !l.ProducerStep? || l.ok then None
    else if s.producer.Dial? then Some("dial ssh error " + l.msg)
    else if s.producer.NewSession? then Some("create session error " + l.msg)
    else if s.producer.StartCommand? then Some("" + "\n" + l.msg)
    else if s.producer.Streaming? then Some(LastOf(From(s.sent, true)) + "\n" + l.msg)
    else None
  }

  /** The text owed by a schedule: that of its first failing call. */
  function FailureOf(src: Source, s: State, labels: seq<Label>): Option<string>
    decreases |labels|
  {
    if labels == [] || Next(src, s, labels[0]).None? then None
    else if Failure(s, labels[0]).Some? then Failure(s, labels[0])
    else FailureOf(src, Next(src, s, labels[0]).value, labels[1..])
  }

  /** The text is about to be sent or was sent; without one, nothing was or is about to be. */
  predicate Owes(s: State, text: Option<string>) {
    match text
    case None => !s.producer.SendErr? && s.errSent == []
    case Some(m) => if BeforeErr(s.producer) then s.producer == SendErr(m) && s.errSent == [] else s.errSent == [m]
  }

  lemma OtherStepOwes(src: Source, s: State, l: Label, t: State)
    requires !l.ProducerStep? && Next(src, s, l) == Some(t)
    ensures t.producer == s.producer && t.errSent == s.errSent
  {
  }

  lemma ProducerOwes(src: Source, s: State, ok: bool, msg: string, text: Option<string>, t: State)
    requires Inv(src, s) && NextProducer(s, ok, msg) == Some(t) && Owes(s, text)
    ensures Owes(t, if text.Some? then text else Failure(s, ProducerStep(ok, msg)))
  {
    LastWritten(src, s);
    if text.Some? { StillOwes(s, ok, msg, text.value, t); } else { StartsToOwe(s, ok, msg, t); }
  }

  lemma StillOwes(s: State, ok: bool, msg: string, text: string, t: State)
    requires NextProducer(s, ok, msg) == Some(t) && Owes(s, Some(text))
    ensures Owes(t, Some(text))
  {
  }

  lemma StartsToOwe(s: State, ok: bool, msg: string, t: State)
    requires NextProducer(s, ok, msg) == Some(t) && Owes(s, None)
    requires s.held == [] ==> s.last == LastOf(From(s.sent, true))
    requires s.producer.StartCommand? ==> s.last == ""
    ensures Owes(t, Failure(s, ProducerStep(ok, msg)))
  {
    if ok || s.producer.ReadKey? || !BeforeErr(s.producer) || s.producer.HookContext? {
      OwesNothing(s, ok, msg, t);
    } else if s.producer.Dial? || s.producer.NewSession? {
    } else {
      assert t.producer == SendErr(RunError(s.last, msg)) && t.errSent == [];
      assert Failure(s, ProducerStep(ok, msg)) == Some(RunError(s.last, msg));
    }
  }

  lemma OwesNothing(s: State, ok: bool, msg: string, t: State)
    requires NextProducer(s, ok, msg) == Some(t) && Owes(s, None)
    requires ok || s.producer.ReadKey? || !BeforeErr(s.producer) || s.producer.HookContext?
    ensures Owes(t, None)
  {
  }

  lemma {:induction false} RunOwes(src: Source, s: State, labels: seq<Label>, text: Option<string>, v: State)
    requires Inv(src, s) && Owes(s, text) && Run(src, s, labels) == Some(v)
    ensures Owes(v, if text.Some? then text else FailureOf(src, s, labels))
    decreases |labels|
  {
    if labels != [] {
      var t := Next(src, s, labels[0]).value;
      var next := if text.Some? then text else Failure(s, labels[0]);
      match labels[0] {
        case ProducerStep(ok, msg) => ProducerOwes(src, s, ok, msg, text, t);
        case _ => OtherStepOwes(src, s, labels[0], t);
      }
      StepKeeps(src, s, labels[0]);
      RunOwes(src, t, labels[1..], next, v);
    }
  }

  /**
   Over every run, the error sent is that of the first failing call: it is sent once the
   producer is past its send, nothing else ever is, and a run without one sends none.
   */
  lemma ErrorSentIsTheFailure(src: Source, labels: seq<Label>, v: State)
    requires Run(src, Init, labels) == Some(v)
    ensures v.errSent == (if FailureOf(src, Init, labels).Some? && !BeforeErr(v.producer) then [FailureOf(src, Init, labels).value] else [])
  {
    RunKeeps(src, Init, []);
    RunOwes(src, Init, labels, None, v);
    assert Reachable(src, v);
    ReachableInv(src, v);
  }

  // ---- main results: the producer ----

  /** No send of the producer ever blocks or meets a closed channel, whatever the client does. */
  lemma ProducerNeverBlocks(src: Source, s: State, ok: bool, msg: string)
    requires Reachable(src, s)
    ensures s.producer.SendErr? ==> s.errQueue == [] && !s.errClosed
    ensures s.producer.SendDone? ==> s.doneQueue == 0
    ensures s.producer.Streaming? || s.held != [] ==> !s.outClosed
    ensures !s.producer.Finished? && s.held == [] ==> NextProducer(s, ok, msg).Some?
  {
    ReachableInv(src, s);
    if s.producer.SendErr? {
      assert |ErrorTexts(s.written) + s.errQueue| == 0;
    }
  }

  /** When the looping handler finds a channel closed, the done case is ready too. */
  lemma ClosedMeansDone(src: Source, s: State)
    requires Reachable(src, s) && s.handler.Looping? && (s.outClosed || s.errClosed)
    ensures s.doneQueue == 1 && NextHandler(s, TakeDone).Some?
  {
    ReachableInv(src, s);
  }

  // ---- main results: what the client reads ----

  lemma {:induction false} DataOfConcat(ms: seq<Message>, ns: seq<Message>, kind: string)
    ensures DataOf(ms + ns, kind) == DataOf(ms, kind) + DataOf(ns, kind)
  {
    if ms == [] {
      assert ms + ns == ns;
    } else {
      assert (ms + ns)[1..] == ms[1..] + ns;
      DataOfConcat(ms[1..], ns, kind);
    }
  }

  lemma DataOfOne(o: Output)
    ensures DataOf(Meant(o), "out") == if o.OutEvent? then [TextMeant(o.text)] else []
    ensures DataOf(Meant(o), "error") == if o.ErrorEvent? then [TextMeant(o.text)] else []
  {
    assert |"out"| == 3 && |"error"| == 5 && |"done"| == 4;
    if Meant(o) != [] { assert Meant(o)[1..] == []; }
  }

  lemma AllMeantStep(present: bool, text: string, texts: seq<string>)
    ensures AllMeant((if present then [text] else []) + texts) ==
            (if present then [TextMeant(text)] else []) + AllMeant(texts)
  {
    if present {
      assert ([text] + texts)[1..] == texts;
    } else {
      assert [] + texts == texts;
    }
  }

  lemma {:induction false} DataOfMeant(os: seq<Output>)
    ensures DataOf(MeantAll(os), "out") == AllMeant(OutTexts(os))
    ensures DataOf(MeantAll(os), "error") == AllMeant(ErrorTexts(os))
  {
    if os != [] {
      DataOfMeant(os[1..]);
      DataOfConcat(Meant(os[0]), MeantAll(os[1..]), "out");
      DataOfConcat(Meant(os[0]), MeantAll(os[1..]), "error");
      DataOfOne(os[0]);
      AllMeantStep(os[0].OutEvent?, if os[0].OutEvent? then os[0].text else "", OutTexts(os[1..]));
      AllMeantStep(os[0].ErrorEvent?, if os[0].ErrorEvent? then os[0].text else "", ErrorTexts(os[1..]));
    }
  }

  /**
   In every run, an event-stream parser reads the bytes written as exactly the
   events the handler meant if and only if no printed text has a lone CR; then the
   `out` data are the trimmed texts of the first `k` chunks sent, in order, all of
   them if the queue was emptied, and the `error` data are the errors taken.
   */
  lemma ClientReadsTheStream(src: Source, s: State) returns (k: nat)
    requires Reachable(src, s)
    ensures Parse(PrintAll(s.written)) == MeantAll(s.written) <==> AllClean(s.written)
    ensures k + |s.outQueue| == |Texts(s.sent)|
    ensures AllClean(s.written) ==> DataOf(Parse(PrintAll(s.written)), "out") == AllMeant(Texts(s.sent)[..k])
    ensures AllClean(s.written) ==> |DataOf(Parse(PrintAll(s.written)), "error")| <= 1
    ensures AllClean(s.written) && s.errQueue == [] ==>
              DataOf(Parse(PrintAll(s.written)), "error") == AllMeant(s.errSent)
  {
    ReachableInv(src, s);
    StreamRoundTrip(s.written);
    DataOfMeant(s.written);
    k := |OutTexts(s.written)|;
    assert Texts(s.sent)[..k] == OutTexts(s.written);
    assert ErrorTexts(s.written) + [] == ErrorTexts(s.written);
    AllMeantLength(ErrorTexts(s.written));
  }

  lemma {:induction false} AllMeantLength(texts: seq<string>)
    ensures |AllMeant(texts)| == |texts|
  {
    if texts != [] { AllMeantLength(texts[1..]); }
  }

  /**
   What the client reads after a command that failed: whatever happens next, once the
   error is sent and taken, the one `error` message is the last thing the command wrote
   to stderr, a line break, and the error of the run.
   */
  lemma ClientReadsTheError(src: Source, before: seq<Label>, s: State, msg: string, after: seq<Label>, v: State)
    requires Run(src, Init, before) == Some(s) && s.producer.Streaming? && s.held == []
    requires Run(src, s, [ProducerStep(false, msg)] + after) == Some(v)
    ensures !BeforeErr(v.producer) ==> v.errSent == [LastOf(From(s.sent, true)) + "\n" + msg]
    ensures !BeforeErr(v.producer) && v.errQueue == [] && AllClean(v.written) ==>
              DataOf(Parse(PrintAll(v.written)), "error") == [TextMeant(LastOf(From(s.sent, true)) + "\n" + msg)]
  {
    assert Reachable(src, s);
    ReachableInv(src, s);
    var l := ProducerStep(false, msg);
    var text := LastOf(From(s.sent, true)) + "\n" + msg;
    var t := Next(src, s, l).value;
    LastStderrIsKept(src, s, msg, t);
    assert ([l] + after)[1..] == after;
    StepKeeps(src, s, l);
    RunOwes(src, t, after, Some(text), v);
    RunKeeps(src, t, after);
    ErrorIsRead(src, v, text);
  }

  lemma ErrorIsRead(src: Source, v: State, text: string)
    requires Inv(src, v)
    ensures v.errSent == [text] && v.errQueue == [] && AllClean(v.written) ==>
              DataOf(Parse(PrintAll(v.written)), "error") == [TextMeant(text)]
  {
    StreamRoundTrip(v.written);
    DataOfMeant(v.written);
    assert ErrorTexts(v.written) + [] == ErrorTexts(v.written);
    assert [text][1..] == [];
  }

  // ---- main results: a client that stays is told the end ----

  predicate Undisturbed(s: State) {
    if s.handler.Ended? then s.handler.byDone && s.written != [] && s.written[|s.written| - 1].Done?
    else !s.ctxDone && (s.handler.Deferring? ==> s.handler.byDone)
  }

  lemma CopierFrame(src: Source, s: State, t: State)
    requires NextStdout(src, s) == Some(t) || NextStderrRecord(src, s) == Some(t) || NextStderrWrite(s) == Some(t)
    ensures t.written == s.written && t.handler == s.handler && t.ctxDone == s.ctxDone
  {
  }

  lemma ProducerSideFrame(s: State, ok: bool, msg: string, t: State)
    requires NextProducer(s, ok, msg) == Some(t)
    ensures t.written == s.written && t.handler == s.handler && t.ctxDone == s.ctxDone
  {
  }

  lemma HandlerUndisturbed(s: State, l: Label, t: State)
    requires Undisturbed(s) && NextHandler(s, l) == Some(t)
    ensures Undisturbed(t)
  {
  }

  lemma UndisturbedStep(src: Source, s: State, l: Label, t: State)
    requires Undisturbed(s) && !l.Disconnect? && Next(src, s, l) == Some(t)
    ensures Undisturbed(t)
  {
    match l
    case ProducerStep(ok, msg) => ProducerSideFrame(s, ok, msg, t);
    case StdoutWrite => CopierFrame(src, s, t);
    case StderrRecord => CopierFrame(src, s, t);
    case StderrWrite => CopierFrame(src, s, t);
    case _ => HandlerUndisturbed(s, l, t);
  }

  lemma {:induction false} UndisturbedRun(src: Source, s: State, labels: seq<Label>)
    requires Undisturbed(s) && Disconnect !in labels && Run(src, s, labels).Some?
    ensures Undisturbed(Run(src, s, labels).value)
    decreases |labels|
  {
    if labels != [] {
      UndisturbedStep(src, s, labels[0], Next(src, s, labels[0]).value);
      UndisturbedRun(src, Next(src, s, labels[0]).value, labels[1..]);
    }
  }

  /**
   If the client never disconnects, the handler comes back only after the producer
   said it was done, and then the very last message the client reads is `done`.
   */
  lemma StayingClientSeesDone(src: Source, labels: seq<Label>, s: State)
    requires Run(src, Init, labels) == Some(s) && Disconnect !in labels && s.handler.Ended?
    ensures s.doneSent == 1 && s.written != [] && s.written[|s.written| - 1] == Done
  {
    assert Reachable(src, s);
    ReachableInv(src, s);
    UndisturbedRun(src, Init, labels);
  }

  // ---- main results: a client that has left, and the keep-alive ----

  lemma LeftWritesNoDone(s: State, l: Label, t: State)
    requires s.ctxDone && NextHandler(s, l) == Some(t) && Done !in s.written
    ensures t.ctxDone && Done !in t.written
  {
  }

  lemma LeftStep(src: Source, s: State, l: Label, t: State)
    requires s.ctxDone && Next(src, s, l) == Some(t) && Done !in s.written
    ensures t.ctxDone && Done !in t.written
  {
    match l
    case ProducerStep(ok, msg) => ProducerSideFrame(s, ok, msg, t);
    case StdoutWrite => CopierFrame(src, s, t);
    case StderrRecord => CopierFrame(src, s, t);
    case StderrWrite => CopierFrame(src, s, t);
    case Disconnect =>
    case _ => LeftWritesNoDone(s, l, t);
  }

  lemma {:induction false} LeftRun(src: Source, s: State, labels: seq<Label>)
    requires s.ctxDone && Done !in s.written && Run(src, s, labels).Some?
    ensures Done !in Run(src, s, labels).value.written
    decreases |labels|
  {
    if labels != [] {
      LeftStep(src, s, labels[0], Next(src, s, labels[0]).value);
      LeftRun(src, Next(src, s, labels[0]).value, labels[1..]);
    }
  }

  /** Once the client has left a handler that is not back yet, no `done` is ever printed. */
  lemma NoDoneForTheGone(src: Source, s: State, labels: seq<Label>, v: State)
    requires Reachable(src, s) && s.ctxDone && !s.handler.Ended? && Run(src, s, labels) == Some(v)
    ensures Done !in v.written
  {
    ReachableInv(src, s);
    LeftRun(src, s, labels);
  }

  function Pings(os: seq<Output>): nat {
    if os == [] then 0 else (if os[0].Ping? then 1 else 0) + Pings(os[1..])
  }

  function TimerFires(labels: seq<Label>): nat {
    if labels == [] then 0 else (if labels[0].PingTimer? then 1 else 0) + TimerFires(labels[1..])
  }

  lemma {:induction false} PingsOfOne(os: seq<Output>, o: Output)
    ensures Pings(os + [o]) == Pings(os) + if o.Ping? then 1 else 0
  {
    if os != [] {
      assert (os + [o])[1..] == os[1..] + [o];
      PingsOfOne(os[1..], o);
    }
  }

  lemma HandlerPings(s: State, l: Label, t: State)
    requires NextHandler(s, l) == Some(t)
    ensures (t.written == s.written && !l.PingTimer?) || exists o: Output :: t.written == s.written + [o] && (o.Ping? <==> l.PingTimer?)
  {
    if t.written != s.written {
      assert t.written == s.written + [t.written[|s.written|]];
    }
  }

  /** A comment is printed for every firing of the timer and for nothing else. */
  lemma {:induction false} PingsAreTimed(src: Source, s: State, labels: seq<Label>, v: State)
    requires Run(src, s, labels) == Some(v)
    ensures Pings(v.written) == Pings(s.written) + TimerFires(labels)
    decreases |labels|
  {
    if labels != [] {
      var t := Next(src, s, labels[0]).value;
      PingStep(src, s, labels[0], t);
      PingsAreTimed(src, t, labels[1..], v);
    }
  }

  lemma PingStep(src: Source, s: State, l: Label, t: State)
    requires Next(src, s, l) == Some(t)
    ensures Pings(t.written) == Pings(s.written) + if l.PingTimer? then 1 else 0
  {
    match l
    case ProducerStep(ok, msg) => ProducerSideFrame(s, ok, msg, t);
    case StdoutWrite => CopierFrame(src, s, t);
    case StderrRecord => CopierFrame(src, s, t);
    case StderrWrite => CopierFrame(src, s, t);
    case Disconnect =>
    case _ =>
      HandlerPings(s, l, t);
      if t.written != s.written || l.PingTimer? {
        var o :| t.written == s.written + [o] && (o.Ping? <==> l.PingTimer?);
        PingsOfOne(s.written, o);
      }
  }

  // ---- what the stream does not promise ----

  lemma {:induction false} RunOfConcat(src: Source, s: State, labels: seq<Label>, l: Label)
    requires Run(src, s, labels).Some?
    ensures Run(src, s, labels + [l]) == Next(src, Run(src, s, labels).value, l)
    decreases |labels|
  {
    if labels == [] {
      assert labels + [l] == [l];
    } else {
      assert (labels + [l])[1..] == labels[1..] + [l];
      RunOfConcat(src, Next(src, s, labels[0]).value, labels[1..], l);
    }
  }

  lemma Go(src: Source, s: State, l: Label) returns (t: State)
    requires Reachable(src, s) && Next(src, s, l).Some?
    ensures Reachable(src, t) && t == Next(src, s, l).value
  {
    var labels :| Run(src, Init, labels) == Some(s);
    RunOfConcat(src, Init, labels, l);
    t := Next(src, s, l).value;
    assert Run(src, Init, labels + [l]) == Some(t);
  }

  /** The select may take `doneCh` first, and then the error of a failed dial never reaches the client. */
  lemma ErrorMayBeLost(src: Source, msg: string) returns (s: State)
    ensures Reachable(src, s) && s.handler.Ended? && s.errSent == ["dial ssh error " + msg] && s.written == [Done]
  {
    assert Run(src, Init, []) == Some(Init);
    s := Go(src, Init, ProducerStep(true, ""));
    s := Go(src, s, ProducerStep(false, msg));
    s := Go(src, s, ProducerStep(true, ""));
    s := Go(src, s, ProducerStep(true, ""));
    s := Go(src, s, TakeDone);
    s := Go(src, s, RunDeferred);
  }
}
