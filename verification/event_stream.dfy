/** The ingestion side (`EventStream::stream` in src/event_stream.rs): an
    unfold over a four-state machine that sets up a local socket, accepts one
    connection, and then frames the inbound text on `'\n'`, yielding one
    `Progress` item per step or ending the stream.

    What the runtime would supply is passed in instead: the outcomes of the
    temporary-directory creation, the bind, the accept and the read that a
    step would perform (a `World`), and the JSON parser (`parse`). */
module EventStream {
  import W = Wrappers
  import Seqs
  import Api

  /** The peer's socket address, as far as the model cares. */
  type Address = string

  /** An operating-system error, reduced to its description. */
  datatype IoError = IoError(description: string)

  datatype Error =
    | TempDir(cause: IoError)
    | Io(cause: IoError)
    | Serialize(reason: string, line: string)

  datatype Progress =
    | Initialized
    | Connected(address: Address)
    | Event(chunk: Api.EventChunk)
    | Failure(error: Error)
    | None

  /** The unfold's state. The listener and the connection are owned by the
      runtime; the model keeps only the text buffer of `Running`. */
  datatype State = Initializing | Listening | Running(buffer: string) | Done

  /** What the next poll of the connection returns. */
  datatype Read = Data(text: string) | ReadFailed(cause: IoError) | End

  /** The outcomes the runtime would produce if asked at this step; a step
      consults only the ones its state needs. */
  datatype World = World(
    tempDir: W.Result<(), IoError>,
    bind: W.Result<(), IoError>,
    accept: W.Result<Address, IoError>,
    read: Read)

  type Parser = string -> W.Result<Api.EventChunk, string>

  /** States are visited in this order and never revisited. */
  function Rank(s: State): nat {
    match s
    case Initializing => 0
    case Listening => 1
    case Running(_) => 2
    case Done => 3
  }

  datatype Framed = Pending | Line(line: string, rest: string)

  /** Split `buffer` at its first newline: the line before it (without the
      newline) and everything after it. */
  function Frame(buffer: string): (r: Framed)
    ensures r.Pending? <==> '\n' !in buffer
    ensures r.Line? ==> buffer == r.line + "\n" + r.rest && '\n' !in r.line
  {
    match Seqs.Find(buffer, c => c == '\n')
    case None => Pending
    case Some(loc) =>
      assert buffer == buffer[..loc] + "\n" + buffer[loc + 1..];
      Line(buffer[..loc], buffer[loc + 1..])
  }

  /** A line always frames back out of the text it was written into. */
  lemma {:induction false} FrameLine(line: string, rest: string)
    requires '\n' !in line
    ensures Frame(line + "\n" + rest) == Line(line, rest)
  {
    var r := Frame(line + "\n" + rest);
    assert (line + "\n" + rest)[|line|] == '\n';
    assert r.Line?;
    assert r.line == (line + "\n" + rest)[..|line|];
    assert line == (line + "\n" + rest)[..|line|];
    assert r.rest == (line + "\n" + rest)[|line| + 1..];
    assert rest == (line + "\n" + rest)[|line| + 1..];
  }

  /** The `Initializing` arm: create the directory, bind the socket. */
  function Initialize(w: World): (r: (Progress, State))
    ensures w.tempDir.Err? ==> r == (Failure(TempDir(w.tempDir.error)), Done)
    ensures w.tempDir.Ok? && w.bind.Err? ==> r == (Failure(Io(w.bind.error)), Done)
    ensures w.tempDir.Ok? && w.bind.Ok? ==> r == (Initialized, Listening)
  {
    if w.tempDir.Err? then (Failure(TempDir(w.tempDir.error)), Done)
    else if w.bind.Err? then (Failure(Io(w.bind.error)), Done)
    else (Initialized, Listening)
  }

  /** The `Listening` arm: accept exactly one connection. */
  function Listen(w: World): (r: (Progress, State))
    ensures w.accept.Err? ==> r == (Failure(Io(w.accept.error)), Done)
    ensures w.accept.Ok? ==> r == (Connected(w.accept.value), Running(""))
  {
    match w.accept
    case Err(e) => (Failure(Io(e)), Done)
    case Ok(address) => (Connected(address), Running(""))
  }

  /** The `Running` arm: append the chunk to the buffer, then hand at most one
      complete line to the parser. The stream ends on end of input, whatever
      the buffer still holds. */
  function Receive(buffer: string, read: Read, parse: Parser): (r: W.Option<(Progress, State)>)
    ensures r.None? <==> read.End?
    ensures read.ReadFailed? ==> r == W.Some((Failure(Io(read.cause)), Done))
    ensures read.Data? && '\n' !in buffer + read.text
      ==> r == W.Some((None, Running(buffer + read.text)))
    ensures read.Data? && '\n' in buffer + read.text
      ==> r.Some? && (r.value.0.Event? || (r.value.0.Failure? && r.value.0.error.Serialize?))
  {
    match read
    case End => W.None
    case ReadFailed(e) => W.Some((Failure(Io(e)), Done))
    case Data(text) =>
      var buffer' := buffer + text;
      match Frame(buffer')
      case Pending => W.Some((None, Running(buffer')))
      case Line(line, rest) =>
        match parse(line)
        case Ok(chunk) => W.Some((Event(chunk), Running(rest)))
        case Err(reason) => W.Some((Failure(Serialize(reason, line)), Done))
  }

  /** When buffer and chunk hold a newline, the text before the first one
      goes to the parser: success yields its chunk and keeps the text after
      the newline; failure yields the parser's reason with the offending
      line and ends in `Done`. */
  lemma {:induction false} ReceiveLine(buffer: string, text: string, parse: Parser, line: string, rest: string)
    requires buffer + text == line + "\n" + rest && '\n' !in line
    ensures parse(line).Ok?
      ==> Receive(buffer, Data(text), parse) == W.Some((Event(parse(line).value), Running(rest)))
    ensures parse(line).Err?
      ==> Receive(buffer, Data(text), parse) == W.Some((Failure(Serialize(parse(line).error, line)), Done))
  {
    FrameLine(line, rest);
  }

  /** One poll of the stream: the next item and state, or `None` when the
      stream has ended. */
  function Step(s: State, w: World, parse: Parser): (r: W.Option<(Progress, State)>)
    ensures r.None? <==> s.Done? || (s.Running? && w.read.End?)
    ensures r.Some? ==> Rank(s) <= Rank(r.value.1)
    ensures r.Some? ==> (r.value.0.Failure? <==> r.value.1.Done?)
    ensures r.Some? && r.value.0.Event? ==> s.Running? && r.value.1.Running?
    ensures r.Some? && r.value.1.Running? && s.Running?
      ==> w.read.Data? && (r.value.0.None? || r.value.0.Event?)
  {
    match s
    case Initializing => W.Some(Initialize(w))
    case Listening => W.Some(Listen(w))
    case Running(buffer) => Receive(buffer, w.read, parse)
    case Done => W.None
  }

  /** The chunk text a step takes in (empty unless it read data in `Running`). */
  function Received(s: State, w: World): seq<string> {
    if s.Running? && w.read.Data? then [w.read.text] else []
  }

  /** The line a step hands to the parser, if any. */
  function Parsed(s: State, w: World): seq<string> {
    if s.Running? && w.read.Data? && Frame(s.buffer + w.read.text).Line?
    then [Frame(s.buffer + w.read.text).line]
    else []
  }

  /** What a sequence of polls observed: the items yielded, the last state,
      whether the stream ended, the chunk texts read in `Running` and the
      lines handed to the parser. */
  datatype Trace = Trace(
    items: seq<Progress>,
    final: State,
    ended: bool,
    received: seq<string>,
    lines: seq<string>)

  /** Poll the stream once per world in `worlds`, stopping when it ends. */
  function Run(s: State, worlds: seq<World>, parse: Parser): (t: Trace)
    ensures |t.items| <= |worlds|
    ensures Rank(s) <= Rank(t.final)
    ensures |t.lines| <= |t.received|
    ensures forall i :: 0 <= i < |t.lines| ==> '\n' !in t.lines[i]
    ensures s.Done? ==> t.items == [] && t.final == Done
    ensures !t.ended ==> |t.items| == |worlds|
    decreases |worlds|
  {
    if |worlds| == 0 then Trace([], s, false, [], [])
    else
      match Step(s, worlds[0], parse)
      case None => Trace([], s, true, [], [])
      case Some((item, next)) =>
        var t := Run(next, worlds[1..], parse);
        Trace([item] + t.items, t.final, t.ended,
              Received(s, worlds[0]) + t.received, Parsed(s, worlds[0]) + t.lines)
  }

  /** One unfolding of `Run` past a poll that did not end the stream. */
  lemma {:induction false} RunStep(s: State, worlds: seq<World>, parse: Parser, item: Progress, next: State)
    requires |worlds| > 0 && Step(s, worlds[0], parse) == W.Some((item, next))
    ensures var t' := Run(next, worlds[1..], parse);
      Run(s, worlds, parse)
        == Trace([item] + t'.items, t'.final, t'.ended,
                 Received(s, worlds[0]) + t'.received, Parsed(s, worlds[0]) + t'.lines)
  {
  }

  /** The buffered text of a state. */
  function Buffer(s: State): string {
    if s.Running? then s.buffer else ""
  }

  function Concat(texts: seq<string>): string {
    if |texts| == 0 then "" else texts[0] + Concat(texts[1..])
  }

  /** The lines, each followed by its newline. */
  function JoinLines(lines: seq<string>): string {
    if |lines| == 0 then "" else lines[0] + "\n" + JoinLines(lines[1..])
  }

  lemma {:induction false} ConcatAppend(a: seq<string>, b: seq<string>)
    ensures Concat(a + b) == Concat(a) + Concat(b)
    decreases |a|
  {
    if |a| > 0 {
      assert (a + b)[1..] == a[1..] + b;
      ConcatAppend(a[1..], b);
    } else {
      assert a + b == b;
    }
  }

  lemma {:induction false} JoinLinesAppend(a: seq<string>, b: seq<string>)
    ensures JoinLines(a + b) == JoinLines(a) + JoinLines(b)
    decreases |a|
  {
    if |a| > 0 {
      assert (a + b)[1..] == a[1..] + b;
      JoinLinesAppend(a[1..], b);
    } else {
      assert a + b == b;
    }
  }

  /** One poll that keeps the stream running moves the received text into
      the parsed lines and the buffer without loss. */
  lemma {:induction false} StepConserves(s: State, w: World, parse: Parser)
    requires Step(s, w, parse).Some? && !Step(s, w, parse).value.1.Done?
    ensures Buffer(s) + Concat(Received(s, w))
         == JoinLines(Parsed(s, w)) + Buffer(Step(s, w, parse).value.1)
  {
    var next := Step(s, w, parse).value.1;
    if s.Running? {
      var text := s.buffer + w.read.text;
      assert Concat(Received(s, w)) == w.read.text;
      match Frame(text)
      case Pending =>
      case Line(line, rest) =>
        assert next.buffer == rest;
        assert JoinLines(Parsed(s, w)) == line + "\n";
    }
  }

  lemma {:induction false} Regroup(a: string, r: string, c: string, p: string, b: string, l: string, f: string)
    requires a + r == p + b && b + c == l + f
    ensures a + (r + c) == (p + l) + f
  {
    calc {
      a + (r + c);
      (a + r) + c;
      (p + b) + c;
      p + (b + c);
      p + (l + f);
      (p + l) + f;
    }
  }

  /** Framing loses and invents nothing: while the stream is still running,
      the lines handed to the parser (each with its newline) followed by the
      buffer are exactly the text received. */
  lemma {:induction false} Conservation(s: State, worlds: seq<World>, parse: Parser)
    ensures var t := Run(s, worlds, parse);
      t.final.Running? ==> Buffer(s) + Concat(t.received) == JoinLines(t.lines) + t.final.buffer
    decreases |worlds|
  {
    var t := Run(s, worlds, parse);
    if |worlds| > 0 && Step(s, worlds[0], parse).Some? && t.final.Running? {
      var w := worlds[0];
      var next := Step(s, w, parse).value.1;
      var t' := Run(next, worlds[1..], parse);
      RunStep(s, worlds, parse, Step(s, w, parse).value.0, next);
      assert !next.Done?;
      Conservation(next, worlds[1..], parse);
      StepConserves(s, w, parse);
      ConcatAppend(Received(s, w), t'.received);
      JoinLinesAppend(Parsed(s, w), t'.lines);
      Regroup(Buffer(s), Concat(Received(s, w)), Concat(t'.received),
              JoinLines(Parsed(s, w)), Buffer(next), JoinLines(t'.lines), t.final.buffer);
    }
  }

  function CountEvents(items: seq<Progress>): nat {
    if |items| == 0 then 0 else (if items[0].Event? then 1 else 0) + CountEvents(items[1..])
  }

  /** A chunk yields at most one event, and every event comes from a line
      handed to the parser. */
  lemma {:induction false} AtMostOneEventPerChunk(s: State, worlds: seq<World>, parse: Parser)
    ensures var t := Run(s, worlds, parse);
      CountEvents(t.items) <= |t.lines| <= |t.received|
    decreases |worlds|
  {
    if |worlds| > 0 && Step(s, worlds[0], parse).Some? {
      var next := Step(s, worlds[0], parse).value.1;
      AtMostOneEventPerChunk(next, worlds[1..], parse);
      var item := Step(s, worlds[0], parse).value.0;
      assert item.Event? ==> |Parsed(s, worlds[0])| == 1;
    }
  }

  /** Errors are terminal: an error is the last item and leaves the stream
      `Done`; no later poll yields anything. */
  lemma {:induction false} FailureIsLast(s: State, worlds: seq<World>, parse: Parser)
    ensures var t := Run(s, worlds, parse);
      forall i :: 0 <= i < |t.items| && t.items[i].Failure? ==> i == |t.items| - 1 && t.final == Done
    decreases |worlds|
  {
    var t := Run(s, worlds, parse);
    if |worlds| > 0 && Step(s, worlds[0], parse).Some? {
      var item := Step(s, worlds[0], parse).value.0;
      var next := Step(s, worlds[0], parse).value.1;
      var t' := Run(next, worlds[1..], parse);
      FailureIsLast(next, worlds[1..], parse);
      RunStep(s, worlds, parse, item, next);
      forall i | 0 <= i < |t.items| && t.items[i].Failure?
        ensures i == |t.items| - 1 && t.final == Done
      {
        if i > 0 {
          assert t'.items[i - 1].Failure?;
          assert i - 1 == |t'.items| - 1 && t'.final == Done;
        } else {
          assert next == Done;
          assert t'.items == [] && t'.final == Done;
        }
      }
    }
  }

  /** The lifecycle a run from the start goes through: the first item reports
      the setup, and a second one (after a successful setup) the accept. */
  lemma {:induction false} Lifecycle(worlds: seq<World>, parse: Parser)
    ensures var t := Run(Initializing, worlds, parse);
      && (|t.items| > 0 ==> t.items[0] == Initialized || t.items[0].Failure?)
      && (|t.items| > 0 && t.items[0].Failure? ==> t.items[0].error.TempDir? || t.items[0].error.Io?)
      && (|t.items| > 1 ==> t.items[0] == Initialized && (t.items[1].Connected? || (t.items[1].Failure? && t.items[1].error.Io?)))
  {
    if |worlds| > 0 {
      var t := Run(Initializing, worlds, parse);
      var (item, next) := Initialize(worlds[0]);
      var t' := Run(next, worlds[1..], parse);
      assert t.items == [item] + t'.items;
      if |worlds| > 1 && next == Listening {
        var t'' := Run(Listen(worlds[1]).1, worlds[2..], parse);
        assert t'.items == [Listen(worlds[1]).0] + t''.items;
      }
    }
  }

  /** A successful set-up and accept come first; what follows is the run
      of the connection from an empty buffer. */
  lemma {:induction false} SetupThenRun(worlds: seq<World>, parse: Parser)
    requires |worlds| >= 2 && worlds[0].tempDir.Ok? && worlds[0].bind.Ok? && worlds[1].accept.Ok?
    ensures var t := Run(Initializing, worlds, parse);
      var t' := Run(Running(""), worlds[2..], parse);
      && t.items == [Initialized, Connected(worlds[1].accept.value)] + t'.items
      && t.final == t'.final && t.ended == t'.ended && t.received == t'.received && t.lines == t'.lines
  {
    RunStep(Initializing, worlds, parse, Initialized, Listening);
    RunStep(Listening, worlds[1..], parse, Connected(worlds[1].accept.value), Running(""));
    assert worlds[1..][1..] == worlds[2..];
  }

  /** End of input ends the stream even when complete lines are still
      buffered: they are never parsed. */
  lemma {:induction false} EndDropsBufferedLines(buffer: string, w: World, parse: Parser)
    requires w.read.End?
    ensures Step(Running(buffer), w, parse) == W.None
  {
  }

  /** Framing depends on where the chunks are cut. Two lines arriving in
      one chunk yield one event and the second line stays buffered ... */
  lemma {:induction false} OneChunkTwoLines(w: World, parse: Parser, a: Api.EventChunk)
    requires w.read == Data("a\nb\n") && parse("a") == W.Ok(a)
    ensures var one := Run(Running(""), [w], parse);
      one.items == [Event(a)] && one.final == Running("b\n")
  {
    ReceiveLine("", "a\nb\n", parse, "a", "b\n");
    RunStep(Running(""), [w], parse, Event(a), Running("b\n"));
  }

  /** ... while the same text cut into two chunks yields two events. */
  lemma {:induction false} TwoChunksTwoLines(w1: World, w2: World, parse: Parser, a: Api.EventChunk, b: Api.EventChunk)
    requires w1.read == Data("a\n") && w2.read == Data("b\n")
    requires parse("a") == W.Ok(a) && parse("b") == W.Ok(b)
    ensures var two := Run(Running(""), [w1, w2], parse);
      two.items == [Event(a), Event(b)] && two.final == Running("")
  {
    ReceiveLine("", "a\n", parse, "a", "");
    ReceiveLine("", "b\n", parse, "b", "");
    var ws := [w1, w2];
    RunStep(Running(""), ws, parse, Event(a), Running(""));
    RunStep(Running(""), ws[1..], parse, Event(b), Running(""));
  }
}
