/** The application's update loop (`Timeline::update` in src/timeline.rs)
    as far as it touches the span model: every event of a received chunk is
    added to the grid, in order, with the chunk's single timestamp; a reset
    empties the store of closed bars; every other message only changes what
    is displayed (status text, grid lines), which is not modelled. */
module Timeline {
  import opened Wrappers
  import opened Api
  import opened G = Grid
  import ES = EventStream

  datatype Message = ToggleGrid(enabled: bool) | Progress(progress: ES.Progress) | Reset

  /** The `Progress::Event` arm: add a chunk's events one after another. */
  function ApplyEvents(g: Grid, timestamp: nat, events: seq<EventType>): (r: Grid)
    ensures |g.channelMap| <= |r.channelMap| && r.channelMap[..|g.channelMap|] == g.channelMap
    ensures r.max >= g.max && (r.max == g.max || r.max == timestamp)
    ensures |events| > 0 ==> r.max >= timestamp
    ensures |events| == 0 ==> r == g
    ensures r.min <= g.min
    ensures (forall i :: 0 <= i < |events| ==> !MovesSpans(events[i]))
      ==> r == g.(min := r.min, max := r.max)
    decreases |events|
  {
    if |events| == 0 then g
    else ApplyEvents(AddEvent(g, timestamp, events[0]), timestamp, events[1..])
  }

  /** Applying a chunk's events in two parts is applying them all. */
  lemma {:induction false} ApplyEventsAppend(g: Grid, timestamp: nat, a: seq<EventType>, b: seq<EventType>)
    ensures ApplyEvents(g, timestamp, a + b) == ApplyEvents(ApplyEvents(g, timestamp, a), timestamp, b)
    decreases |a|
  {
    if |a| == 0 {
      assert a + b == b;
    } else {
      assert (a + b)[0] == a[0];
      assert (a + b)[1..] == a[1..] + b;
      ApplyEventsAppend(AddEvent(g, timestamp, a[0]), timestamp, a[1..], b);
    }
  }

  lemma {:induction false} ApplyEventsPreservesWf(g: Grid, timestamp: nat, events: seq<EventType>)
    requires Wf(g)
    ensures Wf(ApplyEvents(g, timestamp, events))
    decreases |events|
  {
    if |events| > 0 {
      AddEventPreservesWf(g, timestamp, events[0]);
      ApplyEventsPreservesWf(AddEvent(g, timestamp, events[0]), timestamp, events[1..]);
    }
  }

  /** `Timeline::update` restricted to the span model. */
  function Update(g: Grid, m: Message): (r: Grid)
    ensures m.ToggleGrid? || (m.Progress? && !m.progress.Event?) ==> r == g
    ensures m.Reset? ==> r.bars == multiset{} && r.(bars := g.bars) == g
    ensures m.Progress? && m.progress.Event?
      ==> r == ApplyEvents(g, m.progress.chunk.timestamp, m.progress.chunk.events)
    ensures |g.channelMap| <= |r.channelMap| && r.channelMap[..|g.channelMap|] == g.channelMap
    ensures r.max >= g.max && r.min <= g.min
  {
    match m
    case ToggleGrid(_) => g
    case Reset => ResetState(g)
    case Progress(p) =>
      if p.Event? then ApplyEvents(g, p.chunk.timestamp, p.chunk.events) else g
  }

  /** A sequence of messages, handled in order (iced calls `update` once per
      message, in delivery order). */
  function UpdateAll(g: Grid, ms: seq<Message>): (r: Grid)
    ensures |g.channelMap| <= |r.channelMap| && r.channelMap[..|g.channelMap|] == g.channelMap
    ensures r.max >= g.max && r.min <= g.min
    decreases |ms|
  {
    if |ms| == 0 then g else UpdateAll(Update(g, ms[0]), ms[1..])
  }

  /** Handling `a ++ b` is handling `a`, then `b`. */
  lemma {:induction false} UpdateAllAppend(g: Grid, a: seq<Message>, b: seq<Message>)
    ensures UpdateAll(g, a + b) == UpdateAll(UpdateAll(g, a), b)
    decreases |a|
  {
    if |a| == 0 {
      assert a + b == b;
    } else {
      assert (a + b)[0] == a[0];
      assert (a + b)[1..] == a[1..] + b;
      UpdateAllAppend(Update(g, a[0]), a[1..], b);
    }
  }

  /** The stream's items as the messages the subscription delivers
      (`map(Message::Progress)`). */
  function AsMessages(items: seq<ES.Progress>): (ms: seq<Message>)
    ensures |ms| == |items| && forall i :: 0 <= i < |items| ==> ms[i] == Progress(items[i])
  {
    seq(|items|, i requires 0 <= i < |items| => Progress(items[i]))
  }

  /** Feed the items of an event stream to the timeline: the subscription
      wraps each item in `Message::Progress`, and the update loop handles
      the messages in order. */
  function Feed(g: Grid, items: seq<ES.Progress>): (r: Grid)
    ensures |g.channelMap| <= |r.channelMap| && r.channelMap[..|g.channelMap|] == g.channelMap
    ensures r.max >= g.max
  {
    UpdateAll(g, AsMessages(items))
  }

  /** The first item is handled before the rest. */
  lemma {:induction false} FeedCons(g: Grid, items: seq<ES.Progress>)
    requires |items| > 0
    ensures Feed(g, items) == Feed(Update(g, Progress(items[0])), items[1..])
  {
    assert AsMessages(items)[1..] == AsMessages(items[1..]);
  }

  lemma {:induction false} UpdateAllPreservesWf(g: Grid, ms: seq<Message>)
    requires Wf(g)
    ensures Wf(UpdateAll(g, ms))
    decreases |ms|
  {
    if |ms| > 0 {
      var m := ms[0];
      if m.Progress? && m.progress.Event? {
        ApplyEventsPreservesWf(g, m.progress.chunk.timestamp, m.progress.chunk.events);
      }
      UpdateAllPreservesWf(Update(g, m), ms[1..]);
    }
  }

  /** Whether message `m` hands the grid at least one event at `timestamp`. */
  predicate Delivers(m: Message, timestamp: nat) {
    m.Progress? && m.progress.Event? && m.progress.chunk.timestamp == timestamp
      && |m.progress.chunk.events| > 0
  }

  /** `max` never falls and covers every timestamp delivered with at least
      one event, even across resets. */
  lemma {:induction false} MaxCoversDelivered(g: Grid, ms: seq<Message>)
    ensures var r := UpdateAll(g, ms);
      forall i, t: nat :: 0 <= i < |ms| && Delivers(ms[i], t) ==> t <= r.max
    decreases |ms|
  {
    if |ms| > 0 {
      var g1 := Update(g, ms[0]);
      MaxCoversDelivered(g1, ms[1..]);
      var r := UpdateAll(g, ms);
      forall i, t: nat | 0 <= i < |ms| && Delivers(ms[i], t)
        ensures t <= r.max
      {
        if i > 0 {
          assert ms[1..][i - 1] == ms[i];
        }
      }
    }
  }

  /** A name keeps the channel it was first given for the rest of the
      session, whatever is received or reset afterwards. */
  lemma {:induction false} ChannelIndexStable(g: Grid, ms: seq<Message>, name: string, k: nat)
    requires k < |g.channelMap| && g.channelMap[k] == name
    ensures var r := UpdateAll(g, ms); k < |r.channelMap| && r.channelMap[k] == name
  {
    var r := UpdateAll(g, ms);
    assert r.channelMap[..|g.channelMap|][k] == r.channelMap[k];
  }

  /** Channel order is first-seen order, so a name that is not yet known
      and is entered gets the next index. */
  lemma {:induction false} NewNameGetsNextChannel(g: Grid, timestamp: nat, name: string)
    requires Wf(g) && name !in g.channelMap
    ensures var r := AddEvent(g, timestamp, Task(name, Entered));
      && r.channelMap == g.channelMap + [name]
      && r.startedBars[|g.startedBars|].channel == |g.channelMap|
  {
  }

  /** The running part of the end-to-end scenario below: the first chunk
      completes the first line, the second chunk the second. */
  lemma {:induction false} ScenarioRunning(w2: ES.World, w3: ES.World, parse: ES.Parser, enteredLine: string, exitedLine: string,
                        c1: EventChunk, c2: EventChunk)
    requires w2.read == ES.Data(enteredLine + "\n" + exitedLine) && w3.read == ES.Data("\n")
    requires '\n' !in enteredLine && '\n' !in exitedLine
    requires parse(enteredLine) == Ok(c1) && parse(exitedLine) == Ok(c2)
    ensures var t := ES.Run(ES.Running(""), [w2, w3], parse);
      t.items == [ES.Event(c1), ES.Event(c2)] && t.final == ES.Running("")
  {
    assert "" + w2.read.text == enteredLine + "\n" + exitedLine;
    assert exitedLine + w3.read.text == exitedLine + "\n" + "";
    ES.ReceiveLine("", w2.read.text, parse, enteredLine, exitedLine);
    ES.ReceiveLine(exitedLine, w3.read.text, parse, exitedLine, "");
    var s3 := ES.Running(exitedLine);
    var ws := [w2, w3];
    ES.RunStep(ES.Running(""), ws, parse, ES.Event(c1), s3);
    ES.RunStep(s3, ws[1..], parse, ES.Event(c2), ES.Running(""));
  }

  /** The items the stream yields in the end-to-end scenario below. */
  lemma {:induction false} ScenarioItems(w: ES.World, parse: ES.Parser, enteredLine: string, exitedLine: string,
                      c1: EventChunk, c2: EventChunk)
    requires w.tempDir.Ok? && w.bind.Ok? && w.accept.Ok?
    requires '\n' !in enteredLine && '\n' !in exitedLine
    requires parse(enteredLine) == Ok(c1) && parse(exitedLine) == Ok(c2)
    ensures var t := ES.Run(ES.Initializing,
        [w, w, w.(read := ES.Data(enteredLine + "\n" + exitedLine)), w.(read := ES.Data("\n"))], parse);
      t.items == [ES.Initialized, ES.Connected(w.accept.value)] + [ES.Event(c1), ES.Event(c2)]
      && t.final == ES.Running("")
  {
    var w2, w3 := w.(read := ES.Data(enteredLine + "\n" + exitedLine)), w.(read := ES.Data("\n"));
    ScenarioRunning(w2, w3, parse, enteredLine, exitedLine, c1, c2);
    var ws := [w, w, w2, w3];
    ES.SetupThenRun(ws, parse);
    assert ws[2..] == [w2, w3];
  }

  /** Entering `ISR1` at 5 on a fresh grid. */
  lemma {:induction false} ScenarioEnter()
    ensures AddEvent(New(), 5, Task("ISR1", Entered))
         == G.Grid(multiset{}, [Bar(5, None, "ISR1", 0)], ["ISR1"], 0, 5)
  {
    var r := AddEvent(New(), 5, Task("ISR1", Entered));
    assert r.startedBars == [] + [r.startedBars[0]];
  }

  /** Exiting `ISR1` at 15 after that. */
  lemma {:induction false} ScenarioExit()
    ensures AddEvent(G.Grid(multiset{}, [Bar(5, None, "ISR1", 0)], ["ISR1"], 0, 5), 15, Task("ISR1", Exited))
         == G.Grid(multiset{Interval(5, 15, Bar(5, Some(15), "ISR1", 0))}, [], ["ISR1"], 0, 15)
  {
    var g := G.Grid(multiset{}, [Bar(5, None, "ISR1", 0)], ["ISR1"], 0, 5);
    assert FirstToClose(g.startedBars, 0, "ISR1", 15);
  }

  /** A chunk of one event applies that event. */
  lemma {:induction false} ApplySingle(g: Grid, timestamp: nat, e: EventType)
    ensures ApplyEvents(g, timestamp, [e]) == AddEvent(g, timestamp, e)
  {
    assert [e][1..] == [];
  }

  /** The grid the scenario's two chunks produce. */
  lemma {:induction false} ScenarioGrid(a: ES.Address)
    ensures var g := Feed(New(), [ES.Initialized, ES.Connected(a)]
        + [ES.Event(EventChunk(5, [Task("ISR1", Entered)])), ES.Event(EventChunk(15, [Task("ISR1", Exited)]))]);
      && g.bars == multiset{Interval(5, 15, Bar(5, Some(15), "ISR1", 0))}
      && g.startedBars == []
      && g.channelMap == ["ISR1"]
  {
    var g1 := G.Grid(multiset{}, [Bar(5, None, "ISR1", 0)], ["ISR1"], 0, 5);
    var g2 := G.Grid(multiset{Interval(5, 15, Bar(5, Some(15), "ISR1", 0))}, [], ["ISR1"], 0, 15);
    var c1, c2 := EventChunk(5, [Task("ISR1", Entered)]), EventChunk(15, [Task("ISR1", Exited)]);
    ScenarioEnter();
    ScenarioExit();
    ApplySingle(New(), 5, Task("ISR1", Entered));
    ApplySingle(g1, 15, Task("ISR1", Exited));
    var items := [ES.Initialized, ES.Connected(a)] + [ES.Event(c1), ES.Event(c2)];
    FeedCons(New(), items);
    FeedCons(New(), items[1..]);
    FeedCons(New(), items[1..][1..]);
    FeedCons(g1, items[1..][1..][1..]);
  }

  /** End to end: set-up, connection, and two lines (one entering `ISR1` at
      5, one exiting it at 15) arriving over two chunks, the second line's
      newline in the second chunk, leave exactly one closed bar from 5 to 15
      on channel 0 and nothing open. */
  lemma {:induction false} EndToEnd(w: ES.World, parse: ES.Parser, enteredLine: string, exitedLine: string)
    requires w.tempDir.Ok? && w.bind.Ok? && w.accept.Ok?
    requires '\n' !in enteredLine && '\n' !in exitedLine
    requires parse(enteredLine) == Ok(EventChunk(5, [Task("ISR1", Entered)]))
    requires parse(exitedLine) == Ok(EventChunk(15, [Task("ISR1", Exited)]))
    ensures var t := ES.Run(ES.Initializing,
        [w, w, w.(read := ES.Data(enteredLine + "\n" + exitedLine)), w.(read := ES.Data("\n"))], parse);
      var g := Feed(New(), t.items);
      && g.bars == multiset{Interval(5, 15, Bar(5, Some(15), "ISR1", 0))}
      && g.startedBars == []
      && g.channelMap == ["ISR1"]
  {
    ScenarioItems(w, parse, enteredLine, exitedLine,
      EventChunk(5, [Task("ISR1", Entered)]), EventChunk(15, [Task("ISR1", Exited)]));
    ScenarioGrid(w.accept.value);
  }

  /** The connection's side of the one-chunk delivery below: both lines
      arrive in one chunk, then the input ends. Only the first line is
      parsed; the second is still buffered when the stream ends. */
  lemma {:induction false} OneChunkRunning(w2: ES.World, w3: ES.World, parse: ES.Parser,
                        enteredLine: string, exitedLine: string, c1: EventChunk)
    requires w2.read == ES.Data(enteredLine + "\n" + exitedLine + "\n") && w3.read == ES.End
    requires '\n' !in enteredLine
    requires parse(enteredLine) == Ok(c1)
    ensures var t := ES.Run(ES.Running(""), [w2, w3], parse);
      t.items == [ES.Event(c1)] && t.ended && t.final == ES.Running(exitedLine + "\n")
  {
    assert "" + w2.read.text == enteredLine + "\n" + (exitedLine + "\n");
    ES.ReceiveLine("", w2.read.text, parse, enteredLine, exitedLine + "\n");
    var ws := [w2, w3];
    ES.RunStep(ES.Running(""), ws, parse, ES.Event(c1), ES.Running(exitedLine + "\n"));
    assert ws[1..] == [w3];
  }

  /** The grid after set-up, connection and only the entering event. */
  lemma {:induction false} OneChunkGrid(a: ES.Address)
    ensures var g := Feed(New(), [ES.Initialized, ES.Connected(a)]
        + [ES.Event(EventChunk(5, [Task("ISR1", Entered)]))]);
      && g.bars == multiset{}
      && g.startedBars == [Bar(5, None, "ISR1", 0)]
      && g.channelMap == ["ISR1"]
  {
    var c1 := EventChunk(5, [Task("ISR1", Entered)]);
    ScenarioEnter();
    ApplySingle(New(), 5, Task("ISR1", Entered));
    var items := [ES.Initialized, ES.Connected(a)] + [ES.Event(c1)];
    FeedCons(New(), items);
    FeedCons(New(), items[1..]);
    FeedCons(New(), items[1..][1..]);
  }

  /** The counterpart of `EndToEnd`: the same text delivered as one chunk
      followed by end of input leaves `ISR1` open and nothing stored,
      because a chunk hands at most one line to the parser and end of input
      ends the stream with the exit line still buffered. */
  lemma {:induction false} OneChunkLeavesOpen(w: ES.World, parse: ES.Parser, enteredLine: string, exitedLine: string)
    requires w.tempDir.Ok? && w.bind.Ok? && w.accept.Ok?
    requires '\n' !in enteredLine && '\n' !in exitedLine
    requires parse(enteredLine) == Ok(EventChunk(5, [Task("ISR1", Entered)]))
    requires parse(exitedLine) == Ok(EventChunk(15, [Task("ISR1", Exited)]))
    ensures var t := ES.Run(ES.Initializing,
        [w, w, w.(read := ES.Data(enteredLine + "\n" + exitedLine + "\n")), w.(read := ES.End)], parse);
      var g := Feed(New(), t.items);
      && t.ended
      && g.bars == multiset{}
      && g.startedBars == [Bar(5, None, "ISR1", 0)]
  {
    var w2, w3 := w.(read := ES.Data(enteredLine + "\n" + exitedLine + "\n")), w.(read := ES.End);
    OneChunkRunning(w2, w3, parse, enteredLine, exitedLine, EventChunk(5, [Task("ISR1", Entered)]));
    var ws := [w, w, w2, w3];
    ES.SetupThenRun(ws, parse);
    assert ws[2..] == [w2, w3];
    OneChunkGrid(w.accept.value);
  }
}
