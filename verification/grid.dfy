/** The span bookkeeping of the timeline grid (`grid::Grid` in
    src/timeline.rs): a name-to-channel table, a FIFO list of open bars, a
    store of closed bars keyed by their `[start, end)` interval, and the
    running minimum and maximum timestamp. The floating-point viewport
    (zoom, pan, auto-fit) and the render caches are not part of this model. */
module Grid {
  import opened Wrappers
  import opened Seqs
  import opened Api

  /** A task execution span; `endNs` is `None` while the bar is open. */
  datatype Bar = Bar(startNs: nat, endNs: Option<nat>, isr: string, channel: nat)

  /** One entry of the interval tree: the key `[start, end)` and its bar. */
  datatype Interval = Interval(start: nat, end: nat, bar: Bar)

  datatype Grid = Grid(
    bars: multiset<Interval>,
    startedBars: seq<Bar>,
    channelMap: seq<string>,
    min: nat,
    max: nat)

  /** The state invariant the bookkeeping keeps. */
  ghost predicate Wf(g: Grid) {
    // `min` starts at 0 and only ever takes minima with it
    && g.min == 0
    // every name has exactly one channel
    && (forall i, j :: 0 <= i < j < |g.channelMap| ==> g.channelMap[i] != g.channelMap[j])
    // open bars are open, sit on their name's channel, and started no later than `max`
    && (forall k :: 0 <= k < |g.startedBars| ==> OpenOnChannel(g.startedBars[k], g.channelMap, g.max))
    // the store holds only closed, non-empty intervals ending no later than `max`
    && (forall e :: e in g.bars ==> ClosedOnChannel(e, g.channelMap, g.max))
  }

  ghost predicate OpenOnChannel(b: Bar, channelMap: seq<string>, max: nat) {
    && b.endNs == None
    && b.channel < |channelMap|
    && channelMap[b.channel] == b.isr
    && b.startNs <= max
  }

  ghost predicate ClosedOnChannel(e: Interval, channelMap: seq<string>, max: nat) {
    && e.start < e.end
    && e.bar.startNs == e.start
    && e.bar.endNs == Some(e.end)
    && e.end <= max
    && e.bar.channel < |channelMap|
    && channelMap[e.bar.channel] == e.bar.isr
  }

  /** A freshly constructed grid (`Grid::new`, whose `set_bars` installs an
      empty interval tree). */
  function New(): (g: Grid)
    ensures Wf(g)
    ensures g.bars == multiset{} && g.startedBars == [] && g.channelMap == []
    ensures g.min == 0 && g.max == 0
  {
    Grid(multiset{}, [], [], 0, 0)
  }

  /** The channel of `name`: its existing index, or a new one appended at
      the end of the table. */
  function Resolve(channelMap: seq<string>, name: string): (r: (nat, seq<string>))
    ensures name in channelMap ==> r.1 == channelMap
    ensures name !in channelMap ==> r.1 == channelMap + [name] && r.0 == |channelMap|
    ensures r.0 < |r.1| && r.1[r.0] == name
    ensures forall j :: 0 <= j < r.0 ==> r.1[j] != name
  {
    match Find(channelMap, c => c == name)
    case Some(index) => (index, channelMap)
    case None => (|channelMap|, channelMap + [name])
  }

  /** Whether the open bar `b` is closed by an exit of `name` at `timestamp`. */
  predicate Closes(b: Bar, name: string, timestamp: nat) {
    b.startNs < timestamp && b.isr == name
  }

  /** Whether `k` is the lowest index of an open bar closed by that exit. */
  predicate FirstToClose(open: seq<Bar>, k: int, name: string, timestamp: nat) {
    && 0 <= k < |open|
    && Closes(open[k], name, timestamp)
    && forall j :: 0 <= j < k ==> !Closes(open[j], name, timestamp)
  }

  /** The store entry for `b` closed at `timestamp`. */
  function Close(b: Bar, timestamp: nat): (e: Interval)
    requires b.startNs < timestamp
    ensures e.start < e.end && e.bar.endNs == Some(e.end)
    ensures e.bar.(endNs := b.endNs) == b && e.start == b.startNs && e.end == timestamp
  {
    Interval(b.startNs, timestamp, b.(endNs := Some(timestamp)))
  }

  /** The `Entered` arm: open a bar on the name's channel at the end of the
      FIFO. */
  function Enter(g: Grid, timestamp: nat, name: string): (r: Grid)
    ensures r.bars == g.bars && r.min == g.min && r.max == g.max
    ensures name in g.channelMap ==> r.channelMap == g.channelMap
    ensures name !in g.channelMap ==> r.channelMap == g.channelMap + [name]
    ensures |r.startedBars| == |g.startedBars| + 1
    ensures r.startedBars[..|g.startedBars|] == g.startedBars
    ensures var b := r.startedBars[|g.startedBars|];
      && b.startNs == timestamp && b.endNs == None && b.isr == name
      && b.channel < |r.channelMap| && r.channelMap[b.channel] == name
      && forall j :: 0 <= j < b.channel ==> r.channelMap[j] != name
  {
    var (channel, channelMap) := Resolve(g.channelMap, name);
    var r := g.(channelMap := channelMap, startedBars := g.startedBars + [Bar(timestamp, None, name, channel)]);
    assert r.startedBars[..|g.startedBars|] == g.startedBars;
    r
  }

  /** The `Exited` arm: the oldest open bar of `name` that started strictly
      before `timestamp` is taken out of the FIFO and stored closed; with no
      such bar nothing changes. */
  function Exit(g: Grid, timestamp: nat, name: string): (r: Grid)
    ensures r.channelMap == g.channelMap && r.min == g.min && r.max == g.max
    ensures (forall k :: 0 <= k < |g.startedBars| ==> !Closes(g.startedBars[k], name, timestamp))
      ==> r == g
    ensures forall k | FirstToClose(g.startedBars, k, name, timestamp) ::
      && r.startedBars == g.startedBars[..k] + g.startedBars[k + 1..]
      && r.bars == g.bars + multiset{Close(g.startedBars[k], timestamp)}
  {
    match Find(g.startedBars, b => Closes(b, name, timestamp))
    case None => g
    case Some(found) =>
      var bar := g.startedBars[found];
      g.(startedBars := RemoveAt(g.startedBars, found),
         bars := g.bars + multiset{Close(bar, timestamp)})
  }

  /** Whether `event` is one of the two task actions that touch the span
      state; every other event only moves `min`/`max`. */
  predicate MovesSpans(event: EventType) {
    event.Task? && (event.action.Entered? || event.action.Exited?)
  }

  /** `Grid::add_event`: fold `timestamp` into `min`/`max`, then apply the
      event. */
  function AddEvent(g: Grid, timestamp: nat, event: EventType): (r: Grid)
    ensures r.max >= g.max && r.max >= timestamp && (r.max == g.max || r.max == timestamp)
    ensures r.min <= g.min && r.min <= timestamp && (r.min == g.min || r.min == timestamp)
    ensures !MovesSpans(event) ==> r == g.(min := r.min, max := r.max)
    ensures |g.channelMap| <= |r.channelMap| && r.channelMap[..|g.channelMap|] == g.channelMap
    ensures |r.startedBars| + |r.bars|
         == |g.startedBars| + |g.bars| + (if event.Task? && event.action.Entered? then 1 else 0)
  {
    var g1 := g.(max := if timestamp > g.max then timestamp else g.max,
                 min := if timestamp < g.min then timestamp else g.min);
    match event
    case Task(name, Entered) => Enter(g1, timestamp, name)
    case Task(name, Exited) => Exit(g1, timestamp, name)
    case _ => g1
  }

  /** Widening the observed range to `max` keeps every bar within it. */
  lemma {:induction false} WidenPreservesWf(g: Grid, max: nat)
    requires Wf(g) && g.max <= max
    ensures Wf(g.(max := max))
  {
    forall k | 0 <= k < |g.startedBars|
      ensures OpenOnChannel(g.startedBars[k], g.channelMap, max)
    {
      assert OpenOnChannel(g.startedBars[k], g.channelMap, g.max);
    }
    forall e | e in g.bars
      ensures ClosedOnChannel(e, g.channelMap, max)
    {
      assert ClosedOnChannel(e, g.channelMap, g.max);
    }
  }

  lemma {:induction false} EnterPreservesWf(g: Grid, timestamp: nat, name: string)
    requires Wf(g) && timestamp <= g.max
    ensures Wf(Enter(g, timestamp, name))
  {
    var r := Enter(g, timestamp, name);
    var n := |g.startedBars|;
    forall k | 0 <= k < |r.startedBars|
      ensures OpenOnChannel(r.startedBars[k], r.channelMap, r.max)
    {
      if k < n {
        assert r.startedBars[k] == r.startedBars[..n][k];
        assert OpenOnChannel(g.startedBars[k], g.channelMap, g.max);
      }
    }
    forall e | e in r.bars
      ensures ClosedOnChannel(e, r.channelMap, r.max)
    {
      assert ClosedOnChannel(e, g.channelMap, g.max);
    }
  }

  lemma {:induction false} ExitPreservesWf(g: Grid, timestamp: nat, name: string)
    requires Wf(g) && timestamp <= g.max
    ensures Wf(Exit(g, timestamp, name))
  {
    var r := Exit(g, timestamp, name);
    var found := Find(g.startedBars, b => Closes(b, name, timestamp));
    if found.Some? {
      var bar := g.startedBars[found.value];
      assert OpenOnChannel(bar, g.channelMap, g.max);
      assert r.startedBars == RemoveAt(g.startedBars, found.value);
      forall k | 0 <= k < |r.startedBars|
        ensures OpenOnChannel(r.startedBars[k], r.channelMap, r.max)
      {
        if k < found.value {
          assert OpenOnChannel(g.startedBars[k], g.channelMap, g.max);
        } else {
          assert OpenOnChannel(g.startedBars[k + 1], g.channelMap, g.max);
        }
      }
      forall e | e in r.bars
        ensures ClosedOnChannel(e, r.channelMap, r.max)
      {
        if e != Close(bar, timestamp) {
          assert e in g.bars;
        }
      }
    }
  }

  lemma {:induction false} AddEventPreservesWf(g: Grid, timestamp: nat, event: EventType)
    requires Wf(g)
    ensures Wf(AddEvent(g, timestamp, event))
  {
    var r := AddEvent(g, timestamp, event);
    var g1 := g.(max := r.max, min := r.min);
    WidenPreservesWf(g, r.max);
    assert g1 == g.(max := r.max);
    match event {
      case Task(name, Entered) => EnterPreservesWf(g1, timestamp, name);
      case Task(name, Exited) => ExitPreservesWf(g1, timestamp, name);
      case _ =>
    }
  }

  /** `Grid::reset_state` (through `set_bars`): only the store of closed bars
      is emptied; the channel table, the open bars and the observed range
      survive. */
  function ResetState(g: Grid): (r: Grid)
    ensures r.bars == multiset{}
    ensures r.startedBars == g.startedBars && r.channelMap == g.channelMap
    ensures r.min == g.min && r.max == g.max
    ensures Wf(g) ==> Wf(r)
  {
    g.(bars := multiset{})
  }

  /** Two tasks of the same name entered at 10 and 20: an exit at 30 closes
      the one entered at 10 (oldest first), and the later one stays open. */
  lemma {:induction false} FifoExitMatching()
    ensures var g := AddEvent(AddEvent(New(), 10, Task("A", Entered)), 20, Task("A", Entered));
      var r := AddEvent(g, 30, Task("A", Exited));
      && r.bars == multiset{Interval(10, 30, Bar(10, Some(30), "A", 0))}
      && r.startedBars == [Bar(20, None, "A", 0)]
  {
    var g1 := AddEvent(New(), 10, Task("A", Entered));
    assert g1.startedBars == [Bar(10, None, "A", 0)];
    var g2 := AddEvent(g1, 20, Task("A", Entered));
    assert g2.startedBars == [Bar(10, None, "A", 0), Bar(20, None, "A", 0)];
    assert Closes(g2.startedBars[0], "A", 30);
  }

  /** An exit whose name was never entered is dropped, and so is one whose
      only candidate started at the exit's own timestamp. */
  lemma {:induction false} UnmatchedExitIsDropped()
    ensures var g := AddEvent(New(), 7, Task("A", Entered));
      && AddEvent(g, 9, Task("B", Exited)) == g.(max := 9)
      && AddEvent(g, 7, Task("A", Exited)) == g
  {
    var g := AddEvent(New(), 7, Task("A", Entered));
    assert g.startedBars == [Bar(7, None, "A", 0)];
    assert !Closes(g.startedBars[0], "B", 9);
    assert !Closes(g.startedBars[0], "A", 7);
  }
}
