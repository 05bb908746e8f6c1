# racer timeline: span bookkeeping and event-stream framing in Dafny

This project models the core of the rtic-scope `racer` frontend. The frontend
ingests a live stream of task entered/exited events and turns it into a
timeline of execution spans (bars), one lane (channel) per task name. The
model has two parts, both written as pure state-transition functions.

- **Span bookkeeping** (`Grid` module, from `grid::Grid` in src/timeline.rs).
  A grid holds four things: an append-only name-to-channel table, a FIFO list
  of open bars, a store of closed bars keyed by `[start, end)`, and the running
  `min`/`max` timestamp. The interval tree is modelled as a multiset of
  `Interval(start, end, bar)` entries. An exit closes the *oldest* open bar of
  its name that started strictly before the exit. The invariant `Wf` holds
  after every event: closed bars satisfy `start < end`, they carry
  `end_ns == Some(end)`, every bar sits on its name's channel, and `min` is 0.
- **Event stream** (`EventStream` module, from the `futures::stream::unfold`
  in src/event_stream.rs). The stream is a state machine
  `Initializing → Listening → Running* → Done`, and each poll yields one
  `Progress` item or ends the stream. In `Running`, each chunk is appended to a
  text buffer, and at most one complete line is cut off and handed to the
  parser. The I/O outcomes of a poll (temporary directory, bind, accept, read)
  come in as a `World` value. The JSON parser comes in as a function `parse`.
  A `Run` over a sequence of worlds records the items, the chunks received
  and the lines framed. The framing conservation law is proved over such runs.
- **Update loop** (`Timeline` module, from `Timeline::update`). Each event of
  a received chunk is added in order with the chunk's one timestamp. `Reset`
  empties the closed-bar store. All other messages leave the span model alone.

Modules: `Wrappers` (Option/Result), `Seqs` (first-match search, removal),
`Api` (the event records of the external `rtic_scope_api` crate), `Grid`,
`EventStream`, `Timeline`.

Behaviour of the code worth noting:
- A reset empties only the store of closed bars. It keeps the channel table
  and the open bars, and it keeps `min`/`max`.
- `min` starts at 0 and is only ever combined with `min`, so it stays 0. It
  never becomes the smallest timestamp seen.
- Framing depends on where chunks are cut. A chunk yields at most one line,
  and end of input ends the stream even when complete lines are still
  buffered. So one chunk holding two lines yields one event, while the same
  text in two chunks yields two (`OneChunkTwoLines`, `TwoChunksTwoLines`).
- Rust's `Progress::Error` is called `Progress.Failure` here. This keeps it
  apart from the `Error` type.

## Model

| member | source | states |
|---|---|---|
| Seqs.Find | src/timeline.rs:203-209 | The result is the lowest index whose element matches; `None` exactly when no element matches. |
| Seqs.RemoveAt | src/timeline.rs:211 | Removing index `i` keeps every other element in its relative order, and the removed element plus the rest is the same multiset. |
| Grid.New | src/timeline.rs:129-148 | A new grid has an empty store, no open bars, an empty channel table, `min == max == 0`, and satisfies the invariant. |
| Grid.Resolve | src/timeline.rs:187-194 | A known name keeps its first index and the table is unchanged. An unseen name is appended and gets index `len - 1`. The index returned is always the first position of the name. |
| Grid.Close | src/timeline.rs:212-213 | A closed bar is keyed `[start_ns, timestamp)` with `start < end`, and only its `end_ns` changes, to `Some(end)`. |
| Grid.Enter | src/timeline.rs:186-201 | Entered appends exactly one bar: start is the timestamp, end is `None`, `isr` is the name, channel is the name's first channel. Earlier open bars and the store are untouched. |
| Grid.Exit | src/timeline.rs:202-215 | Exited removes the lowest-index open bar with the same name and `start_ns < timestamp`. It adds that bar, closed, to the store, and the other open bars keep their order. With no such bar the grid is unchanged. |
| Grid.AddEvent | src/timeline.rs:178-240 | `max` grows to cover the timestamp and `min` never grows. Non-task events and Returned change only `min`/`max`. The channel table only grows at the end. open + closed bars grow by exactly one on Entered and otherwise stay the same. |
| Grid.WidenPreservesWf | src/timeline.rs:180 | Raising `max` keeps every open and closed bar within the observed range. |
| Grid.EnterPreservesWf | src/timeline.rs:186-201 | Entered keeps the invariant: channel names stay distinct, and every open bar is open and sits on its name's channel. |
| Grid.ExitPreservesWf | src/timeline.rs:202-215 | Exited keeps the invariant: every stored bar has `start < end` and `end_ns == Some(end)`, so the store never holds an open bar. |
| Grid.AddEventPreservesWf | src/timeline.rs:178-240 | Every event keeps the invariant, including `min == 0`. |
| Grid.ResetState | src/timeline.rs:263-269 | Reset empties the closed-bar store and keeps the channel table, the open bars, `min` and `max`. The invariant survives. |
| Grid.FifoExitMatching | src/timeline.rs:203-214 | With `A` entered at 10 and at 20, an exit of `A` at 30 closes the bar from 10 (oldest first), and the one from 20 stays open. |
| Grid.UnmatchedExitIsDropped | src/timeline.rs:205-210 | An exit of an unknown name, or one at the candidate's own start time, changes nothing but `max`. |
| EventStream.Frame | src/event_stream.rs:85-89 | With no newline in the buffer there is no line. Otherwise the buffer is the line, a newline and the rest, and the line holds no newline (the first newline is the split point). |
| EventStream.FrameLine | src/event_stream.rs:85-89 | A newline-free line written before a newline is exactly what framing cuts back out, and the rest is kept intact. |
| EventStream.Initialize | src/event_stream.rs:36-55 | Temp-dir failure gives `Error::TempDir` and `Done`. Bind failure gives `Error::Io` and `Done`. Success gives `Initialized` and `Listening`. |
| EventStream.Listen | src/event_stream.rs:57-73 | Accept failure gives `Error::Io` and `Done`. Success gives `Connected(peer)` and `Running` with an empty buffer. |
| EventStream.Receive | src/event_stream.rs:75-121 | End of input, and only end of input, ends the stream. A read error gives `Error::Io` and `Done`. With no newline in buffer ++ chunk the result is `Progress::None` and the buffer becomes `buffer ++ chunk`. With a newline the result is either an `Event` or a `Serialize` error. |
| EventStream.ReceiveLine | src/event_stream.rs:84-108 | When buffer ++ chunk is `line ++ "\n" ++ rest` with a newline-free `line`, exactly `line` goes to the parser: success yields its chunk and keeps `rest` as the buffer, failure yields `Serialize(reason, line)` and `Done`. |
| EventStream.Step | src/event_stream.rs:32-125 | The stream ends exactly in `Done` or at end of input while `Running`. States never move backwards. An error is yielded exactly when the next state is `Done`. Events only come from `Running` into `Running`. |
| EventStream.Run | src/event_stream.rs:32-125 | A run yields at most one item per poll and never moves backwards. It frames no more lines than chunks it reads, and no framed line holds a newline. `Done` yields nothing. |
| EventStream.StepConserves | src/event_stream.rs:84-87 | A poll that keeps the stream alive moves the received chunk into the framed line (plus newline) and the new buffer without loss. |
| EventStream.Conservation | src/event_stream.rs:84-105 | While still running: old buffer ++ all chunks received == framed lines (each followed by a newline) ++ current buffer. |
| EventStream.AtMostOneEventPerChunk | src/event_stream.rs:85-108 | The events yielded are no more than the lines framed, which are no more than the chunks received. |
| EventStream.FailureIsLast | src/event_stream.rs:88-116 | An error is the last item of any run, and the run ends in `Done`. |
| EventStream.Lifecycle | src/event_stream.rs:36-73 | From `Initializing`, the first item is `Initialized` or a TempDir/Io error. A second item follows only after `Initialized`, and it is `Connected` or an Io error. |
| EventStream.SetupThenRun | src/event_stream.rs:36-73 | After a successful bind and accept, a run yields `Initialized`, then `Connected(peer)`, then exactly what the connection yields from an empty buffer, with the same chunks, lines and final state. |
| EventStream.EndDropsBufferedLines | src/event_stream.rs:118-120 | End of input ends the stream even when the buffer still holds complete lines. |
| EventStream.OneChunkTwoLines | src/event_stream.rs:84-108 | The chunk `"a\nb\n"` yields one event, and `"b\n"` stays buffered. |
| EventStream.TwoChunksTwoLines | src/event_stream.rs:84-108 | The same text as chunks `"a\n"` and `"b\n"` yields two events and leaves the buffer empty. |
| Timeline.ApplyEvents | src/timeline.rs:49-53 | A chunk's events only append to the channel table. `max` covers the chunk's timestamp when there is an event. A chunk with no events leaves the grid unchanged, and a chunk with no span events changes only `min`/`max`. |
| Timeline.ApplyEventsAppend | src/timeline.rs:49-53 | Events are applied strictly in order: applying `a ++ b` is applying `a`, then `b`. |
| Timeline.ApplyEventsPreservesWf | src/timeline.rs:49-53 | A whole chunk keeps the grid invariant. |
| Timeline.Update | src/timeline.rs:37-59 | `Event` applies the chunk's events, and `Reset` empties only the closed-bar store. Other progress items and the grid toggle leave the span model unchanged. |
| Timeline.UpdateAll | src/timeline.rs:37-59 | Messages handled one after another only append to the channel table, never lower `max` and never raise `min`. |
| Timeline.UpdateAllAppend | src/timeline.rs:37-59 | Messages are handled strictly in order: handling `a ++ b` is handling `a`, then `b`. |
| Timeline.Feed | src/timeline.rs:62-64 | The stream's items reach the update loop as `Message::Progress` messages, handled in order; the channel table only grows at its end and `max` never falls. |
| Timeline.FeedCons | src/timeline.rs:62-64 | The first stream item is handled, as one `Progress` message, before all later ones. |
| Timeline.UpdateAllPreservesWf | src/timeline.rs:37-59 | Any message sequence keeps the invariant, so `min` stays 0 and no open bar ever reaches the store. |
| Timeline.MaxCoversDelivered | src/timeline.rs:180 | After any message sequence, `max` is at least every timestamp delivered with an event, even across resets. |
| Timeline.ChannelIndexStable | src/timeline.rs:187-194 | A name at channel `k` keeps `k` after any later messages, resets included. |
| Timeline.NewNameGetsNextChannel | src/timeline.rs:191-193 | An unseen name is appended to the table, and its bar gets channel `len` of the old table. |
| Timeline.ScenarioRunning | src/event_stream.rs:84-106 | The chunks `entered ++ "\n" ++ exited` and `"\n"` yield the two events in order and leave the buffer empty. |
| Timeline.ScenarioItems | src/event_stream.rs:36-106 | Set-up, accept and two lines split over two chunks yield `Initialized`, `Connected`, then two events. |
| Timeline.ScenarioGrid | src/timeline.rs:49-53 | Entering ISR1 at 5 and exiting it at 15 gives one closed bar `[5, 15)` on channel 0 and no open bars. |
| Timeline.EndToEnd | src/timeline.rs:37-59 | Stream and update loop together: the two-line scenario leaves exactly the bar `{5, Some(15), ISR1, 0}` in the store and nothing open. |
| Timeline.OneChunkRunning | src/event_stream.rs:84-120 | Two lines in one chunk followed by end of input yield only the first line's event; the stream ends with the second line still buffered. |
| Timeline.OneChunkGrid | src/timeline.rs:49-53 | Entering ISR1 at 5 with no exit leaves the bar `{5, None, ISR1, 0}` open and nothing stored. |
| Timeline.OneChunkLeavesOpen | src/event_stream.rs:84-120 | The `EndToEnd` text delivered as one chunk and then end of input ends the stream with ISR1 still open and the store empty: the outcome depends on how the text is cut into chunks. |

## Left out

- Floating-point viewport: the auto-fit zoom/pan in `add_event`, `update_zoom`, `set_zoom`, `update_pan`, `set_pan`, the zoom/pan reset in `reset_state`, `to_si_time`, `_px_to_ns`/`_ns_to_px`. These are `f32` computations. Auto-fit divides by zero when `min == max`.
- Rendering: `view`, `Controls`, the canvas `update`/`draw`/`mouse_interaction`, the style module, the cache clears, the status strings and the grid-lines flag (`toggle_grid`). None of them affect the span model.
- Tokio and filesystem I/O: `TempDir`, `UnixListener::bind/accept`, `ReaderStream` and printing the socket path. Their results are the `World` inputs of each poll.
- The JSON parser (`serde_json`) and the `EventChunk` schema. The parser is the function parameter `parse`, and event payloads other than task names are reduced to text.
- `String::from_utf8_lossy`: chunks arrive as already-decoded text.
- The interval tree's internals and its `find` overlap query. The store is a multiset of entries.
- The `as_nanos() as usize` cast and usize width: timestamps are unbounded naturals. The code does no arithmetic on them, only comparisons and `max`/`min`.
- `Message::None`, which panics (`todo!()`).
- src/main.rs, which only starts the application.
