/**
 The driver that turns a byte source into model events.

 A source is a finite list of chunks and the way it ends. The program runs on
 one thread, so a cancellation can only arrive while the consumer holds an event
 or while a read is pending: `abortAt` says how many events the consumer takes
 before it aborts, and the source end `AbortedRead` is an abort during a read.
 */
module StreamRuntime {
  import opened Base
  import opened Events
  import opened Sse
  import opened SseParser

  datatype SourceEnd = Done | Throws | AbortedRead

  datatype Source = Source(chunks: seq<seq<Byte>>, end: SourceEnd)

  /**
   A protocol decoder. `Err` is a thrown exception, by the code it is reported
   under: an AdapterStreamError keeps its own, any other one is a GatewayError.
   */
  datatype FrameDecoder<!S> = FrameDecoder(
    start: S,
    handle: (S, SseEvent) -> Result<(S, seq<ModelEvent>), ErrorCode>,
    isTerminal: S -> bool,
    finish: S -> Result<seq<ModelEvent>, ErrorCode>)

  /** A frame ends the decoding exactly when its last event, and no other, is terminal. */
  ghost predicate WellBehaved<S(!new)>(dec: FrameDecoder<S>) {
    && !dec.isTerminal(dec.start)
    && (forall s, frame :: !dec.isTerminal(s) && dec.handle(s, frame).Ok? ==>
          var (next, events) := dec.handle(s, frame).value;
          if dec.isTerminal(next) then OneTerminalAtEnd(events) else NoTerminal(events))
    && (forall s :: !dec.isTerminal(s) && dec.finish(s).Ok? ==> OneTerminalAtEnd(dec.finish(s).value))
  }

  // ----- the trace of an undisturbed run -----

  /** Events so far, and the decoder state to go on from; None when the stream has ended. */
  datatype Run<S> = Run(events: seq<ModelEvent>, state: Option<S>) {
    function After(before: seq<ModelEvent>): Run<S> {
      Run(before + events, state)
    }
  }

  function RunFrames<S>(dec: FrameDecoder<S>, s: S, frames: seq<SseEvent>): Run<S>
    decreases |frames|
  {
    if frames == [] then Run([], Some(s))
    else
      match dec.handle(s, frames[0])
      case Err(code) => Run([StreamError(code)], None)
      case Ok((next, events)) =>
        if dec.isTerminal(next) then Run(events, None)
        else RunFrames(dec, next, frames[1..]).After(events)
  }

  /** The frames of a feed, followed by the overflow if the feed ended in one. */
  function RunFed<S, D>(dec: FrameDecoder<S>, s: S, fed: Fed<D>): Run<S> {
    var run := RunFrames(dec, s, fed.frames);
    if run.state.None? || fed.next.Some? then run
    else Run(run.events + [StreamError(ProviderProtocolError)], None)
  }

  /**
   A whole trace. `unpolled` marks the one error that is raised after an event
   without asking for cancellation in between.
   */
  datatype Trace = Trace(events: seq<ModelEvent>, unpolled: bool) {
    function After(before: seq<ModelEvent>): Trace {
      Trace(before + events, unpolled)
    }
  }

  /** The frames flushed at the end of the input; `emitted` says an event came from one already. */
  function EofFrames<S>(dec: FrameDecoder<S>, s: S, frames: seq<SseEvent>, emitted: bool): Trace {
    var run := RunFrames(dec, s, frames);
    if run.state.None? then Trace(run.events, false)
    else if dec.isTerminal(run.state.value) then Trace(run.events, false)
    else
      match dec.finish(run.state.value)
      case Err(code) => Trace(run.events + [StreamError(code)], emitted || run.events != [])
      case Ok(events) => Trace(run.events + events, false)
  }

  function AtEof<S, D>(dec: FrameDecoder<S>, cfg: Config<D>, parser: ParserState<D>, s: S): Trace {
    match Finish(cfg, parser)
    case None => Trace([StreamError(ProviderProtocolError)], false)
    case Some(frames) => EofFrames(dec, s, frames, false)
  }

  /** The frames of one chunk, its overflow if it ends in one, and everything after it. */
  function ChunkTrace<S, D>(
    dec: FrameDecoder<S>, cfg: Config<D>, s: S, fed: Fed<D>, later: Source): Trace
    decreases |later.chunks|, 1
  {
    var run := RunFed(dec, s, fed);
    if run.state.None? then Trace(run.events, false)
    else Drain(dec, cfg, fed.next.value, run.state.value, later).After(run.events)
  }

  function Drain<S, D>(dec: FrameDecoder<S>, cfg: Config<D>, parser: ParserState<D>, s: S, source: Source): Trace
    decreases |source.chunks|, 0
  {
    if source.chunks == [] then
      match source.end
      case Done => AtEof(dec, cfg, parser, s)
      case Throws => Trace([StreamError(GatewayError)], false)
      case AbortedRead => Trace([StreamError(Aborted)], false)
    else
      ChunkTrace(dec, cfg, s, Feed(cfg, parser, source.chunks[0]), source.(chunks := source.chunks[1..]))
  }

  function FullTrace<S, D>(dec: FrameDecoder<S>, cfg: Config<D>, source: Source): Trace {
    Drain(dec, cfg, Initial(cfg), dec.start, source)
  }

  /** What the consumer sees when it aborts after `abortAt` events. */
  function Observed(full: Trace, abortAt: Option<nat>): seq<ModelEvent> {
    if abortAt.None? || abortAt.value >= |full.events| then full.events
    else if full.unpolled && abortAt.value == |full.events| - 1 then full.events
    else full.events[..abortAt.value] + [StreamError(Aborted)]
  }

  // ----- chunk independence -----

  lemma {:induction false} RunFramesAppend<S>(dec: FrameDecoder<S>, s: S, a: seq<SseEvent>, b: seq<SseEvent>)
    ensures RunFrames(dec, s, a + b) ==
            var run := RunFrames(dec, s, a);
            if run.state.None? then run else RunFrames(dec, run.state.value, b).After(run.events)
    decreases |a|
  {
    if a == [] {
      assert a + b == b;
      assert RunFrames(dec, s, b).After([]) == RunFrames(dec, s, b);
    } else {
      assert (a + b)[1..] == a[1..] + b;
      if dec.handle(s, a[0]).Ok? {
        var (next, events) := dec.handle(s, a[0]).value;
        RunFramesAppend(dec, next, a[1..], b);
        var mid := RunFrames(dec, next, a[1..]);
        if mid.state.Some? {
          var tail := RunFrames(dec, mid.state.value, b);
          assert events + (mid.events + tail.events) == (events + mid.events) + tail.events;
        }
      }
    }
  }

  lemma DrainChunk<S, D>(dec: FrameDecoder<S>, cfg: Config<D>, parser: ParserState<D>, s: S, source: Source)
    requires source.chunks != []
    ensures Drain(dec, cfg, parser, s, source) ==
            ChunkTrace(dec, cfg, s, Feed(cfg, parser, source.chunks[0]), source.(chunks := source.chunks[1..]))
  {
    hide Feed;
  }

  /** Two chunks or their concatenation: the same trace. */
  lemma {:induction false} MergeChunks<S, D>(
    dec: FrameDecoder<S>, cfg: Config<D>, parser: ParserState<D>, s: S,
    a: seq<Byte>, b: seq<Byte>, rest: seq<seq<Byte>>, end: SourceEnd)
    ensures Drain(dec, cfg, parser, s, Source([a, b] + rest, end)) ==
            Drain(dec, cfg, parser, s, Source([a + b] + rest, end))
  {
    hide Feed;
    hide RunFrames;
    hide Drain;
    assert ([a, b] + rest)[1..] == [b] + rest && ([b] + rest)[1..] == rest && ([a + b] + rest)[1..] == rest;
    DrainChunk(dec, cfg, parser, s, Source([a, b] + rest, end));
    DrainChunk(dec, cfg, parser, s, Source([a + b] + rest, end));
    FeedAppend(cfg, parser, a, b);
    var first := Feed(cfg, parser, a);
    if first.next.Some? {
      var second := Feed(cfg, first.next.value, b);
      RunFramesAppend(dec, s, first.frames, second.frames);
      var run := RunFrames(dec, s, first.frames);
      if run.state.Some? {
        var run2 := RunFrames(dec, run.state.value, second.frames);
        DrainChunk(dec, cfg, first.next.value, run.state.value, Source([b] + rest, end));
        assert (run.events + run2.events) + [StreamError(ProviderProtocolError)] == run.events + (run2.events + [StreamError(ProviderProtocolError)]);
        if run2.state.Some? && second.next.Some? {
          var tail := Drain(dec, cfg, second.next.value, run2.state.value, Source(rest, end));
          assert run.events + (run2.events + tail.events) == (run.events + run2.events) + tail.events;
        }
      }
    }
  }

  /** An empty chunk at the end of the input changes nothing. */
  lemma EmptyChunk<S, D>(dec: FrameDecoder<S>, cfg: Config<D>, parser: ParserState<D>, s: S, end: SourceEnd)
    ensures Drain(dec, cfg, parser, s, Source([[]], end)) == Drain(dec, cfg, parser, s, Source([], end))
  {
    hide AtEof;
    FeedNothing(cfg, parser);
    assert Source([[]], end).(chunks := [[]][1..]) == Source([], end);
    var t := Drain(dec, cfg, parser, s, Source([], end));
    assert t.After([]) == t;
  }

  /**
   Without an abort the events depend on the concatenation of the chunks only:
   the same events, the same error, and the same bytes never looked at after a
   terminal frame.
   */
  lemma {:induction false} TraceChunkIndependence<S, D>(
    dec: FrameDecoder<S>, cfg: Config<D>, parser: ParserState<D>, s: S, chunks: seq<seq<Byte>>, end: SourceEnd)
    ensures Drain(dec, cfg, parser, s, Source(chunks, end)) ==
            Drain(dec, cfg, parser, s, Source([Flatten(chunks)], end))
    decreases |chunks|
  {
    hide AtEof;
    if chunks == [] {
      EmptyChunk(dec, cfg, parser, s, end);
    } else {
      var rest := Flatten(chunks[1..]);
      MergeChunks(dec, cfg, parser, s, chunks[0], rest, [], end);
      assert [chunks[0], rest] + [] == [chunks[0], rest] && [chunks[0] + rest] + [] == [Flatten(chunks)];
      assert [chunks[0], rest][1..] == [rest];
      var fed := Feed(cfg, parser, chunks[0]);
      var run := RunFed(dec, s, fed);
      if run.state.Some? {
        TraceChunkIndependence(dec, cfg, fed.next.value, run.state.value, chunks[1..], end);
      }
    }
  }

  /** Two deliveries of the same bytes, cancelled after the same number of events, look the same. */
  lemma SameBytesSameEvents<S, D>(
    dec: FrameDecoder<S>, cfg: Config<D>, a: seq<seq<Byte>>, b: seq<seq<Byte>>, end: SourceEnd, abortAt: Option<nat>)
    requires Flatten(a) == Flatten(b)
    ensures Observed(FullTrace(dec, cfg, Source(a, end)), abortAt) == Observed(FullTrace(dec, cfg, Source(b, end)), abortAt)
  {
    TraceChunkIndependence(dec, cfg, Initial(cfg), dec.start, a, end);
    TraceChunkIndependence(dec, cfg, Initial(cfg), dec.start, b, end);
  }

  /**
   The trace, told from all bytes at once: the events of the frames they hold, and,
   if no frame ends the decoding, what the end of the source calls for.
   */
  lemma TraceIsRun<S, D>(dec: FrameDecoder<S>, cfg: Config<D>, source: Source)
    ensures var fed := Feed(cfg, Initial(cfg), Flatten(source.chunks));
            var run := RunFrames(dec, dec.start, fed.frames);
            var events := FullTrace(dec, cfg, source).events;
            if run.state.None? then events == run.events
            else if fed.next.None? then events == run.events + [Error(ProviderProtocolError, false)]
            else
              match source.end
              case Throws => events == run.events + [Error(GatewayError, false)]
              case AbortedRead => events == run.events + [Error(Aborted, false)]
              case Done =>
                match Finish(cfg, fed.next.value)
                case None => events == run.events + [Error(ProviderProtocolError, false)]
                case Some(frames) =>
                  var last := RunFrames(dec, run.state.value, frames);
                  if last.state.None? || dec.isTerminal(last.state.value) then events == run.events + last.events
                  else
                    match dec.finish(last.state.value)
                    case Err(code) => events == run.events + (last.events + [StreamError(code)])
                    case Ok(more) => events == run.events + (last.events + more)
  {
    hide RunFrames, Feed, Finish;
    var bytes := Flatten(source.chunks);
    TraceChunkIndependence(dec, cfg, Initial(cfg), dec.start, source.chunks, source.end);
    DrainChunk(dec, cfg, Initial(cfg), dec.start, Source([bytes], source.end));
    assert Source([bytes], source.end).(chunks := [bytes][1..]) == Source([], source.end);
  }

  // ----- terminal shape -----

  lemma {:induction false} RunFramesShape<S(!new)>(dec: FrameDecoder<S>, s: S, frames: seq<SseEvent>)
    requires WellBehaved(dec) && !dec.isTerminal(s)
    ensures var run := RunFrames(dec, s, frames);
            if run.state.None? then OneTerminalAtEnd(run.events)
            else NoTerminal(run.events) && !dec.isTerminal(run.state.value)
    decreases |frames|
  {
    if frames != [] && dec.handle(s, frames[0]).Ok? {
      var (next, events) := dec.handle(s, frames[0]).value;
      if !dec.isTerminal(next) {
        RunFramesShape(dec, next, frames[1..]);
        var rest := RunFrames(dec, next, frames[1..]);
        if rest.state.None? {
          TerminalAfter(events, rest.events);
        }
      }
    }
  }

  lemma AtEofShape<S(!new), D>(dec: FrameDecoder<S>, cfg: Config<D>, parser: ParserState<D>, s: S)
    requires WellBehaved(dec) && !dec.isTerminal(s)
    ensures OneTerminalAtEnd(AtEof(dec, cfg, parser, s).events)
  {
    if Finish(cfg, parser).Some? {
      var frames := Finish(cfg, parser).value;
      RunFramesShape(dec, s, frames);
      var run := RunFrames(dec, s, frames);
      if run.state.Some? {
        match dec.finish(run.state.value)
        case Err(code) => TerminalAfter(run.events, [StreamError(code)]);
        case Ok(events) => TerminalAfter(run.events, events);
      }
    }
  }

  lemma {:induction false} DrainShape<S(!new), D>(dec: FrameDecoder<S>, cfg: Config<D>, parser: ParserState<D>, s: S, source: Source)
    requires WellBehaved(dec) && !dec.isTerminal(s)
    ensures OneTerminalAtEnd(Drain(dec, cfg, parser, s, source).events)
    decreases |source.chunks|
  {
    hide AtEof;
    hide WellBehaved;
    if source.chunks == [] {
      AtEofShape(dec, cfg, parser, s);
    } else {
      var fed := Feed(cfg, parser, source.chunks[0]);
      RunFramesShape(dec, s, fed.frames);
      var quiet := RunFrames(dec, s, fed.frames);
      var run := RunFed(dec, s, fed);
      if run.state.Some? {
        var rest := source.(chunks := source.chunks[1..]);
        DrainShape(dec, cfg, fed.next.value, run.state.value, rest);
        TerminalAfter(run.events, Drain(dec, cfg, fed.next.value, run.state.value, rest).events);
      } else if quiet.state.Some? {
        TerminalAfter(quiet.events, [StreamError(ProviderProtocolError)]);
      }
    }
  }

  /** Every source and every abort: one terminal event, at the end. */
  lemma ObservedShape<S(!new), D>(dec: FrameDecoder<S>, cfg: Config<D>, source: Source, abortAt: Option<nat>)
    requires WellBehaved(dec)
    ensures OneTerminalAtEnd(Observed(FullTrace(dec, cfg, source), abortAt))
  {
    DrainShape(dec, cfg, Initial(cfg), dec.start, source);
    var full := FullTrace(dec, cfg, source);
    if abortAt.Some? && abortAt.value < |full.events| {
      var quiet := full.events[..abortAt.value];
      assert forall i :: 0 <= i < |quiet| ==> quiet[i] == full.events[..|full.events| - 1][i];
      TerminalAfter(quiet, [StreamError(Aborted)]);
    }
  }

  // ----- the driver -----

  /** The unpolled error is never the only event of what is left. */
  ghost predicate Cuttable(rest: Trace) {
    OneTerminalAtEnd(rest.events) && (rest.unpolled ==> |rest.events| >= 2)
  }

  lemma {:induction false} DrainCuttable<S(!new), D>(dec: FrameDecoder<S>, cfg: Config<D>, parser: ParserState<D>, s: S, source: Source)
    requires WellBehaved(dec) && !dec.isTerminal(s)
    ensures Cuttable(Drain(dec, cfg, parser, s, source))
    decreases |source.chunks|
  {
    hide WellBehaved;
    DrainShape(dec, cfg, parser, s, source);
    if source.chunks != [] {
      var fed := Feed(cfg, parser, source.chunks[0]);
      RunFramesShape(dec, s, fed.frames);
      var run := RunFed(dec, s, fed);
      if run.state.Some? {
        DrainCuttable(dec, cfg, fed.next.value, run.state.value, source.(chunks := source.chunks[1..]));
      }
    }
  }

  /** A poll that answers yes cuts the trace right here. */
  lemma CutHere(rest: Trace, out: seq<ModelEvent>)
    requires Cuttable(rest)
    ensures Observed(rest.After(out), Some(|out|)) == out + [StreamError(Aborted)]
  {
    assert (out + rest.events)[..|out|] == out;
  }

  predicate Cancelled(abortAt: Option<nat>, delivered: nat) {
    abortAt.Some? && delivered >= abortAt.value
  }

  /** Emits the events of one frame, asking for cancellation before each of them. */
  method EmitBatch(events: seq<ModelEvent>, abortAt: Option<nat>, before: seq<ModelEvent>)
    returns (out: seq<ModelEvent>, aborted: bool)
    requires abortAt.Some? ==> |before| <= abortAt.value
    ensures aborted <==> abortAt.Some? && abortAt.value < |before| + |events|
    ensures !aborted ==> out == before + events
    ensures aborted ==> out == (before + events)[..abortAt.value] + [StreamError(Aborted)]
  {
    out := before;
    for i := 0 to |events|
      invariant out == before + events[..i]
      invariant abortAt.Some? ==> |out| <= abortAt.value
    {
      if Cancelled(abortAt, |out|) {
        assert out == (before + events)[..abortAt.value];
        return out + [StreamError(Aborted)], true;
      }
      out := out + [events[i]];
    }
    aborted := false;
  }

  /** A cancellation inside a batch that is followed by `rest`. */
  lemma CutBatch(before: seq<ModelEvent>, events: seq<ModelEvent>, rest: Trace, n: nat)
    requires |before| <= n < |before| + |events|
    requires rest.events == [] ==> !rest.unpolled
    ensures Observed(rest.After(events).After(before), Some(n)) == (before + events)[..n] + [StreamError(Aborted)]
  {
    assert (before + (events + rest.events))[..n] == (before + events)[..n];
  }

  lemma FrameStep<S, D>(dec: FrameDecoder<S>, cfg: Config<D>, s: S, fed: Fed<D>, later: Source)
    requires fed.frames != []
    ensures ChunkTrace(dec, cfg, s, fed, later) ==
            var handled := dec.handle(s, fed.frames[0]);
            if handled.Err? then Trace([StreamError(handled.error)], false)
            else if dec.isTerminal(handled.value.0) then Trace(handled.value.1, false)
            else ChunkTrace(dec, cfg, handled.value.0, fed.(frames := fed.frames[1..]), later).After(handled.value.1)
  {
    hide Drain;
    match dec.handle(s, fed.frames[0])
    case Err(_) =>
    case Ok((next, events)) =>
      if !dec.isTerminal(next) {
        var run := RunFrames(dec, next, fed.frames[1..]);
        assert (events + run.events) + [StreamError(ProviderProtocolError)] == events + (run.events + [StreamError(ProviderProtocolError)]);
        if run.state.Some? && fed.next.Some? {
          var rest := Drain(dec, cfg, fed.next.value, run.state.value, later);
          assert (events + run.events) + rest.events == events + (run.events + rest.events);
        }
      }
  }

  lemma EofStep<S>(dec: FrameDecoder<S>, s: S, frames: seq<SseEvent>, emitted: bool)
    requires frames != []
    ensures EofFrames(dec, s, frames, emitted) ==
            var handled := dec.handle(s, frames[0]);
            if handled.Err? then Trace([StreamError(handled.error)], false)
            else if dec.isTerminal(handled.value.0) then Trace(handled.value.1, false)
            else EofFrames(dec, handled.value.0, frames[1..], emitted || handled.value.1 != []).After(handled.value.1)
  {
    match dec.handle(s, frames[0])
    case Err(_) =>
    case Ok((next, events)) =>
      if !dec.isTerminal(next) {
        var run := RunFrames(dec, next, frames[1..]);
        if run.state.Some? && !dec.isTerminal(run.state.value) {
          match dec.finish(run.state.value)
          case Err(code) => assert (events + run.events) + [StreamError(code)] == events + (run.events + [StreamError(code)]);
          case Ok(last) => assert (events + run.events) + last == events + (run.events + last);
        }
      }
  }

  lemma TraceAfterAfter(rest: Trace, inner: seq<ModelEvent>, outer: seq<ModelEvent>)
    ensures rest.After(inner).After(outer) == rest.After(outer + inner)
  {
    assert outer + (inner + rest.events) == (outer + inner) + rest.events;
  }

  lemma ChunkCuttable<S(!new), D>(dec: FrameDecoder<S>, cfg: Config<D>, s: S, fed: Fed<D>, later: Source)
    requires WellBehaved(dec) && !dec.isTerminal(s)
    ensures Cuttable(ChunkTrace(dec, cfg, s, fed, later))
  {
    hide WellBehaved;
    RunFramesShape(dec, s, fed.frames);
    var quiet := RunFrames(dec, s, fed.frames);
    if quiet.state.Some? {
      if fed.next.Some? {
        DrainCuttable(dec, cfg, fed.next.value, quiet.state.value, later);
        TerminalAfter(quiet.events, Drain(dec, cfg, fed.next.value, quiet.state.value, later).events);
      } else {
        TerminalAfter(quiet.events, [StreamError(ProviderProtocolError)]);
      }
    }
  }

  lemma DrainEnd<S, D>(dec: FrameDecoder<S>, cfg: Config<D>, parser: ParserState<D>, s: S, source: Source)
    requires source.chunks == []
    ensures Drain(dec, cfg, parser, s, source) ==
            match source.end
            case Done => AtEof(dec, cfg, parser, s)
            case Throws => Trace([StreamError(GatewayError)], false)
            case AbortedRead => Trace([StreamError(Aborted)], false)
  {
    hide AtEof;
  }

  lemma ChunkDone<S, D>(dec: FrameDecoder<S>, cfg: Config<D>, s: S, fed: Fed<D>, later: Source)
    requires fed.frames == []
    ensures ChunkTrace(dec, cfg, s, fed, later) ==
            if fed.next.None? then Trace([StreamError(ProviderProtocolError)], false)
            else Drain(dec, cfg, fed.next.value, s, later)
  {
    hide Drain;
    if fed.next.Some? {
      var rest := Drain(dec, cfg, fed.next.value, s, later);
      assert rest.After([]) == rest;
    }
  }

  lemma AtEofTail<S, D>(dec: FrameDecoder<S>, cfg: Config<D>, parser: ParserState<D>, s: S)
    ensures AtEof(dec, cfg, parser, s) ==
            match Finish(cfg, parser)
            case None => Trace([StreamError(ProviderProtocolError)], false)
            case Some(frames) => EofFrames(dec, s, frames, false)
    ensures Finish(cfg, parser).Some? ==> |Finish(cfg, parser).value| <= 1
  {
    hide EofFrames;
    hide ConsumeLine;
    hide Dispatched;
    LastLineFrames(cfg, parser);
  }

  lemma LastLineFrames<D>(cfg: Config<D>, st: ParserState<D>)
    ensures |LastLine(cfg, st).frames| <= 1
  {
    hide ConsumeLine;
  }

  lemma EofCuttable<S(!new)>(dec: FrameDecoder<S>, s: S, frames: seq<SseEvent>)
    requires WellBehaved(dec) && !dec.isTerminal(s)
    ensures Cuttable(EofFrames(dec, s, frames, false))
  {
    RunFramesShape(dec, s, frames);
    var run := RunFrames(dec, s, frames);
    if run.state.Some? {
      match dec.finish(run.state.value)
      case Err(code) => TerminalAfter(run.events, [StreamError(code)]);
      case Ok(events) => TerminalAfter(run.events, events);
    }
  }

  /** The frames of one chunk; `stop` says that the whole trace has been emitted or cut. */
  method RunChunk<S(!new), D(!new)>(
    frames: seq<SseEvent>, ok: bool, abortAt: Option<nat>, cfg: Config<D>, dec: FrameDecoder<S>, start: S,
    before: seq<ModelEvent>, ghost fed: Fed<D>, ghost later: Source, ghost full: Trace)
    returns (out: seq<ModelEvent>, state: S, stop: bool)
    requires WellBehaved(dec) && !dec.isTerminal(start)
    requires fed.frames == frames && (ok <==> fed.next.Some?)
    requires full == ChunkTrace(dec, cfg, start, fed, later).After(before)
    requires abortAt.Some? ==> |before| <= abortAt.value
    ensures stop ==> out == Observed(full, abortAt)
    ensures !stop ==>
              && ok
              && !dec.isTerminal(state)
              && full == Drain(dec, cfg, fed.next.value, state, later).After(out)
              && (abortAt.Some? ==> |out| <= abortAt.value)
  {
    hide ChunkTrace;
    hide Drain;
    out, state := before, start;
    var j := 0;
    while true
      invariant j <= |frames|
      invariant !dec.isTerminal(state)
      invariant full == ChunkTrace(dec, cfg, state, fed.(frames := frames[j..]), later).After(out)
      invariant abortAt.Some? ==> |out| <= abortAt.value
      decreases |frames| - j
    {
      ghost var here := fed.(frames := frames[j..]);
      ChunkCuttable(dec, cfg, state, here, later);
      if Cancelled(abortAt, |out|) {
        CutHere(ChunkTrace(dec, cfg, state, here, later), out);
        return out + [StreamError(Aborted)], state, true;
      }
      if j == |frames| {
        ChunkDone(dec, cfg, state, here, later);
        if !ok {
          return out + [StreamError(ProviderProtocolError)], state, true;
        }
        return out, state, false;
      }
      FrameStep(dec, cfg, state, here, later);
      var handled := dec.handle(state, frames[j]);
      if handled.Err? {
        return out + [StreamError(handled.error)], state, true;
      }
      var (next, events) := handled.value;
      ghost var soFar := out;
      ghost var rest := if dec.isTerminal(next) then Trace([], false) else ChunkTrace(dec, cfg, next, fed.(frames := frames[j + 1..]), later);
      assert here.(frames := here.frames[1..]) == fed.(frames := frames[j + 1..]);
      assert full == rest.After(events).After(soFar);
      if !dec.isTerminal(next) {
        ChunkCuttable(dec, cfg, next, fed.(frames := frames[j + 1..]), later);
      }
      var aborted;
      out, aborted := EmitBatch(events, abortAt, out);
      if aborted {
        CutBatch(soFar, events, rest, abortAt.value);
        return out, state, true;
      }
      TraceAfterAfter(rest, events, soFar);
      state := next;
      if dec.isTerminal(state) {
        return out, state, true;
      }
      j := j + 1;
    }
  }

  /** The frames flushed at the end of the input, and the verdict on the truncated stream. */
  method RunTail<S(!new)>(
    frames: seq<SseEvent>, abortAt: Option<nat>, dec: FrameDecoder<S>, start: S,
    before: seq<ModelEvent>, ghost full: Trace)
    returns (out: seq<ModelEvent>)
    requires WellBehaved(dec) && !dec.isTerminal(start)
    requires |frames| <= 1
    requires full == EofFrames(dec, start, frames, false).After(before)
    requires abortAt.Some? ==> |before| <= abortAt.value
    requires frames == [] ==> !Cancelled(abortAt, |before|)
    ensures out == Observed(full, abortAt)
  {
    hide EofFrames;
    out := before;
    var state := start;
    ghost var emitted := false;
    var j := 0;
    while j < |frames|
      invariant j <= |frames|
      invariant !dec.isTerminal(state)
      invariant full == EofFrames(dec, state, frames[j..], emitted).After(out)
      invariant abortAt.Some? ==> |out| <= abortAt.value
      invariant j == 0 ==> !emitted
      invariant j == |frames| && Cancelled(abortAt, |out|) ==> emitted
    {
      EofCuttable(dec, state, frames[j..]);
      if Cancelled(abortAt, |out|) {
        CutHere(EofFrames(dec, state, frames[j..], emitted), out);
        return out + [StreamError(Aborted)];
      }
      EofStep(dec, state, frames[j..], emitted);
      var handled := dec.handle(state, frames[j]);
      if handled.Err? {
        return out + [StreamError(handled.error)];
      }
      var (next, events) := handled.value;
      ghost var soFar := out;
      ghost var rest := if dec.isTerminal(next) then Trace([], false) else EofFrames(dec, next, frames[j..][1..], emitted || events != []);
      if !dec.isTerminal(next) {
        EofNonEmpty(dec, next, frames[j..][1..], emitted || events != []);
      }
      var aborted;
      out, aborted := EmitBatch(events, abortAt, out);
      if aborted {
        CutBatch(soFar, events, rest, abortAt.value);
        return;
      }
      TraceAfterAfter(rest, events, soFar);
      state := next;
      if dec.isTerminal(state) {
        return;
      }
      emitted := emitted || events != [];
      assert frames[j..][1..] == frames[j + 1..];
      j := j + 1;
    }
    EofDone(dec, state, emitted);
    var last := dec.finish(state);
    if last.Err? {
      return out + [StreamError(last.error)];
    }
    ghost var soFar := out;
    var aborted;
    out, aborted := EmitBatch(last.value, abortAt, out);
    if aborted {
      CutBatch(soFar, last.value, Trace([], false), abortAt.value);
    }
  }

  lemma EofNonEmpty<S(!new)>(dec: FrameDecoder<S>, s: S, frames: seq<SseEvent>, emitted: bool)
    requires WellBehaved(dec) && !dec.isTerminal(s)
    ensures EofFrames(dec, s, frames, emitted).events != []
  {
    RunFramesShape(dec, s, frames);
  }

  lemma EofDone<S>(dec: FrameDecoder<S>, s: S, emitted: bool)
    requires !dec.isTerminal(s)
    ensures EofFrames(dec, s, [], emitted) ==
            match dec.finish(s)
            case Err(code) => Trace([StreamError(code)], emitted)
            case Ok(events) => Trace(events, false)
  {
    if dec.finish(s).Ok? {
      assert [] + dec.finish(s).value == dec.finish(s).value;
    }
  }

  /** The end of the source: what is buffered is the last of the input. */
  method RunEnd<S(!new), D(!new)>(
      last: Source, abortAt: Option<nat>, cfg: Config<D>, dec: FrameDecoder<S>, parser: SseFrameParser<D>, state: S, before: seq<ModelEvent>, ghost full: Trace)
    returns (out: seq<ModelEvent>)
    requires WellBehaved(dec) && !dec.isTerminal(state) && last.chunks == []
    requires parser.Valid() && parser.cfg == cfg
    requires full == Drain(dec, cfg, parser.State(), state, last).After(before)
    requires abortAt.Some? ==> |before| <= abortAt.value
    modifies parser
    ensures out == Observed(full, abortAt)
  {
    hide Drain, AtEof, WellBehaved;
    out := before;
    DrainCuttable(dec, cfg, parser.State(), state, last);
    if Cancelled(abortAt, |out|) {
      CutHere(Drain(dec, cfg, parser.State(), state, last), out);
      return out + [StreamError(Aborted)];
    }
    DrainEnd(dec, cfg, parser.State(), state, last);
    match last.end {
      case Throws => return out + [StreamError(GatewayError)];
      case AbortedRead => return out + [StreamError(Aborted)];
      case Done =>
    }
    ghost var end := parser.State();
    var tail := parser.AtEnd();
    AtEofTail(dec, cfg, end, state);
    if tail.None? {
      return out + [StreamError(ProviderProtocolError)];
    }
    out := RunTail(tail.value, abortAt, dec, state, out, full);
  }

  /**
   Drives a decoder over a source. What the consumer sees is the undisturbed
   trace, cut where the cancellation takes effect.
   */
  method DecodeFrameStream<S(!new), D(!new)>(source: Source, abortAt: Option<nat>, cfg: Config<D>, dec: FrameDecoder<S>)
    returns (out: seq<ModelEvent>)
    requires WellBehaved(dec)
    ensures out == Observed(FullTrace(dec, cfg, source), abortAt)
  {
    assert !dec.isTerminal(dec.start);
    hide Drain;
    hide ChunkTrace;
    hide AtEof;
    hide WellBehaved;
    hide Feed;
    out := [];
    ghost var full := FullTrace(dec, cfg, source);
    DrainCuttable(dec, cfg, Initial(cfg), dec.start, source);
    assert full.After([]) == full;
    if Cancelled(abortAt, 0) {
      CutHere(full, []);
      return [StreamError(Aborted)];
    }
    var parser := new SseFrameParser(cfg);
    var state := dec.start;
    var i := 0;
    while i < |source.chunks|
      invariant i <= |source.chunks|
      invariant parser.Valid() && parser.cfg == cfg && fresh(parser)
      invariant !dec.isTerminal(state)
      invariant full == Drain(dec, cfg, parser.State(), state, source.(chunks := source.chunks[i..])).After(out)
      invariant abortAt.Some? ==> |out| <= abortAt.value
    {
      ghost var here := source.(chunks := source.chunks[i..]);
      DrainCuttable(dec, cfg, parser.State(), state, here);
      if Cancelled(abortAt, |out|) {
        CutHere(Drain(dec, cfg, parser.State(), state, here), out);
        return out + [StreamError(Aborted)];
      }
      ghost var fed := Feed(cfg, parser.State(), source.chunks[i]);
      ghost var later := source.(chunks := source.chunks[i + 1..]);
      DrainChunk(dec, cfg, parser.State(), state, here);
      var frames, ok := parser.FramesFrom(source.chunks[i]);
      var stop;
      out, state, stop := RunChunk(frames, ok, abortAt, cfg, dec, state, out, fed, later, full);
      if stop {
        return;
      }
      i := i + 1;
    }

    out := RunEnd(source.(chunks := source.chunks[i..]), abortAt, cfg, dec, parser, state, out, full);
  }
}
