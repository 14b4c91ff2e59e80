/**
 When does an abort take effect? The driver's promise is that aborting yields
 one `aborted` event and nothing else. There is one family of streams for which
 it does not: the end of the input still flushes a frame, the consumer aborts on
 that frame's last event, and the truncation is reported instead.
 */
module Cancellation {
  import opened Base
  import opened Events
  import opened Sse
  import opened DecodeUtils
  import opened SseReference
  import opened SseRoundTrip
  import opened StreamRuntime
  import Anthropic = AnthropicStream
  import OpenAI = OpenAIStream

  /** The end of the input itself dispatches a frame with events, and the decoder then reports a truncation. */
  predicate LateFlush<S, D>(dec: FrameDecoder<S>, cfg: Config<D>, bytes: seq<Byte>, end: SourceEnd) {
    var fed := Feed(cfg, Initial(cfg), bytes);
    var run := RunFrames(dec, dec.start, fed.frames);
    && end.Done? && fed.next.Some? && run.state.Some?
    && Finish(cfg, fed.next.value).Some?
    && var tail := RunFrames(dec, run.state.value, Finish(cfg, fed.next.value).value);
       tail.events != [] && tail.state.Some? && !dec.isTerminal(tail.state.value) && dec.finish(tail.state.value).Err?
  }

  lemma UnpolledIsLateFlush<S, D>(dec: FrameDecoder<S>, cfg: Config<D>, source: Source)
    ensures FullTrace(dec, cfg, source).unpolled <==> LateFlush(dec, cfg, Flatten(source.chunks), source.end)
    ensures FullTrace(dec, cfg, source).unpolled ==>
              exists s :: dec.finish(s).Err? && var events := FullTrace(dec, cfg, source).events;
                events != [] && events[|events| - 1] == StreamError(dec.finish(s).error)
  {
    hide Feed;
    hide Finish;
    hide RunFrames;
    hide Drain;
    var bytes, end := Flatten(source.chunks), source.end;
    TraceChunkIndependence(dec, cfg, Initial(cfg), dec.start, source.chunks, end);
    DrainChunk(dec, cfg, Initial(cfg), dec.start, Source([bytes], end));
    var fed := Feed(cfg, Initial(cfg), bytes);
    var run := RunFrames(dec, dec.start, fed.frames);
    if fed.next.Some? && run.state.Some? {
      assert Source([bytes], end).(chunks := [bytes][1..]) == Source([], end);
      DrainEnd(dec, cfg, fed.next.value, run.state.value, Source([], end));
      if end.Done? && Finish(cfg, fed.next.value).Some? {
        var tail := RunFrames(dec, run.state.value, Finish(cfg, fed.next.value).value);
        if tail.state.Some? && dec.finish(tail.state.value).Err? {
          var s := tail.state.value;
          assert FullTrace(dec, cfg, source).events == run.events + (tail.events + [StreamError(dec.finish(s).error)]) || dec.isTerminal(s);
        }
      }
    }
  }

  /**
   Aborting while `n` events of a longer trace have been delivered cuts the
   trace there, exactly when the last of them was not flushed by the end of the
   input.
   */
  lemma AbortCutsExactlyWhen<S(!new), D(!new)>(dec: FrameDecoder<S>, cfg: Config<D>, source: Source, n: nat)
    requires WellBehaved(dec)
    requires forall s :: dec.finish(s) != Err(Aborted)
    requires n < |FullTrace(dec, cfg, source).events|
    ensures var full := FullTrace(dec, cfg, source).events;
            Observed(FullTrace(dec, cfg, source), Some(n)) == full[..n] + [StreamError(Aborted)]
            <==> !(n == |full| - 1 && LateFlush(dec, cfg, Flatten(source.chunks), source.end))
  {
    hide LateFlush;
    UnpolledIsLateFlush(dec, cfg, source);
    var full := FullTrace(dec, cfg, source);
    if full.unpolled && n == |full.events| - 1 {
      var cut := full.events[..n] + [StreamError(Aborted)];
      assert full.events[n] != cut[n];
    }
  }

  // ----- when the last bytes decide -----

  /**
   What is needed of `TextDecoder`: a line that is complete and not empty but
   decodes to nothing is a byte order mark, whose last byte is 0xBF.
   */
  ghost predicate Legible<D(!new)>(decoder: TextDecoder<D>) {
    forall d, line :: line != [] && decoder.decode(d, line).Some?
                      && decoder.decode(d, line).value.1 == "" && decoder.flush(decoder.decode(d, line).value.0)
                      ==> line[|line| - 1] == 0xBF
  }

  lemma {:induction false} TailEndsInput(bytes: seq<Byte>)
    ensures var tail := Break(bytes).tail; tail != [] ==> bytes != [] && tail[|tail| - 1] == bytes[|bytes| - 1]
    decreases |bytes|
  {
    hide FirstLine;
    if FirstLine(bytes).Some? {
      TailEndsInput(bytes[FirstLine(bytes).value.0 + FirstLine(bytes).value.1..]);
    }
  }

  /** A buffered tail that does not end in a CR, or in the last byte of a byte order mark, is no blank line. */
  lemma NothingFlushed<D(!new)>(cfg: Config<D>, st: ParserState<D>)
    requires Legible(cfg.decoder) && (st.pending == [] || st.pending[|st.pending| - 1] !in {CR, 0xBF})
    ensures Finish(cfg, st).Some? ==> Finish(cfg, st).value == []
  {
    hide ConsumeLine;
  }

  lemma PendingIsTail<D(!new)>(cfg: Config<D>, bytes: seq<Byte>)
    ensures Feed(cfg, Initial(cfg), bytes).next.Some? ==> Feed(cfg, Initial(cfg), bytes).next.value.pending == Break(bytes).tail
  {
    hide Feed, Read, Break;
    assert Initial(cfg) == Between(cfg.decoder.start, []);
    NoSize();
    FeedIsRead(cfg, cfg.decoder.start, [], bytes);
    TailIsBroken(cfg.decoder, bytes);
  }

  lemma TailIsBroken<D>(decoder: TextDecoder<D>, bytes: seq<Byte>)
    ensures Read(decoder, decoder.start, [], bytes).tail == Break(bytes).tail
  {}

  lemma NoLateFlush<S(!new), D(!new)>(dec: FrameDecoder<S>, cfg: Config<D>, bytes: seq<Byte>, end: SourceEnd)
    requires Legible(cfg.decoder) && (bytes == [] || bytes[|bytes| - 1] !in {CR, 0xBF})
    ensures !LateFlush(dec, cfg, bytes, end)
  {
    hide Feed, Finish, Legible, Break;
    PendingIsTail(cfg, bytes);
    TailEndsInput(bytes);
    var fed := Feed(cfg, Initial(cfg), bytes);
    if fed.next.Some? {
      NothingFlushed(cfg, fed.next.value);
    }
  }

  /** For both decoders, and read off the last byte of the input: every abort cuts the trace where it comes. */
  lemma EveryAbortCuts<D(!new)>(p: Platform, limit: nat, cfg: Config<D>, source: Source, n: nat)
    requires Legible(cfg.decoder)
    requires var bytes := Flatten(source.chunks); bytes == [] || bytes[|bytes| - 1] !in {CR, 0xBF}
    ensures var full := FullTrace(Anthropic.Decoder(p, limit), cfg, source);
            n < |full.events| ==> Observed(full, Some(n)) == full.events[..n] + [StreamError(Aborted)]
    ensures var full := FullTrace(OpenAI.Decoder(p, limit), cfg, source);
            n < |full.events| ==> Observed(full, Some(n)) == full.events[..n] + [StreamError(Aborted)]
  {
    hide FullTrace, LateFlush, WellBehaved, Legible, Observed;
    NoLateFlush(Anthropic.Decoder(p, limit), cfg, Flatten(source.chunks), source.end);
    NoLateFlush(OpenAI.Decoder(p, limit), cfg, Flatten(source.chunks), source.end);
    Anthropic.DecoderWellBehaved(p, limit);
    OpenAI.DecoderWellBehaved(p, limit);
    if n < |FullTrace(Anthropic.Decoder(p, limit), cfg, source).events| {
      AbortCutsExactlyWhen(Anthropic.Decoder(p, limit), cfg, source, n);
    }
    if n < |FullTrace(OpenAI.Decoder(p, limit), cfg, source).events| {
      AbortCutsExactlyWhen(OpenAI.Decoder(p, limit), cfg, source, n);
    }
  }

  // ----- the streams that lose an abort -----

  /** Frames, then the lines of one more, closed by a CR that is the last byte. */
  function ClosedByCr<D>(codec: Codec<D>, frames: seq<WireFrame>, lines: seq<(WireLine, bool)>): seq<Byte> {
    PrintFrames(codec, frames) + PrintLines(codec, lines) + [CR]
  }

  /** The lines of a frame without its blank line leave the parser inside it, whatever byte comes next. */
  lemma LastFrameHeld<D(!new)>(cfg: Config<D>, codec: Codec<D>, st: ParserState<D>, lines: seq<(WireLine, bool)>)
    requires Faithful(cfg.decoder, codec) && AtFrameStart(codec, st)
    requires forall i :: 0 <= i < |lines| ==> Writable(lines[i].0)
    requires |PrintLines(codec, lines)| + 1 <= cfg.maxFrameBytes
    ensures var fed := Feed(cfg, st, PrintLines(codec, lines) + [CR]);
            fed.frames == [] && fed.next.Some? && Finish(cfg, fed.next.value) == Some(Meaning(WireFrame(lines, false)))
  {
    hide Feed, PrintLines, ConsumeLine;
    LinesCollected(cfg, codec, st, lines);
    FeedAppend(cfg, st, PrintLines(codec, lines), [CR]);
    var mid := Feed(cfg, st, PrintLines(codec, lines)).next.value;
    FeedHeldCr(cfg, mid, []);
    assert [] + [CR] == [CR] && mid.pending + [] + [CR] == [CR];
    FinishHeld(cfg, codec, mid, lines);
  }

  lemma FinishHeld<D(!new)>(cfg: Config<D>, codec: Codec<D>, mid: ParserState<D>, lines: seq<(WireLine, bool)>)
    requires Faithful(cfg.decoder, codec) && Collected(codec, mid, lines) && mid.frameBytes + 1 <= cfg.maxFrameBytes
    ensures Finish(cfg, mid.(pending := [CR])) == Some(Meaning(WireFrame(lines, false)))
  {
    hide PrintLines;
    assert [CR][..0] == [];
    assert codec.encode("") == [];
  }

  /**
   Any decoder whose `finish` always fails, as both of this program do, on any
   input whose last frame is closed by a final CR: an abort on that frame's last
   event is reported as a protocol error, in every chunking.
   */
  lemma AbortLostOnLastFrame<S(!new), D(!new)>(
    dec: FrameDecoder<S>, cfg: Config<D>, codec: Codec<D>, frames: seq<WireFrame>, lines: seq<(WireLine, bool)>, chunks: seq<seq<Byte>>)
    requires WellBehaved(dec) && forall s :: dec.finish(s) == Err(ProviderProtocolError)
    requires Faithful(cfg.decoder, codec)
    requires forall i :: 0 <= i < |frames| ==> WritableFrame(frames[i]) && |PrintFrame(codec, frames[i])| <= cfg.maxFrameBytes
    requires (forall i :: 0 <= i < |lines| ==> Writable(lines[i].0)) && |PrintLines(codec, lines)| + 1 <= cfg.maxFrameBytes
    requires Flatten(chunks) == ClosedByCr(codec, frames, lines)
    requires var run := RunFrames(dec, dec.start, Meanings(frames));
             && run.state.Some?
             && var last := RunFrames(dec, run.state.value, Meaning(WireFrame(lines, false)));
                last.state.Some? && last.events != []
    ensures var run := RunFrames(dec, dec.start, Meanings(frames));
            var events := run.events + RunFrames(dec, run.state.value, Meaning(WireFrame(lines, false))).events;
            Observed(FullTrace(dec, cfg, Source(chunks, Done)), Some(|events|)) == events + [StreamError(ProviderProtocolError)]
  {
    hide Feed, Finish, RunFrames, Drain, Faithful, PrintFrames, PrintLines, Meanings, Meaning, WellBehaved;
    var printed, bytes := PrintFrames(codec, frames), ClosedByCr(codec, frames, lines);
    assert AtFrameStart(codec, Initial(cfg)) by { CleanStart(cfg, codec); }
    FramesFed(cfg, codec, Initial(cfg), frames);
    var first := Feed(cfg, Initial(cfg), printed);
    LastFrameHeld(cfg, codec, first.next.value, lines);
    assert bytes == printed + (PrintLines(codec, lines) + [CR]);
    FeedAppend(cfg, Initial(cfg), printed, PrintLines(codec, lines) + [CR]);
    var second := Feed(cfg, first.next.value, PrintLines(codec, lines) + [CR]);
    var run := RunFrames(dec, dec.start, Meanings(frames));
    var last := RunFrames(dec, run.state.value, Meaning(WireFrame(lines, false)));
    assert Meanings(frames) + [] == Meanings(frames);
    StartIsOpen(dec);
    NotOver(dec, dec.start, Meanings(frames));
    NotOver(dec, run.state.value, Meaning(WireFrame(lines, false)));
    TraceChunkIndependence(dec, cfg, Initial(cfg), dec.start, chunks, Done);
    DrainChunk(dec, cfg, Initial(cfg), dec.start, Source([bytes], Done));
    assert Source([bytes], Done).(chunks := [bytes][1..]) == Source([], Done);
    DrainEnd(dec, cfg, second.next.value, run.state.value, Source([], Done));
    var full := FullTrace(dec, cfg, Source(chunks, Done));
    assert full.unpolled && full.events == run.events + (last.events + [StreamError(ProviderProtocolError)]);
    assert full.events == (run.events + last.events) + [StreamError(ProviderProtocolError)];
  }

  lemma CleanStart<D(!new)>(cfg: Config<D>, codec: Codec<D>)
    requires Faithful(cfg.decoder, codec)
    ensures AtFrameStart(codec, Initial(cfg))
  {}

  lemma StartIsOpen<S(!new)>(dec: FrameDecoder<S>)
    requires WellBehaved(dec)
    ensures !dec.isTerminal(dec.start)
  {}

  lemma NotOver<S(!new)>(dec: FrameDecoder<S>, s: S, frames: seq<SseEvent>)
    requires WellBehaved(dec) && !dec.isTerminal(s) && RunFrames(dec, s, frames).state.Some?
    ensures !dec.isTerminal(RunFrames(dec, s, frames).state.value)
  {
    RunFramesShape(dec, s, frames);
  }

  // ----- a stream of the program that shows it -----

  const CHUNK_TEXT := "{\"choices\":[{\"delta\":{\"content\":\"x\"}}]}"
  const CHUNK_JSON := Obj(map["choices" := Arr([Obj(map["delta" := Obj(map["content" := Str("x")])])])])

  lemma ChunkRead(p: Platform)
    requires p.parse(CHUNK_TEXT) == Some(CHUNK_JSON)
    ensures OpenAI.ReadFrame(p, CHUNK_TEXT) == Some(OpenAI.Data(Some(OpenAI.Choice("x", None, None)), None, None))
  {
    hide Trim;
    NothingTrimmed(CHUNK_TEXT);
    var fields := CHUNK_JSON.fields;
    assert OpenAI.ReadChoice(fields["choices"].items[0]) == Some(OpenAI.Choice("x", None, None));
  }

  lemma NothingTrimmed(text: string)
    requires text != "" && !Space(text[0]) && !Space(text[|text| - 1])
    ensures Trim(text) == text
  {}

  /**
   An OpenAI stream of one chunk with the text x, its blank line a CR that ends
   the input, aborted on its only event: the consumer is told of a protocol error.
   */
  lemma AbortLost<D(!new)>(p: Platform, limit: nat, cfg: Config<D>, codec: Codec<D>)
    requires Faithful(cfg.decoder, codec) && p.parse(CHUNK_TEXT) == Some(CHUNK_JSON)
    requires |codec.encode("data: " + CHUNK_TEXT)| + 2 <= cfg.maxFrameBytes
    ensures Observed(FullTrace(OpenAI.Decoder(p, limit), cfg,
                               Source([codec.encode("data: " + CHUNK_TEXT) + [LF] + [CR]], Done)), Some(1))
         == [TextDelta("x"), StreamError(ProviderProtocolError)]
  {
    hide FullTrace, Observed, WellBehaved, Faithful, OpenAI.ReadFrame;
    var dec, lines := OpenAI.Decoder(p, limit), [(DataLine(CHUNK_TEXT), false)];
    var bytes := codec.encode("data: " + CHUNK_TEXT) + [LF] + [CR];
    OpenAI.DecoderWellBehaved(p, limit);
    ChunkRead(p);
    ChunkIsOneLine();
    OneDataLine(codec, CHUNK_TEXT);
    assert PrintFrames(codec, []) + PrintLines(codec, lines) + [CR] == bytes;
    OnePiece(bytes);
    var frame := SseEvent(None, CHUNK_TEXT, None, None);
    assert [frame][1..] == [];
    assert RunFrames(dec, OpenAI.INITIAL, []) == Run([], Some(OpenAI.INITIAL));
    assert [TextDelta("x")] + [] == [TextDelta("x")];
    AbortLostOnLastFrame(dec, cfg, codec, [], lines, [bytes]);
  }

  lemma ChunkIsOneLine()
    ensures CHUNK_TEXT != "" && OneLine(CHUNK_TEXT)
  {}

  lemma OnePiece(bytes: seq<Byte>)
    ensures Flatten([bytes]) == bytes
  {
    var rest := [bytes][1..];
    assert rest == [];
    assert bytes + Flatten(rest) == bytes;
  }

  lemma OneDataLine<D>(codec: Codec<D>, text: string)
    requires text != "" && OneLine(text)
    ensures var lines := [(DataLine(text), false)];
            && PrintLines(codec, lines) == codec.encode("data: " + text) + [LF]
            && Meaning(WireFrame(lines, false)) == [SseEvent(None, text, None, None)]
            && Writable(lines[0].0)
  {
    var lines := [(DataLine(text), false)];
    var none := lines[..0];
    assert none == [];
    assert [] + (codec.encode("data: " + text) + [LF]) == codec.encode("data: " + text) + [LF];
    assert DataLines(lines) == DataLines(none) + [text];
    var data := DataLines(lines);
    assert data == [text];
    assert LastEvent(lines) == LastEvent(none) && LastId(lines) == LastId(none) && LastRetry(lines) == LastRetry(none);
  }
}
