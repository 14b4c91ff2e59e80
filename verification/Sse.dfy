/**
 Server-Sent Events framing as a machine that takes one byte at a time.

 The machine is the specification of the incremental parser in SseParser.dfy.
 It holds no notion of a chunk, so whatever equals it cannot depend on chunks.
 */
module Sse {
  import opened Base

  /** One dispatched frame. */
  datatype SseEvent = SseEvent(event: Option<string>, data: string, id: Option<string>, retry: Option<nat>)

  /**
   The streaming, fatal `TextDecoder`: a deterministic transducer from lines to
   texts. `decode` answers None where the platform decoder throws, and `flush`
   says whether the state may be the last one (no dangling partial sequence).
   */
  datatype TextDecoder<!D> = TextDecoder(
    start: D,
    decode: (D, seq<Byte>) -> Option<(D, string)>,
    flush: D -> bool)

  datatype Config<!D> = Config(decoder: TextDecoder<D>, maxFrameBytes: nat)

  datatype ParserState<D> = ParserState(
    text: D,
    pending: seq<Byte>,
    frameBytes: nat,
    event: Option<string>,
    data: seq<string>,
    id: Option<string>,
    retry: Option<nat>,
    sawData: bool)

  /** Frames produced so far, and the state to go on from; None is an overflow. */
  datatype Fed<D> = Fed(frames: seq<SseEvent>, next: Option<ParserState<D>>) {
    function After(before: seq<SseEvent>): Fed<D> {
      Fed(before + frames, next)
    }
  }

  function Initial<D>(cfg: Config<D>): ParserState<D> {
    ParserState(cfg.decoder.start, [], 0, None, [], None, None, false)
  }

  // ----- one line -----

  function IndexOf(s: string, c: char): (i: int)
    ensures -1 <= i < |s|
    ensures i >= 0 ==> s[i] == c && c !in s[..i]
    ensures i < 0 ==> c !in s
  {
    if s == "" then -1
    else if s[0] == c then 0
    else
      var rest := IndexOf(s[1..], c);
      if rest < 0 then -1
      else
        assert s[..rest + 1] == [s[0]] + s[1..][..rest];
        rest + 1
  }

  function FieldName(line: string): string {
    var colon := IndexOf(line, ':');
    if colon < 0 then line else line[..colon]
  }

  /** The text after the colon, without one leading space. */
  function FieldValue(line: string): string {
    var colon := IndexOf(line, ':');
    var raw := if colon < 0 then "" else line[colon + 1..];
    if raw != "" && raw[0] == ' ' then raw[1..] else raw
  }

  predicate AllDigits(s: string) {
    s != "" && forall i :: 0 <= i < |s| ==> '0' <= s[i] <= '9'
  }

  function DecimalValue(s: string): nat
    requires forall i :: 0 <= i < |s| ==> '0' <= s[i] <= '9'
  {
    if s == "" then 0
    else DecimalValue(s[..|s| - 1]) * 10 + (s[|s| - 1] - '0') as int
  }

  function ParseRetry(s: string): Option<nat> {
    if AllDigits(s) then Some(DecimalValue(s)) else None
  }

  /** The frame the collected fields stand for, if they stand for one. */
  function Dispatched<D>(st: ParserState<D>): seq<SseEvent> {
    var data := Join(st.data, "\n");
    if st.sawData && data != "" then [SseEvent(st.event, data, st.id, st.retry)] else []
  }

  function ClearFrame<D>(st: ParserState<D>): ParserState<D> {
    ParserState(st.text, st.pending, 0, None, [], None, None, false)
  }

  function ConsumeLine<D>(st: ParserState<D>, line: string): (r: (ParserState<D>, seq<SseEvent>))
    ensures r.0.pending == st.pending && r.0.text == st.text
    ensures r.0.frameBytes == if line == "" then 0 else st.frameBytes
    ensures |r.1| <= 1 && (line != "" ==> r.1 == [])
  {
    if line == "" then (ClearFrame(st), Dispatched(st))
    else if line[0] == ':' then (st, [])
    else
      var value := FieldValue(line);
      match FieldName(line)
      case "event" => (st.(event := Some(value)), [])
      case "data" => (st.(data := st.data + [value], sawData := true), [])
      case "id" => (if '\0' in value then st else st.(id := Some(value)), [])
      case "retry" => (st.(retry := ParseRetry(value)), [])
      case _ => (st, [])
  }

  /** Ends the current line: charge it to the frame, decode it, interpret it. */
  function CloseLine<D>(cfg: Config<D>, st: ParserState<D>, line: seq<Byte>, terminator: nat): Fed<D> {
    var total := st.frameBytes + |line| + terminator;
    if total > cfg.maxFrameBytes then Fed([], None)
    else
      match cfg.decoder.decode(st.text, line)
      case None => Fed([], None)
      case Some((text, content)) =>
        var (next, frames) := ConsumeLine(st.(text := text, pending := [], frameBytes := total), content);
        Fed(frames, Some(next))
  }

  // ----- one byte -----

  /** A CR that ended the input so far and may still become half of a CRLF. */
  predicate HeldCr(pending: seq<Byte>) {
    pending != [] && pending[|pending| - 1] == CR
  }

  function StepFresh<D>(cfg: Config<D>, st: ParserState<D>, b: Byte): Fed<D> {
    if b == LF then CloseLine(cfg, st, st.pending, 1)
    else if st.frameBytes + |st.pending| + 1 > cfg.maxFrameBytes then Fed([], None)
    else Fed([], Some(st.(pending := st.pending + [b])))
  }

  function Step<D>(cfg: Config<D>, st: ParserState<D>, b: Byte): Fed<D> {
    if HeldCr(st.pending) then
      var line := st.pending[..|st.pending| - 1];
      if b == LF then CloseLine(cfg, st, line, 2)
      else
        var closed := CloseLine(cfg, st, line, 1);
        if closed.next.None? then closed
        else StepFresh(cfg, closed.next.value, b).After(closed.frames)
    else StepFresh(cfg, st, b)
  }

  function Feed<D>(cfg: Config<D>, st: ParserState<D>, bytes: seq<Byte>): Fed<D>
    decreases |bytes|
  {
    if bytes == [] then Fed([], Some(st))
    else
      var first := Step(cfg, st, bytes[0]);
      if first.next.None? then first
      else Feed(cfg, first.next.value, bytes[1..]).After(first.frames)
  }

  /** Feeds one chunk after the other, stopping at the first overflow. */
  function FeedChunks<D>(cfg: Config<D>, st: ParserState<D>, chunks: seq<seq<Byte>>): Fed<D>
    decreases |chunks|
  {
    if chunks == [] then Fed([], Some(st))
    else
      var first := Feed(cfg, st, chunks[0]);
      if first.next.None? then first
      else FeedChunks(cfg, first.next.value, chunks[1..]).After(first.frames)
  }

  lemma FeedNothing<D>(cfg: Config<D>, st: ParserState<D>)
    ensures Feed(cfg, st, []) == Fed([], Some(st))
  {}

  lemma AfterNothing<D>(r: Fed<D>)
    ensures r.After([]) == r
  {}

  lemma AfterAfter<D>(r: Fed<D>, inner: seq<SseEvent>, outer: seq<SseEvent>)
    ensures r.After(inner).After(outer) == r.After(outer + inner)
  {
    assert outer + (inner + r.frames) == (outer + inner) + r.frames;
  }

  // ----- chunk independence -----

  /** Feeding is a homomorphism: a cut anywhere, even inside CRLF, changes nothing. */
  lemma {:induction false} FeedAppend<D>(cfg: Config<D>, st: ParserState<D>, a: seq<Byte>, b: seq<Byte>)
    ensures Feed(cfg, st, a + b) ==
            var first := Feed(cfg, st, a);
            if first.next.None? then first else Feed(cfg, first.next.value, b).After(first.frames)
    decreases |a|
  {
    if a == [] {
      assert a + b == b;
      assert Feed(cfg, st, b).After([]) == Feed(cfg, st, b);
    } else {
      assert (a + b)[1..] == a[1..] + b;
      var head := Step(cfg, st, a[0]);
      if head.next.Some? {
        FeedAppend(cfg, head.next.value, a[1..], b);
        var mid := Feed(cfg, head.next.value, a[1..]);
        if mid.next.Some? {
          var tail := Feed(cfg, mid.next.value, b);
          assert head.frames + (mid.frames + tail.frames) == (head.frames + mid.frames) + tail.frames;
        }
      }
    }
  }

  /** Only the concatenation of the chunks matters. */
  lemma {:induction false} ChunkIndependence<D>(cfg: Config<D>, st: ParserState<D>, chunks: seq<seq<Byte>>)
    ensures FeedChunks(cfg, st, chunks) == Feed(cfg, st, Flatten(chunks))
    decreases |chunks|
  {
    if chunks != [] {
      FeedAppend(cfg, st, chunks[0], Flatten(chunks[1..]));
      var first := Feed(cfg, st, chunks[0]);
      if first.next.Some? {
        ChunkIndependence(cfg, first.next.value, chunks[1..]);
      }
    }
  }

  // ----- the buffered tail -----

  /** `pending` holds no LF, and a CR only as its last byte. */
  predicate PendingLine(pending: seq<Byte>) {
    LF !in pending && (pending == [] || CR !in pending[..|pending| - 1])
  }

  predicate Inv<D>(cfg: Config<D>, st: ParserState<D>) {
    && PendingLine(st.pending)
    && st.frameBytes + |st.pending| <= cfg.maxFrameBytes
  }

  lemma CloseLineInv<D>(cfg: Config<D>, st: ParserState<D>, line: seq<Byte>, terminator: nat)
    ensures var r := CloseLine(cfg, st, line, terminator);
            r.next.Some? ==> r.next.value.pending == [] && Inv(cfg, r.next.value)
  {
    hide ConsumeLine;
    if st.frameBytes + |line| + terminator <= cfg.maxFrameBytes && cfg.decoder.decode(st.text, line).Some? {
      var (text, content) := cfg.decoder.decode(st.text, line).value;
      var next := ConsumeLine(st.(text := text, pending := [], frameBytes := st.frameBytes + |line| + terminator), content).0;
      assert next.pending == [];
    }
  }

  lemma StepInv<D>(cfg: Config<D>, st: ParserState<D>, b: Byte)
    requires Inv(cfg, st)
    ensures var r := Step(cfg, st, b); r.next.Some? ==> Inv(cfg, r.next.value)
  {
    hide ConsumeLine;
    if HeldCr(st.pending) {
      var line := st.pending[..|st.pending| - 1];
      CloseLineInv(cfg, st, line, if b == LF then 2 else 1);
      var closed := CloseLine(cfg, st, line, 1);
      if b != LF && closed.next.Some? {
        assert PendingLine([b]);
        assert closed.next.value.pending + [b] == [b];
      }
    } else if b == LF {
      CloseLineInv(cfg, st, st.pending, 1);
    } else {
      var p := st.pending + [b];
      assert p[..|p| - 1] == st.pending;
    }
  }

  /** Every reachable state keeps the buffered line and the frame bound. */
  lemma {:induction false} FeedInv<D>(cfg: Config<D>, st: ParserState<D>, bytes: seq<Byte>)
    requires Inv(cfg, st)
    ensures var r := Feed(cfg, st, bytes); r.next.Some? ==> Inv(cfg, r.next.value)
    decreases |bytes|
  {
    if bytes != [] {
      StepInv(cfg, st, bytes[0]);
      var first := Step(cfg, st, bytes[0]);
      if first.next.Some? {
        FeedInv(cfg, first.next.value, bytes[1..]);
      }
    }
  }

  // ----- whole lines at a time -----

  /** A run of bytes without terminators is only buffered, or overflows. */
  lemma {:induction false} FeedPlain<D>(cfg: Config<D>, st: ParserState<D>, seg: seq<Byte>)
    requires LF !in seg && CR !in seg && !HeldCr(st.pending)
    requires st.frameBytes + |st.pending| <= cfg.maxFrameBytes
    ensures Feed(cfg, st, seg) ==
            if st.frameBytes + |st.pending| + |seg| > cfg.maxFrameBytes then Fed([], None)
            else Fed([], Some(st.(pending := st.pending + seg)))
    decreases |seg|
  {
    hide ConsumeLine;
    if seg == [] {
      assert st.pending + seg == st.pending;
    } else {
      var first := Step(cfg, st, seg[0]);
      if first.next.Some? {
        FeedPlain(cfg, first.next.value, seg[1..]);
        assert first.next.value.pending + seg[1..] == st.pending + seg;
      }
    }
  }

  /** One byte, then the rest. */
  lemma FeedCons<D>(cfg: Config<D>, st: ParserState<D>, b: Byte, rest: seq<Byte>)
    ensures Feed(cfg, st, [b] + rest) ==
            var first := Step(cfg, st, b);
            if first.next.None? then first else Feed(cfg, first.next.value, rest).After(first.frames)
  {
    hide Step;
    assert ([b] + rest)[1..] == rest;
  }

  /** Buffered plain bytes end in a plain byte. */
  lemma PlainNotHeld(pending: seq<Byte>, seg: seq<Byte>)
    requires CR !in seg && !HeldCr(pending)
    ensures !HeldCr(pending + seg)
  {
    if seg != [] {
      assert (pending + seg)[|pending + seg| - 1] == seg[|seg| - 1];
    } else {
      assert pending + seg == pending;
    }
  }

  /** Closing a line looks at the bytes handed over, never at what is buffered. */
  lemma CloseLineIgnoresPending<D>(cfg: Config<D>, st: ParserState<D>, p: seq<Byte>, line: seq<Byte>, terminator: nat)
    ensures CloseLine(cfg, st.(pending := p), line, terminator) == CloseLine(cfg, st, line, terminator)
  {
    hide ConsumeLine;
    assert st.(pending := p).(pending := []) == st.(pending := []);
  }

  lemma CloseLineTooLong<D>(cfg: Config<D>, st: ParserState<D>, line: seq<Byte>, terminator: nat)
    requires st.frameBytes + |line| + terminator > cfg.maxFrameBytes
    ensures CloseLine(cfg, st, line, terminator) == Fed([], None)
  {}

  /** A line ended by LF. */
  lemma FeedLfLine<D>(cfg: Config<D>, st: ParserState<D>, seg: seq<Byte>, rest: seq<Byte>)
    requires LF !in seg && CR !in seg && !HeldCr(st.pending)
    requires st.frameBytes + |st.pending| <= cfg.maxFrameBytes
    ensures Feed(cfg, st, seg + [LF] + rest) ==
            var closed := CloseLine(cfg, st, st.pending + seg, 1);
            if closed.next.None? then closed else Feed(cfg, closed.next.value, rest).After(closed.frames)
  {
    hide Feed;
    hide ConsumeLine;
    assert seg + [LF] + rest == seg + ([LF] + rest);
    FeedAppend(cfg, st, seg, [LF] + rest);
    FeedPlain(cfg, st, seg);
    if st.frameBytes + |st.pending| + |seg| <= cfg.maxFrameBytes {
      var buffered := st.(pending := st.pending + seg);
      FeedCons(cfg, buffered, LF, rest);
      PlainNotHeld(st.pending, seg);
      assert Step(cfg, buffered, LF) == CloseLine(cfg, buffered, st.pending + seg, 1);
      CloseLineIgnoresPending(cfg, st, buffered.pending, st.pending + seg, 1);
    }
  }

  /** A line ended by CR, whose last byte decides nothing until the next one arrives. */
  lemma FeedHeldCr<D>(cfg: Config<D>, st: ParserState<D>, seg: seq<Byte>)
    requires LF !in seg && CR !in seg && !HeldCr(st.pending)
    requires st.frameBytes + |st.pending| <= cfg.maxFrameBytes
    ensures Feed(cfg, st, seg + [CR]) ==
            if st.frameBytes + |st.pending| + |seg| + 1 > cfg.maxFrameBytes then Fed([], None)
            else Fed([], Some(st.(pending := st.pending + seg + [CR])))
  {
    hide ConsumeLine;
    FeedAppend(cfg, st, seg, [CR]);
    FeedPlain(cfg, st, seg);
    if st.frameBytes + |st.pending| + |seg| <= cfg.maxFrameBytes {
      var buffered := st.(pending := st.pending + seg);
      PlainNotHeld(st.pending, seg);
      assert [CR][1..] == [];
      assert Feed(cfg, buffered, [CR]) == Step(cfg, buffered, CR);
    }
  }

  /** The byte after a held CR settles whether one or two bytes ended the line. */
  lemma FeedAfterHeldCr<D>(cfg: Config<D>, st: ParserState<D>, rest: seq<Byte>)
    requires HeldCr(st.pending) && rest != []
    ensures Feed(cfg, st, rest) ==
            var line := st.pending[..|st.pending| - 1];
            var lf := rest[0] == LF;
            var closed := CloseLine(cfg, st, line, if lf then 2 else 1);
            if closed.next.None? then closed
            else Feed(cfg, closed.next.value, if lf then rest[1..] else rest).After(closed.frames)
  {
    hide ConsumeLine;
    var line := st.pending[..|st.pending| - 1];
    if rest[0] != LF {
      var closed := CloseLine(cfg, st, line, 1);
      if closed.next.Some? {
        CloseLineInv(cfg, st, line, 1);
        var begun := StepFresh(cfg, closed.next.value, rest[0]);
        if begun.next.Some? {
          var tail := Feed(cfg, begun.next.value, rest[1..]);
          assert (closed.frames + begun.frames) + tail.frames == closed.frames + (begun.frames + tail.frames);
        }
      }
    }
  }

  /** A line ended by CR that is not the last byte of the input. */
  lemma FeedCrLine<D>(cfg: Config<D>, st: ParserState<D>, seg: seq<Byte>, rest: seq<Byte>)
    requires LF !in seg && CR !in seg && !HeldCr(st.pending) && rest != []
    requires st.frameBytes + |st.pending| <= cfg.maxFrameBytes
    ensures Feed(cfg, st, seg + [CR] + rest) ==
            var lf := rest[0] == LF;
            var closed := CloseLine(cfg, st, st.pending + seg, if lf then 2 else 1);
            if closed.next.None? then closed
            else Feed(cfg, closed.next.value, if lf then rest[1..] else rest).After(closed.frames)
  {
    hide Feed;
    hide CloseLine;
    FeedAppend(cfg, st, seg + [CR], rest);
    FeedHeldCr(cfg, st, seg);
    var lf := rest[0] == LF;
    var ends := if lf then 2 else 1;
    if st.frameBytes + |st.pending| + |seg| + 1 <= cfg.maxFrameBytes {
      var held := st.(pending := st.pending + seg + [CR]);
      FeedAfterHeldCr(cfg, held, rest);
      assert held.pending[..|held.pending| - 1] == st.pending + seg;
      CloseLineIgnoresPending(cfg, st, held.pending, st.pending + seg, ends);
    } else {
      CloseLineTooLong(cfg, st, st.pending + seg, ends);
    }
  }

  // ----- end of input -----

  /**
   `finish`: the buffered tail becomes the last line (a held CR ends it, a
   missing terminator leaves the frame open), and an open frame or a dangling
   decoder state is a truncation.
   */
  function Finish<D>(cfg: Config<D>, st: ParserState<D>): Option<seq<SseEvent>> {
    var last := LastLine(cfg, st);
    if last.next.None? then None
    else
      var end := last.next.value;
      if !cfg.decoder.flush(end.text) || end.sawData || end.frameBytes > 0 then None
      else Some(last.frames)
  }

  function LastLine<D>(cfg: Config<D>, st: ParserState<D>): Fed<D> {
    if st.pending == [] then Fed([], Some(st))
    else if HeldCr(st.pending) then CloseLine(cfg, st, st.pending[..|st.pending| - 1], 1)
    else CloseLine(cfg, st, st.pending, 0)
  }
}
