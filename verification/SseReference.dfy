/**
 The stream read in one go: lines, then frames, then what each frame says.

 Nothing here looks at the parser's machine. The lemmas show that the machine
 dispatches these frames, and overflows exactly when one of them is too large.
 */
module SseReference {
  import opened Base
  import opened Sse

  // ----- lines -----

  /** A complete line: its bytes, and its size with its terminator. */
  datatype RawLine = RawLine(content: seq<Byte>, size: nat)

  /** The complete lines of an input, and the bytes after them. */
  datatype Broken = Broken(lines: seq<RawLine>, tail: seq<Byte>)

  /** Where the first CR or LF is. */
  function FirstEnd(bytes: seq<Byte>): (r: Option<nat>)
    ensures r.Some? ==> r.value < |bytes| && bytes[r.value] in {LF, CR} && LF !in bytes[..r.value] && CR !in bytes[..r.value]
    ensures r.None? ==> LF !in bytes && CR !in bytes
  {
    if bytes == [] then None
    else if bytes[0] == LF || bytes[0] == CR then Some(0)
    else
      var r := FirstEnd(bytes[1..]);
      if r.None? then None
      else
        assert bytes[..r.value + 1] == [bytes[0]] + bytes[1..][..r.value];
        Some(r.value + 1)
  }

  /** The lengths of the first line and of its terminator; a CR that ends the input may be half of one. */
  function FirstLine(bytes: seq<Byte>): (r: Option<(nat, nat)>)
    ensures r.Some? ==> r.value.0 + r.value.1 <= |bytes| && r.value.1 > 0
  {
    var end := FirstEnd(bytes);
    if end.None? then None
    else if bytes[end.value] == LF then Some((end.value, 1))
    else if end.value + 1 == |bytes| then None
    else if bytes[end.value + 1] == LF then Some((end.value, 2))
    else Some((end.value, 1))
  }

  function Break(bytes: seq<Byte>): Broken
    decreases |bytes|
  {
    var first := FirstLine(bytes);
    if first.None? then Broken([], bytes)
    else
      var (length, terminator) := first.value;
      var rest := Break(bytes[length + terminator..]);
      Broken([RawLine(bytes[..length], length + terminator)] + rest.lines, rest.tail)
  }

  // ----- texts -----

  datatype TextLine = TextLine(text: string, size: nat)

  /** The lines decoded, up to the first one that cannot be; `state` is the decoder's afterwards. */
  datatype Decoded<D> = Decoded(lines: seq<TextLine>, ok: bool, state: D)

  function DecodeLines<D>(decoder: TextDecoder<D>, state: D, lines: seq<RawLine>): Decoded<D>
    decreases |lines|
  {
    if lines == [] then Decoded([], true, state)
    else
      match decoder.decode(state, lines[0].content)
      case None => Decoded([], false, state)
      case Some((next, text)) =>
        var rest := DecodeLines(decoder, next, lines[1..]);
        rest.(lines := [TextLine(text, lines[0].size)] + rest.lines)
  }

  // ----- frames -----

  /** The frames a blank line has closed, that line included, and the lines of the open one. */
  datatype Grouped = Grouped(frames: seq<seq<TextLine>>, open: seq<TextLine>)

  function Group(open: seq<TextLine>, lines: seq<TextLine>): Grouped
    decreases |lines|
  {
    if lines == [] then Grouped([], open)
    else if lines[0].text == "" then
      var rest := Group([], lines[1..]);
      rest.(frames := [open + [lines[0]]] + rest.frames)
    else Group(open + [lines[0]], lines[1..])
  }

  function Size(frame: seq<TextLine>): nat {
    if frame == [] then 0 else Size(frame[..|frame| - 1]) + frame[|frame| - 1].size
  }

  /** The frames before the first one that is too large. */
  function Fitting(max: nat, frames: seq<seq<TextLine>>): seq<seq<TextLine>> {
    if frames == [] || Size(frames[0]) > max then [] else [frames[0]] + Fitting(max, frames[1..])
  }

  // ----- what a frame says -----

  predicate IsField(text: string, name: string) {
    text != "" && text[0] != ':' && FieldName(text) == name
  }

  /** The values of all fields of one name, in order. */
  function Values(frame: seq<TextLine>, name: string): seq<string> {
    if frame == [] then []
    else
      var text := frame[|frame| - 1].text;
      Values(frame[..|frame| - 1], name) + if IsField(text, name) then [FieldValue(text)] else []
  }

  function Last(values: seq<string>): Option<string> {
    if values == [] then None else Some(values[|values| - 1])
  }

  /** Values with a null character are not ids. */
  function Ids(values: seq<string>): seq<string> {
    if values == [] then []
    else Ids(values[..|values| - 1]) + if '\0' in values[|values| - 1] then [] else [values[|values| - 1]]
  }

  function Delay(values: seq<string>): Option<nat> {
    if values == [] then None else ParseRetry(values[|values| - 1])
  }

  /** The event of a frame; a frame without data, or with empty data, has none. */
  function Says(frame: seq<TextLine>): seq<SseEvent> {
    var data := Join(Values(frame, "data"), "\n");
    if data == "" then []
    else [SseEvent(Last(Values(frame, "event")), data, Last(Ids(Values(frame, "id"))), Delay(Values(frame, "retry")))]
  }

  function AllSay(frames: seq<seq<TextLine>>): seq<SseEvent> {
    if frames == [] then [] else Says(frames[0]) + AllSay(frames[1..])
  }

  /** The whole reading of an input that follows an open frame. */
  datatype Reading<D> = Reading(frames: seq<seq<TextLine>>, open: seq<TextLine>, tail: seq<Byte>, ok: bool, state: D)

  function Read<D>(decoder: TextDecoder<D>, state: D, open: seq<TextLine>, bytes: seq<Byte>): Reading<D> {
    var broken := Break(bytes);
    var decoded := DecodeLines(decoder, state, broken.lines);
    var grouped := Group(open, decoded.lines);
    Reading(grouped.frames, grouped.open, broken.tail, decoded.ok, decoded.state)
  }

  predicate TooLarge<D>(max: nat, r: Reading<D>) {
    || (exists i :: 0 <= i < |r.frames| && Size(r.frames[i]) > max)
    || Size(r.open) + |r.tail| > max
  }

  // ----- the machine agrees -----

  /** The machine between two lines of the frame `open`. */
  function Between<D>(state: D, open: seq<TextLine>): ParserState<D> {
    ParserState(
      state, [], Size(open), Last(Values(open, "event")), Values(open, "data"),
      Last(Ids(Values(open, "id"))), Delay(Values(open, "retry")), Values(open, "data") != [])
  }

  /** One more line of the open frame does to the machine what it does to the frame. */
  lemma LineTaken<D>(st: ParserState<D>, open: seq<TextLine>, line: TextLine)
    requires st == Between(st.text, open).(frameBytes := Size(open) + line.size)
    ensures ConsumeLine(st, line.text) ==
            if line.text == "" then (Between(st.text, []), Says(open + [line]))
            else (Between(st.text, open + [line]), [])
  {
    hide Between, Says, ConsumeLine, IsField, FieldValue, ParseRetry;
    if line.text == "" {
      BlankTaken(st, open, line);
    } else {
      FieldTaken(st, line.text);
      OneName(line.text);
      SizeAppend(open, [line]);
      OneSize(line);
      MoreBetween(st.text, open, line);
      BetweenFields(st.text, open);
    }
  }

  lemma BetweenFields<D>(state: D, open: seq<TextLine>)
    ensures var st := Between(state, open); st == ParserState(state, [], Size(open), st.event, st.data, st.id, st.retry, st.sawData)
  {}

  /** The machine between two lines, after one more that is not blank. */
  lemma MoreBetween<D>(state: D, open: seq<TextLine>, line: TextLine)
    requires line.text != ""
    ensures var before, value := Between(state, open), FieldValue(line.text);
            Between(state, open + [line]) ==
            ParserState(
              state, [], Size(open + [line]),
              if IsField(line.text, "event") then Some(value) else before.event,
              if IsField(line.text, "data") then before.data + [value] else before.data,
              if IsField(line.text, "id") && '\0' !in value then Some(value) else before.id,
              if IsField(line.text, "retry") then ParseRetry(value) else before.retry,
              before.sawData || IsField(line.text, "data"))
  {
    hide Values, Ids, Last, Delay, IsField, FieldValue, ParseRetry, Size;
    var value := FieldValue(line.text);
    OneMoreValue(open, line, "event");
    OneMoreValue(open, line, "data");
    OneMoreValue(open, line, "id");
    OneMoreValue(open, line, "retry");
    NewestValue(Values(open, "event"), value);
    NewestValue(Values(open, "retry"), value);
    OneMoreId(Values(open, "id"), value);
    NewestValue(Ids(Values(open, "id")), value);
    assert Ids(Values(open, "id")) + [] == Ids(Values(open, "id"));
    assert |Values(open, "data") + [value]| > 0;
  }

  lemma BlankTaken<D>(st: ParserState<D>, open: seq<TextLine>, line: TextLine)
    requires st == Between(st.text, open).(frameBytes := Size(open) + line.size) && line.text == ""
    ensures ConsumeLine(st, "") == (Between(st.text, []), Says(open + [line]))
  {
    hide Values, Ids, Last, Delay, Join;
    OneMoreValue(open, line, "event");
    OneMoreValue(open, line, "data");
    OneMoreValue(open, line, "id");
    OneMoreValue(open, line, "retry");
    JoinNothing(st.data);
    FreshBetween(st.text);
  }

  lemma FreshBetween<D>(state: D)
    ensures Between(state, []) == ParserState(state, [], 0, None, [], None, None, false)
  {}

  /** What the machine does with a line that is not blank. */
  lemma FieldTaken<D>(st: ParserState<D>, text: string)
    requires text != ""
    ensures ConsumeLine(st, text) ==
            (if IsField(text, "event") then st.(event := Some(FieldValue(text)))
             else if IsField(text, "data") then st.(data := st.data + [FieldValue(text)], sawData := true)
             else if IsField(text, "id") then (if '\0' in FieldValue(text) then st else st.(id := Some(FieldValue(text))))
             else if IsField(text, "retry") then st.(retry := ParseRetry(FieldValue(text)))
             else st, [])
  {
    hide FieldName, FieldValue, ParseRetry;
  }

  lemma OneName(text: string)
    ensures IsField(text, "event") ==> !IsField(text, "data") && !IsField(text, "id") && !IsField(text, "retry")
    ensures IsField(text, "data") ==> !IsField(text, "id") && !IsField(text, "retry")
    ensures IsField(text, "id") ==> !IsField(text, "retry")
  {
    hide FieldName;
    assert |"id"| == 2 && |"data"| == 4 && "event"[0] == 'e' && "retry"[0] == 'r';
  }

  lemma NewestValue(values: seq<string>, value: string)
    ensures Last(values + [value]) == Some(value) && Delay(values + [value]) == ParseRetry(value)
  {}

  lemma JoinNothing(data: seq<string>)
    ensures data == [] ==> Join(data, "\n") == ""
  {}

  lemma OneMoreValue(open: seq<TextLine>, line: TextLine, name: string)
    ensures Values(open + [line], name) ==
            if IsField(line.text, name) then Values(open, name) + [FieldValue(line.text)] else Values(open, name)
  {
    var more := open + [line];
    assert more[..|more| - 1] == open;
  }

  lemma OneMoreId(values: seq<string>, value: string)
    ensures Ids(values + [value]) == Ids(values) + if '\0' in value then [] else [value]
  {
    var more := values + [value];
    assert more[..|more| - 1] == values;
  }

  lemma {:induction false} SizeAppend(a: seq<TextLine>, b: seq<TextLine>)
    ensures Size(a + b) == Size(a) + Size(b)
    decreases |b|
  {
    if b == [] {
      assert a + b == a;
    } else {
      assert (a + b)[..|a + b| - 1] == a + b[..|b| - 1];
      SizeAppend(a, b[..|b| - 1]);
    }
  }

  /** Once the open frame is too large, so is the first frame, or the open one stays so. */
  lemma {:induction false} StaysTooLarge(max: nat, open: seq<TextLine>, lines: seq<TextLine>)
    requires Size(open) > max
    ensures var grouped := Group(open, lines);
            && Fitting(max, grouped.frames) == []
            && if grouped.frames == [] then Size(grouped.open) > max else Size(grouped.frames[0]) > max
    decreases |lines|
  {
    if lines != [] {
      SizeAppend(open, [lines[0]]);
      if lines[0].text != "" {
        StaysTooLarge(max, open + [lines[0]], lines[1..]);
      }
    }
  }

  /** The reading of an input that begins with a complete line. */
  lemma ReadLine<D>(decoder: TextDecoder<D>, state: D, open: seq<TextLine>, bytes: seq<Byte>)
    requires FirstLine(bytes).Some?
    ensures var (length, terminator) := FirstLine(bytes).value;
            var decoded := decoder.decode(state, bytes[..length]);
            var r := Read(decoder, state, open, bytes);
            && (decoded.None? ==> !r.ok && r.frames == [])
            && (decoded.Some? ==>
                  var line := TextLine(decoded.value.1, length + terminator);
                  var rest := Read(decoder, decoded.value.0, if line.text == "" then [] else open + [line], bytes[length + terminator..]);
                  r == if line.text == "" then rest.(frames := [open + [line]] + rest.frames) else rest)
  {
    hide FirstLine;
    var (length, terminator) := FirstLine(bytes).value;
    var broken, rest := Break(bytes), Break(bytes[length + terminator..]);
    assert broken.lines[0] == RawLine(bytes[..length], length + terminator) && broken.lines[1..] == rest.lines;
    var decoded := decoder.decode(state, bytes[..length]);
    if decoded.Some? {
      var line := TextLine(decoded.value.1, length + terminator);
      var texts := DecodeLines(decoder, decoded.value.0, rest.lines).lines;
      assert ([line] + texts)[0] == line && ([line] + texts)[1..] == texts;
    }
  }

  /** The reading of an input without a complete line. */
  lemma ReadTail<D>(decoder: TextDecoder<D>, state: D, open: seq<TextLine>, bytes: seq<Byte>)
    requires FirstLine(bytes).None?
    ensures Read(decoder, state, open, bytes) == Reading([], open, bytes, true, state)
  {}

  /** A complete line is closed, and the machine goes on behind it. */
  lemma FeedLine<D>(cfg: Config<D>, st: ParserState<D>, bytes: seq<Byte>)
    requires FirstLine(bytes).Some? && st.pending == [] && st.frameBytes <= cfg.maxFrameBytes
    ensures var (length, terminator) := FirstLine(bytes).value;
            var closed := CloseLine(cfg, st, bytes[..length], terminator);
            Feed(cfg, st, bytes) ==
            if closed.next.None? then closed
            else Feed(cfg, closed.next.value, bytes[length + terminator..]).After(closed.frames)
  {
    hide Feed, CloseLine;
    var (length, terminator) := FirstLine(bytes).value;
    var seg := bytes[..length];
    assert st.pending + seg == seg;
    if bytes[length] == LF {
      assert bytes == seg + [LF] + bytes[length + 1..];
      FeedLfLine(cfg, st, seg, bytes[length + 1..]);
    } else {
      var rest := bytes[length + 1..];
      assert bytes == seg + [CR] + rest;
      FeedCrLine(cfg, st, seg, rest);
      assert terminator == 2 ==> rest[1..] == bytes[length + 2..];
    }
  }

  /** An input without a complete line is buffered if it fits. */
  lemma FeedTail<D>(cfg: Config<D>, st: ParserState<D>, bytes: seq<Byte>)
    requires FirstLine(bytes).None? && st.pending == [] && st.frameBytes <= cfg.maxFrameBytes
    ensures Feed(cfg, st, bytes) ==
            if st.frameBytes + |bytes| > cfg.maxFrameBytes then Fed([], None) else Fed([], Some(st.(pending := bytes)))
  {
    hide Feed;
    if FirstEnd(bytes).None? {
      FeedPlain(cfg, st, bytes);
      assert st.pending + bytes == bytes;
    } else {
      var seg := bytes[..|bytes| - 1];
      assert bytes == seg + [CR];
      FeedHeldCr(cfg, st, seg);
      assert st.pending + seg + [CR] == bytes;
    }
  }

  /** What one line does, told by its decoding. */
  lemma CloseIsTaken<D>(cfg: Config<D>, st: ParserState<D>, open: seq<TextLine>, content: seq<Byte>, terminator: nat)
    requires st == Between(st.text, open)
    ensures var decoded := cfg.decoder.decode(st.text, content);
            var size := |content| + terminator;
            CloseLine(cfg, st, content, terminator) ==
            if Size(open) + size > cfg.maxFrameBytes || decoded.None? then Fed([], None)
            else
              var line := TextLine(decoded.value.1, size);
              if line.text == "" then Fed(Says(open + [line]), Some(Between(decoded.value.0, [])))
              else Fed([], Some(Between(decoded.value.0, open + [line])))
  {
    hide ConsumeLine, Says, Between;
    var decoded := cfg.decoder.decode(st.text, content);
    var size := |content| + terminator;
    if Size(open) + size <= cfg.maxFrameBytes && decoded.Some? {
      var line := TextLine(decoded.value.1, size);
      BetweenOther(st.text, decoded.value.0, open, Size(open) + size);
      LineTaken(Between(decoded.value.0, open).(frameBytes := Size(open) + size), open, line);
    }
    assert Between(st.text, open).frameBytes == Size(open) by {
      BetweenOther(st.text, st.text, open, 0);
    }
  }

  lemma BetweenOther<D>(a: D, b: D, open: seq<TextLine>, size: nat)
    ensures Between(a, open).frameBytes == Size(open)
    ensures Between(a, open).(text := b, pending := [], frameBytes := size) == Between(b, open).(frameBytes := size)
  {}

  /**
   From any line boundary: the machine dispatches the frames of the one-shot
   reading that come before the first oversized one, stops exactly when a line
   cannot be decoded or a complete or unfinished frame is too large, and
   otherwise ends where the reading ends.
   */
  lemma {:induction false} FeedIsRead<D>(cfg: Config<D>, state: D, open: seq<TextLine>, bytes: seq<Byte>)
    requires Size(open) <= cfg.maxFrameBytes
    ensures var fed, r := Feed(cfg, Between(state, open), bytes), Read(cfg.decoder, state, open, bytes);
            && (fed.next.None? <==> !r.ok || TooLarge(cfg.maxFrameBytes, r))
            && fed.frames == AllSay(Fitting(cfg.maxFrameBytes, r.frames))
            && (fed.next.Some? ==> fed.next.value == Between(r.state, r.open).(pending := r.tail))
    decreases |bytes|
  {
    hide Feed, FirstLine, Between, CloseLine, Says;
    var st, max := Between(state, open), cfg.maxFrameBytes;
    BetweenParts(state, open);
    var r := Read(cfg.decoder, state, open, bytes);
    if FirstLine(bytes).None? {
      hide Read;
      FeedTail(cfg, st, bytes);
      ReadTail(cfg.decoder, state, open, bytes);
    } else {
      hide Read, TooLarge;
      var (length, terminator) := FirstLine(bytes).value;
      FeedLine(cfg, st, bytes);
      ReadLine(cfg.decoder, state, open, bytes);
      CloseIsTaken(cfg, st, open, bytes[..length], terminator);
      var decoded := cfg.decoder.decode(state, bytes[..length]);
      if decoded.Some? {
        var line := TextLine(decoded.value.1, length + terminator);
        SizeAppend(open, [line]);
        OneSize(line);
        var rest := bytes[length + terminator..];
        if Size(open) + line.size > max {
          TooLargeHere(cfg, state, open, bytes);
        } else if line.text == "" {
          NoSize();
          FeedIsRead(cfg, decoded.value.0, [], rest);
          OneMoreFrame(max, open + [line], Read(cfg.decoder, decoded.value.0, [], rest));
        } else {
          FeedIsRead(cfg, decoded.value.0, open + [line], rest);
          NothingBefore(Feed(cfg, Between(decoded.value.0, open + [line]), rest));
        }
      }
    }
  }

  lemma BetweenParts<D>(state: D, open: seq<TextLine>)
    ensures var st := Between(state, open); st.text == state && st.pending == [] && st.frameBytes == Size(open)
  {}

  lemma OneSize(line: TextLine)
    ensures Size([line]) == line.size
  {
    assert [line][..0] == [];
  }

  lemma NoSize()
    ensures Size([]) == 0
  {}

  lemma NothingBefore<D>(fed: Fed<D>)
    ensures fed.After([]) == fed
  {}

  lemma OneMoreFrame<D>(max: nat, frame: seq<TextLine>, rest: Reading<D>)
    requires Size(frame) <= max
    ensures var r := rest.(frames := [frame] + rest.frames);
            && (TooLarge(max, r) <==> TooLarge(max, rest))
            && AllSay(Fitting(max, r.frames)) == Says(frame) + AllSay(Fitting(max, rest.frames))
  {
    hide Says;
    var r := rest.(frames := [frame] + rest.frames);
    assert r.frames[0] == frame && r.frames[1..] == rest.frames;
    assert forall i :: 0 <= i < |rest.frames| ==> r.frames[i + 1] == rest.frames[i];
    var fitting := Fitting(max, rest.frames);
    assert ([frame] + fitting)[0] == frame && ([frame] + fitting)[1..] == fitting;
  }

  /** A line that makes its frame too large: nothing is dispatched any more. */
  lemma TooLargeHere<D>(cfg: Config<D>, state: D, open: seq<TextLine>, bytes: seq<Byte>)
    requires FirstLine(bytes).Some?
    requires cfg.decoder.decode(state, bytes[..FirstLine(bytes).value.0]).Some?
    requires Size(open) + FirstLine(bytes).value.0 + FirstLine(bytes).value.1 > cfg.maxFrameBytes
    ensures var r := Read(cfg.decoder, state, open, bytes);
            TooLarge(cfg.maxFrameBytes, r) && Fitting(cfg.maxFrameBytes, r.frames) == []
  {
    hide FirstLine, Fitting, Group, Size, Read, DecodeLines, Break;
    var (length, terminator) := FirstLine(bytes).value;
    var (next, text) := cfg.decoder.decode(state, bytes[..length]).value;
    var line := TextLine(text, length + terminator);
    ReadLine(cfg.decoder, state, open, bytes);
    SizeAppend(open, [line]);
    OneSize(line);
    var r := Read(cfg.decoder, state, open, bytes);
    if text == "" {
      assert r.frames[0] == open + [line];
      FirstTooLarge(cfg.maxFrameBytes, r.frames);
    } else {
      RestTooLarge(cfg.maxFrameBytes, cfg.decoder, next, open + [line], bytes[length + terminator..]);
    }
  }

  lemma FirstTooLarge(max: nat, frames: seq<seq<TextLine>>)
    requires frames != [] && Size(frames[0]) > max
    ensures Fitting(max, frames) == []
  {}

  lemma RestTooLarge<D>(max: nat, decoder: TextDecoder<D>, state: D, open: seq<TextLine>, bytes: seq<Byte>)
    requires Size(open) > max
    ensures var r := Read(decoder, state, open, bytes); TooLarge(max, r) && Fitting(max, r.frames) == []
  {
    hide DecodeLines, Break, Group, Fitting;
    StaysTooLarge(max, open, DecodeLines(decoder, state, Break(bytes).lines).lines);
  }

  /**
   The whole parser against the one-shot reading, for every input: overflow (or
   an undecodable line) exactly when a frame of the reading is too large (or a
   line undecodable), and otherwise exactly the frames of the reading.
   */
  lemma ParserIsReference<D>(cfg: Config<D>, bytes: seq<Byte>)
    ensures var fed, r := Feed(cfg, Initial(cfg), bytes), Read(cfg.decoder, cfg.decoder.start, [], bytes);
            && (fed.next.None? <==> !r.ok || TooLarge(cfg.maxFrameBytes, r))
            && (fed.next.None? ==> fed.frames == AllSay(Fitting(cfg.maxFrameBytes, r.frames)))
            && (fed.next.Some? ==> fed.frames == AllSay(r.frames))
  {
    hide Feed, Read;
    assert Initial(cfg) == Between(cfg.decoder.start, []);
    FeedIsRead(cfg, cfg.decoder.start, [], bytes);
    var r := Read(cfg.decoder, cfg.decoder.start, [], bytes);
    if !TooLarge(cfg.maxFrameBytes, r) {
      AllFit(cfg.maxFrameBytes, r.frames);
    }
  }

  lemma {:induction false} AllFit(max: nat, frames: seq<seq<TextLine>>)
    requires forall i :: 0 <= i < |frames| ==> Size(frames[i]) <= max
    ensures Fitting(max, frames) == frames
    decreases |frames|
  {
    if frames != [] {
      AllFit(max, frames[1..]);
      assert frames == [frames[0]] + frames[1..];
    }
  }

  /** With a decoder that decodes every line: overflow exactly when a complete or unfinished frame exceeds the limit. */
  lemma OverflowExactlyWhen<D(!new)>(cfg: Config<D>, bytes: seq<Byte>)
    requires forall d, line :: cfg.decoder.decode(d, line).Some?
    ensures Feed(cfg, Initial(cfg), bytes).next.None? <==>
              TooLarge(cfg.maxFrameBytes, Read(cfg.decoder, cfg.decoder.start, [], bytes))
  {
    hide Feed, TooLarge;
    ParserIsReference(cfg, bytes);
    AllDecoded(cfg.decoder, cfg.decoder.start, Break(bytes).lines);
  }

  lemma {:induction false} AllDecoded<D(!new)>(decoder: TextDecoder<D>, state: D, lines: seq<RawLine>)
    requires forall d, line :: decoder.decode(d, line).Some?
    ensures DecodeLines(decoder, state, lines).ok
    decreases |lines|
  {
    if lines != [] {
      AllDecoded(decoder, decoder.decode(state, lines[0].content).value.0, lines[1..]);
    }
  }

  // ----- fields -----

  /** A line is split at its first colon, and one space behind it is dropped. */
  lemma FieldSplits(name: string, value: string)
    requires ':' !in name
    ensures FieldName(name + ":" + value) == name && FieldName(name + ": " + value) == name
    ensures FieldValue(name + ": " + value) == value
    ensures value == "" || value[0] != ' ' ==> FieldValue(name + ":" + value) == value
    ensures FieldName(name) == name && FieldValue(name) == ""
  {
    forall tail: string
      ensures FieldName(name + ":" + tail) == name && (tail == "" || tail[0] != ' ' ==> FieldValue(name + ":" + tail) == tail)
      ensures tail != "" && tail[0] == ' ' ==> FieldValue(name + ":" + tail) == tail[1..]
    {
      ColonAt(name, tail);
    }
    assert name + ": " + value == name + ":" + (" " + value);
    assert (" " + value)[1..] == value;
  }

  lemma ColonAt(name: string, tail: string)
    requires ':' !in name
    ensures IndexOf(name + ":" + tail, ':') == |name|
    ensures (name + ":" + tail)[..|name|] == name && (name + ":" + tail)[|name| + 1..] == tail
  {
    var line := name + ":" + tail;
    assert line[|name|] == ':' && forall i :: 0 <= i < |name| ==> line[i] == name[i];
    forall j | |name| < j <= |line|
      ensures ':' in line[..j]
    {
      assert line[..j][|name|] == ':';
    }
  }

  /** The decimal text of a number. */
  function Digits(n: nat): string {
    var last := [(n % 10) as char + '0'];
    if n < 10 then last else Digits(n / 10) + last
  }

  /** A retry delay is read as the decimal number it is. */
  lemma {:induction false} RetryReadBack(n: nat)
    ensures Digits(n) != "" && forall i :: 0 <= i < |Digits(n)| ==> '0' <= Digits(n)[i] <= '9'
    ensures DecimalValue(Digits(n)) == n && ParseRetry(Digits(n)) == Some(n)
  {
    var digits, last := Digits(n), (n % 10) as char + '0';
    if n < 10 {
      assert digits == [last] && digits[..0] == "";
      assert DecimalValue("") == 0;
    } else {
      RetryReadBack(n / 10);
      assert digits == Digits(n / 10) + [last] && digits[..|digits| - 1] == Digits(n / 10);
    }
    assert digits[|digits| - 1] == last && (last - '0') as int == n % 10;
  }
}
