/**
 Printing frames and parsing them back.

 A frame is printed line by line, each line ended by LF or CRLF, with comments
 anywhere between the fields; the blank line closes it.
 */
module SseRoundTrip {
  import opened Base
  import opened Sse

  /** One line a server may write. `digits` is the decimal text of a retry delay. */
  datatype WireLine =
    | CommentLine(text: string)
    | EventLine(name: string)
    | DataLine(text: string)
    | IdLine(text: string)
    | RetryLine(digits: string)

  /** The lines of a frame, each with its terminator (CRLF or LF), and the blank line's. */
  datatype WireFrame = WireFrame(lines: seq<(WireLine, bool)>, blankIsCrlf: bool)

  function LineText(line: WireLine): string {
    match line
    case CommentLine(text) => ":" + text
    case EventLine(name) => "event: " + name
    case DataLine(text) => "data: " + text
    case IdLine(text) => "id: " + text
    case RetryLine(digits) => "retry: " + digits
  }

  predicate Ascii(c: char) {
    c as int < 128
  }

  predicate OneLine(text: string) {
    '\n' !in text && '\r' !in text
  }

  predicate Writable(line: WireLine) {
    match line
    case CommentLine(text) => OneLine(text)
    case EventLine(name) => OneLine(name)
    case DataLine(text) => OneLine(text)
    case IdLine(text) => OneLine(text) && '\0' !in text
    case RetryLine(digits) => AllDigits(digits)
  }

  predicate WritableFrame(frame: WireFrame) {
    forall i :: 0 <= i < |frame.lines| ==> Writable(frame.lines[i].0)
  }

  // ----- the meaning of a frame, by its lines alone -----

  function LastEvent(lines: seq<(WireLine, bool)>): Option<string> {
    if lines == [] then None
    else
      match lines[|lines| - 1].0
      case EventLine(name) => Some(name)
      case _ => LastEvent(lines[..|lines| - 1])
  }

  function LastId(lines: seq<(WireLine, bool)>): Option<string> {
    if lines == [] then None
    else
      match lines[|lines| - 1].0
      case IdLine(text) => Some(text)
      case _ => LastId(lines[..|lines| - 1])
  }

  function LastRetry(lines: seq<(WireLine, bool)>): Option<nat> {
    if lines == [] then None
    else
      match lines[|lines| - 1].0
      case RetryLine(digits) => ParseRetry(digits)
      case _ => LastRetry(lines[..|lines| - 1])
  }

  function DataLines(lines: seq<(WireLine, bool)>): seq<string> {
    if lines == [] then []
    else
      DataLines(lines[..|lines| - 1]) +
      match lines[|lines| - 1].0
      case DataLine(text) => [text]
      case _ => []
  }

  /** A frame without data, or with empty data, stands for nothing. */
  function Meaning(frame: WireFrame): seq<SseEvent> {
    var data := Join(DataLines(frame.lines), "\n");
    if data == "" then []
    else [SseEvent(LastEvent(frame.lines), data, LastId(frame.lines), LastRetry(frame.lines))]
  }

  function Meanings(frames: seq<WireFrame>): seq<SseEvent> {
    if frames == [] then [] else Meaning(frames[0]) + Meanings(frames[1..])
  }

  // ----- printing -----

  /**
   A text encoding, and the decoder states in which it is undone. `clean` leaves
   room for a decoder that remembers whether it has seen its first line.
   */
  datatype Codec<!D> = Codec(encode: string -> seq<Byte>, clean: D -> bool)

  /** Decoding an encoded line from a clean state gives the line back. */
  ghost predicate Faithful<D(!new)>(decoder: TextDecoder<D>, codec: Codec<D>) {
    && codec.clean(decoder.start)
    && codec.encode("") == []
    && (forall d :: codec.clean(d) ==> decoder.flush(d))
    && (forall t :: OneLine(t) ==> LF !in codec.encode(t) && CR !in codec.encode(t))
    && (forall d, t :: codec.clean(d) && OneLine(t) && (t == "" || Ascii(t[0])) ==>
          var r := decoder.decode(d, codec.encode(t));
          r.Some? && r.value.1 == t && codec.clean(r.value.0))
  }

  function Eol(crlf: bool): seq<Byte> {
    if crlf then [CR, LF] else [LF]
  }

  function PrintLine<D>(codec: Codec<D>, line: (WireLine, bool)): seq<Byte> {
    codec.encode(LineText(line.0)) + Eol(line.1)
  }

  function PrintLines<D>(codec: Codec<D>, lines: seq<(WireLine, bool)>): seq<Byte> {
    if lines == [] then []
    else PrintLines(codec, lines[..|lines| - 1]) + PrintLine(codec, lines[|lines| - 1])
  }

  function PrintFrame<D>(codec: Codec<D>, frame: WireFrame): seq<Byte> {
    PrintLines(codec, frame.lines) + Eol(frame.blankIsCrlf)
  }

  function PrintFrames<D>(codec: Codec<D>, frames: seq<WireFrame>): seq<Byte> {
    if frames == [] then [] else PrintFrame(codec, frames[0]) + PrintFrames(codec, frames[1..])
  }

  // ----- one line -----

  lemma SplitField(name: string, value: string)
    requires ':' !in name && name != ""
    ensures var line := name + ": " + value;
            && FieldName(line) == name && FieldValue(line) == value
            && line != "" && line[0] != ':'
  {
    var line := name + ": " + value;
    assert line[|name|] == ':';
    assert forall k :: 0 <= k < |name| ==> line[k] == name[k] && name[k] in name;
    var i := IndexOf(line, ':');
    assert forall k :: 0 <= k < i ==> line[k] == line[..i][k] && line[..i][k] in line[..i];
    assert line[..i] == name;
    assert line[i + 1..] == " " + value;
    assert (" " + value)[1..] == value;
  }

  /** What a written line does to the fields collected so far. */
  function Apply<D>(st: ParserState<D>, line: WireLine): ParserState<D> {
    match line
    case CommentLine(_) => st
    case EventLine(name) => st.(event := Some(name))
    case DataLine(text) => st.(data := st.data + [text], sawData := true)
    case IdLine(text) => st.(id := Some(text))
    case RetryLine(digits) => st.(retry := ParseRetry(digits))
  }

  lemma LineUnderstood<D>(st: ParserState<D>, line: WireLine)
    requires Writable(line)
    ensures LineText(line) != "" && Ascii(LineText(line)[0]) && OneLine(LineText(line))
    ensures ConsumeLine(st, LineText(line)) == (Apply(st, line), [])
  {
    hide ConsumeLine;
    hide ParseRetry;
    LineIsText(line);
    match line
    case CommentLine(text) => CommentUnderstood(st, text);
    case EventLine(name) =>
      FieldUnderstood(st, "event", name);
      assert LineText(line) == "event" + ": " + name;
    case DataLine(text) =>
      FieldUnderstood(st, "data", text);
      assert LineText(line) == "data" + ": " + text;
    case IdLine(text) =>
      FieldUnderstood(st, "id", text);
      assert LineText(line) == "id" + ": " + text;
    case RetryLine(digits) =>
      FieldUnderstood(st, "retry", digits);
      assert LineText(line) == "retry" + ": " + digits;
  }

  lemma LineIsText(line: WireLine)
    requires Writable(line)
    ensures LineText(line) != "" && Ascii(LineText(line)[0]) && OneLine(LineText(line))
  {}

  lemma CommentUnderstood<D>(st: ParserState<D>, text: string)
    ensures ConsumeLine(st, ":" + text) == (st, [])
  {
    hide FieldName, FieldValue;
  }

  /** What the parser does with a field, by the field's name. */
  lemma FieldUnderstood<D>(st: ParserState<D>, name: string, value: string)
    requires name in {"event", "data", "id", "retry"}
    requires name == "id" ==> '\0' !in value
    ensures ConsumeLine(st, name + ": " + value) ==
            (if name == "event" then st.(event := Some(value))
             else if name == "data" then st.(data := st.data + [value], sawData := true)
             else if name == "id" then st.(id := Some(value))
             else st.(retry := ParseRetry(value)), [])
  {
    hide FieldName, FieldValue, ParseRetry;
    SplitField(name, value);
  }

  /** Bytes without a terminator, and their terminator: one line. */
  lemma ClosedByEol<D>(cfg: Config<D>, st: ParserState<D>, bytes: seq<Byte>, crlf: bool)
    requires LF !in bytes && CR !in bytes && st.pending == [] && st.frameBytes <= cfg.maxFrameBytes
    ensures Feed(cfg, st, bytes + Eol(crlf)) == CloseLine(cfg, st, bytes, |Eol(crlf)|)
  {
    hide CloseLine;
    hide Feed;
    assert st.pending + bytes == bytes;
    var closed := CloseLine(cfg, st, bytes, |Eol(crlf)|);
    if crlf {
      FeedCrLine(cfg, st, bytes, [LF]);
      assert bytes + [CR] + [LF] == bytes + Eol(crlf);
      assert [LF][1..] == [];
    } else {
      FeedLfLine(cfg, st, bytes, []);
      assert bytes + [LF] + [] == bytes + Eol(crlf);
    }
    if closed.next.Some? {
      FeedNothing(cfg, closed.next.value);
      assert closed.frames + [] == closed.frames;
    } else {
      NothingLost(cfg, st, bytes, |Eol(crlf)|);
    }
  }

  lemma NothingLost<D>(cfg: Config<D>, st: ParserState<D>, bytes: seq<Byte>, terminator: nat)
    ensures var closed := CloseLine(cfg, st, bytes, terminator); closed.next.None? ==> closed == Fed([], None)
  {
    hide ConsumeLine;
  }

  lemma {:induction false} CloseWritten<D(!new)>(cfg: Config<D>, codec: Codec<D>, st: ParserState<D>, text: string, crlf: bool)
    requires Faithful(cfg.decoder, codec) && codec.clean(st.text) && st.pending == []
    requires OneLine(text) && (text == "" || Ascii(text[0]))
    requires st.frameBytes + |codec.encode(text) + Eol(crlf)| <= cfg.maxFrameBytes
    ensures var r := Feed(cfg, st, codec.encode(text) + Eol(crlf));
            exists d :: codec.clean(d) &&
              var total := st.frameBytes + |codec.encode(text) + Eol(crlf)|;
              var (next, frames) := ConsumeLine(st.(text := d, frameBytes := total), text);
              r == Fed(frames, Some(next))
  {
    hide ConsumeLine;
    hide Feed;
    var bytes := codec.encode(text);
    var d := cfg.decoder.decode(st.text, bytes).value.0;
    ClosedByEol(cfg, st, bytes, crlf);
    assert st.(text := d, pending := [], frameBytes := st.frameBytes + |bytes| + |Eol(crlf)|)
        == st.(text := d, frameBytes := st.frameBytes + |bytes + Eol(crlf)|);
  }

  // ----- one frame -----

  /** A parser between two frames, with an undisturbed decoder. */
  ghost predicate AtFrameStart<D>(codec: Codec<D>, st: ParserState<D>) {
    st == ParserState(st.text, [], 0, None, [], None, None, false) && codec.clean(st.text)
  }

  /** The fields collected after some lines of a frame. */
  ghost predicate Collected<D>(codec: Codec<D>, st: ParserState<D>, lines: seq<(WireLine, bool)>) {
    && codec.clean(st.text) && st.pending == []
    && st.frameBytes == |PrintLines(codec, lines)|
    && st.event == LastEvent(lines) && st.data == DataLines(lines)
    && st.id == LastId(lines) && st.retry == LastRetry(lines)
    && (st.sawData <==> DataLines(lines) != [])
  }

  lemma {:induction false} LinesCollected<D(!new)>(cfg: Config<D>, codec: Codec<D>, st: ParserState<D>, lines: seq<(WireLine, bool)>)
    requires Faithful(cfg.decoder, codec) && AtFrameStart(codec, st)
    requires forall i :: 0 <= i < |lines| ==> Writable(lines[i].0)
    requires |PrintLines(codec, lines)| <= cfg.maxFrameBytes
    ensures var r := Feed(cfg, st, PrintLines(codec, lines));
            r.frames == [] && r.next.Some? && Collected(codec, r.next.value, lines)
    decreases |lines|
  {
    hide ConsumeLine;
    hide Feed;
    hide Faithful;
    hide Apply;
    hide Collected;
    if lines == [] {
      FeedNothing(cfg, st);
      NothingCollected(codec, st);
    } else {
      var init, last := lines[..|lines| - 1], lines[|lines| - 1];
      LinesCollected(cfg, codec, st, init);
      var r := Feed(cfg, st, PrintLines(codec, init));
      CollectedSoFar(codec, r.next.value, init);
      FeedAppend(cfg, st, PrintLines(codec, init), PrintLine(codec, last));
      LineUnderstood(r.next.value, last.0);
      CloseWritten(cfg, codec, r.next.value, LineText(last.0), last.1);
      var d :| codec.clean(d) && Feed(cfg, r.next.value, PrintLine(codec, last)) ==
        (var (next, frames) := ConsumeLine(r.next.value.(text := d, frameBytes := r.next.value.frameBytes + |PrintLine(codec, last)|), LineText(last.0));
         Fed(frames, Some(next)));
      LineUnderstood(r.next.value.(text := d, frameBytes := r.next.value.frameBytes + |PrintLine(codec, last)|), last.0);
      OneMoreCollected(codec, r.next.value, lines, d);
    }
  }

  /** The fields after one more line. */
  lemma OneMoreCollected<D>(codec: Codec<D>, st: ParserState<D>, lines: seq<(WireLine, bool)>, d: D)
    requires lines != [] && Collected(codec, st, lines[..|lines| - 1]) && codec.clean(d)
    ensures var last := lines[|lines| - 1];
            Collected(codec, Apply(st.(text := d, frameBytes := st.frameBytes + |PrintLine(codec, last)|), last.0), lines)
  {
    hide ParseRetry;
    hide PrintLine;
  }

  lemma NothingCollected<D>(codec: Codec<D>, st: ParserState<D>)
    requires AtFrameStart(codec, st)
    ensures Collected(codec, st, [])
  {}

  lemma CollectedSoFar<D>(codec: Codec<D>, st: ParserState<D>, lines: seq<(WireLine, bool)>)
    requires Collected(codec, st, lines)
    ensures codec.clean(st.text) && st.pending == [] && st.frameBytes == |PrintLines(codec, lines)|
  {}

  lemma {:induction false} FrameRoundTrip<D(!new)>(cfg: Config<D>, codec: Codec<D>, st: ParserState<D>, frame: WireFrame)
    requires Faithful(cfg.decoder, codec) && AtFrameStart(codec, st) && WritableFrame(frame)
    requires |PrintFrame(codec, frame)| <= cfg.maxFrameBytes
    ensures var r := Feed(cfg, st, PrintFrame(codec, frame));
            r.frames == Meaning(frame) && r.next.Some? && AtFrameStart(codec, r.next.value)
  {
    hide Feed;
    var lines, blank := PrintLines(codec, frame.lines), Eol(frame.blankIsCrlf);
    LinesCollected(cfg, codec, st, frame.lines);
    FeedAppend(cfg, st, lines, blank);
    var r := Feed(cfg, st, lines);
    assert codec.encode("") + blank == blank;
    CloseWritten(cfg, codec, r.next.value, "", frame.blankIsCrlf);
  }

  /** The bytes dispatch these frames and leave the parser between two frames. */
  ghost predicate Delivers<D>(cfg: Config<D>, codec: Codec<D>, st: ParserState<D>, bytes: seq<Byte>, frames: seq<SseEvent>) {
    var r := Feed(cfg, st, bytes);
    r.frames == frames && r.next.Some? && AtFrameStart(codec, r.next.value)
  }

  lemma {:induction false} FramesFed<D(!new)>(cfg: Config<D>, codec: Codec<D>, st: ParserState<D>, frames: seq<WireFrame>)
    requires Faithful(cfg.decoder, codec) && AtFrameStart(codec, st)
    requires forall i :: 0 <= i < |frames| ==> WritableFrame(frames[i]) && |PrintFrame(codec, frames[i])| <= cfg.maxFrameBytes
    ensures Delivers(cfg, codec, st, PrintFrames(codec, frames), Meanings(frames))
    decreases |frames|
  {
    hide Feed;
    hide Faithful;
    if frames == [] {
      FeedNothing(cfg, st);
    } else {
      FrameRoundTrip(cfg, codec, st, frames[0]);
      FeedAppend(cfg, st, PrintFrame(codec, frames[0]), PrintFrames(codec, frames[1..]));
      FramesFed(cfg, codec, Feed(cfg, st, PrintFrame(codec, frames[0])).next.value, frames[1..]);
    }
  }

  /**
   Printed frames, each within the limit, come back exactly, whatever the
   chunking of the bytes, and the end of the input is not a truncation.
   */
  lemma SseRoundTrip<D(!new)>(cfg: Config<D>, codec: Codec<D>, frames: seq<WireFrame>, chunks: seq<seq<Byte>>)
    requires Faithful(cfg.decoder, codec)
    requires forall i :: 0 <= i < |frames| ==> WritableFrame(frames[i]) && |PrintFrame(codec, frames[i])| <= cfg.maxFrameBytes
    requires Flatten(chunks) == PrintFrames(codec, frames)
    ensures var r := FeedChunks(cfg, Initial(cfg), chunks);
            && r.frames == Meanings(frames)
            && r.next.Some?
            && Finish(cfg, r.next.value) == Some([])
  {
    ChunkIndependence(cfg, Initial(cfg), chunks);
    FramesFed(cfg, codec, Initial(cfg), frames);
  }
}
