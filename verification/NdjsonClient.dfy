/**
 The client's reading of a turn: lines of JSON cut out of chunks, the limits,
 and the loop over the chunks.
 */
module NdjsonClient {
  import opened Base
  import opened Events
  import opened EventJson
  import opened Requests

  /**
   The limits, `JSON.parse`, and the number of UTF-8 bytes of a character. An
   event is the parsed object itself, once it has passed the field checks.
   */
  datatype Client = Client(
    maxLineBytes: nat, maxTotalBytes: nat, width: char -> nat, parse: string -> Option<Json>)

  /** One network chunk: its size, and the text the streaming decoder gives for it. */
  datatype Chunk = Chunk(size: nat, text: string)

  function Bytes(c: Client, text: string): nat {
    if text == "" then 0 else Bytes(c, text[..|text| - 1]) + c.width(text[|text| - 1])
  }

  /** The complete lines of a text. */
  function Lines(text: string): seq<string> {
    if text == "" then []
    else
      var front := text[..|text| - 1];
      if text[|text| - 1] == '\n' then Lines(front) + [Tail(front)] else Lines(front)
  }

  /** What follows the last line feed. */
  function Tail(text: string): string {
    if text == "" || text[|text| - 1] == '\n' then "" else Tail(text[..|text| - 1]) + [text[|text| - 1]]
  }

  /** Events so far; `ok` is false once the stream is refused. */
  datatype Parsed = Parsed(events: seq<Json>, terminated: bool, ok: bool)

  function StripCr(line: string): string {
    if line != "" && line[|line| - 1] == '\r' then line[..|line| - 1] else line
  }

  function TakeLine(c: Client, so: Parsed, raw: string): Parsed {
    var line := StripCr(raw);
    if !so.ok || line == "" then so
    else if Bytes(c, line) > c.maxLineBytes || so.terminated || c.parse(line).None? || !ValidEvent(c.parse(line).value) then so.(ok := false)
    else
      var event := c.parse(line).value;
      Parsed(so.events + [event], IsTerminal(event), true)
  }

  function TakeLines(c: Client, so: Parsed, lines: seq<string>): Parsed {
    if lines == [] then so else TakeLine(c, TakeLines(c, so, lines[..|lines| - 1]), lines[|lines| - 1])
  }

  /** Between two chunks: the parsed lines, the unfinished one, the bytes received. */
  datatype Reading = Reading(so: Parsed, buffer: string, total: nat)

  function Refuse(at: Reading): Reading {
    at.(so := at.so.(ok := false))
  }

  function TakeChunk(c: Client, at: Reading, chunk: Chunk): Reading {
    var whole := at.buffer + chunk.text;
    if !at.so.ok then at
    else if at.total + chunk.size > c.maxTotalBytes then Refuse(at)
    else if Bytes(c, whole) > c.maxLineBytes && '\n' !in whole then Refuse(at)
    else if Bytes(c, Tail(whole)) > c.maxLineBytes then Refuse(at)
    else Reading(TakeLines(c, at.so, Lines(whole)), Tail(whole), at.total + chunk.size)
  }

  function TakeChunks(c: Client, at: Reading, chunks: seq<Chunk>): Reading {
    if chunks == [] then at
    else TakeChunk(c, TakeChunks(c, at, chunks[..|chunks| - 1]), chunks[|chunks| - 1])
  }

  const FRESH := Parsed([], false, true)
  const START := Reading(FRESH, "", 0)

  /** At the end of the stream there must be no unfinished line, and a terminal event. */
  function AtEnd(so: Parsed, buffer: string): Parsed {
    if so.ok && (buffer != "" || !so.terminated) then so.(ok := false) else so
  }

  function ParseStream(c: Client, chunks: seq<Chunk>): Parsed {
    var at := TakeChunks(c, START, chunks);
    AtEnd(at.so, at.buffer)
  }

  method ParseNdjsonStream(c: Client, chunks: seq<Chunk>) returns (events: seq<Json>, ok: bool)
    ensures var parsed := ParseStream(c, chunks); events == parsed.events && ok == parsed.ok
  {
    hide Bytes, Lines, Tail, TakeLines;
    var buffer, terminated := "", false;
    var totalBytes: nat := 0;
    events, ok := [], true;
    for i := 0 to |chunks|
      invariant TakeChunks(c, START, chunks[..i]) == Reading(Parsed(events, terminated, true), buffer, totalBytes)
    {
      assert chunks[..i + 1][..i] == chunks[..i] && chunks[..i + 1] + chunks[i + 1..] == chunks;
      ghost var at := TakeChunks(c, START, chunks[..i]);
      totalBytes := totalBytes + chunks[i].size;
      if totalBytes > c.maxTotalBytes {
        StaysRefused(c, START, chunks[..i + 1], chunks[i + 1..]);
        return events, false;
      }
      buffer := buffer + chunks[i].text;
      if Bytes(c, buffer) > c.maxLineBytes && '\n' !in buffer {
        StaysRefused(c, START, chunks[..i + 1], chunks[i + 1..]);
        return events, false;
      }
      var lines := Lines(buffer);
      buffer := Tail(buffer);
      if Bytes(c, buffer) > c.maxLineBytes {
        StaysRefused(c, START, chunks[..i + 1], chunks[i + 1..]);
        return events, false;
      }
      assert TakeChunks(c, START, chunks[..i + 1]) == Reading(TakeLines(c, at.so, lines), buffer, totalBytes);
      var taken;
      events, terminated, taken := ReadLines(c, events, terminated, lines);
      if !taken {
        StaysRefused(c, START, chunks[..i + 1], chunks[i + 1..]);
        return events, false;
      }
    }
    assert chunks[..|chunks|] == chunks;
    ok := buffer == "" && terminated;
  }

  /** The inner loop, over the complete lines of one chunk. */
  method ReadLines(c: Client, before: seq<Json>, ended: bool, lines: seq<string>)
    returns (events: seq<Json>, terminated: bool, ok: bool)
    ensures Parsed(events, terminated, ok) == TakeLines(c, Parsed(before, ended, true), lines)
  {
    hide Bytes, ValidEvent, IsTerminal;
    events, terminated, ok := before, ended, true;
    ghost var so := Parsed(before, ended, true);
    for j := 0 to |lines|
      invariant TakeLines(c, so, lines[..j]) == Parsed(events, terminated, true)
    {
      assert lines[..j + 1][..j] == lines[..j];
      var line := StripCr(lines[j]);
      if line == "" {
        continue;
      }
      var value := c.parse(line);
      if Bytes(c, line) > c.maxLineBytes || terminated || value.None? || !ValidEvent(value.value) {
        LinesRefused(c, so, lines, j);
        return events, terminated, false;
      }
      events := events + [value.value];
      terminated := IsTerminal(value.value);
    }
    assert lines[..|lines|] == lines;
    ok := true;
  }

  lemma {:induction false} LinesRefused(c: Client, so: Parsed, lines: seq<string>, j: nat)
    requires j < |lines| && !TakeLines(c, so, lines[..j + 1]).ok
    ensures TakeLines(c, so, lines) == TakeLines(c, so, lines[..j + 1])
    decreases |lines|
  {
    if j + 1 == |lines| {
      assert lines[..j + 1] == lines;
    } else {
      assert lines[..|lines| - 1][..j + 1] == lines[..j + 1];
      LinesRefused(c, so, lines[..|lines| - 1], j);
    }
  }

  lemma {:induction false} StaysRefused(c: Client, at: Reading, front: seq<Chunk>, rest: seq<Chunk>)
    requires !TakeChunks(c, at, front).so.ok
    ensures TakeChunks(c, at, front + rest) == TakeChunks(c, at, front)
    decreases |rest|
  {
    if rest == [] {
      assert front + rest == front;
    } else {
      StaysRefused(c, at, front, rest[..|rest| - 1]);
      assert (front + rest)[..|front + rest| - 1] == front + rest[..|rest| - 1];
    }
  }

  // ----- what the chunking can change -----

  function WholeText(chunks: seq<Chunk>): string {
    if chunks == [] then "" else WholeText(chunks[..|chunks| - 1]) + chunks[|chunks| - 1].text
  }

  function Size(chunks: seq<Chunk>): nat {
    if chunks == [] then 0 else Size(chunks[..|chunks| - 1]) + chunks[|chunks| - 1].size
  }

  /** The whole text at once, with no limit on an unfinished line. */
  function OneShot(c: Client, text: string): Parsed {
    AtEnd(TakeLines(c, FRESH, Lines(text)), Tail(text))
  }

  lemma {:induction false} CutText(a: string, b: string)
    ensures Lines(a + b) == Lines(a) + Lines(Tail(a) + b) && Tail(a + b) == Tail(Tail(a) + b)
    decreases |b|
  {
    if b == "" {
      assert a + b == a && Tail(a) + b == Tail(a);
      TailIsTail(a);
    } else {
      var front := b[..|b| - 1];
      CutText(a, front);
      assert (a + b)[..|a + b| - 1] == a + front;
      assert (Tail(a) + b)[..|Tail(a) + b| - 1] == Tail(a) + front;
    }
  }

  lemma {:induction false} TailIsTail(a: string)
    ensures Tail(Tail(a)) == Tail(a) && Lines(Tail(a)) == [] && '\n' !in Tail(a)
  {
    if a != "" && a[|a| - 1] != '\n' {
      var front := a[..|a| - 1];
      TailIsTail(front);
      assert Tail(a)[..|Tail(a)| - 1] == Tail(front);
    }
  }

  lemma {:induction false} LinesInTurn(c: Client, so: Parsed, a: seq<string>, b: seq<string>)
    ensures TakeLines(c, so, a + b) == TakeLines(c, TakeLines(c, so, a), b)
    decreases |b|
  {
    if b == [] {
      assert a + b == a;
    } else {
      LinesInTurn(c, so, a, b[..|b| - 1]);
      assert (a + b)[..|a + b| - 1] == a + b[..|b| - 1];
    }
  }

  /** A text whose unfinished line never exceeds the limit, wherever it is interrupted. */
  predicate Fits(c: Client, text: string) {
    text == "" || (Fits(c, text[..|text| - 1]) && Bytes(c, Tail(text)) <= c.maxLineBytes)
  }

  lemma {:induction false} FitsPrefix(c: Client, a: string, b: string)
    requires Fits(c, a + b)
    ensures Fits(c, a)
    decreases |b|
  {
    if b == "" {
      assert a + b == a;
    } else {
      assert (a + b)[..|a + b| - 1] == a + b[..|b| - 1];
      FitsPrefix(c, a, b[..|b| - 1]);
    }
  }

  /** A text without a line feed is its own tail. */
  lemma {:induction false} NoFeed(text: string)
    requires '\n' !in text
    ensures Tail(text) == text
  {
    if text != "" {
      NoFeed(text[..|text| - 1]);
    }
  }

  /** A reading that was not refused has read what the whole text says, whatever the chunks. */
  lemma {:induction false} ReadingAgrees(c: Client, chunks: seq<Chunk>)
    ensures var at := TakeChunks(c, START, chunks);
            at.so.ok ==>
              && at.so == TakeLines(c, FRESH, Lines(WholeText(chunks)))
              && at.buffer == Tail(WholeText(chunks))
              && at.total == Size(chunks) <= c.maxTotalBytes
    decreases |chunks|
  {
    hide Bytes, TakeLine, TakeLines, Lines, Tail;
    if chunks == [] {
      EmptyText(c);
    } else {
      var front, last := chunks[..|chunks| - 1], chunks[|chunks| - 1];
      ReadingAgrees(c, front);
      var at := TakeChunks(c, START, front);
      CutText(WholeText(front), last.text);
      LinesInTurn(c, FRESH, Lines(WholeText(front)), Lines(Tail(WholeText(front)) + last.text));
      assert TakeChunks(c, START, chunks) == TakeChunk(c, at, last);
    }
  }

  lemma EmptyText(c: Client)
    ensures Lines("") == [] && Tail("") == "" && TakeLines(c, FRESH, []) == FRESH
  {
  }

  /** Whatever the chunks: a stream that is accepted gives the events of its text. */
  lemma AcceptedIsOneShot(c: Client, chunks: seq<Chunk>)
    ensures ParseStream(c, chunks).ok ==> ParseStream(c, chunks) == OneShot(c, WholeText(chunks))
  {
    hide TakeChunks, TakeLines, Lines, Tail, WholeText, Size;
    ReadingAgrees(c, chunks);
  }

  /** A refused reading stays as it is. */
  lemma {:induction false} RefusedStays(c: Client, so: Parsed, lines: seq<string>)
    requires !so.ok
    ensures TakeLines(c, so, lines) == so
    decreases |lines|
  {
    hide Bytes, ValidEvent, IsTerminal;
    if lines != [] {
      RefusedStays(c, so, lines[..|lines| - 1]);
    }
  }

  /** A text that fits, within the total, is read to the same result in any chunks, refused or not. */
  lemma {:induction false} FittingIsRead(c: Client, chunks: seq<Chunk>)
    requires Fits(c, WholeText(chunks)) && Size(chunks) <= c.maxTotalBytes
    ensures TakeChunks(c, START, chunks).so == TakeLines(c, FRESH, Lines(WholeText(chunks)))
    decreases |chunks|
  {
    hide Bytes, TakeLine, TakeLines, Lines, Tail, Fits;
    if chunks == [] {
      EmptyText(c);
    } else {
      var front, last := chunks[..|chunks| - 1], chunks[|chunks| - 1];
      var a := WholeText(front);
      FitsPrefix(c, a, last.text);
      CutText(a, last.text);
      LinesInTurn(c, FRESH, Lines(a), Lines(Tail(a) + last.text));
      FittingIsRead(c, front);
      ReadingAgrees(c, front);
      var at := TakeChunks(c, START, front);
      if at.so.ok {
        FittingChunk(c, at, a, last);
      } else {
        RefusedStays(c, at.so, Lines(Tail(a) + last.text));
      }
    }
  }

  lemma FittingChunk(c: Client, at: Reading, a: string, chunk: Chunk)
    requires Fits(c, a + chunk.text) && at.so.ok && at.buffer == Tail(a)
    requires at.total + chunk.size <= c.maxTotalBytes
    ensures TakeChunk(c, at, chunk).so == TakeLines(c, at.so, Lines(Tail(a) + chunk.text))
  {
    hide Bytes, TakeLines, Lines, Tail, Fits;
    var whole := at.buffer + chunk.text;
    CutText(a, chunk.text);
    FitsHere(c, a + chunk.text);
    if '\n' !in whole {
      NoFeed(whole);
    }
  }

  lemma FitsHere(c: Client, text: string)
    requires Fits(c, text)
    ensures Bytes(c, Tail(text)) <= c.maxLineBytes
  {
  }

  /** The finest chunking: one character at a time. */
  function Singles(c: Client, text: string): seq<Chunk> {
    if text == "" then []
    else
      var last := text[|text| - 1];
      Singles(c, text[..|text| - 1]) + [Chunk(c.width(last), [last])]
  }

  lemma {:induction false} SinglesText(c: Client, text: string)
    ensures WholeText(Singles(c, text)) == text && Size(Singles(c, text)) == Bytes(c, text)
  {
    hide WholeText, Size, Bytes, Singles;
    if text == "" {
      NoSingles(c);
    } else {
      var front, last := text[..|text| - 1], text[|text| - 1];
      SinglesText(c, front);
      OneMoreSingle(c, front, last);
      OneMoreChunk(Singles(c, front), Chunk(c.width(last), [last]));
      assert text == front + [last];
    }
  }

  lemma NoSingles(c: Client)
    ensures Singles(c, "") == [] && WholeText([]) == "" && Size([]) == 0 && Bytes(c, "") == 0
  {}

  lemma OneMoreSingle(c: Client, front: string, last: char)
    ensures Singles(c, front + [last]) == Singles(c, front) + [Chunk(c.width(last), [last])]
    ensures Bytes(c, front + [last]) == Bytes(c, front) + c.width(last)
  {
    assert (front + [last])[..|front|] == front;
  }

  lemma OneMoreChunk(chunks: seq<Chunk>, last: Chunk)
    ensures WholeText(chunks + [last]) == WholeText(chunks) + last.text && Size(chunks + [last]) == Size(chunks) + last.size
  {
    assert (chunks + [last])[..|chunks|] == chunks;
  }

  lemma {:induction false} SinglesMustFit(c: Client, text: string)
    requires TakeChunks(c, START, Singles(c, text)).so.ok
    ensures Fits(c, text)
    decreases |text|
  {
    hide Bytes, TakeLines, Lines, Tail, Size;
    if text != "" {
      var front, last := text[..|text| - 1], text[|text| - 1];
      var chunks := Singles(c, front);
      assert Singles(c, text) == chunks + [Chunk(c.width(last), [last])];
      assert Singles(c, text)[..|chunks|] == chunks;
      SinglesMustFit(c, front);
      ReadingAgrees(c, chunks);
      SinglesText(c, front);
      CutText(front, [last]);
      assert front + [last] == text;
    }
  }

  /**
   A text gets through however it is cut up, exactly when it gets through at
   once, is within the total, and no unfinished line in it exceeds the limit.
   */
  lemma AcceptedHoweverCut(c: Client, text: string)
    ensures (forall chunks :: WholeText(chunks) == text && Size(chunks) == Bytes(c, text) ==> ParseStream(c, chunks).ok)
            <==> (Fits(c, text) && Bytes(c, text) <= c.maxTotalBytes && OneShot(c, text).ok)
  {
    hide TakeChunks, TakeLines, Lines, Tail, WholeText, Size, Fits, Bytes, Singles;
    if Fits(c, text) && Bytes(c, text) <= c.maxTotalBytes && OneShot(c, text).ok {
      forall chunks | WholeText(chunks) == text && Size(chunks) == Bytes(c, text)
        ensures ParseStream(c, chunks).ok
      {
        FittingIsRead(c, chunks);
        ReadingAgrees(c, chunks);
      }
    }
    SinglesText(c, text);
    if ParseStream(c, Singles(c, text)).ok {
      SinglesMustFit(c, text);
      ReadingAgrees(c, Singles(c, text));
      AcceptedIsOneShot(c, Singles(c, text));
    }
  }

  // ----- one text, two cuttings -----

  /**
   Refusals depend on the cutting: a line of exactly the limit, ended by CR LF, is
   read when it comes in one chunk, and refused when the LF comes alone.
   */
  lemma RefusalDependsOnCut(c: Client, line: string)
    requires line != "" && '\n' !in line && line[|line| - 1] != '\r' && Bytes(c, line) == c.maxLineBytes && c.width('\r') > 0
    requires c.parse(line).Some? && ValidEvent(c.parse(line).value) && IsTerminal(c.parse(line).value)
    requires c.maxLineBytes + c.width('\r') + c.width('\n') <= c.maxTotalBytes
    ensures ParseStream(c, [Chunk(c.maxLineBytes + c.width('\r') + c.width('\n'), line + "\r\n")])
         == Parsed([c.parse(line).value], true, true)
    ensures !ParseStream(c, [Chunk(c.maxLineBytes + c.width('\r'), line + "\r"), Chunk(c.width('\n'), "\n")]).ok
  {
    hide ValidEvent, IsTerminal;
    var held := line + "\r";
    assert held[..|line|] == line;
    NoFeed(held);
    NoLines(held);
    assert (held + "\n")[..|held|] == held;
    assert line + "\r\n" == held + "\n";
    AtOnce(c, held, line);
    InTwo(c, held, Chunk(c.maxLineBytes + c.width('\r'), held), Chunk(c.width('\n'), "\n"));
  }

  lemma InTwo(c: Client, held: string, one: Chunk, two: Chunk)
    requires held == one.text && '\n' !in held && Bytes(c, held) > c.maxLineBytes
    ensures !ParseStream(c, [one, two]).ok
  {
    hide Bytes, Lines, Tail, TakeLines;
    assert [one][..0] == [] && [one, two][..1] == [one];
    assert "" + held == held;
    assert TakeChunks(c, START, [one]) == TakeChunk(c, START, one);
  }

  lemma AtOnce(c: Client, held: string, line: string)
    requires held == line + "\r" && line != "" && Bytes(c, line) == c.maxLineBytes
    requires c.parse(line).Some? && ValidEvent(c.parse(line).value) && IsTerminal(c.parse(line).value)
    requires c.maxLineBytes + c.width('\r') + c.width('\n') <= c.maxTotalBytes
    requires Lines(held + "\n") == [held] && Tail(held + "\n") == ""
    ensures ParseStream(c, [Chunk(c.maxLineBytes + c.width('\r') + c.width('\n'), held + "\n")]) == Parsed([c.parse(line).value], true, true)
  {
    hide ValidEvent, IsTerminal, Lines, Tail;
    var chunk := Chunk(c.maxLineBytes + c.width('\r') + c.width('\n'), held + "\n");
    assert [chunk][..0] == [];
    assert "" + (held + "\n") == held + "\n";
    assert (held + "\n")[|held|] == '\n';
    assert held[..|line|] == line && StripCr(held) == line;
    assert [held][..0] == [];
    assert TakeLines(c, FRESH, [held]) == TakeLine(c, FRESH, held);
    assert TakeLine(c, FRESH, held) == Parsed([] + [c.parse(line).value], true, true);
    assert TakeChunk(c, START, chunk).so == TakeLine(c, FRESH, held);
    assert TakeChunks(c, START, [chunk]) == TakeChunk(c, START, chunk);
  }

  lemma {:induction false} NoLines(text: string)
    requires '\n' !in text
    ensures Lines(text) == []
  {
    if text != "" {
      NoLines(text[..|text| - 1]);
    }
  }

  // ----- what was written, as it is read -----

  /** What the server writes: every event on a line of its own. */
  function Written(stringify: Json -> string, events: seq<Json>): string {
    if events == [] then "" else Written(stringify, events[..|events| - 1]) + stringify(events[|events| - 1]) + "\n"
  }

  /** The law of JSON, asked of the values written only: each is printed on one line, without a final CR, and parsed back. */
  predicate JsonLaw(c: Client, stringify: Json -> string, values: seq<Json>) {
    forall i :: 0 <= i < |values| && IsJson(values[i]) ==> OneLine(stringify(values[i])) && c.parse(stringify(values[i])) == Some(values[i])
  }

  /** The parser that knows some values by their texts. */
  function Known(stringify: Json -> string, values: seq<Json>, text: string): Option<Json> {
    if values == [] then None
    else if stringify(values[0]) == text then Some(values[0])
    else Known(stringify, values[1..], text)
  }

  /** The law can be met by any printer that gives different values different lines. */
  lemma {:induction false} LawCanBeMet(c: Client, stringify: Json -> string, values: seq<Json>)
    requires forall i :: 0 <= i < |values| ==> OneLine(stringify(values[i]))
    requires forall i, j :: 0 <= i < |values| && 0 <= j < |values| && stringify(values[i]) == stringify(values[j]) ==> values[i] == values[j]
    ensures JsonLaw(c.(parse := text => Known(stringify, values, text)), stringify, values)
    decreases |values|
  {
    hide IsJson, OneLine;
    if values != [] {
      var rest := values[1..];
      LawCanBeMet(c, stringify, rest);
      forall i | 0 <= i < |values| && IsJson(values[i])
        ensures Known(stringify, values, stringify(values[i])) == Some(values[i])
      {
        if i > 0 && stringify(values[0]) != stringify(values[i]) {
          assert rest[i - 1] == values[i];
        }
      }
    }
  }

  predicate OneLine(text: string) {
    text != "" && '\n' !in text && text[|text| - 1] != '\r'
  }

  /** The events before the first one the client refuses. */
  function UpToInvalid(events: seq<Json>): (r: seq<Json>)
    ensures r <= events
  {
    if events == [] || !ValidEvent(events[0]) then [] else [events[0]] + UpToInvalid(events[1..])
  }

  predicate AllValid(events: seq<Json>) {
    forall i :: 0 <= i < |events| ==> ValidEvent(events[i])
  }

  lemma {:induction false} InvalidSnoc(front: seq<Json>, last: Json)
    ensures UpToInvalid(front + [last]) ==
            if !AllValid(front) then UpToInvalid(front) else if ValidEvent(last) then front + [last] else front
    ensures AllValid(front) ==> UpToInvalid(front) == front
    decreases |front|
  {
    hide ValidEvent;
    if front == [] {
      assert front + [last] == [last];
    } else {
      assert (front + [last])[1..] == front[1..] + [last];
      InvalidSnoc(front[1..], last);
      assert AllValid(front) <==> ValidEvent(front[0]) && AllValid(front[1..]);
      assert front == [front[0]] + front[1..];
    }
  }

  lemma {:induction false} WholeLine(c: Client, a: string, line: string)
    requires Tail(a) == "" && Fits(c, a) && '\n' !in line && Bytes(c, line) <= c.maxLineBytes
    ensures Lines(a + line) == Lines(a) && Tail(a + line) == line && Fits(c, a + line)
    decreases |line|
  {
    if line == "" {
      assert a + line == a;
    } else {
      var front := line[..|line| - 1];
      WholeLine(c, a, front);
      assert (a + line)[..|a + line| - 1] == a + front;
    }
  }

  /** What a client makes of events it is given one by one. */
  function Reads(events: seq<Json>): Parsed {
    if AllValid(events) then Parsed(events, events != [] && IsTerminal(events[|events| - 1]), true)
    else Parsed(UpToInvalid(events), false, false)
  }

  /** One more line, behind events that are not terminal. */
  lemma OneMoreRead(c: Client, front: seq<Json>, line: string, last: Json)
    requires OneLine(line) && Bytes(c, line) <= c.maxLineBytes && c.parse(line) == Some(last)
    requires front != [] ==> !IsTerminal(front[|front| - 1])
    ensures TakeLines(c, Reads(front), [line]) == Reads(front + [last])
  {
    hide Bytes, TakeLines, ValidEvent, IsTerminal, UpToInvalid;
    InvalidSnoc(front, last);
    var all := front + [last];
    assert all[|all| - 1] == last;
    if AllValid(front) {
      assert AllValid(all) <==> ValidEvent(last);
      OneTaken(c, Parsed(front, false, true), line, last);
    } else {
      var i :| 0 <= i < |front| && !ValidEvent(front[i]);
      assert all[i] == front[i];
      RefusedStays(c, Parsed(UpToInvalid(front), false, false), [line]);
    }
  }

  lemma NothingWritten(c: Client, stringify: Json -> string)
    ensures Written(stringify, []) == "" && Reads([]) == FRESH
  {}

  /** Events written one per line are read back in full, or up to the first one the client refuses. */
  lemma {:induction false} WrittenIsRead(c: Client, stringify: Json -> string, events: seq<Json>)
    requires JsonLaw(c, stringify, events)
    requires forall i :: 0 <= i < |events| ==> IsJson(events[i]) && Bytes(c, stringify(events[i])) <= c.maxLineBytes
    requires forall i :: 0 <= i < |events| - 1 ==> !IsTerminal(events[i])
    ensures var text := Written(stringify, events);
            Fits(c, text) && Tail(text) == "" && TakeLines(c, FRESH, Lines(text)) == Reads(events)
    decreases |events|
  {
    hide Bytes, Lines, Tail, Fits, TakeLine, TakeLines, IsTerminal, IsJson, JsonLaw, Reads;
    if events == [] {
      NothingWritten(c, stringify);
      EmptyText(c);
      EmptyFits(c);
    } else {
      var front, last := events[..|events| - 1], events[|events| - 1];
      LawOfFront(c, stringify, events);
      WrittenIsRead(c, stringify, front);
      var a, line := Written(stringify, front), stringify(last);
      LawOfLast(c, stringify, events);
      WholeLine(c, a, line);
      FeedEndsLine(c, a + line);
      LinesInTurn(c, FRESH, Lines(a), [line]);
      OneMoreRead(c, front, line, last);
      assert front + [last] == events;
    }
  }

  lemma LawOfFront(c: Client, stringify: Json -> string, events: seq<Json>)
    requires JsonLaw(c, stringify, events) && events != []
    ensures JsonLaw(c, stringify, events[..|events| - 1])
  {
    hide IsJson, OneLine;
    assert forall i :: 0 <= i < |events| - 1 ==> events[..|events| - 1][i] == events[i];
  }

  lemma LawOfLast(c: Client, stringify: Json -> string, events: seq<Json>)
    requires JsonLaw(c, stringify, events) && events != [] && IsJson(events[|events| - 1])
    ensures var line := stringify(events[|events| - 1]); OneLine(line) && c.parse(line) == Some(events[|events| - 1])
  {
    hide IsJson;
  }

  lemma EmptyFits(c: Client)
    ensures Fits(c, "")
  {
  }

  lemma FeedEndsLine(c: Client, text: string)
    requires Fits(c, text)
    ensures Fits(c, text + "\n") && Tail(text + "\n") == "" && Lines(text + "\n") == Lines(text) + [Tail(text)]
  {
    assert (text + "\n")[..|text|] == text;
  }

  lemma OneTaken(c: Client, so: Parsed, line: string, value: Json)
    requires OneLine(line) && Bytes(c, line) <= c.maxLineBytes && c.parse(line) == Some(value) && so.ok && !so.terminated
    ensures TakeLines(c, so, [line]) ==
            if ValidEvent(value) then Parsed(so.events + [value], IsTerminal(value), true) else so.(ok := false)
  {
    hide Bytes, ValidEvent, IsTerminal;
    assert [line][..0] == [];
    assert TakeLines(c, so, []) == so;
  }

  /**
   What the server has written, as the client reads it from any chunks: all of
   it when every event passes the client's check and the last one is terminal;
   all of it, but refused, when the last one is not; and otherwise the events
   before the first one that does not pass.
   */
  lemma ClientReads(c: Client, stringify: Json -> string, events: seq<Json>, chunks: seq<Chunk>)
    requires JsonLaw(c, stringify, events)
    requires forall i :: 0 <= i < |events| ==> IsJson(events[i]) && Bytes(c, stringify(events[i])) <= c.maxLineBytes
    requires forall i :: 0 <= i < |events| - 1 ==> !IsTerminal(events[i])
    requires WholeText(chunks) == Written(stringify, events) && Size(chunks) <= c.maxTotalBytes
    ensures var done := events != [] && IsTerminal(events[|events| - 1]);
            ParseStream(c, chunks) == if AllValid(events) then Parsed(events, done, done) else Parsed(UpToInvalid(events), false, false)
  {
    hide TakeChunks, TakeLines, Lines, Tail, WholeText, Size, Fits, Bytes, Written, ValidEvent, IsTerminal, IsJson, JsonLaw;
    WrittenIsRead(c, stringify, events);
    FittingIsRead(c, chunks);
    ReadingAgrees(c, chunks);
  }

  // ----- which texts are accepted -----

  /** The lines that are not blank, without a final CR. */
  function Filled(lines: seq<string>): seq<string> {
    if lines == [] then []
    else
      var line := StripCr(lines[|lines| - 1]);
      Filled(lines[..|lines| - 1]) + if line == "" then [] else [line]
  }

  /** A line that is within the limit and holds a valid event. */
  predicate GoodLine(c: Client, line: string) {
    Bytes(c, line) <= c.maxLineBytes && c.parse(line).Some? && ValidEvent(c.parse(line).value)
  }

  predicate TerminalLine(c: Client, line: string) {
    c.parse(line).Some? && IsTerminal(c.parse(line).value)
  }

  /** All lines are good, and none but the last is terminal. */
  predicate GoodLines(c: Client, lines: seq<string>) {
    && (forall i :: 0 <= i < |lines| ==> GoodLine(c, lines[i]))
    && (forall i :: 0 <= i < |lines| - 1 ==> !TerminalLine(c, lines[i]))
  }

  lemma OneMoreGood(c: Client, lines: seq<string>, line: string)
    ensures GoodLines(c, lines + [line]) <==>
            GoodLines(c, lines) && GoodLine(c, line) && (lines != [] ==> !TerminalLine(c, lines[|lines| - 1]))
  {
    hide GoodLine, TerminalLine;
    var all := lines + [line];
    assert forall i :: 0 <= i < |lines| ==> all[i] == lines[i];
    assert all[|lines|] == line;
  }

  /** What has been read of good lines: their values, and whether the last is terminal. */
  predicate ReadGood(c: Client, so: Parsed, texts: seq<string>) {
    && |so.events| == |texts| && (forall i :: 0 <= i < |texts| ==> c.parse(texts[i]) == Some(so.events[i]))
    && (so.terminated <==> texts != [] && TerminalLine(c, texts[|texts| - 1]))
  }

  lemma LineAccepted(c: Client, so: Parsed, texts: seq<string>, raw: string)
    requires so.ok && ReadGood(c, so, texts) && StripCr(raw) != ""
    ensures var next, line := TakeLine(c, so, raw), StripCr(raw);
            && (next.ok <==> GoodLine(c, line) && (texts != [] ==> !TerminalLine(c, texts[|texts| - 1])))
            && (next.ok ==> ReadGood(c, next, texts + [line]))
  {
    hide Bytes, ValidEvent, IsTerminal;
  }

  lemma {:induction false} LinesAccepted(c: Client, lines: seq<string>)
    ensures var so, texts := TakeLines(c, FRESH, lines), Filled(lines);
            (so.ok <==> GoodLines(c, texts)) && (so.ok ==> ReadGood(c, so, texts))
    decreases |lines|
  {
    hide GoodLines, GoodLine, TerminalLine, ReadGood, TakeLine;
    if lines == [] {
      NothingGood(c);
    } else {
      var init, raw := lines[..|lines| - 1], lines[|lines| - 1];
      LinesAccepted(c, init);
      var so, texts := TakeLines(c, FRESH, init), Filled(init);
      if so.ok && StripCr(raw) != "" {
        LineAccepted(c, so, texts, raw);
      } else {
        LineSkipped(c, so, raw);
        assert texts + [] == texts;
      }
      OneMoreGood(c, texts, StripCr(raw));
    }
  }

  lemma NothingGood(c: Client)
    ensures GoodLines(c, []) && ReadGood(c, FRESH, [])
  {}

  lemma LineSkipped(c: Client, so: Parsed, raw: string)
    requires !so.ok || StripCr(raw) == ""
    ensures TakeLine(c, so, raw) == so
  {}

  /**
   Read at once, a text is accepted exactly when it ends with a line feed, all its
   lines that are not blank are good, and the last of them, and no other, is terminal.
   */
  lemma OneShotExactlyWhen(c: Client, text: string)
    ensures var texts := Filled(Lines(text));
            && (OneShot(c, text).ok <==>
                  Tail(text) == "" && texts != [] && GoodLines(c, texts) && TerminalLine(c, texts[|texts| - 1]))
            && (OneShot(c, text).ok ==>
                  |OneShot(c, text).events| == |texts| && forall i :: 0 <= i < |texts| ==> c.parse(texts[i]) == Some(OneShot(c, text).events[i]))
  {
    hide TakeLines, Lines, Tail, GoodLines, TerminalLine, Filled;
    LinesAccepted(c, Lines(text));
  }

  /** The lines of a text and its tail are the text, and none of them holds a line feed. */
  lemma {:induction false} LinesAreTheText(text: string)
    ensures Join(Lines(text) + [Tail(text)], "\n") == text
    ensures '\n' !in Tail(text) && forall i :: 0 <= i < |Lines(text)| ==> '\n' !in Lines(text)[i]
  {
    if text == "" {
      assert [] + [""] == [""];
    } else {
      var front, last := text[..|text| - 1], text[|text| - 1];
      LinesAreTheText(front);
      assert front + [last] == text;
      if last == '\n' {
        JoinMore(Lines(front) + [Tail(front)], "");
        assert front + "\n" + "" == text;
      } else {
        JoinLast(Lines(front), Tail(front), [last]);
      }
    }
  }

  lemma {:induction false} JoinMore(parts: seq<string>, last: string)
    requires parts != []
    ensures Join(parts + [last], "\n") == Join(parts, "\n") + "\n" + last
    decreases |parts|
  {
    assert (parts + [last])[1..] == parts[1..] + [last];
    if |parts| == 1 {
      assert parts + [last] == [parts[0], last] && [parts[0], last][1..] == [last];
    } else {
      JoinMore(parts[1..], last);
      assert parts[0] + "\n" + (Join(parts[1..], "\n") + "\n" + last) == (parts[0] + "\n" + Join(parts[1..], "\n")) + "\n" + last;
    }
  }

  lemma {:induction false} JoinLast(parts: seq<string>, last: string, more: string)
    ensures Join(parts + [last + more], "\n") == Join(parts + [last], "\n") + more
    decreases |parts|
  {
    if parts == [] {
      assert [] + [last + more] == [last + more] && [] + [last] == [last];
    } else {
      JoinMore(parts, last + more);
      JoinMore(parts, last);
      assert Join(parts, "\n") + "\n" + (last + more) == (Join(parts, "\n") + "\n" + last) + more;
    }
  }
}
