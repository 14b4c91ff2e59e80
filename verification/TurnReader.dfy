/** A whole turn read from a body: one event after the other, up to a terminal one. */
module TurnReader {
  import opened Base
  import opened BodyReader
  import opened ChunkedCoding
  import opened NdjsonReader

  /** A terminal event was read, the text ended without one, or something was unreadable. */
  datatype TurnEnd = Finished | OutOfText | Unreadable

  datatype Turn<E> = Turn(events: seq<E>, end: TurnEnd) {
    function After(before: seq<E>): Turn<E> {
      Turn(before + events, end)
    }
  }

  /** The events of a text up to the first terminal one. */
  function TurnOf<E>(read: Bytes -> Option<E>, terminal: E -> bool, text: Bytes, strict: bool): Turn<E>
    decreases |text|
  {
    var next := NextOf(read, text, strict);
    match next
    case End => Turn([], OutOfText)
    case Refused => Turn([], Unreadable)
    case Event(event, rest) =>
      EventShortens(read, text, strict);
      if terminal(event) then Turn([event], Finished) else TurnOf(read, terminal, rest, strict).After([event])
  }

  lemma {:induction false} EventShortens<E>(read: Bytes -> Option<E>, text: Bytes, strict: bool)
    ensures NextOf(read, text, strict).Event? ==> |NextOf(read, text, strict).rest| < |text|
    decreases |text|
  {
    var end := FindLf(text);
    if end.Some? && StripCr(text[..end.value]) == [] {
      EventShortens(read, text[end.value + 1..], strict);
    }
  }

  lemma {:induction false} StrictOrRefused<E>(read: Bytes -> Option<E>, text: Bytes)
    ensures NextOf(read, text, true) == Refused || NextOf(read, text, true) == NextOf(read, text, false)
    decreases |text|
  {
    var end := FindLf(text);
    if end.Some? && StripCr(text[..end.value]) == [] {
      StrictOrRefused(read, text[end.value + 1..]);
    }
  }

  /** One event of the body, seen in the whole text. */
  lemma OneEvent<E>(read: Bytes -> Option<E>, terminal: E -> bool, before: Bytes, taken: Bytes, line: Bytes, data: Bytes, event: E)
    requires NextOf(read, before + taken, false) == Event(event, line)
    ensures var whole := TurnOf(read, terminal, before + (taken + data), true);
            whole.end != Unreadable ==>
              whole == if terminal(event) then Turn([event], Finished) else TurnOf(read, terminal, line + data, true).After([event])
  {
    hide NextOf;
    LaterText(read, before + taken, data);
    assert before + taken + data == before + (taken + data);
    StrictOrRefused(read, before + (taken + data));
  }

  lemma TurnAfterAfter<E>(turn: Turn<E>, inner: seq<E>, outer: seq<E>)
    ensures turn.After(inner).After(outer) == turn.After(outer + inner)
  {
    assert outer + (inner + turn.events) == (outer + inner) + turn.events;
  }

  lemma NothingRead<E>(turn: Turn<E>)
    ensures turn.After([]) == turn
  {}

  lemma LastRead<E>(read: Bytes -> Option<E>, terminal: E -> bool, text: Bytes)
    ensures NextOf(read, text, false) == End ==>
              TurnOf(read, terminal, text, true).end == Unreadable || TurnOf(read, terminal, text, true) == Turn([], OutOfText)
    ensures NextOf(read, text, true) == Refused ==> TurnOf(read, terminal, text, true) == Turn([], Unreadable)
  {
    hide NextOf;
    StrictOrRefused(read, text);
  }

  /**
   The stream worker's loop: events until a terminal one, the end, or an error.
   If the body is whole and its text readable however it is cut, they are the
   text's own.
   */
  method ReadTurn<E>(reader: NdjsonReader<E>, terminal: E -> bool) returns (turn: Turn<E>)
    requires reader.Ready()
    modifies reader, reader.body
    ensures old(reader.Owed(true)).Some? ==>
              var whole := TurnOf(reader.read, terminal, old(reader.line) + old(reader.Owed(true)).value, true);
              whole.end != Unreadable ==> turn == whole
  {
    hide NextOf, TurnOf, BodyReader.Owed;
    var events: seq<E> := [];
    ghost var surely := reader.Owed(true);
    ghost var whole: Turn<E> := if surely.Some? then TurnOf(reader.read, terminal, reader.line + surely.value, true) else Turn([], Unreadable);
    NothingRead(whole);
    while true
      invariant reader.Ready()
      invariant surely.Some? ==> reader.Owed(true).Some?
      invariant surely.Some? && whole.end != Unreadable ==>
                  whole == TurnOf(reader.read, terminal, reader.line + reader.Owed(true).value, true).After(events)
      decreases |reader.body.Pending()| + |reader.line|
    {
      ghost var line, owed := reader.line, reader.Owed(true);
      ghost var rest := if surely.Some? then owed.value else [];
      var next;
      ghost var taken;
      next, taken := reader.NextEvent();
      LastRead(reader.read, terminal, line + rest);
      if next.Err? {
        return Turn(events, Unreadable);
      }
      if next.value.None? {
        return Turn(events, OutOfText);
      }
      var event := next.value.value;
      ghost var data := if surely.Some? then reader.Owed(true).value else [];
      EventShortens(reader.read, line + taken, false);
      OneEvent(reader.read, terminal, line, taken, reader.line, data, event);
      TurnAfterAfter(TurnOf(reader.read, terminal, reader.line + data, true), [event], events);
      events := events + [event];
      if terminal(event) {
        return Turn(events, Finished);
      }
    }
  }

  // ----- a turn as it is written -----

  function WriteTurn<E>(write: E -> Bytes, events: seq<E>): Bytes {
    if events == [] then [] else write(events[0]) + [LF] + WriteTurn(write, events[1..])
  }

  /** An event's line: read back, and within the limit however it is cut. */
  predicate Writable<E(==)>(read: Bytes -> Option<E>, write: E -> Bytes, e: E) {
    var line := write(e);
    && line != [] && LF !in line && line[|line| - 1] != CR
    && |line| + PIECE_BYTES <= MAX_NDJSON_LINE_BYTES
    && read(line) == Some(e)
  }

  lemma LineRead<E>(read: Bytes -> Option<E>, write: E -> Bytes, e: E, rest: Bytes)
    requires Writable(read, write, e)
    ensures NextOf(read, write(e) + [LF] + rest, true) == Event(e, rest)
  {
    var line := write(e);
    var text := line + [LF] + rest;
    LfLater(text, |line|);
    assert text[..|line|] == line && text[|line|] == LF;
    FirstLf(text, |line|);
    assert text[|line| + 1..] == rest;
  }

  lemma {:induction false} FirstLf(text: Bytes, k: nat)
    requires k < |text| && text[k] == LF && LF !in text[..k]
    ensures FindLf(text) == Some(k)
  {
    if k > 0 {
      assert text[..k][0] != LF && text[1..][..k - 1] == text[..k][1..];
      FirstLf(text[1..], k - 1);
    }
  }

  lemma {:induction false} TurnRead<E>(read: Bytes -> Option<E>, write: E -> Bytes, terminal: E -> bool, events: seq<E>)
    requires forall i :: 0 <= i < |events| ==> Writable(read, write, events[i])
    requires forall i :: 0 <= i < |events| - 1 ==> !terminal(events[i])
    ensures TurnOf(read, terminal, WriteTurn(write, events), true) ==
            Turn(events, if events != [] && terminal(events[|events| - 1]) then Finished else OutOfText)
    decreases |events|
  {
    hide NextOf, Writable;
    if events == [] {
      NothingNext(read);
    } else {
      var rest := WriteTurn(write, events[1..]);
      LineRead(read, write, events[0], rest);
      assert events == [events[0]] + events[1..];
      if |events| == 1 {
        assert events[1..] == [];
        if !terminal(events[0]) {
          NothingNext(read);
        }
      } else {
        TurnRead(read, write, terminal, events[1..]);
        assert events[1..][|events| - 2] == events[|events| - 1];
      }
    }
  }

  lemma NothingNext<E>(read: Bytes -> Option<E>)
    ensures NextOf(read, [], true) == End
  {}

  /**
   The turn a server writes, in chunks of any sizes and segments of any sizes,
   with anything behind it: the same events, and then the end or the terminal one.
   */
  method ReadChunkedTurn<E>(
      utf8: Utf8, read: Bytes -> Option<E>, write: E -> Bytes, terminal: E -> bool, events: seq<E>,
      chunks: seq<Chunk>, trailers: seq<Bytes>, rest: Bytes, initial: Bytes, socket: seq<Bytes>, end: SocketEnd) returns (turn: Turn<E>)
    requires ReadsAscii(utf8) && (forall c <- chunks :: Printable(c)) && (forall t <- trailers :: Trailer(t)) && AllShort(chunks, trailers)
    requires forall i :: 0 <= i < |socket| ==> 0 < |socket[i]| <= PIECE_BYTES
    requires initial + Flatten(socket) == PrintBody(chunks, trailers) + rest
    requires Data(chunks) == WriteTurn(write, events) && |Data(chunks)| <= MAX_NDJSON_TOTAL_BYTES
    requires forall i :: 0 <= i < |events| ==> Writable(read, write, events[i])
    requires forall i :: 0 <= i < |events| - 1 ==> !terminal(events[i])
    ensures turn == Turn(events, if events != [] && terminal(events[|events| - 1]) then Finished else OutOfText)
  {
    hide ChunkedBody, PrintBody, Data, AllShort, WriteTurn, Writable, TurnOf, NextOf;
    ChunksReadBack(utf8, chunks, trailers, rest, MAX_NDJSON_TOTAL_BYTES, true);
    TurnRead(read, write, terminal, events);
    var body := new BodyReader(utf8, Chunked, initial, socket, end);
    assert body.Owed(MAX_NDJSON_TOTAL_BYTES, true) == WholeBody(utf8, Chunked, initial + Flatten(socket), end, MAX_NDJSON_TOTAL_BYTES, true);
    var reader := new NdjsonReader<E>(body, read);
    assert [] + Data(chunks) == Data(chunks);
    turn := ReadTurn(reader, terminal);
  }
}
