/** Events taken one by one from a body that is still arriving. */
module NdjsonReader {
  import opened Base
  import opened BodyReader

  const MAX_NDJSON_LINE_BYTES: nat := 262144
  const MAX_NDJSON_TOTAL_BYTES: nat := 16777216

  /** What comes next in a text: an event and the text behind it, the end, or something unreadable. */
  datatype Next<E> = Event(event: E, rest: Bytes) | End | Refused

  function FindLf(bytes: Bytes): (r: Option<nat>)
    ensures r.Some? ==> r.value < |bytes| && bytes[r.value] == LF && LF !in bytes[..r.value]
    ensures r.None? ==> LF !in bytes
  {
    if bytes == [] then None
    else if bytes[0] == LF then Some(0)
    else
      var r := FindLf(bytes[1..]);
      if r.None? then None else
        assert bytes[..r.value + 1] == [bytes[0]] + bytes[1..][..r.value];
        Some(r.value + 1)
  }

  function StripCr(line: Bytes): Bytes {
    if line != [] && line[|line| - 1] == CR then line[..|line| - 1] else line
  }

  /**
   The next event of a text: the first line that is not blank. Under `strict`,
   only a line that stays within the limit together with the bytes behind it
   that one piece can still bring.
   */
  function NextOf<E>(read: Bytes -> Option<E>, text: Bytes, strict: bool): Next<E>
    decreases |text|
  {
    var end := FindLf(text);
    if end.None? then (if text == [] then End else Refused)
    else if strict && end.value + Min(PIECE_BYTES, |text| - end.value) > MAX_NDJSON_LINE_BYTES then Refused
    else
      var line, rest := StripCr(text[..end.value]), text[end.value + 1..];
      if line == [] then NextOf(read, rest, strict)
      else if read(line).None? then Refused
      else Event(read(line).value, rest)
  }

  /** A line that has arrived is not changed by what arrives after it. */
  lemma {:induction false} LaterText<E>(read: Bytes -> Option<E>, text: Bytes, more: Bytes)
    requires NextOf(read, text, false).Event?
    ensures var next := NextOf(read, text, false);
            NextOf(read, text + more, false) == Event(next.event, next.rest + more)
    decreases |text|
  {
    var end := FindLf(text).value;
    LfStays(text, more);
    assert (text + more)[..end] == text[..end] && (text + more)[end + 1..] == text[end + 1..] + more;
    if StripCr(text[..end]) == [] {
      LaterText(read, text[end + 1..], more);
    }
  }

  lemma {:induction false} LfStays(text: Bytes, more: Bytes)
    ensures FindLf(text).Some? ==> FindLf(text + more) == FindLf(text)
    decreases |text|
  {
    if text != [] && text[0] != LF {
      LfStays(text[1..], more);
      assert (text + more)[1..] == text[1..] + more;
    }
  }

  lemma {:induction false} LfLater(text: Bytes, k: nat)
    requires k <= |text| && LF !in text[..k]
    ensures FindLf(text).Some? ==> FindLf(text).value >= k
  {
    if k > 0 {
      assert text[..k][0] != LF && text[1..][..k - 1] == text[..k][1..];
      LfLater(text[1..], k - 1);
    }
  }

  /** Nothing but line ends, with or without a carriage return. */
  predicate Blank(text: Bytes) {
    || text == []
    || (text[0] == LF && Blank(text[1..]))
    || (|text| >= 2 && text[0] == CR && text[1] == LF && Blank(text[2..]))
  }

  lemma {:induction false} BlankAppend(a: Bytes, b: Bytes)
    requires Blank(a) && Blank(b)
    ensures Blank(a + b)
    decreases |a|
  {
    if a == [] {
      assert a + b == b;
    } else if a[0] == LF {
      assert (a + b)[1..] == a[1..] + b;
      BlankAppend(a[1..], b);
    } else {
      assert (a + b)[2..] == a[2..] + b;
      BlankAppend(a[2..], b);
    }
  }

  /** Blank lines in front are never seen. */
  lemma {:induction false} BlankSkipped<E>(read: Bytes -> Option<E>, blank: Bytes, text: Bytes, strict: bool)
    requires Blank(blank)
    ensures NextOf(read, blank + text, strict) == NextOf(read, text, strict)
    decreases |blank|
  {
    var whole := blank + text;
    if blank == [] {
      assert whole == text;
    } else if blank[0] == LF {
      assert whole[1..] == blank[1..] + text;
      BlankSkipped(read, blank[1..], text, strict);
    } else {
      assert whole[2..] == blank[2..] + text;
      assert FindLf(whole[1..]) == Some(0);
      assert whole[..1] == [CR];
      BlankSkipped(read, blank[2..], text, strict);
    }
  }

  lemma BlankLine(line: Bytes, end: nat)
    requires end < |line| && line[end] == LF && StripCr(line[..end]) == []
    ensures Blank(line[..end + 1])
  {
    assert end <= 1;
    if end == 1 {
      assert line[..1][0] == CR;
      assert line[..2][2..] == [];
    }
  }

  /** A line that has arrived, and is not blank, is an event or is refused. */
  lemma ArrivedLine<E>(read: Bytes -> Option<E>, line: Bytes, more: Bytes)
    requires FindLf(line).Some? && StripCr(line[..FindLf(line).value]) != []
    ensures var end := FindLf(line).value;
            var event := read(StripCr(line[..end]));
            if event.Some? then NextOf(read, line, false) == Event(event.value, line[end + 1..])
            else NextOf(read, line + more, true) == Refused
  {
    LfStays(line, more);
    assert (line + more)[..FindLf(line).value] == line[..FindLf(line).value];
  }

  /** Too many bytes without a line end: refused, whatever follows. */
  lemma TooLong<E>(read: Bytes -> Option<E>, line: Bytes, k: nat, more: Bytes)
    requires k <= |line| <= k + PIECE_BYTES && LF !in line[..k] && |line| > MAX_NDJSON_LINE_BYTES
    ensures NextOf(read, line + more, true) == Refused
  {
    assert (line + more)[..k] == line[..k];
    LfLater(line + more, k);
  }

  lemma NoLf(line: Bytes)
    requires FindLf(line).None?
    ensures LF !in line
  {}

  // ----- piece by piece -----

  /** What a call makes of its buffer and of pieces that come one after the other: the limit is checked with every piece. */
  function Arrives<E>(read: Bytes -> Option<E>, line: Bytes, pieces: seq<Bytes>): Next<E>
    decreases |pieces|, |line|
  {
    var end := FindLf(line);
    if end.Some? then
      var first, rest := StripCr(line[..end.value]), line[end.value + 1..];
      if first == [] then Arrives(read, rest, pieces)
      else if read(first).None? then Refused
      else Event(read(first).value, rest)
    else if |line| > MAX_NDJSON_LINE_BYTES then Refused
    else if pieces == [] then (if line == [] then End else Refused)
    else if |line + pieces[0]| > MAX_NDJSON_LINE_BYTES then Refused
    else Arrives(read, line + pieces[0], pieces[1..])
  }

  /** Blank lines in front are never seen. */
  lemma {:induction false} BlankArrives<E>(read: Bytes -> Option<E>, blank: Bytes, line: Bytes, pieces: seq<Bytes>)
    requires Blank(blank)
    ensures Arrives(read, blank + line, pieces) == Arrives(read, line, pieces)
    decreases |blank|
  {
    var whole := blank + line;
    if blank == [] {
      assert whole == line;
    } else if blank[0] == LF {
      assert whole[1..] == blank[1..] + line && whole[..0] == [];
      BlankArrives(read, blank[1..], line, pieces);
    } else {
      assert whole[2..] == blank[2..] + line;
      assert FindLf(whole[1..]) == Some(0);
      assert whole[..1] == [CR];
      BlankArrives(read, blank[2..], line, pieces);
    }
  }

  lemma LineArrives<E>(read: Bytes -> Option<E>, line: Bytes, pieces: seq<Bytes>)
    requires FindLf(line).Some? && StripCr(line[..FindLf(line).value]) != []
    ensures var end := FindLf(line).value;
            var event := read(StripCr(line[..end]));
            Arrives(read, line, pieces) == if event.None? then Refused else Event(event.value, line[end + 1..])
  {}

  lemma PieceArrives<E>(read: Bytes -> Option<E>, line: Bytes, pieces: seq<Bytes>)
    requires FindLf(line).None?
    ensures Arrives(read, line, pieces) ==
            if |line| > MAX_NDJSON_LINE_BYTES then Refused
            else if pieces == [] then (if line == [] then End else Refused)
            else if |line + pieces[0]| > MAX_NDJSON_LINE_BYTES then Refused
            else Arrives(read, line + pieces[0], pieces[1..])
  {}

  /** Where a call stands: what it was given and took off the body is blank lines and its buffer. */
  ghost predicate Progress(
    first: Bytes, taken: Bytes, line: Bytes, blank: Bytes, owed0: Option<Bytes>, owed: Option<Bytes>, sure0: Option<Bytes>, sure: Option<Bytes>)
  {
    && Blank(blank) && first + taken == blank + line
    && owed0 == Prepend(taken, owed)
    && (sure0.Some? ==> sure0 == Prepend(taken, sure))
  }

  lemma NoProgress(line: Bytes, owed: Option<Bytes>, sure: Option<Bytes>)
    ensures Progress(line, [], line, [], owed, owed, sure, sure)
  {
    NothingInFront(owed);
    NothingInFront(sure);
    assert line + [] == [] + line;
  }

  lemma SkipBlank(
      first: Bytes, taken: Bytes, line: Bytes, blank: Bytes, more: Bytes, rest: Bytes,
      owed0: Option<Bytes>, owed: Option<Bytes>, sure0: Option<Bytes>, sure: Option<Bytes>)
    requires Progress(first, taken, line, blank, owed0, owed, sure0, sure) && Blank(more) && line == more + rest
    ensures Progress(first, taken, rest, blank + more, owed0, owed, sure0, sure)
  {
    BlankAppend(blank, more);
    assert blank + (more + rest) == (blank + more) + rest;
  }

  lemma TakePiece(
      first: Bytes, taken: Bytes, line: Bytes, blank: Bytes, piece: Bytes,
      owed0: Option<Bytes>, owed: Option<Bytes>, sure0: Option<Bytes>, sure: Option<Bytes>, later: Option<Bytes>, surelyLater: Option<Bytes>)
    requires Progress(first, taken, line, blank, owed0, owed, sure0, sure)
    requires owed == Prepend(piece, later) && (sure.Some? ==> sure == Prepend(piece, surelyLater))
    ensures Progress(first, taken + piece, line + piece, blank, owed0, later, sure0, surelyLater)
  {
    PrependTwice(taken, piece, later);
    PrependTwice(taken, piece, surelyLater);
    assert first + (taken + piece) == (first + taken) + piece;
    assert (blank + line) + piece == blank + (line + piece);
  }

  /** What the buffer gives is what the text gives. */
  lemma BufferSpeaks<E>(
      read: Bytes -> Option<E>, first: Bytes, taken: Bytes, line: Bytes, blank: Bytes,
      owed0: Option<Bytes>, owed: Option<Bytes>, sure0: Option<Bytes>, sure: Option<Bytes>)
    requires Progress(first, taken, line, blank, owed0, owed, sure0, sure)
    ensures NextOf(read, first + taken, false) == NextOf(read, line, false)
    ensures owed0 == Prepend(taken, owed)
    ensures sure0.Some? ==> sure0 == Prepend(taken, sure)
    ensures sure0.Some? ==> sure.Some? && NextOf(read, first + sure0.value, true) == NextOf(read, line + sure.value, true)
  {
    hide NextOf, Blank;
    BlankSkipped(read, blank, line, false);
    if sure0.Some? {
      BlankSkipped(read, blank, line + sure.value, true);
      assert first + (taken + sure.value) == (first + taken) + sure.value;
      assert (blank + line) + sure.value == blank + (line + sure.value);
    }
  }

  lemma AllTaken(taken: Bytes, line: Bytes)
    ensures Prepend(taken, Some([])) == Some(taken) && line + [] == line
  {
    assert taken + [] == taken;
  }

  lemma SegmentsPending(socket: seq<Bytes>)
    ensures socket != [] ==> |Flatten(socket)| == |socket[0]| + |Flatten(socket[1..])|
  {}

  lemma EndOrRest<E>(read: Bytes -> Option<E>, line: Bytes)
    requires FindLf(line).None?
    ensures forall strict :: NextOf(read, line, strict) == if line == [] then End else Refused
  {}

  class NdjsonReader<E> {
    const body: BodyReader
    const read: Bytes -> Option<E>
    var line: Bytes

    constructor (body: BodyReader, read: Bytes -> Option<E>)
      ensures this.body == body && this.read == read && line == []
    {
      this.body, this.read, line := body, read, [];
    }

    ghost predicate Ready()
      reads body
    {
      body.Valid() && body.total + body.chunkRemaining <= MAX_NDJSON_TOTAL_BYTES
    }

    ghost function Owed(strict: bool): Option<Bytes>
      requires Ready()
      reads body
    {
      body.Owed(MAX_NDJSON_TOTAL_BYTES, strict)
    }

    /** A body that ends with its connection and fits the total: every piece is a segment. */
    ghost predicate InStep()
      reads body
    {
      body.InStep() && body.end.Closed? && body.total + |body.Pending()| <= MAX_NDJSON_TOTAL_BYTES
    }

    /** One more piece of the body, seen by the reader. */
    method Pull() returns (r: Result<Option<Bytes>, HostError>)
      requires Ready()
      modifies body
      ensures r.Ok? ==> Ready()
      ensures r.Err? ==> old(Owed(true)).None?
      ensures r.Ok? && r.value.None? ==> old(Owed(false)) == Some([]) && (old(Owed(true)).Some? ==> old(Owed(true)) == Some([]))
      ensures r.Ok? && r.value.None? ==> body.total == old(body.total)
      ensures r.Ok? && r.value.Some? ==>
                var piece := r.value.value;
                && 0 < |piece| <= PIECE_BYTES
                && body.total == old(body.total) + |piece|
                && |body.Pending()| + |piece| <= |old(body.Pending())|
                && old(Owed(false)) == Prepend(piece, Owed(false))
                && (old(Owed(true)).Some? ==> old(Owed(true)) == Prepend(piece, Owed(true)))
      ensures old(InStep()) ==>
                && r.Ok? && InStep()
                && if old(body.socket) == [] then r.value.None?
                   else r.value == Some(old(body.socket)[0]) && body.socket == old(body.socket)[1..]
    {
      hide BodyReader.Owed, BodyReader.Exact, Prepend;
      SegmentsPending(body.socket);
      ghost var pending, total := body.Pending(), body.total;
      r := body.NextPiece(MAX_NDJSON_TOTAL_BYTES);
    }

    /** Takes the first line that has arrived and is not blank off the buffer. */
    method TakeLine() returns (text: Option<Bytes>, ghost blank: Bytes, ghost whole: Bytes)
      modifies this`line
      ensures Blank(blank) && old(line) == blank + whole
      ensures text.None? ==> line == whole && FindLf(line).None?
      ensures text.Some? ==>
                var end := FindLf(whole);
                end.Some? && text.value == StripCr(whole[..end.value]) != [] && line == whole[end.value + 1..]
    {
      hide FindLf;
      blank, whole := [], line;
      while true
        invariant Blank(blank) && old(line) == blank + line
        decreases |line|
      {
        whole := line;
        var found := FindLf(line);
        if found.None? {
          return None, blank, whole;
        }
        var first := StripCr(line[..found.value]);
        line := line[found.value + 1..];
        if first != [] {
          return Some(first), blank, whole;
        }
        BlankLine(whole, found.value);
        BlankAppend(blank, whole[..found.value + 1]);
        assert blank + whole == (blank + whole[..found.value + 1]) + line;
        blank := blank + whole[..found.value + 1];
      }
    }

    /**
     The next event, from the bytes `taken` off the body. An event is the first
     one of the text, whatever becomes of the body later; an error says that
     the whole body holds none, or one in a line that is too long.
     */
    method NextEvent() returns (r: Result<Option<E>, HostError>, ghost taken: Bytes)
      requires Ready()
      modifies this, body
      ensures r.Ok? ==> Ready() && body.total == old(body.total) + |taken|
      ensures r.Ok? && r.value.Some? ==> |body.Pending()| + |taken| <= |old(body.Pending())|
      ensures r.Ok? && r.value.Some? ==>
                && NextOf(read, old(line) + taken, false) == Event(r.value.value, line)
                && old(Owed(false)) == Prepend(taken, Owed(false))
                && (old(Owed(true)).Some? ==> old(Owed(true)) == Prepend(taken, Owed(true)))
      ensures r.Ok? && r.value.None? ==> old(Owed(false)) == Some(taken) && NextOf(read, old(line) + taken, false) == End
      ensures r.Ok? && r.value.None? && old(Owed(true)).Some? ==> old(Owed(true)) == Some(taken)
      ensures r.Err? && old(Owed(true)).Some? ==> NextOf(read, old(line) + old(Owed(true)).value, true) == Refused
      ensures old(InStep()) ==>
                match Arrives(read, old(line), old(body.socket))
                case Event(event, rest) => r == Ok(Some(event)) && line == rest
                case End => r == Ok(None)
                case Refused => r.Err?
    {
      hide Arrives, InStep;
      hide NextOf, FindLf, BodyReader.Owed, Progress, Blank, Prepend, StripCr;
      taken := [];
      ghost var first, blank, owed, sure := line, [], Owed(false), Owed(true);
      NoProgress(line, owed, sure);
      while true
        invariant Ready() && body.total == old(body.total) + |taken|
        invariant |body.Pending()| + |taken| <= |old(body.Pending())|
        invariant Progress(first, taken, line, blank, owed, Owed(false), sure, Owed(true))
        invariant old(InStep()) ==> InStep() && Arrives(read, first, old(body.socket)) == Arrives(read, line, body.socket)
        decreases |body.Pending()|
      {
        ghost var before, nowOwed, nowSure := line, Owed(false), Owed(true);
        var text, skipped, whole := TakeLine();
        SkipBlank(first, taken, before, blank, skipped, whole, owed, nowOwed, sure, nowSure);
        blank := blank + skipped;
        BufferSpeaks(read, first, taken, whole, blank, owed, nowOwed, sure, nowSure);
        BlankArrives(read, skipped, whole, body.socket);
        if text.Some? {
          LineArrives(read, whole, body.socket);
          ArrivedLine(read, whole, if nowSure.Some? then nowSure.value else []);
          var event := read(text.value);
          if event.None? {
            return Err(ProtocolError), taken;
          }
          return Ok(event), taken;
        }
        PieceArrives(read, line, body.socket);
        if |line| > MAX_NDJSON_LINE_BYTES {
          NoLf(line);
          assert line[..|line|] == line;
          TooLong(read, line, |line|, if nowSure.Some? then nowSure.value else []);
          return Err(ProtocolError), taken;
        }
        var piece := Pull();
        if piece.Err? {
          return Err(piece.error), taken;
        }
        if piece.value.None? {
          EndOrRest(read, line);
          AllTaken(taken, line);
          if line == [] {
            return Ok(None), taken;
          }
          return Err(ProtocolError), taken;
        }
        line := line + piece.value.value;
        TakePiece(first, taken, whole, blank, piece.value.value, owed, nowOwed, sure, nowSure, Owed(false), Owed(true));
        taken := taken + piece.value.value;
        if |line| > MAX_NDJSON_LINE_BYTES {
          BufferSpeaks(read, first, taken, line, blank, owed, Owed(false), sure, Owed(true));
          NoLf(whole);
          assert line[..|whole|] == whole;
          TooLong(read, line, |whole|, if Owed(true).Some? then Owed(true).value else []);
          return Err(ProtocolError), taken;
        }
      }
    }
  }

  // ----- which texts hold an event -----

  /** Behind a line: a line feed, with a carriage return unless that would be ambiguous. */
  predicate LineEnding(line: Bytes, end: Bytes)
    requires line != []
  {
    end == [CR, LF] || (end == [LF] && line[|line| - 1] != CR)
  }

  /** Blank lines, and then a line that reads as the event, with `rest` behind it. */
  ghost predicate HoldsAs<E>(read: Bytes -> Option<E>, text: Bytes, event: E, rest: Bytes, blank: Bytes, line: Bytes, end: Bytes) {
    Blank(blank) && line != [] && LF !in line && LineEnding(line, end) && read(line) == Some(event) && text == blank + (line + end + rest)
  }

  ghost predicate Holds<E>(read: Bytes -> Option<E>, text: Bytes, event: E, rest: Bytes) {
    exists blank, line, end :: HoldsAs(read, text, event, rest, blank, line, end)
  }

  lemma LineReads<E>(read: Bytes -> Option<E>, line: Bytes, end: Bytes, rest: Bytes)
    requires line != [] && LF !in line && LineEnding(line, end)
    ensures NextOf(read, line + end + rest, false) == if read(line).Some? then Event(read(line).value, rest) else Refused
  {
    var text, k := line + end + rest, |line + end| - 1;
    assert text[k] == LF && text[k + 1..] == rest && LF !in text[..k];
    LfLater(text, k);
    assert FindLf(text) == Some(k);
    assert StripCr(text[..k]) == line;
  }

  lemma HoldsHere<E>(read: Bytes -> Option<E>, text: Bytes, k: nat, event: E)
    requires k < |text| && text[k] == LF && LF !in text[..k] && StripCr(text[..k]) != [] && read(StripCr(text[..k])) == Some(event)
    ensures Holds(read, text, event, text[k + 1..])
  {
    var raw, rest := text[..k], text[k + 1..];
    var line := StripCr(raw);
    var end := if line == raw then [LF] else [CR, LF];
    assert Blank([]) && LineEnding(line, end);
    assert text == [] + (line + end + rest);
    assert HoldsAs(read, text, event, rest, [], line, end);
  }

  lemma HoldsLater<E>(read: Bytes -> Option<E>, front: Bytes, text: Bytes, event: E, rest: Bytes)
    requires Blank(front) && Holds(read, text, event, rest)
    ensures Holds(read, front + text, event, rest)
  {
    hide Blank, LineEnding;
    var blank, line, end :| HoldsAs(read, text, event, rest, blank, line, end);
    BlankAppend(front, blank);
    Regroup(front, blank, line + end + rest);
    assert HoldsAs(read, front + text, event, rest, front + blank, line, end);
  }

  lemma Regroup(a: Bytes, b: Bytes, c: Bytes)
    ensures a + (b + c) == (a + b) + c
  {}

  lemma {:induction false} EventFound<E>(read: Bytes -> Option<E>, text: Bytes)
    requires NextOf(read, text, false).Event?
    ensures var next := NextOf(read, text, false); Holds(read, text, next.event, next.rest)
    decreases |text|
  {
    hide Holds, Blank;
    var next, k := NextOf(read, text, false), FindLf(text).value;
    if StripCr(text[..k]) == [] {
      EventFound(read, text[k + 1..]);
      BlankLine(text, k);
      HoldsLater(read, text[..k + 1], text[k + 1..], next.event, next.rest);
      assert text[..k + 1] + text[k + 1..] == text;
    } else {
      HoldsHere(read, text, k, next.event);
    }
  }

  lemma {:induction false} EndIsBlank<E>(read: Bytes -> Option<E>, text: Bytes)
    requires NextOf(read, text, false) == End
    ensures Blank(text)
    decreases |text|
  {
    if text != [] {
      var k := FindLf(text).value;
      EndIsBlank(read, text[k + 1..]);
      BlankLine(text, k);
      BlankAppend(text[..k + 1], text[k + 1..]);
      assert text[..k + 1] + text[k + 1..] == text;
    }
  }

  lemma BlankIsEnd<E>(read: Bytes -> Option<E>, text: Bytes)
    requires Blank(text)
    ensures NextOf(read, text, false) == End
  {
    BlankSkipped(read, text, [], false);
    assert text + [] == text;
  }

  /** The next event of a text, told from the text: the first line that is not blank; none exactly in a blank text. */
  lemma NextExactlyWhen<E>(read: Bytes -> Option<E>, text: Bytes, event: E, rest: Bytes)
    ensures NextOf(read, text, false) == Event(event, rest) <==> Holds(read, text, event, rest)
    ensures NextOf(read, text, false) == End <==> Blank(text)
  {
    hide NextOf, Blank;
    if NextOf(read, text, false) == End {
      EndIsBlank(read, text);
    }
    if Blank(text) {
      BlankIsEnd(read, text);
    }
    if NextOf(read, text, false).Event? {
      EventFound(read, text);
    }
    if Holds(read, text, event, rest) {
      var blank, line, end :| HoldsAs(read, text, event, rest, blank, line, end);
      BlankSkipped(read, blank, line + end + rest, false);
      LineReads(read, line, end, rest);
    }
  }
}
