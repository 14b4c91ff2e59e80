/**
 What the cutting of a text into pieces can change for its next event: nothing
 but whether its line is refused, and exactly when the strict reading refuses it.
 */
module EventCuts {
  import opened Base
  import opened BodyReader
  import opened ChunkedCoding
  import opened NdjsonReader

  predicate Pieces(pieces: seq<Bytes>) {
    forall i :: 0 <= i < |pieces| ==> 0 < |pieces[i]| <= PIECE_BYTES
  }

  // ----- every cutting against the text -----

  /** What is read is read from the text, whatever the pieces. */
  lemma {:induction false} ArrivedIsText<E>(read: Bytes -> Option<E>, line: Bytes, pieces: seq<Bytes>)
    ensures match Arrives(read, line, pieces)
            case Refused => true
            case End => NextOf(read, line + Flatten(pieces), false) == End
            case Event(event, _) => NextOf(read, line + Flatten(pieces), false).Event? && NextOf(read, line + Flatten(pieces), false).event == event
    decreases |pieces|, |line|
  {
    var end, text := FindLf(line), line + Flatten(pieces);
    if end.Some? {
      LfStays(line, Flatten(pieces));
      assert text[..end.value] == line[..end.value] && text[end.value + 1..] == line[end.value + 1..] + Flatten(pieces);
      if StripCr(line[..end.value]) == [] {
        ArrivedIsText(read, line[end.value + 1..], pieces);
      }
    } else if pieces == [] {
      assert text == line;
    } else if |line + pieces[0]| <= MAX_NDJSON_LINE_BYTES {
      assert (line + pieces[0]) + Flatten(pieces[1..]) == text;
      ArrivedIsText(read, line + pieces[0], pieces[1..]);
    }
  }

  /** What the strict reading accepts is refused under no cutting. */
  lemma {:induction false} StrictArrives<E>(read: Bytes -> Option<E>, line: Bytes, pieces: seq<Bytes>)
    requires Pieces(pieces) && NextOf(read, line + Flatten(pieces), true) != Refused
    ensures Arrives(read, line, pieces) != Refused
    decreases |pieces|, |line|
  {
    hide Arrives, NextOf, FindLf;
    var end, later := FindLf(line), Flatten(pieces);
    if end.Some? {
      StrictLine(read, line, later);
      if StripCr(line[..end.value]) == [] {
        BlankLineArrives(read, line, pieces);
        StrictArrives(read, line[end.value + 1..], pieces);
      } else {
        LineArrives(read, line, pieces);
      }
    } else {
      NoLf(line);
      assert line[..|line|] == line;
      PieceArrives(read, line, pieces);
      if |line| > MAX_NDJSON_LINE_BYTES {
        TooLong(read, line, |line|, later);
      } else if pieces == [] {
        assert line + later == line;
        EndOrRest(read, line);
      } else {
        var more := line + pieces[0];
        assert more + Flatten(pieces[1..]) == line + later && more[..|line|] == line;
        if |more| > MAX_NDJSON_LINE_BYTES {
          TooLong(read, more, |line|, Flatten(pieces[1..]));
        } else {
          StrictArrives(read, more, pieces[1..]);
        }
      }
    }
  }

  /** The strict reading of a line that has arrived. */
  lemma StrictLine<E>(read: Bytes -> Option<E>, line: Bytes, later: Bytes)
    requires FindLf(line).Some? && NextOf(read, line + later, true) != Refused
    ensures var end := FindLf(line).value;
            if StripCr(line[..end]) == [] then NextOf(read, line[end + 1..] + later, true) != Refused
            else read(StripCr(line[..end])).Some?
  {
    var end := FindLf(line).value;
    LfStays(line, later);
    assert (line + later)[..end] == line[..end] && (line + later)[end + 1..] == line[end + 1..] + later;
  }

  lemma BlankLineArrives<E>(read: Bytes -> Option<E>, line: Bytes, pieces: seq<Bytes>)
    requires FindLf(line).Some? && StripCr(line[..FindLf(line).value]) == []
    ensures Arrives(read, line, pieces) == Arrives(read, line[FindLf(line).value + 1..], pieces)
  {}

  // ----- a cutting that refuses -----

  /** Pieces without a line end only fill the buffer, or are refused. */
  lemma {:induction false} Accumulates<E>(read: Bytes -> Option<E>, line: Bytes, pieces: seq<Bytes>, later: seq<Bytes>)
    requires LF !in line + Flatten(pieces)
    ensures Arrives(read, line, pieces + later) ==
            if |line + Flatten(pieces)| > MAX_NDJSON_LINE_BYTES then Refused else Arrives(read, line + Flatten(pieces), later)
    decreases |pieces|
  {
    hide Arrives;
    NoLfNone(line);
    PieceArrives(read, line, pieces + later);
    if pieces == [] {
      assert pieces + later == later && line + Flatten(pieces) == line;
      PieceArrives(read, line, later);
    } else {
      var more := line + pieces[0];
      assert more + Flatten(pieces[1..]) == line + Flatten(pieces);
      assert (pieces + later)[0] == pieces[0] && (pieces + later)[1..] == pieces[1..] + later;
      Accumulates(read, more, pieces[1..], later);
    }
  }

  lemma NoLfNone(text: Bytes)
    ensures LF !in text ==> FindLf(text).None?
  {
    if FindLf(text).Some? {
      assert text[FindLf(text).value] == LF;
    }
  }

  /** Nothing, or full pieces. */
  function Rest(bytes: Bytes): (pieces: seq<Bytes>) {
    if bytes == [] then [] else Full(bytes)
  }

  lemma RestFlat(bytes: Bytes)
    ensures Flatten(Rest(bytes)) == bytes && Pieces(Rest(bytes))
  {
    if bytes != [] {
      FullFlat(bytes);
    }
  }

  /** The text up to `end` in full pieces, the next `n` bytes in one, and the rest. */
  function CutAround(text: Bytes, end: nat, n: nat): seq<Bytes>
    requires end + n <= |text|
  {
    Rest(text[..end]) + ([text[end..end + n]] + Rest(text[end + n..]))
  }

  lemma CutIsText(text: Bytes, end: nat, n: nat)
    requires end + n <= |text| && 0 < n <= PIECE_BYTES
    ensures Pieces(CutAround(text, end, n)) && Flatten(CutAround(text, end, n)) == text
  {
    hide Rest;
    var front, mid, rest := text[..end], text[end..end + n], text[end + n..];
    RestFlat(front);
    RestFlat(rest);
    FlattenAppend(Rest(front), [mid] + Rest(rest));
    FlattenAppend([mid], Rest(rest));
    OneSegment(mid);
    assert front + (mid + rest) == text;
  }

  /** What arrives of such a cutting when the front holds no line end. */
  lemma CutArrives<E>(read: Bytes -> Option<E>, text: Bytes, end: nat, n: nat)
    requires end + n <= |text| && n > 0 && LF !in text[..end]
    ensures Arrives(read, [], CutAround(text, end, n)) ==
            if end + n > MAX_NDJSON_LINE_BYTES then Refused else Arrives(read, text[..end + n], Rest(text[end + n..]))
  {
    hide Arrives, Rest;
    var front, mid, later := text[..end], text[end..end + n], Rest(text[end + n..]);
    RestFlat(front);
    assert [] + front == front;
    Accumulates(read, [], Rest(front), [mid] + later);
    NoLfNone(front);
    PieceArrives(read, front, [mid] + later);
    assert ([mid] + later)[1..] == later && front + mid == text[..end + n];
  }

  /** What the strict reading refuses is refused under some cutting. */
  lemma {:induction false} SomeCutRefuses<E>(read: Bytes -> Option<E>, text: Bytes) returns (pieces: seq<Bytes>)
    requires NextOf(read, text, true) == Refused
    ensures Pieces(pieces) && Flatten(pieces) == text && Arrives(read, [], pieces) == Refused
    decreases |text|
  {
    hide Arrives, Pieces, CutAround;
    var end := FindLf(text);
    if end.Some? && end.value + Min(PIECE_BYTES, |text| - end.value) > MAX_NDJSON_LINE_BYTES {
      var n := Min(PIECE_BYTES, |text| - end.value);
      pieces := CutAround(text, end.value, n);
      CutIsText(text, end.value, n);
      CutArrives(read, text, end.value, n);
    } else if end.Some? && StripCr(text[..end.value]) == [] {
      var later := SomeCutRefuses(read, text[end.value + 1..]);
      pieces := BlankInFront(read, text, end.value, later);
    } else {
      pieces := Full(text);
      FullFlat(text);
      assert Pieces(pieces) by {
        AllPieces(text);
      }
      assert [] + text == text;
      ArrivedIsText(read, [], pieces);
    }
  }

  lemma AllPieces(text: Bytes)
    requires text != []
    ensures Pieces(Full(text))
  {
    FullFlat(text);
  }

  lemma BlankInFront<E>(read: Bytes -> Option<E>, text: Bytes, end: nat, later: seq<Bytes>) returns (pieces: seq<Bytes>)
    requires end < |text| && text[end] == LF && StripCr(text[..end]) == []
    requires Pieces(later) && Flatten(later) == text[end + 1..] && Arrives(read, [], later) == Refused
    ensures Pieces(pieces) && Flatten(pieces) == text && Arrives(read, [], pieces) == Refused
  {
    hide Arrives;
    BlankLine(text, end);
    var blank := text[..end + 1];
    pieces := [blank] + later;
    assert pieces[1..] == later && blank + text[end + 1..] == text;
    assert end <= 1;
    BlankPiece(read, blank, pieces);
  }

  lemma BlankPiece<E>(read: Bytes -> Option<E>, blank: Bytes, pieces: seq<Bytes>)
    requires Blank(blank) && |blank| <= 2 && pieces != [] && pieces[0] == blank
    ensures Arrives(read, [], pieces) == Arrives(read, [], pieces[1..])
  {
    hide Arrives;
    PieceArrives(read, [], pieces);
    assert [] + blank == blank && blank + [] == blank;
    BlankArrives(read, blank, [], pieces[1..]);
  }

  /**
   A text's next event survives every cutting into pieces exactly when the
   strict reading gives it: its line and what one piece can still bring behind
   it stay within the limit.
   */
  lemma ReadHoweverCut<E>(read: Bytes -> Option<E>, text: Bytes)
    ensures (forall pieces: seq<Bytes> :: Pieces(pieces) && Flatten(pieces) == text ==> Arrives(read, [], pieces) != Refused)
            <==> NextOf(read, text, true) != Refused
  {
    hide Arrives, NextOf, Pieces;
    if NextOf(read, text, true) == Refused {
      var pieces := SomeCutRefuses(read, text);
      assert Arrives(read, [], pieces) == Refused;
    } else {
      assert [] + text == text;
      forall pieces: seq<Bytes> | Pieces(pieces) && Flatten(pieces) == text
        ensures Arrives(read, [], pieces) != Refused
      {
        StrictArrives(read, [], pieces);
      }
    }
  }

  // ----- a cutting that accepts -----

  lemma {:induction false} EndsAt(text: Bytes, k: nat)
    requires k < |text| && text[k] == LF && LF !in text[..k]
    ensures FindLf(text) == Some(k)
  {
    if k > 0 {
      assert text[..k][0] != LF && text[1..][..k - 1] == text[..k][1..];
      EndsAt(text[1..], k - 1);
    }
  }

  /** Any line below the limit is read when its line end comes alone. */
  lemma LineEndAlone<E>(read: Bytes -> Option<E>, text: Bytes, end: nat)
    requires end < |text| && text[end] == LF && LF !in text[..end] && end < MAX_NDJSON_LINE_BYTES
    requires StripCr(text[..end]) != [] && read(StripCr(text[..end])).Some?
    ensures Arrives(read, [], CutAround(text, end, 1)) == Event(read(StripCr(text[..end])).value, [])
  {
    hide Arrives;
    CutArrives(read, text, end, 1);
    var ended := text[..end + 1];
    assert ended[..end] == text[..end] && ended[end + 1..] == [];
    EndsAt(ended, end);
    LineArrives(read, ended, Rest(text[end + 1..]));
  }

  /**
   The reader on one text in two cuttings: a line just below the limit, with a
   piece's worth behind it, is read when its line end comes alone, and refused
   when it comes with what follows.
   */
  method LongEventTwoWays<E>(utf8: Utf8, read: Bytes -> Option<E>, text: Bytes, end: nat)
    returns (alone: Result<Option<E>, HostError>, together: Result<Option<E>, HostError>)
    requires end < |text| && text[end] == LF && LF !in text[..end]
    requires StripCr(text[..end]) != [] && read(StripCr(text[..end])).Some?
    requires MAX_NDJSON_LINE_BYTES - PIECE_BYTES < end < MAX_NDJSON_LINE_BYTES && |text| == end + PIECE_BYTES
    ensures alone == Ok(read(StripCr(text[..end]))) && together.Err?
  {
    LineEndAlone(read, text, end);
    CutArrives(read, text, end, PIECE_BYTES);
    alone := FirstOf(utf8, read, text, end, 1);
    together := FirstOf(utf8, read, text, end, PIECE_BYTES);
  }

  /** The first event of a text that arrives in such a cutting. */
  method FirstOf<E>(utf8: Utf8, read: Bytes -> Option<E>, text: Bytes, end: nat, n: nat) returns (r: Result<Option<E>, HostError>)
    requires end + n <= |text| <= MAX_NDJSON_TOTAL_BYTES && 0 < n <= PIECE_BYTES
    ensures match Arrives(read, [], CutAround(text, end, n))
            case Event(event, _) => r == Ok(Some(event))
            case End => r == Ok(None)
            case Refused => r.Err?
  {
    hide Arrives, CutAround, NextOf;
    CutIsText(text, end, n);
    var pieces := CutAround(text, end, n);
    var body := new BodyReader(utf8, UntilEof, [], pieces, Closed);
    var reader := new NdjsonReader<E>(body, read);
    assert [] + text == text;
    assert body.Pending() == text;
    ghost var taken;
    r, taken := reader.NextEvent();
  }
}
