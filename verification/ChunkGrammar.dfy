/**
 Which bytes are a chunked body: those that are made of chunks whose headers give
 their sizes, a last header of size zero, trailer lines and a blank line. All
 others are refused.
 */
module ChunkGrammar {
  import opened Base
  import opened BodyReader
  import opened ChunkedCoding

  /** A chunk as it stands in the bytes: its header line and its data. */
  datatype RawChunk = RawChunk(header: Bytes, data: Bytes)

  function Raw(chunks: seq<RawChunk>): Bytes {
    if chunks == [] then [] else chunks[0].header + LINE_END + chunks[0].data + LINE_END + Raw(chunks[1..])
  }

  function RawData(chunks: seq<RawChunk>): Bytes {
    if chunks == [] then [] else chunks[0].data + RawData(chunks[1..])
  }

  /** The header is one line and gives the size of the data. */
  predicate Sized(utf8: Utf8, c: RawChunk) {
    c.data != [] && FindCrLf(c.header).None? && ChunkSize(utf8, c.header) == Some(|c.data|)
  }

  predicate LastHeader(utf8: Utf8, header: Bytes) {
    FindCrLf(header).None? && ChunkSize(utf8, header) == Some(0)
  }

  predicate WellFormed(utf8: Utf8, chunks: seq<RawChunk>, last: Bytes, trailers: seq<Bytes>) {
    && (forall i :: 0 <= i < |chunks| ==> Sized(utf8, chunks[i]))
    && LastHeader(utf8, last)
    && (forall t <- trailers :: Trailer(t))
  }

  function RawBody(chunks: seq<RawChunk>, last: Bytes, trailers: seq<Bytes>, rest: Bytes): Bytes {
    Raw(chunks) + (last + LINE_END + (PrintTrailers(trailers) + rest))
  }

  // ----- what is well formed is read -----

  lemma HeaderFound(header: Bytes, after: Bytes)
    requires FindCrLf(header).None?
    ensures var bytes := header + LINE_END + after;
            LineEnd(bytes, false) == Some(|header|) && bytes[..|header|] == header && bytes[|header| + 2..] == after
  {
    hide FindCrLf;
    LineThenEnd(header, after);
  }

  lemma {:induction false} WellFormedIsRead(utf8: Utf8, chunks: seq<RawChunk>, last: Bytes, trailers: seq<Bytes>, rest: Bytes, allowance: nat)
    requires WellFormed(utf8, chunks, last, trailers)
    ensures ChunkedBody(utf8, RawBody(chunks, last, trailers, rest), allowance, false) ==
            if |RawData(chunks)| <= allowance then Some(RawData(chunks)) else None
    decreases |chunks|
  {
    hide LineEnd, ChunkSize, TrailersEnd, PrintTrailers, FindCrLf, DataThenBody;
    var bytes := RawBody(chunks, last, trailers, rest);
    if chunks == [] {
      var after := PrintTrailers(trailers) + rest;
      assert bytes == last + LINE_END + after;
      HeaderFound(last, after);
      TrailersReadBack(trailers, rest, false);
    } else {
      hide ChunkedBody;
      var c, later := chunks[0], RawBody(chunks[1..], last, trailers, rest);
      assert Sized(utf8, c);
      assert bytes == c.header + LINE_END + (c.data + LINE_END + later);
      HeaderFound(c.header, c.data + LINE_END + later);
      HeaderGives(utf8, bytes, |c.data|, c.data + LINE_END + later, allowance, false);
      DataRead(utf8, c.data, later, allowance);
      if |c.data| <= allowance {
        WellFormedIsRead(utf8, chunks[1..], last, trailers, rest, allowance - |c.data|);
      }
    }
  }

  lemma DataRead(utf8: Utf8, data: Bytes, later: Bytes, allowance: nat)
    ensures |data| <= allowance ==>
              DataThenBody(utf8, data + LINE_END + later, |data|, allowance, false) == Prepend(data, ChunkedBody(utf8, later, allowance - |data|, false))
  {
    hide ChunkedBody;
    var after := data + LINE_END + later;
    assert CrLfAt(after, |data|) && after[..|data|] == data && after[|data| + 2..] == later;
  }

  // ----- what is read is well formed -----

  lemma CutAtLine(bytes: Bytes, end: nat)
    requires LineEnd(bytes, false) == Some(end)
    ensures bytes == bytes[..end] + LINE_END + bytes[end + 2..] && FindCrLf(bytes[..end]).None?
  {
    var line := bytes[..end];
    assert FindCrLf(line).Some? ==> CrLfAt(bytes, FindCrLf(line).value);
  }

  lemma {:induction false} TrailersFound(bytes: Bytes) returns (trailers: seq<Bytes>, rest: Bytes)
    requires TrailersEnd(bytes, false)
    ensures bytes == PrintTrailers(trailers) + rest && forall t <- trailers :: Trailer(t)
    decreases |bytes|
  {
    hide FindCrLf;
    var end := LineEnd(bytes, false).value;
    CutAtLine(bytes, end);
    var line, after := bytes[..end], bytes[end + 2..];
    if end == 0 {
      trailers, rest := [], after;
      assert bytes == LINE_END + after;
    } else {
      var later;
      later, rest := TrailersFound(after);
      trailers := [line] + later;
      assert trailers[1..] == later;
      assert line + LINE_END + (PrintTrailers(later) + rest) == PrintTrailers(trailers) + rest;
    }
  }

  /** The first line of a readable body, and what follows it. */
  lemma FirstLine(utf8: Utf8, bytes: Bytes, allowance: nat)
    requires ChunkedBody(utf8, bytes, allowance, false).Some?
    ensures LineEnd(bytes, false).Some?
    ensures var end := LineEnd(bytes, false).value;
            var size, after := ChunkSize(utf8, bytes[..end]), bytes[end + 2..];
            && size.Some?
            && (size.value == 0 ==> TrailersEnd(after, false))
            && (size.value > 0 ==>
                  && size.value <= allowance && size.value + 2 <= |after|
                  && after == after[..size.value] + LINE_END + after[size.value + 2..]
                  && ChunkedBody(utf8, after[size.value + 2..], allowance - size.value, false).Some?)
  {
    hide FindCrLf, ChunkSize, TrailersEnd;
  }

  lemma {:induction false} ReadIsWellFormed(utf8: Utf8, bytes: Bytes, allowance: nat)
    returns (chunks: seq<RawChunk>, last: Bytes, trailers: seq<Bytes>, rest: Bytes)
    requires ChunkedBody(utf8, bytes, allowance, false).Some?
    ensures WellFormed(utf8, chunks, last, trailers) && bytes == RawBody(chunks, last, trailers, rest)
    decreases |bytes|
  {
    hide FindCrLf, ChunkSize, TrailersEnd, PrintTrailers, ChunkedBody, LineEnd, Trailer;
    FirstLine(utf8, bytes, allowance);
    var end := LineEnd(bytes, false).value;
    CutAtLine(bytes, end);
    var line, after := bytes[..end], bytes[end + 2..];
    var size := ChunkSize(utf8, line).value;
    if size == 0 {
      chunks, last := [], line;
      trailers, rest := TrailersFound(after);
      assert Raw([]) + (last + LINE_END + after) == bytes;
    } else {
      var data, later := after[..size], after[size + 2..];
      var more;
      more, last, trailers, rest := ReadIsWellFormed(utf8, later, allowance - size);
      chunks := [RawChunk(line, data)] + more;
      OneMoreChunk(utf8, RawChunk(line, data), more, last, trailers);
      FrontOf(RawChunk(line, data), more, last + LINE_END + (PrintTrailers(trailers) + rest), later, bytes, after);
    }
  }

  lemma OneMoreChunk(utf8: Utf8, c: RawChunk, more: seq<RawChunk>, last: Bytes, trailers: seq<Bytes>)
    requires Sized(utf8, c) && WellFormed(utf8, more, last, trailers)
    ensures WellFormed(utf8, [c] + more, last, trailers)
  {
    hide Sized, LastHeader, Trailer;
  }

  lemma FrontOf(c: RawChunk, more: seq<RawChunk>, tail: Bytes, later: Bytes, bytes: Bytes, after: Bytes)
    requires later == Raw(more) + tail && after == c.data + LINE_END + later && bytes == c.header + LINE_END + after
    ensures bytes == Raw([c] + more) + tail
  {
    assert ([c] + more)[1..] == more;
  }

  /** The body some bytes carry, told from how they are made. */
  ghost predicate Carries(utf8: Utf8, bytes: Bytes, body: Bytes) {
    exists chunks, last, trailers, rest ::
      WellFormed(utf8, chunks, last, trailers) && bytes == RawBody(chunks, last, trailers, rest) && body == RawData(chunks)
  }

  /** Bytes are read as a body exactly when they are made so, and the body is within the limit. */
  lemma ReadExactlyWhen(utf8: Utf8, bytes: Bytes, body: Bytes, limit: nat)
    ensures ChunkedBody(utf8, bytes, limit, false) == Some(body) <==> Carries(utf8, bytes, body) && |body| <= limit
  {
    hide ChunkedBody, WellFormed, RawBody, RawData;
    if ChunkedBody(utf8, bytes, limit, false).Some? {
      var chunks, last, trailers, rest := ReadIsWellFormed(utf8, bytes, limit);
      WellFormedIsRead(utf8, chunks, last, trailers, rest, limit);
    }
    if Carries(utf8, bytes, body) {
      var chunks, last, trailers, rest :|
        WellFormed(utf8, chunks, last, trailers) && bytes == RawBody(chunks, last, trailers, rest) && body == RawData(chunks);
      WellFormedIsRead(utf8, chunks, last, trailers, rest, limit);
    }
  }

  // ----- sizes -----

  predicate IsHex(c: char) {
    '0' <= c <= '9' || 'a' <= c <= 'f' || 'A' <= c <= 'F'
  }

  lemma {:induction false} HexValueExactlyWhen(digits: string)
    ensures HexValue(digits).Some? <==> forall i :: 0 <= i < |digits| ==> IsHex(digits[i])
    decreases |digits|
  {
    if digits != "" {
      var init := digits[..|digits| - 1];
      HexValueExactlyWhen(init);
      assert forall i :: 0 <= i < |init| ==> init[i] == digits[i];
    }
  }

  /** A size is read exactly from hexadecimal digits, at least one, behind at most one plus sign, whose number fits a machine word. */
  lemma SizeExactlyWhen(text: string)
    ensures var digits := if text != "" && text[0] == '+' then text[1..] else text;
            ParseHex(text).Some? <==>
              digits != "" && (forall i :: 0 <= i < |digits| ==> IsHex(digits[i])) && (HexValue(digits).Some? ==> HexValue(digits).value < 0x1_0000_0000_0000_0000)
  {
    HexValueExactlyWhen(if text != "" && text[0] == '+' then text[1..] else text);
  }
}
