/** Writing a chunked body, and reading it back. */
module ChunkedCoding {
  import opened Base
  import opened BodyReader

  /** A chunk with its extensions, which start with a semicolon if there are any. */
  datatype Chunk = Chunk(data: Bytes, extensions: string)

  predicate IsAscii(text: string) {
    forall i :: 0 <= i < |text| ==> text[i] as int < 128
  }

  function Ascii(text: string): Bytes
    requires IsAscii(text)
  {
    seq(|text|, i requires 0 <= i < |text| => text[i] as int)
  }

  /** The law of decoding that is needed: ASCII text is its own UTF-8 form. */
  ghost predicate ReadsAscii(utf8: Utf8) {
    forall text :: IsAscii(text) ==> utf8(Ascii(text)) == Some(text)
  }

  function HexChar(n: nat): char
    requires n < 16
  {
    "0123456789abcdef"[n]
  }

  function HexText(n: nat): (text: string)
    ensures text != ""
    ensures forall i :: 0 <= i < |text| ==> HexDigit(text[i]).Some?
  {
    if n < 16 then [HexChar(n)] else HexText(n / 16) + [HexChar(n % 16)]
  }

  const LINE_END: Bytes := [CR, LF]

  /** A chunk the coding can carry. */
  predicate Printable(c: Chunk) {
    && 0 < |c.data| < USIZE
    && IsAscii(c.extensions) && '\r' !in c.extensions
    && (c.extensions != "" ==> c.extensions[0] == ';')
  }

  /** Header and trailer lines that no segmentation makes too long. */
  predicate Short(c: Chunk) {
    |HexText(|c.data|) + c.extensions| < MAX_HEADER_BYTES
  }

  predicate AllShort(chunks: seq<Chunk>, trailers: seq<Bytes>) {
    (forall i :: 0 <= i < |chunks| ==> Short(chunks[i])) && ShortTrailers(trailers)
  }

  predicate ShortTrailers(trailers: seq<Bytes>) {
    forall i :: 0 <= i < |trailers| ==> |trailers[i]| < MAX_HEADER_BYTES
  }

  function Header(size: nat, extensions: string): Bytes
    requires IsAscii(extensions)
  {
    Ascii(HexText(size) + extensions) + LINE_END
  }

  function PrintChunks(chunks: seq<Chunk>): Bytes
    requires forall c <- chunks :: Printable(c)
  {
    if chunks == [] then []
    else
      assert Printable(chunks[0]);
      Header(|chunks[0].data|, chunks[0].extensions) + chunks[0].data + LINE_END + PrintChunks(chunks[1..])
  }

  /** A trailer line: not empty, no line end inside. */
  predicate Trailer(line: Bytes) {
    line != [] && FindCrLf(line).None?
  }

  function PrintTrailers(trailers: seq<Bytes>): Bytes {
    if trailers == [] then LINE_END else trailers[0] + LINE_END + PrintTrailers(trailers[1..])
  }

  /** Section 7.1 of RFC 9112: the chunks, the last chunk, the trailers. */
  function PrintBody(chunks: seq<Chunk>, trailers: seq<Bytes>): Bytes
    requires forall c <- chunks :: Printable(c)
  {
    PrintChunks(chunks) + Header(0, "") + PrintTrailers(trailers)
  }

  function Data(chunks: seq<Chunk>): Bytes {
    if chunks == [] then [] else chunks[0].data + Data(chunks[1..])
  }

  // ----- lines -----

  lemma LineThenEnd(line: Bytes, rest: Bytes)
    requires FindCrLf(line).None?
    ensures FindCrLf(line + LINE_END + rest) == Some(|line|)
  {
    var whole := line + LINE_END + rest;
    assert CrLfAt(whole, |line|);
    assert forall i: nat :: i + 2 <= |line| ==> CrLfAt(whole, i) == CrLfAt(line, i);
  }

  lemma {:induction false} HexReadsBack(n: nat)
    ensures HexValue(HexText(n)) == Some(n)
  {
    if n >= 16 {
      HexReadsBack(n / 16);
      assert HexText(n)[..|HexText(n)| - 1] == HexText(n / 16);
    } else {
      assert HexText(n)[..0] == "";
    }
  }

  lemma {:induction false} UpToExtensions(text: string, extensions: string)
    requires ';' !in text && (extensions != "" ==> extensions[0] == ';')
    ensures UpTo(text + extensions, ';') == text
  {
    if text == "" {
      assert text + extensions == extensions;
    } else {
      assert (text + extensions)[1..] == text[1..] + extensions;
      UpToExtensions(text[1..], extensions);
    }
  }

  lemma OneDigit()
    ensures |HexText(0) + ""| == 1
  {}

  lemma DigitIsPlain(c: char)
    requires HexDigit(c).Some?
    ensures !WhiteSpace(c) && c !in {';', '+', '\r'} && c as int < 128
  {}

  lemma SizeReadsBack(utf8: Utf8, size: nat, extensions: string)
    requires ReadsAscii(utf8) && size < USIZE && IsAscii(extensions)
    requires extensions != "" ==> extensions[0] == ';'
    ensures ChunkSize(utf8, Ascii(HexText(size) + extensions)) == Some(size)
  {
    hide HexText, HexDigit, HexValue;
    var text := HexText(size);
    forall i | 0 <= i < |text|
      ensures !WhiteSpace(text[i]) && text[i] !in {';', '+'} && text[i] as int < 128
    {
      DigitIsPlain(text[i]);
    }
    UpToExtensions(text, extensions);
    HexReadsBack(size);
    assert utf8(Ascii(text + extensions)) == Some(text + extensions);
  }

  lemma HeaderIsOneLine(size: nat, extensions: string, rest: Bytes, strict: bool)
    requires IsAscii(extensions) && '\r' !in extensions
    ensures LineEnd(Header(size, extensions) + rest, strict) ==
            if strict && |HexText(size) + extensions| >= MAX_HEADER_BYTES then None else Some(|HexText(size) + extensions|)
  {
    var text := HexText(size) + extensions;
    forall i: nat
      ensures !CrLfAt(Ascii(text), i)
    {
      if i < |text| {
        assert text[i] in HexText(size) || text[i] in extensions;
      }
    }
    LineThenEnd(Ascii(text), rest);
    assert Header(size, extensions) + rest == Ascii(text) + LINE_END + rest;
  }

  lemma {:induction false} TrailersReadBack(trailers: seq<Bytes>, rest: Bytes, strict: bool)
    requires forall t <- trailers :: Trailer(t)
    ensures TrailersEnd(PrintTrailers(trailers) + rest, strict) <==> (strict ==> ShortTrailers(trailers))
    decreases |trailers|
  {
    hide FindCrLf;
    if trailers == [] {
      EmptyLine(rest, strict);
    } else {
      var line, after := trailers[0], PrintTrailers(trailers[1..]) + rest;
      assert Trailer(line);
      TrailersReadBack(trailers[1..], rest, strict);
      LineThenEnd(line, after);
      var whole := PrintTrailers(trailers) + rest;
      assert whole == line + LINE_END + after;
      assert whole[|line| + 2..] == after;
    }
  }

  lemma EmptyLine(rest: Bytes, strict: bool)
    ensures LineEnd(LINE_END + rest, strict) == Some(0)
  {
    assert CrLfAt(LINE_END + rest, 0);
  }

  // ----- the whole body -----

  lemma {:induction false} ChunksReadBack(utf8: Utf8, chunks: seq<Chunk>, trailers: seq<Bytes>, rest: Bytes, allowance: nat, strict: bool)
    requires ReadsAscii(utf8) && (forall c <- chunks :: Printable(c)) && (forall t <- trailers :: Trailer(t))
    ensures ChunkedBody(utf8, PrintBody(chunks, trailers) + rest, allowance, strict) ==
            if |Data(chunks)| <= allowance && (strict ==> AllShort(chunks, trailers)) then Some(Data(chunks)) else None
    decreases |chunks|
  {
    hide LineEnd, ChunkSize, TrailersEnd, HexText, PrintTrailers, Header;
    hide ChunkedBody;
    if chunks == [] {
      LastChunkRead(utf8, trailers, rest, allowance, strict);
    } else {
      var c, later := chunks[0], PrintBody(chunks[1..], trailers) + rest;
      assert Printable(c);
      assert PrintBody(chunks, trailers) + rest == Header(|c.data|, c.extensions) + (c.data + LINE_END + later);
      FirstChunkRead(utf8, c, later, allowance, strict);
      assert AllShort(chunks, trailers) <==> Short(c) && AllShort(chunks[1..], trailers) by {
        FewerShort(chunks, trailers);
      }
      if |c.data| <= allowance {
        ChunksReadBack(utf8, chunks[1..], trailers, rest, allowance - |c.data|, strict);
      }
    }
  }

  lemma LastChunkRead(utf8: Utf8, trailers: seq<Bytes>, rest: Bytes, allowance: nat, strict: bool)
    requires ReadsAscii(utf8) && (forall t <- trailers :: Trailer(t))
    ensures ChunkedBody(utf8, PrintBody([], trailers) + rest, allowance, strict) ==
            if strict ==> ShortTrailers(trailers) then Some([]) else None
  {
    hide LineEnd, ChunkSize, TrailersEnd, HexText, PrintTrailers, Header;
    var after := PrintTrailers(trailers) + rest;
    assert PrintBody([], trailers) + rest == Header(0, "") + after;
    OneDigit();
    HeaderRead(utf8, 0, "", after, strict);
    TrailersReadBack(trailers, rest, strict);
  }

  lemma FirstChunkRead(utf8: Utf8, c: Chunk, later: Bytes, allowance: nat, strict: bool)
    requires ReadsAscii(utf8) && Printable(c)
    ensures ChunkedBody(utf8, Header(|c.data|, c.extensions) + (c.data + LINE_END + later), allowance, strict) ==
            if |c.data| <= allowance && (strict ==> Short(c)) then Prepend(c.data, ChunkedBody(utf8, later, allowance - |c.data|, strict)) else None
  {
    hide LineEnd, ChunkSize, TrailersEnd, HexText, Header;
    var after := c.data + LINE_END + later;
    if strict && !Short(c) {
      HeaderIsOneLine(|c.data|, c.extensions, after, strict);
      HeaderRefused(utf8, Header(|c.data|, c.extensions) + after, allowance, strict);
      return;
    }
    HeaderRead(utf8, |c.data|, c.extensions, after, strict);
    HeaderGives(utf8, Header(|c.data|, c.extensions) + after, |c.data|, after, allowance, strict);
    assert CrLfAt(after, |c.data|) && after[..|c.data|] == c.data && after[|c.data| + 2..] == later;
  }

  lemma FewerShort(chunks: seq<Chunk>, trailers: seq<Bytes>)
    requires chunks != []
    ensures AllShort(chunks, trailers) <==> Short(chunks[0]) && AllShort(chunks[1..], trailers)
  {
    hide Short;
    assert chunks == [chunks[0]] + chunks[1..];
  }

  lemma HeaderRefused(utf8: Utf8, bytes: Bytes, allowance: nat, strict: bool)
    requires LineEnd(bytes, strict).None?
    ensures ChunkedBody(utf8, bytes, allowance, strict).None?
  {}

  lemma HeaderGives(utf8: Utf8, bytes: Bytes, size: nat, after: Bytes, allowance: nat, strict: bool)
    requires var end := LineEnd(bytes, strict);
             end.Some? && ChunkSize(utf8, bytes[..end.value]) == Some(size) && bytes[end.value + 2..] == after
    requires size > 0
    ensures ChunkedBody(utf8, bytes, allowance, strict) ==
            if size > allowance then None else DataThenBody(utf8, after, size, allowance, strict)
  {
    hide LineEnd, ChunkSize, TrailersEnd;
  }

  /** The header line of a chunk is read, and what follows it is left. */
  lemma HeaderRead(utf8: Utf8, size: nat, extensions: string, after: Bytes, strict: bool)
    requires ReadsAscii(utf8) && size < USIZE && IsAscii(extensions) && '\r' !in extensions
    requires extensions != "" ==> extensions[0] == ';'
    requires strict ==> |HexText(size) + extensions| < MAX_HEADER_BYTES
    ensures var bytes, end := Header(size, extensions) + after, LineEnd(Header(size, extensions) + after, strict);
            && end.Some?
            && ChunkSize(utf8, bytes[..end.value]) == Some(size)
            && bytes[end.value + 2..] == after
  {
    hide ChunkSize, HexText;
    HeaderIsOneLine(size, extensions, after, strict);
    SizeReadsBack(utf8, size, extensions);
    var bytes, text := Header(size, extensions) + after, HexText(size) + extensions;
    assert bytes[..|text|] == Ascii(text);
  }

  /**
   A chunked body comes back exactly, whatever the chunks, their extensions and
   trailers, the bytes behind it, and the segments it arrives in; and it is
   refused in all of them when it exceeds the limit.
   */
  method ReadChunkedBody(
      utf8: Utf8, chunks: seq<Chunk>, trailers: seq<Bytes>, rest: Bytes,
      initial: Bytes, socket: seq<Bytes>, end: SocketEnd, limit: nat) returns (r: Result<Bytes, HostError>)
    requires ReadsAscii(utf8) && (forall c <- chunks :: Printable(c)) && (forall t <- trailers :: Trailer(t)) && AllShort(chunks, trailers)
    requires forall i :: 0 <= i < |socket| ==> 0 < |socket[i]| <= PIECE_BYTES
    requires initial + Flatten(socket) == PrintBody(chunks, trailers) + rest
    requires limit < USIZE
    ensures r.Ok? <==> |Data(chunks)| <= limit
    ensures r.Ok? ==> r.value == Data(chunks)
  {
    hide ChunkedBody, PrintBody, Data, AllShort;
    ChunksReadBack(utf8, chunks, trailers, rest, limit, true);
    ChunksReadBack(utf8, chunks, trailers, rest, limit, false);
    var reader := new BodyReader(utf8, Chunked, initial, socket, end);
    r := reader.ReadToEnd(limit);
  }

  // ----- what the segmentation can change -----

  /** The same bytes, one to a segment. */
  function Trickle(bytes: Bytes): (socket: seq<Bytes>)
    ensures |socket| == |bytes| && forall i :: 0 <= i < |socket| ==> socket[i] == [bytes[i]]
  {
    seq(|bytes|, i requires 0 <= i < |bytes| => [bytes[i]])
  }

  lemma {:induction false} TrickleFlat(bytes: Bytes)
    ensures Flatten(Trickle(bytes)) == bytes
    decreases |bytes|
  {
    if bytes != [] {
      TrickleFlat(bytes[1..]);
      assert Trickle(bytes)[1..] == Trickle(bytes[1..]);
      assert [bytes[0]] + bytes[1..] == bytes;
    }
  }

  /**
   Byte by byte, any bytes at all: the reader returns what the strict reading of
   all of them gives, and fails exactly when that gives nothing. So what the
   strict reading refuses is refused under some segmentation, and what it
   accepts under none.
   */
  method ReadByteByByte(utf8: Utf8, bytes: Bytes, end: SocketEnd, limit: nat) returns (r: Result<Bytes, HostError>)
    requires limit < USIZE
    ensures r.Ok? <==> ChunkedBody(utf8, bytes, limit, true).Some?
    ensures r.Ok? ==> Some(r.value) == ChunkedBody(utf8, bytes, limit, true)
  {
    hide ChunkedBody, Trickle;
    TrickleFlat(bytes);
    assert [] + bytes == bytes;
    assert ChunkedBody(utf8, bytes, limit, true).Some? ==> ChunkedBody(utf8, bytes, limit, false) == ChunkedBody(utf8, bytes, limit, true) by {
      if ChunkedBody(utf8, bytes, limit, true).Some? {
        StrictIsLenient(utf8, bytes, limit);
      }
    }
    var reader := new BodyReader(utf8, Chunked, [], Trickle(bytes), end);
    assert reader.Exact(true);
    r := reader.ReadToEnd(limit);
  }

  /** With all but the last segment within the limit: what the lenient reading gives. */
  method ReadArriving(utf8: Utf8, initial: Bytes, socket: seq<Bytes>, end: SocketEnd, limit: nat) returns (r: Result<Bytes, HostError>)
    requires forall i :: 0 <= i < |socket| ==> 0 < |socket[i]| <= PIECE_BYTES
    requires socket != [] ==> |initial + Flatten(socket)| <= MAX_HEADER_BYTES + |socket[|socket| - 1]|
    requires limit < USIZE
    ensures r.Ok? <==> ChunkedBody(utf8, initial + Flatten(socket), limit, false).Some?
    ensures r.Ok? ==> Some(r.value) == ChunkedBody(utf8, initial + Flatten(socket), limit, false)
  {
    hide ChunkedBody;
    var reader := new BodyReader(utf8, Chunked, initial, socket, end);
    assert reader.Pending() == initial + Flatten(socket);
    assert reader.Exact(false);
    r := reader.ReadToEnd(limit);
  }

  // ----- a body that shows it -----

  /** The bytes in segments that are full, but for the last one. */
  function Full(bytes: Bytes): seq<Bytes>
    decreases |bytes|
  {
    if |bytes| <= PIECE_BYTES then [bytes] else [bytes[..PIECE_BYTES]] + Full(bytes[PIECE_BYTES..])
  }

  lemma {:induction false} FullFlat(bytes: Bytes)
    requires bytes != []
    ensures Flatten(Full(bytes)) == bytes
    ensures forall i :: 0 <= i < |Full(bytes)| ==> 0 < |Full(bytes)[i]| <= PIECE_BYTES
    decreases |bytes|
  {
    if |bytes| <= PIECE_BYTES {
      assert [bytes][1..] == [] && bytes + [] == bytes;
    } else {
      FullFlat(bytes[PIECE_BYTES..]);
      assert Full(bytes)[1..] == Full(bytes[PIECE_BYTES..]);
      assert bytes[..PIECE_BYTES] + bytes[PIECE_BYTES..] == bytes;
    }
  }

  /** One byte of data behind a header line of 65536 bytes. */
  function LongChunk(): Chunk {
    Chunk([120], ";" + seq(65534, i => 'x'))
  }

  lemma LongIsLong()
    ensures Printable(LongChunk()) && |HexText(1) + LongChunk().extensions| == MAX_HEADER_BYTES
  {}

  /** The body of that chunk: the header line, and ten bytes. */
  lemma LongBody() returns (head: Bytes, tail: Bytes)
    ensures Printable(LongChunk()) && PrintBody([LongChunk()], []) == head + tail
    ensures |head| == MAX_HEADER_BYTES && |tail| == 10
  {
    hide LongChunk;
    LongIsLong();
    var c := LongChunk();
    assert |c.data| == 1 by {
      DataOfLong();
    }
    head := Ascii(HexText(1) + c.extensions);
    OneDigit();
    var last := Header(0, "") + PrintTrailers([]);
    tail := LINE_END + c.data + LINE_END + last;
    assert [c][1..] == [];
    assert PrintChunks([c]) == Header(1, c.extensions) + c.data + LINE_END + [];
    assert PrintBody([c], []) == head + tail;
  }

  lemma DataOfLong()
    ensures LongChunk().data == [120]
  {}

  /**
   The refusal depends on the cut: the same bytes are read when they come in full
   segments, and refused when they come one by one.
   */
  method LongHeaderTwoWays(utf8: Utf8, end: SocketEnd) returns (full: Result<Bytes, HostError>, single: Result<Bytes, HostError>)
    requires ReadsAscii(utf8)
    ensures full == Ok([120]) && single.Err?
  {
    hide ChunkedBody, PrintBody, LongChunk, Full;
    ghost var head, tail := LongBody();
    var chunk := LongChunk();
    LongIsLong();
    DataOfLong();
    assert !Short(chunk);
    OnlyChunk(chunk);
    ChunksReadBack(utf8, [chunk], [], [], 1, true);
    ChunksReadBack(utf8, [chunk], [], [], 1, false);
    var whole := PrintBody([chunk], []);
    assert whole + [] == whole;
    var front, back := whole[..MAX_HEADER_BYTES], whole[MAX_HEADER_BYTES..];
    assert front + back == whole;
    FullFlat(front);
    FlattenAppend(Full(front), [back]);
    OneSegment(back);
    assert [] + whole == whole;
    full := ReadArriving(utf8, [], Full(front) + [back], end, 1);
    single := ReadByteByByte(utf8, whole, end, 1);
  }

  lemma OnlyChunk(c: Chunk)
    ensures Data([c]) == c.data && (AllShort([c], []) <==> Short(c))
  {
    hide Short;
    assert [c][1..] == [] && c.data + [] == c.data;
    assert [c][0] == c;
  }

  lemma OneSegment(bytes: Bytes)
    ensures Flatten([bytes]) == bytes
  {
    var none := [bytes][1..];
    assert none == [] && bytes + Flatten(none) == bytes;
  }
}
