/**
 The bounded HTTP body reader: pieces of a body taken from a socket under three
 framings, against a reading of all the bytes at once.
 */
module BodyReader {
  import opened Base

  const MAX_HEADER_BYTES: nat := 65536
  const PIECE_BYTES: nat := 4096
  const USIZE: nat := 0x1_0000_0000_0000_0000

  datatype HostError = Unavailable | ProtocolError

  datatype Framing = ContentLength(length: nat) | Chunked | UntilEof

  /** After the last byte the peer has closed the connection, or reading fails. */
  datatype SocketEnd = Closed | Broken

  type Bytes = seq<Byte>

  /** `str::from_utf8`. */
  type Utf8 = Bytes -> Option<string>

  // ----- chunk headers -----

  predicate CrLfAt(bytes: Bytes, i: nat) {
    i + 2 <= |bytes| && bytes[i] == CR && bytes[i + 1] == LF
  }

  /** `windows(2).position`. */
  function FindCrLf(bytes: Bytes): (r: Option<nat>)
    ensures r.Some? ==> CrLfAt(bytes, r.value) && forall i: nat :: i < r.value ==> !CrLfAt(bytes, i)
    ensures r.None? ==> forall i: nat :: !CrLfAt(bytes, i)
  {
    if CrLfAt(bytes, 0) then Some(0)
    else if bytes == [] then None
    else
      var r := FindCrLf(bytes[1..]);
      assert forall i: nat :: i > 0 ==> CrLfAt(bytes, i) == CrLfAt(bytes[1..], i - 1);
      if r.Some? then Some(r.value + 1) else None
  }

  function UpTo(text: string, stop: char): string {
    if text == "" || text[0] == stop then "" else [text[0]] + UpTo(text[1..], stop)
  }

  /** White space in the sense of Unicode, as `str::trim` removes it. */
  predicate WhiteSpace(c: char) {
    var n := c as int;
    || 9 <= n <= 13 || n == 32 || n == 0x85 || n == 0xa0 || n == 0x1680 || 0x2000 <= n <= 0x200a
    || n == 0x2028 || n == 0x2029 || n == 0x202f || n == 0x205f || n == 0x3000
  }

  function TrimLeft(s: string): string {
    if s != "" && WhiteSpace(s[0]) then TrimLeft(s[1..]) else s
  }

  function TrimRight(s: string): string {
    if s != "" && WhiteSpace(s[|s| - 1]) then TrimRight(s[..|s| - 1]) else s
  }

  function HexDigit(c: char): Option<nat> {
    if '0' <= c <= '9' then Some(c as nat - '0' as nat)
    else if 'a' <= c <= 'f' then Some(c as nat - 'a' as nat + 10)
    else if 'A' <= c <= 'F' then Some(c as nat - 'A' as nat + 10)
    else None
  }

  function HexValue(digits: string): Option<nat> {
    if digits == "" then Some(0)
    else
      var front, last := HexValue(digits[..|digits| - 1]), HexDigit(digits[|digits| - 1]);
      if front.Some? && last.Some? then Some(16 * front.value + last.value) else None
  }

  /** `usize::from_str_radix(_, 16)`: an optional plus sign, at least one digit, no overflow. */
  function ParseHex(text: string): Option<nat> {
    var digits := if text != "" && text[0] == '+' then text[1..] else text;
    if digits == "" || HexValue(digits).None? || HexValue(digits).value >= USIZE then None else HexValue(digits)
  }

  function ChunkSize(utf8: Utf8, line: Bytes): Option<nat> {
    var text := utf8(line);
    if text.None? then None else ParseHex(TrimRight(TrimLeft(UpTo(text.value, ';'))))
  }

  // ----- a body read at once -----

  function Prepend(front: Bytes, rest: Option<Bytes>): Option<Bytes> {
    if rest.None? then None else Some(front + rest.value)
  }

  /** The end of a line that may be read: under `strict`, only one that no segmentation makes too long. */
  function LineEnd(bytes: Bytes, strict: bool): (r: Option<nat>)
    ensures r.Some? ==> CrLfAt(bytes, r.value)
  {
    var end := FindCrLf(bytes);
    if end.Some? && strict && end.value + 1 > MAX_HEADER_BYTES then None else end
  }

  predicate TrailersEnd(bytes: Bytes, strict: bool)
    decreases |bytes|
  {
    var end := LineEnd(bytes, strict);
    end.Some? && (end.value == 0 || TrailersEnd(bytes[end.value + 2..], strict))
  }

  lemma TrailersStep(bytes: Bytes, strict: bool)
    ensures TrailersEnd(bytes, strict) <==>
              var end := LineEnd(bytes, strict);
              end.Some? && (end.value == 0 || TrailersEnd(bytes[end.value + 2..], strict))
  {
    hide FindCrLf;
  }

  /** A chunked body of at most `allowance` bytes. */
  function ChunkedBody(utf8: Utf8, bytes: Bytes, allowance: nat, strict: bool): Option<Bytes>
    decreases |bytes|, 0
  {
    var end := LineEnd(bytes, strict);
    if end.None? then None
    else
      var size, after := ChunkSize(utf8, bytes[..end.value]), bytes[end.value + 2..];
      if size.None? then None
      else if size.value == 0 then (if TrailersEnd(after, strict) then Some([]) else None)
      else if size.value > allowance then None
      else DataThenBody(utf8, after, size.value, allowance, strict)
  }

  /** The last `n` bytes of a chunk, its line end, and the chunks that follow. */
  function DataThenBody(utf8: Utf8, bytes: Bytes, n: nat, allowance: nat, strict: bool): Option<Bytes>
    requires n <= allowance
    decreases |bytes|, 1
  {
    if CrLfAt(bytes, n) then Prepend(bytes[..n], ChunkedBody(utf8, bytes[n + 2..], allowance - n, strict)) else None
  }

  /** The body that `bytes` carry, if they carry a whole one within the limit. */
  function WholeBody(utf8: Utf8, framing: Framing, bytes: Bytes, end: SocketEnd, limit: nat, strict: bool): Option<Bytes> {
    match framing
    case ContentLength(length) => if length <= |bytes| && length <= limit then Some(bytes[..length]) else None
    case UntilEof => if end.Closed? && |bytes| <= limit then Some(bytes) else None
    case Chunked => ChunkedBody(utf8, bytes, limit, strict)
  }

  lemma {:induction false} StrictTrailers(bytes: Bytes)
    requires TrailersEnd(bytes, true)
    ensures TrailersEnd(bytes, false)
    decreases |bytes|
  {
    var end := LineEnd(bytes, true);
    if end.value != 0 {
      StrictTrailers(bytes[end.value + 2..]);
    }
  }

  /** What is readable under every segmentation is read the same without the limit on header lines. */
  lemma {:induction false} StrictIsLenient(utf8: Utf8, bytes: Bytes, allowance: nat)
    requires ChunkedBody(utf8, bytes, allowance, true).Some?
    ensures ChunkedBody(utf8, bytes, allowance, false) == ChunkedBody(utf8, bytes, allowance, true)
    decreases |bytes|
  {
    hide ChunkSize, FindCrLf, TrailersEnd;
    var end := LineEnd(bytes, true).value;
    var size, after := ChunkSize(utf8, bytes[..end]).value, bytes[end + 2..];
    if size == 0 {
      StrictTrailers(after);
    } else {
      StrictIsLenient(utf8, after[size + 2..], allowance - size);
    }
  }

  // ----- the reader -----

  class BodyReader {
    const utf8: Utf8
    const framing: Framing
    const end: SocketEnd
    var socket: seq<Bytes>
    var buffer: Bytes
    var remaining: nat
    var chunkRemaining: nat
    var chunkNeedsCrLf: bool
    var chunkDone: bool
    var eof: bool
    var total: nat

    /** Between two calls; the socket never delivers an empty or an oversized segment. */
    ghost predicate Valid()
      reads this
    {
      && (forall i :: 0 <= i < |socket| ==> 0 < |socket[i]| <= PIECE_BYTES)
      && (eof ==> socket == [] && end.Closed?)
      && (chunkRemaining > 0 ==> framing.Chunked? && !chunkNeedsCrLf && !chunkDone)
    }

    ghost function Pending(): Bytes
      reads this`buffer, this`socket
    {
      buffer + Flatten(socket)
    }

    /** What the reader still has to deliver. */
    ghost function Owed(limit: nat, strict: bool): Option<Bytes>
      requires total + chunkRemaining <= limit
      reads this
    {
      match framing
      case ContentLength(_) =>
        if remaining == 0 then Some([])
        else if remaining <= |Pending()| && total + remaining <= limit then Some(Pending()[..remaining])
        else None
      case UntilEof => if end.Closed? && total + |Pending()| <= limit then Some(Pending()) else None
      case Chunked =>
        if chunkDone then Some([])
        else if chunkNeedsCrLf || chunkRemaining > 0 then DataThenBody(utf8, Pending(), chunkRemaining, limit - total, strict)
        else ChunkedBody(utf8, Pending(), limit - total, strict)
    }

    /** Everything still to come arrives one byte at a time. */
    ghost predicate Trickling()
      reads this`buffer, this`socket
    {
      buffer == [] && forall i :: 0 <= i < |socket| ==> |socket[i]| == 1
    }

    /** All but the last segment still to come is within the limit on header lines. */
    ghost predicate Arriving()
      reads this`buffer, this`socket
    {
      socket == [] || |Pending()| <= MAX_HEADER_BYTES + |socket[|socket| - 1]|
    }

    /** A body that ends with the connection, between two segments. */
    ghost predicate InStep()
      reads this`buffer, this`socket
    {
      framing.UntilEof? && buffer == []
    }

    /** Segmentations under which the reading is exact: one that refuses every overlong line, and one that refuses none. */
    ghost predicate Exact(strict: bool)
      reads this`buffer, this`socket
    {
      if strict then Trickling() else Arriving()
    }

    constructor (utf8: Utf8, framing: Framing, initial: Bytes, socket: seq<Bytes>, end: SocketEnd)
      requires forall i :: 0 <= i < |socket| ==> 0 < |socket[i]| <= PIECE_BYTES
      ensures Valid() && total == 0 && chunkRemaining == 0
      ensures this.utf8 == utf8 && this.framing == framing && this.end == end && buffer == initial && this.socket == socket
      ensures forall limit, strict :: Owed(limit, strict) == WholeBody(utf8, framing, initial + Flatten(socket), end, limit, strict)
    {
      this.utf8, this.framing, this.end, this.socket, buffer := utf8, framing, end, socket, initial;
      remaining := if framing.ContentLength? then framing.length else 0;
      chunkRemaining, chunkNeedsCrLf, chunkDone, eof, total := 0, false, false, false, 0;
      new;
      assert framing.ContentLength? && framing.length == 0 ==> Pending()[..0] == [];
    }

    /** Reads once; true when the buffer has grown. */
    method Fill() returns (r: Result<bool, HostError>)
      requires Valid()
      modifies this`socket, this`buffer, this`eof
      ensures Valid() && Pending() == old(Pending())
      ensures r.Ok? && r.value ==> old(socket) != [] && socket == old(socket)[1..] && buffer == old(buffer) + old(socket)[0]
      ensures r.Ok? && !r.value ==> end.Closed? && socket == [] == old(socket) && buffer == old(buffer)
      ensures r.Err? ==> end.Broken? && socket == [] == old(socket) && buffer == old(buffer) && r.error == Unavailable
      ensures old(Arriving()) ==> Arriving()
    {
      if eof {
        return Ok(false);
      }
      if socket == [] {
        if end.Broken? {
          return Err(Unavailable);
        }
        eof := true;
        return Ok(false);
      }
      assert (buffer + socket[0]) + Flatten(socket[1..]) == buffer + Flatten(socket);
      buffer, socket := buffer + socket[0], socket[1..];
      return Ok(true);
    }

    /** Reads only if nothing is buffered; false at the end of the input. */
    method Refill() returns (r: Result<bool, HostError>)
      requires Valid()
      modifies this`socket, this`buffer, this`eof
      ensures Valid() && Pending() == old(Pending())
      ensures r.Ok? && r.value ==> buffer != [] && |Pending()| >= |buffer|
      ensures !(r.Ok? && r.value) ==> Pending() == [] && buffer == [] && socket == [] == old(socket)
      ensures if r.Ok? then r.value || end.Closed? else end.Broken?
      ensures old(Arriving()) ==> Arriving()
      ensures old(InStep()) ==>
                if old(socket) == [] then !(r.Ok? && r.value)
                else r.Ok? && r.value && socket == old(socket)[1..] && buffer == old(socket)[0]
      ensures old(Trickling()) && r.Ok? && r.value ==> |buffer| == 1 && forall i :: 0 <= i < |socket| ==> |socket[i]| == 1
    {
      if buffer != [] {
        return Ok(true);
      }
      ghost var before := buffer;
      r := Fill();
      assert old(socket) != [] ==> before + old(socket)[0] == old(socket)[0];
      assert socket == [] ==> Pending() == buffer;
    }

    method Take(count: nat) returns (taken: Bytes)
      requires count <= |buffer|
      modifies this`buffer
      ensures taken == old(buffer)[..count] && buffer == old(buffer)[count..]
      ensures Pending() == old(Pending())[count..]
      ensures taken == old(Pending())[..count]
      ensures old(Arriving()) ==> Arriving()
    {
      taken := buffer[..count];
      buffer := buffer[count..];
    }

    method Ensure(count: nat) returns (r: Result<(), HostError>)
      requires Valid()
      modifies this`socket, this`buffer, this`eof
      ensures Valid() && Pending() == old(Pending())
      ensures if r.Ok? then |buffer| >= count else |Pending()| < count
      ensures old(Trickling()) ==> |buffer| <= count && forall i :: 0 <= i < |socket| ==> |socket[i]| == 1
      ensures old(Arriving()) ==> Arriving()
    {
      while |buffer| < count
        invariant Valid() && Pending() == old(Pending())
        invariant old(Trickling()) ==> |buffer| <= count && forall i :: 0 <= i < |socket| ==> |socket[i]| == 1
        invariant old(Arriving()) ==> Arriving()
        decreases |socket|
      {
        var filled := Fill();
        if filled.Err? {
          return Err(filled.error);
        }
        if !filled.value {
          return Err(ProtocolError);
        }
      }
      return Ok(());
    }

    /** One line without its line end; None at the end of the input. */
    method ReadLine() returns (r: Result<Option<Bytes>, HostError>)
      requires Valid()
      modifies this`socket, this`buffer, this`eof
      ensures Valid() && |Pending()| <= |old(Pending())|
      ensures r.Ok? && r.value.Some? ==>
                var line := r.value.value;
                && FindCrLf(old(Pending())) == Some(|line|)
                && line == old(Pending())[..|line|]
                && Pending() == old(Pending())[|line| + 2..]
      ensures !(r.Ok? && r.value.Some?) ==> LineEnd(old(Pending()), true).None?
      ensures old(Trickling()) && r.Ok? && r.value.Some? ==> LineEnd(old(Pending()), true).Some? && Trickling()
      ensures old(Arriving()) ==> ((r.Ok? && r.value.Some?) <==> FindCrLf(old(Pending())).Some?) && Arriving()
    {
      hide FindCrLf, Flatten;
      var found := Gather();
      if found.Err? {
        return Err(found.error);
      }
      if found.value.None? {
        return Ok(None);
      }
      var line := Take(found.value.value);
      var end := Take(2);
      return Ok(Some(line));
    }

    /** Reads until a line end is buffered, and tells where; None at the end of the input. */
    method Gather() returns (r: Result<Option<nat>, HostError>)
      requires Valid()
      modifies this`socket, this`buffer, this`eof
      ensures Valid() && Pending() == old(Pending())
      ensures r.Ok? && r.value.Some? ==>
                var end := r.value.value;
                && end + 2 <= |buffer| && FindCrLf(Pending()) == Some(end)
                && (old(Trickling()) ==>
                      end + 2 == |buffer| && end + 1 <= MAX_HEADER_BYTES && forall i :: 0 <= i < |socket| ==> |socket[i]| == 1)
      ensures !(r.Ok? && r.value.Some?) ==> LineEnd(Pending(), true).None?
      ensures old(Arriving()) ==> ((r.Ok? && r.value.Some?) <==> FindCrLf(Pending()).Some?) && Arriving()
    {
      hide Flatten;
      ghost var trickling, seen := Trickling(), buffer;
      while true
        invariant Valid() && Pending() == old(Pending())
        invariant old(Arriving()) ==> Arriving()
        invariant trickling ==> Accumulated(seen, buffer) && forall i :: 0 <= i < |socket| ==> |socket[i]| == 1
        decreases |socket|
      {
        FoundEarly(buffer, Flatten(socket));
        var found := FindCrLf(buffer);
        if found.Some? {
          if trickling {
            FoundAtOnce(seen, buffer);
          }
          return Ok(found);
        }
        NothingBehind(buffer, socket);
        if |buffer| > MAX_HEADER_BYTES {
          if socket != [] {
            LastIsPending(buffer, socket);
          }
          return Err(ProtocolError);
        }
        seen := buffer;
        var filled := Fill();
        NothingBehind(buffer, socket);
        if filled.Err? {
          return Err(filled.error);
        }
        if !filled.value {
          return Ok(None);
        }
      }
    }

    method Account(count: nat, limit: nat) returns (ok: bool)
      modifies this`total
      ensures ok == (old(total) + count < USIZE && old(total) + count <= limit)
      ensures ok ==> total == old(total) + count
    {
      if total + count >= USIZE {
        return false;
      }
      total := total + count;
      return total <= limit;
    }

    /** What one call does to the reader: it fails, ends, or goes on behind one more piece. */
    twostate predicate Moves(limit: nat, new r: Result<Option<Bytes>, HostError>)
      requires old(total + chunkRemaining) <= limit
      reads this
    {
      r.Ok? ==>
        && Valid() && total + chunkRemaining <= limit
        && (old(Exact(true)) ==> Exact(true)) && (old(Exact(false)) ==> Exact(false))
        && match r.value
           case None => total == old(total)
           case Some(piece) =>
             && 0 < |piece| <= PIECE_BYTES
             && total == old(total) + |piece|
             && |Pending()| + |piece| <= |old(Pending())|
    }

    /** What one call says about a reading of the body: it holds none, it is over, or it begins with the piece. */
    twostate predicate Gives(strict: bool, limit: nat, new r: Result<Option<Bytes>, HostError>)
      requires old(total + chunkRemaining) <= limit && (r.Ok? ==> total + chunkRemaining <= limit)
      reads this
    {
      match r
      case Err(_) => old(Owed(limit, strict)).None?
      case Ok(None) => old(Owed(limit, strict)) == Some([])
      case Ok(Some(piece)) => old(Owed(limit, strict)) == Prepend(piece, Owed(limit, strict))
    }

    /**
     A call speaks for the lenient reading when it succeeds, and for the strict
     one when it fails or that reading has a body; and for either under a
     segmentation that is exact for it.
     */
    twostate predicate Step(limit: nat, new r: Result<Option<Bytes>, HostError>)
      requires old(total + chunkRemaining) <= limit
      reads this
    {
      && Moves(limit, r)
      && (r.Ok? || old(Exact(false)) ==> Gives(false, limit, r))
      && (r.Err? || old(Owed(limit, true)).Some? || old(Exact(true)) ==> Gives(true, limit, r))
    }

    /** Each call hands over one segment, as it came. */
    twostate predicate InOrder(limit: nat, new r: Result<Option<Bytes>, HostError>)
      reads this
    {
      match r
      case Err(_) => if old(socket) == [] then end.Broken? else old(total) + |old(socket)[0]| > limit
      case Ok(None) => old(socket) == [] && socket == [] && InStep()
      case Ok(Some(piece)) => old(socket) != [] && piece == old(socket)[0] && socket == old(socket)[1..] && InStep()
    }

    /** The next piece of the body; None at its end. */
    method NextPiece(limit: nat) returns (r: Result<Option<Bytes>, HostError>)
      requires Valid() && total + chunkRemaining <= limit < USIZE
      modifies this
      ensures Step(limit, r)
      ensures old(InStep()) ==> InOrder(limit, r)
    {
      match framing {
        case ContentLength(_) => r := NextOfLength(limit);
        case UntilEof => r := NextUntilEof(limit);
        case Chunked => r := NextOfChunks(limit);
      }
    }

    /** At most `most` of the bytes that have arrived, and at most a full piece; reads only if nothing is buffered. */
    method Portion(most: nat) returns (r: Result<Option<Bytes>, HostError>)
      requires Valid() && most > 0
      modifies this`socket, this`buffer, this`eof
      ensures Valid()
      ensures r.Err? ==> end.Broken? && old(Pending()) == [] && old(socket) == []
      ensures r.Ok? && r.value.None? ==> end.Closed? && old(Pending()) == [] && Pending() == [] && old(socket) == [] && socket == [] && buffer == []
      ensures r.Ok? && r.value.Some? ==>
                var piece := r.value.value;
                && 0 < |piece| <= Min(most, PIECE_BYTES) && |piece| <= |old(Pending())|
                && piece == old(Pending())[..|piece|] && Pending() == old(Pending())[|piece|..]
      ensures r.Ok? ==> (old(Exact(true)) ==> Exact(true)) && (old(Exact(false)) ==> Exact(false))
      ensures r.Ok? && r.value.Some? && old(InStep()) && most >= PIECE_BYTES ==>
                old(socket) != [] && r.value.value == old(socket)[0] && socket == old(socket)[1..] && buffer == []
    {
      hide Flatten;
      var some := Refill();
      if some.Err? {
        return Err(some.error);
      }
      if !some.value {
        return Ok(None);
      }
      var piece := Take(Min(Min(most, |buffer|), PIECE_BYTES));
      return Ok(Some(piece));
    }

    method NextOfLength(limit: nat) returns (r: Result<Option<Bytes>, HostError>)
      requires Valid() && total + chunkRemaining <= limit < USIZE && framing.ContentLength?
      modifies this
      ensures Moves(limit, r) && Gives(true, limit, r) && Gives(false, limit, r)
    {
      hide Flatten, Exact;
      if remaining == 0 {
        return Ok(None);
      }
      ghost var bytes := Pending();
      var piece := Portion(remaining);
      if piece.Err? {
        return piece;
      }
      if piece.value.None? {
        return Err(ProtocolError);
      }
      var count := |piece.value.value|;
      remaining := remaining - count;
      if remaining + count <= |bytes| {
        SplitPrefix(bytes, count, remaining + count);
      }
      var ok := Account(count, limit);
      if !ok {
        return Err(ProtocolError);
      }
      return piece;
    }

    method NextUntilEof(limit: nat) returns (r: Result<Option<Bytes>, HostError>)
      requires Valid() && total + chunkRemaining <= limit < USIZE && framing.UntilEof?
      modifies this
      ensures Moves(limit, r) && Gives(true, limit, r) && Gives(false, limit, r)
      ensures old(InStep()) ==> InOrder(limit, r)
    {
      hide Flatten, Exact, Prepend;
      ghost var bytes := Pending();
      var piece := Portion(PIECE_BYTES);
      if piece.Err? || piece.value.None? {
        return piece;
      }
      ghost var rest := Pending();
      AllOfBytes(bytes, piece.value.value, rest);
      var ok := Account(|piece.value.value|, limit);
      if !ok {
        return Err(ProtocolError);
      }
      return piece;
    }

    method NextOfChunks(limit: nat) returns (r: Result<Option<Bytes>, HostError>)
      requires Valid() && total + chunkRemaining <= limit < USIZE && framing.Chunked?
      modifies this
      ensures Step(limit, r)
    {
      hide ChunkedBody, DataThenBody;
      if chunkDone {
        return Ok(None);
      }
      if chunkNeedsCrLf {
        var ended := EndChunk(limit);
        if ended.Err? {
          return Err(ended.error);
        }
      }
      if chunkRemaining == 0 {
        var begun := BeginChunk(limit);
        if begun.Err? {
          return Err(begun.error);
        }
        if !begun.value {
          return Ok(None);
        }
      }
      r := ChunkPiece(limit);
    }

    /** A piece of the data of the current chunk. */
    method ChunkPiece(limit: nat) returns (r: Result<Option<Bytes>, HostError>)
      requires Valid() && total + chunkRemaining <= limit < USIZE && chunkRemaining > 0
      modifies this
      ensures Moves(limit, r) && Gives(true, limit, r) && Gives(false, limit, r)
    {
      hide ChunkedBody, DataThenBody, Flatten, Prepend, Exact;
      assert framing.Chunked? && !chunkDone && !chunkNeedsCrLf;
      NothingToTake(utf8, chunkRemaining, limit - total, true);
      NothingToTake(utf8, chunkRemaining, limit - total, false);
      ghost var bytes, left, allowance := Pending(), chunkRemaining, limit - total;
      var piece := Portion(chunkRemaining);
      if piece.Err? {
        return piece;
      }
      if piece.value.None? {
        return Err(ProtocolError);
      }
      var count := |piece.value.value|;
      SplitData(utf8, bytes, count, left, allowance, true);
      SplitData(utf8, bytes, count, left, allowance, false);
      chunkRemaining := chunkRemaining - count;
      if chunkRemaining == 0 {
        chunkNeedsCrLf := true;
      }
      var ok := Account(count, limit);
      if !ok {
        return Err(ProtocolError);
      }
      return piece;
    }

    /** The line end behind the data of a chunk. */
    method EndChunk(limit: nat) returns (r: Result<(), HostError>)
      requires Valid() && total + chunkRemaining <= limit && framing.Chunked? && !chunkDone && chunkNeedsCrLf
      modifies this`socket, this`buffer, this`eof, this`chunkNeedsCrLf
      ensures r.Err? ==> old(Owed(limit, true)).None? && old(Owed(limit, false)).None?
      ensures r.Ok? ==> Valid() && !chunkNeedsCrLf && chunkRemaining == 0 && |Pending()| <= |old(Pending())|
      ensures r.Ok? ==> (old(Exact(true)) ==> Exact(true)) && (old(Exact(false)) ==> Exact(false))
      ensures r.Ok? ==> Owed(limit, true) == old(Owed(limit, true)) && Owed(limit, false) == old(Owed(limit, false))
    {
      hide ChunkedBody;
      r := Ensure(2);
      if r.Err? {
        return;
      }
      var crlf := Take(2);
      assert CrLfAt(old(Pending()), 0) <==> crlf == [CR, LF];
      if crlf != [CR, LF] {
        return Err(ProtocolError);
      }
      chunkNeedsCrLf := false;
      NothingInFront(Owed(limit, true));
      NothingInFront(Owed(limit, false));
    }

    /** The header of a chunk; false when it is the last one and its trailers have been read. */
    method BeginChunk(limit: nat) returns (r: Result<bool, HostError>)
      requires Valid() && total + chunkRemaining <= limit && framing.Chunked?
      requires !chunkDone && !chunkNeedsCrLf && chunkRemaining == 0
      modifies this`socket, this`buffer, this`eof, this`chunkDone, this`chunkRemaining
      ensures r.Err? ==> old(Owed(limit, true)).None?
      ensures r.Ok? ==> Valid() && |Pending()| <= |old(Pending())| && total + chunkRemaining <= limit
      ensures r.Ok? && !r.value ==> old(Owed(limit, false)) == Some([])
      ensures r.Ok? && !r.value && old(Owed(limit, true)).Some? ==> old(Owed(limit, true)) == Some([])
      ensures r.Ok? && r.value ==>
                && chunkRemaining > 0 && !chunkDone
                && old(Owed(limit, false)) == Owed(limit, false)
                && (old(Owed(limit, true)).Some? ==> old(Owed(limit, true)) == Owed(limit, true))
      ensures old(Exact(true)) && r.Ok? ==> Exact(true) && old(Owed(limit, true)) == if r.value then Owed(limit, true) else Some([])
      ensures old(Exact(false)) ==> if r.Ok? then Exact(false) else old(Owed(limit, false)).None?
    {
      hide ChunkSize, FindCrLf, TrailersEnd;
      var line := ReadLine();
      if line.Err? {
        return Err(line.error);
      }
      if line.value.None? {
        return Err(ProtocolError);
      }
      var size := ChunkSize(utf8, line.value.value);
      if size.None? {
        return Err(ProtocolError);
      }
      if size.value == 0 {
        var skipped := SkipTrailers();
        if skipped.Err? {
          return Err(skipped.error);
        }
        return Ok(false);
      }
      if size.value > limit - total {
        return Err(ProtocolError);
      }
      chunkRemaining := size.value;
      return Ok(true);
    }

    method SkipTrailers() returns (r: Result<(), HostError>)
      requires Valid() && chunkRemaining == 0
      modifies this`socket, this`buffer, this`eof, this`chunkDone
      ensures Valid() && |Pending()| <= |old(Pending())|
      ensures if r.Ok? then chunkDone && TrailersEnd(old(Pending()), false) else !TrailersEnd(old(Pending()), true)
      ensures old(Exact(true)) && r.Ok? ==> Exact(true) && TrailersEnd(old(Pending()), true)
      ensures old(Exact(false)) ==> if r.Ok? then Exact(false) else !TrailersEnd(old(Pending()), false)
    {
      hide FindCrLf, Flatten, TrailersEnd;
      while true
        invariant Valid() && chunkRemaining == 0 && |Pending()| <= |old(Pending())|
        invariant TrailersEnd(old(Pending()), false) == TrailersEnd(Pending(), false)
        invariant TrailersEnd(old(Pending()), true) ==> TrailersEnd(Pending(), true)
        invariant old(Exact(true)) ==> Exact(true) && TrailersEnd(old(Pending()), true) == TrailersEnd(Pending(), true)
        invariant old(Exact(false)) ==> Exact(false)
        decreases |Pending()|
      {
        TrailersStep(Pending(), true);
        TrailersStep(Pending(), false);
        var trailer := ReadLine();
        if trailer.Err? {
          return Err(trailer.error);
        }
        if trailer.value.None? {
          return Err(ProtocolError);
        }
        if trailer.value.value == [] {
          chunkDone := true;
          return Ok(());
        }
      }
    }

    /**
     The whole body. It is what all the bytes together carry, however they were
     segmented; an error says that they carry none, or one with a header line of
     at least the limit. Such a line is refused when the bytes come one by one,
     and read when all but the last segment is within the limit.
     */
    method ReadToEnd(limit: nat) returns (r: Result<Bytes, HostError>)
      requires Valid() && total + chunkRemaining <= limit < USIZE
      modifies this
      ensures r.Ok? ==> old(Owed(limit, false)) == Some(r.value) && total == old(total) + |r.value| <= limit
      ensures r.Err? ==> old(Owed(limit, true)).None?
      ensures old(Exact(true)) ==> (r.Ok? <==> old(Owed(limit, true)).Some?)
      ensures old(Exact(false)) ==> (r.Ok? <==> old(Owed(limit, false)).Some?)
    {
      hide Exact;
      var result := [];
      ghost var before, owed, surely := total, Owed(limit, false), Owed(limit, true);
      NothingInFront(owed);
      NothingInFront(surely);
      while true
        invariant Valid() && total + chunkRemaining <= limit && total == before + |result|
        invariant owed == Prepend(result, Owed(limit, false))
        invariant surely.Some? || old(Exact(true)) ==> surely == Prepend(result, Owed(limit, true))
        invariant (old(Exact(true)) ==> Exact(true)) && (old(Exact(false)) ==> Exact(false))
        decreases |Pending()|
      {
        var next := NextPiece(limit);
        if next.Err? {
          return Err(next.error);
        }
        if next.value.None? {
          assert result + [] == result;
          return Ok(result);
        }
        PrependTwice(result, next.value.value, Owed(limit, false));
        PrependTwice(result, next.value.value, Owed(limit, true));
        result := result + next.value.value;
      }
    }
  }

  /** A buffer without a line end and within the limit, and at most one byte more. */
  ghost predicate Accumulated(seen: Bytes, buffer: Bytes) {
    || buffer == []
    || (|buffer| == |seen| + 1 && seen == buffer[..|seen|] && FindCrLf(seen).None? && |seen| <= MAX_HEADER_BYTES)
  }

  /** A line end that came with the last byte ends the buffer. */
  lemma FoundAtOnce(seen: Bytes, buffer: Bytes)
    requires Accumulated(seen, buffer) && FindCrLf(buffer).Some?
    ensures FindCrLf(buffer).value + 2 == |buffer| && FindCrLf(buffer).value + 1 <= MAX_HEADER_BYTES
  {
    assert forall i: nat :: i + 2 <= |seen| ==> CrLfAt(seen, i) == CrLfAt(buffer, i);
  }

  lemma NothingBehind(buffer: Bytes, socket: seq<Bytes>)
    ensures socket == [] ==> buffer + Flatten(socket) == buffer
  {}

  lemma {:induction false} LastIsPending(buffer: Bytes, socket: seq<Bytes>)
    requires socket != []
    ensures |buffer| + |socket[|socket| - 1]| <= |buffer + Flatten(socket)|
    decreases |socket|
  {
    if |socket| > 1 {
      LastIsPending(buffer + socket[0], socket[1..]);
      assert (buffer + socket[0]) + Flatten(socket[1..]) == buffer + Flatten(socket);
    } else {
      assert socket[1..] == [];
    }
  }

  function Min(a: nat, b: nat): nat {
    if a < b then a else b
  }

  lemma NothingToTake(utf8: Utf8, n: nat, allowance: nat, strict: bool)
    requires n <= allowance
    ensures DataThenBody(utf8, [], n, allowance, strict).None?
  {}

  lemma AllOfBytes(bytes: Bytes, piece: Bytes, rest: Bytes)
    requires |piece| <= |bytes| && piece == bytes[..|piece|] && rest == bytes[|piece|..]
    ensures Prepend(piece, Some(rest)) == Some(bytes) && Prepend(piece, None) == None && |bytes| == |piece| + |rest|
  {
    assert piece + rest == bytes;
  }

  lemma SplitPrefix(bytes: Bytes, k: nat, n: nat)
    requires k <= n <= |bytes|
    ensures bytes[..n] == bytes[..k] + bytes[k..][..n - k]
  {}

  lemma NothingInFront(rest: Option<Bytes>)
    ensures Prepend([], rest) == rest
  {
    if rest.Some? {
      assert [] + rest.value == rest.value;
    }
  }

  lemma PrependTwice(a: Bytes, b: Bytes, rest: Option<Bytes>)
    ensures Prepend(a, Prepend(b, rest)) == Prepend(a + b, rest)
  {
    if rest.Some? {
      assert a + (b + rest.value) == (a + b) + rest.value;
    }
  }

  /** The data of a chunk can be taken in two parts. */
  lemma SplitData(utf8: Utf8, bytes: Bytes, k: nat, n: nat, allowance: nat, strict: bool)
    requires k <= n <= allowance && k <= |bytes|
    ensures DataThenBody(utf8, bytes, n, allowance, strict) ==
            Prepend(bytes[..k], DataThenBody(utf8, bytes[k..], n - k, allowance - k, strict))
  {
    hide ChunkedBody;
    if CrLfAt(bytes, n) {
      assert bytes[k..][n - k + 2..] == bytes[n + 2..];
      assert bytes[..n] == bytes[..k] + bytes[k..][..n - k];
      PrependTwice(bytes[..k], bytes[k..][..n - k], ChunkedBody(utf8, bytes[n + 2..], allowance - n, strict));
    }
  }

  lemma {:induction false} FoundEarly(buffer: Bytes, more: Bytes)
    ensures FindCrLf(buffer).Some? ==> FindCrLf(buffer + more) == FindCrLf(buffer)
    ensures FindCrLf(buffer).None? && FindCrLf(buffer + more).Some? ==> |buffer| <= FindCrLf(buffer + more).value + 1
  {
    var whole := buffer + more;
    assert forall i: nat :: i + 2 <= |buffer| ==> CrLfAt(buffer, i) == CrLfAt(whole, i);
  }

  // ----- the other two framings -----

  /** A body of a given length: its first bytes, if they are all there and allowed, for every segmentation and whatever follows. */
  method ReadSized(utf8: Utf8, length: nat, initial: Bytes, socket: seq<Bytes>, end: SocketEnd, limit: nat) returns (r: Result<Bytes, HostError>)
    requires forall i :: 0 <= i < |socket| ==> 0 < |socket[i]| <= PIECE_BYTES
    requires limit < USIZE
    ensures r.Ok? <==> length <= |initial + Flatten(socket)| && length <= limit
    ensures r.Ok? ==> r.value == (initial + Flatten(socket))[..length]
  {
    var reader := new BodyReader(utf8, ContentLength(length), initial, socket, end);
    r := reader.ReadToEnd(limit);
  }

  /** A body that ends with the connection: all bytes, if the connection was closed and not broken. */
  method ReadUntilClosed(utf8: Utf8, initial: Bytes, socket: seq<Bytes>, end: SocketEnd, limit: nat) returns (r: Result<Bytes, HostError>)
    requires forall i :: 0 <= i < |socket| ==> 0 < |socket[i]| <= PIECE_BYTES
    requires limit < USIZE
    ensures r.Ok? <==> end.Closed? && |initial + Flatten(socket)| <= limit
    ensures r.Ok? ==> r.value == initial + Flatten(socket)
  {
    var reader := new BodyReader(utf8, UntilEof, initial, socket, end);
    r := reader.ReadToEnd(limit);
  }
}
