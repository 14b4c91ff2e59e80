/**
 The incremental parser as the program runs it: a mutable buffer, a cursor that
 jumps from line end to line end, and a CR held back at the end of a chunk.
 Every method is proved equal to the byte machine of module Sse.
 */
module SseParser {
  import opened Base
  import opened Sse

  /** Where a line ends and where the next one begins. */
  datatype FoundLine = FoundLine(lineEnd: nat, next: nat)

  /** Finds the next complete line in `buffer`, scanning from `start`. */
  method FindLineEnd(buffer: seq<Byte>, start: nat, atEof: bool) returns (found: Option<FoundLine>)
    requires start <= |buffer|
    ensures found.None? && !atEof ==>
              LF !in buffer[start..] && PendingLine(buffer[start..])
    ensures found.None? && atEof ==> start == |buffer|
    ensures found.Some? ==>
              var line := found.value;
              && start <= line.lineEnd <= line.next <= |buffer|
              && start < line.next
              && LF !in buffer[start..line.lineEnd] && CR !in buffer[start..line.lineEnd]
    ensures found.Some? && found.value.lineEnd == |buffer| ==> atEof && found.value.next == |buffer|
    ensures found.Some? && found.value.lineEnd < |buffer| ==>
              var line := found.value;
              var b := buffer[line.lineEnd];
              && (b == LF || b == CR)
              && (b == LF ==> line.next == line.lineEnd + 1)
              && (b == CR ==>
                  && (line.lineEnd + 1 < |buffer| || atEof)
                  && line.next == line.lineEnd +
                     (if line.lineEnd + 1 < |buffer| && buffer[line.lineEnd + 1] == LF then 2 else 1))
  {
    var index := start;
    while index < |buffer|
      invariant start <= index <= |buffer|
      invariant LF !in buffer[start..index] && CR !in buffer[start..index]
    {
      var b := buffer[index];
      if b == LF {
        return Some(FoundLine(index, index + 1));
      }
      if b == CR {
        if index + 1 < |buffer| {
          return Some(FoundLine(index, if buffer[index + 1] == LF then index + 2 else index + 1));
        }
        if atEof {
          return Some(FoundLine(index, index + 1));
        }
        assert buffer[start..] == buffer[start..index] + [CR];
        assert buffer[start..][..|buffer[start..]| - 1] == buffer[start..index];
        return None;
      }
      assert buffer[start..index + 1] == buffer[start..index] + [b];
      index := index + 1;
    }
    assert buffer[start..] == buffer[start..index];
    if atEof && |buffer| > start {
      return Some(FoundLine(|buffer|, |buffer|));
    }
    assert forall p: seq<Byte> :: CR !in p && p != [] ==> CR !in p[..|p| - 1];
    return None;
  }

  class SseFrameParser<D(!new)> {
    const cfg: Config<D>
    var text: D
    var pending: seq<Byte>
    var frameBytes: nat
    var event: Option<string>
    var data: seq<string>
    var id: Option<string>
    var retry: Option<nat>
    var sawData: bool

    constructor (cfg: Config<D>)
      ensures this.cfg == cfg && State() == Initial(cfg)
    {
      this.cfg := cfg;
      text := cfg.decoder.start;
      pending, frameBytes := [], 0;
      event, data, id, retry, sawData := None, [], None, None, false;
    }

    function State(): ParserState<D>
      reads this
    {
      ParserState(text, pending, frameBytes, event, data, id, retry, sawData)
    }

    predicate Valid()
      reads this
    {
      Inv(cfg, State())
    }

    /** The frame the collected fields stand for; every field starts over. */
    method Dispatch() returns (frames: seq<SseEvent>)
      modifies this
      ensures frames == Dispatched(old(State())) && State() == ClearFrame(old(State()))
    {
      frames := [];
      if sawData {
        var joined := Join(data, "\n");
        if joined != "" {
          frames := [SseEvent(event, joined, id, retry)];
        }
      }
      event, data, id, retry, sawData := None, [], None, None, false;
      frameBytes := 0;
    }

    /** Interprets one decoded line. */
    method Consume(line: string) returns (frames: seq<SseEvent>)
      modifies this
      ensures (State(), frames) == ConsumeLine(old(State()), line)
    {
      if line == "" {
        frames := Dispatch();
        return;
      }
      frames := [];
      if line[0] == ':' {
        return;
      }
      var value := FieldValue(line);
      match FieldName(line) {
        case "event" => event := Some(value);
        case "data" => data, sawData := data + [value], true;
        case "id" =>
          if '\0' !in value {
            id := Some(value);
          }
        case "retry" => retry := ParseRetry(value);
        case _ =>
      }
    }

    /** Charges a line to the frame, decodes it and interprets it; false is an overflow. */
    method TakeLine(line: seq<Byte>, terminator: nat) returns (frames: seq<SseEvent>, ok: bool)
      modifies this
      ensures Fed(frames, if ok then Some(State()) else None) == CloseLine(cfg, old(State()), line, terminator)
    {
      hide ConsumeLine;
      pending := [];
      frameBytes := frameBytes + |line| + terminator;
      if frameBytes > cfg.maxFrameBytes {
        return [], false;
      }
      var decoded := cfg.decoder.decode(text, line);
      if decoded.None? {
        return [], false;
      }
      text := decoded.value.0;
      frames := Consume(decoded.value.1);
      ok := true;
    }

    /**
     Parses one chunk. The frames come back in order, and `ok` is false when an
     overflow follows them: exactly what the byte machine does with the chunk.
     */
    method FramesFrom(chunk: seq<Byte>) returns (frames: seq<SseEvent>, ok: bool)
      requires Valid()
      modifies this
      ensures Fed(frames, if ok then Some(State()) else None) == Feed(cfg, old(State()), chunk)
      ensures ok ==> Valid()
    {
      hide Feed;
      hide CloseLine;
      ghost var goal := Feed(cfg, State(), chunk);
      FeedInv(cfg, State(), chunk);
      frames := [];
      var cursor := 0;
      if HeldCr(pending) {
        if chunk == [] {
          FeedNothing(cfg, State());
          return [], true;
        }
        var consumesLf := chunk[0] == LF;
        FeedAfterHeldCr(cfg, State(), chunk);
        CloseLineInv(cfg, State(), pending[..|pending| - 1], if consumesLf then 2 else 1);
        frames, ok := TakeLine(pending[..|pending| - 1], if consumesLf then 2 else 1);
        if !ok {
          return;
        }
        cursor := if consumesLf then 1 else 0;
      } else {
        AfterNothing(goal);
      }
      assert chunk[0..] == chunk;

      while cursor < |chunk|
        invariant cursor <= |chunk|
        invariant cursor < |chunk| ==> Valid() && !HeldCr(pending)
        invariant goal == Feed(cfg, State(), chunk[cursor..]).After(frames)
      {
        var found := FindLineEnd(chunk, cursor, false);
        if found.None? {
          break;
        }
        var segment := chunk[cursor..found.value.lineEnd];
        var terminator := found.value.next - found.value.lineEnd;
        NextLine(cfg, State(), chunk, cursor, found.value);
        CloseLineInv(cfg, State(), pending + segment, terminator);
        ghost var before, closed := frames, CloseLine(cfg, State(), pending + segment, terminator);
        var more;
        more, ok := TakeLine(pending + segment, terminator);
        frames := frames + more;
        if !ok {
          return;
        }
        cursor := found.value.next;
        AfterAfter(Feed(cfg, State(), chunk[cursor..]), more, before);
      }

      if cursor < |chunk| {
        var remaining := |chunk| - cursor;
        TailOnly(cfg, State(), chunk[cursor..]);
        if frameBytes + |pending| + remaining > cfg.maxFrameBytes {
          return frames, false;
        }
        pending := pending + chunk[cursor..];
      } else {
        assert chunk[cursor..] == [];
        FeedNothing(cfg, State());
      }
      ok := true;
    }

    /** Flushes the tail; None is the truncation error. */
    method AtEnd() returns (frames: Option<seq<SseEvent>>)
      requires Valid()
      modifies this
      ensures frames == Finish(cfg, old(State()))
    {
      hide CloseLine;
      var tail := pending;
      var out := [];
      ghost var st0 := State();
      ghost var last := LastLine(cfg, st0);
      if tail != [] {
        pending := [];
        var cursor := 0;
        while cursor < |tail|
          invariant cursor == 0 || cursor == |tail|
          invariant cursor == 0 ==> out == [] && State() == st0.(pending := [])
          invariant cursor == |tail| ==> Fed(out, Some(State())) == last
        {
          var found := FindLineEnd(tail, cursor, true);
          OneLineTail(tail, found.value);
          var line, terminator := tail[cursor..found.value.lineEnd], found.value.next - found.value.lineEnd;
          assert line == if HeldCr(tail) then tail[..|tail| - 1] else tail;
          CloseLineIgnoresPending(cfg, st0, [], line, terminator);
          assert last == CloseLine(cfg, State(), line, terminator);
          var more, ok := TakeLine(line, terminator);
          if !ok {
            return None;
          }
          out := out + more;
          cursor := found.value.next;
        }
      }
      if !cfg.decoder.flush(text) || sawData || frameBytes > 0 {
        return None;
      }
      return Some(out);
    }
  }

  /** Only the last byte of a buffered line can be a terminator. */
  lemma PendingBytes(tail: seq<Byte>)
    requires PendingLine(tail) && tail != []
    ensures HeldCr(tail) ==> tail == tail[..|tail| - 1] + [CR] && CR !in tail[..|tail| - 1]
    ensures !HeldCr(tail) ==> CR !in tail
  {
    assert tail == tail[..|tail| - 1] + [tail[|tail| - 1]];
  }

  /** What one complete line inside a chunk does to the machine. */
  lemma NextLine<D>(cfg: Config<D>, st: ParserState<D>, chunk: seq<Byte>, cursor: nat, found: FoundLine)
    requires Inv(cfg, st) && !HeldCr(st.pending)
    requires cursor <= found.lineEnd < |chunk| && found.lineEnd < found.next <= |chunk|
    requires var seg := chunk[cursor..found.lineEnd]; LF !in seg && CR !in seg
    requires chunk[found.lineEnd] == LF ==> found.next == found.lineEnd + 1
    requires chunk[found.lineEnd] != LF ==>
               && chunk[found.lineEnd] == CR
               && found.lineEnd + 1 < |chunk|
               && found.next == found.lineEnd + (if chunk[found.lineEnd + 1] == LF then 2 else 1)
    ensures Feed(cfg, st, chunk[cursor..]) ==
            var closed := CloseLine(cfg, st, st.pending + chunk[cursor..found.lineEnd], found.next - found.lineEnd);
            if closed.next.None? then closed
            else Feed(cfg, closed.next.value, chunk[found.next..]).After(closed.frames)
  {
    hide Feed;
    hide CloseLine;
    var seg, rest := chunk[cursor..found.lineEnd], chunk[found.lineEnd + 1..];
    assert chunk[cursor..] == seg + [chunk[found.lineEnd]] + rest;
    if chunk[found.lineEnd] == LF {
      FeedLfLine(cfg, st, seg, rest);
    } else {
      FeedCrLine(cfg, st, seg, rest);
      assert rest[1..] == chunk[found.lineEnd + 2..];
    }
  }

  /** A chunk without a complete line is buffered, or overflows. */
  lemma TailOnly<D>(cfg: Config<D>, st: ParserState<D>, tail: seq<Byte>)
    requires Inv(cfg, st) && !HeldCr(st.pending) && PendingLine(tail)
    ensures Feed(cfg, st, tail) ==
            if st.frameBytes + |st.pending| + |tail| > cfg.maxFrameBytes then Fed([], None)
            else Fed([], Some(st.(pending := st.pending + tail)))
  {
    if HeldCr(tail) {
      var seg := tail[..|tail| - 1];
      assert tail == seg + [CR];
      FeedHeldCr(cfg, st, seg);
      assert st.pending + seg + [CR] == st.pending + tail;
    } else {
      if tail != [] {
        PendingBytes(tail);
      }
      FeedPlain(cfg, st, tail);
    }
  }

  /** At the end of the input the buffered tail is one line. */
  lemma OneLineTail(tail: seq<Byte>, found: FoundLine)
    requires PendingLine(tail) && tail != []
    requires found.lineEnd <= found.next <= |tail| && 0 < found.next
    requires CR !in tail[..found.lineEnd]
    requires found.lineEnd == |tail| ==> found.next == |tail|
    requires found.lineEnd < |tail| ==> (tail[found.lineEnd] == LF || tail[found.lineEnd] == CR)
    requires found.lineEnd < |tail| && found.lineEnd + 1 == |tail| ==> found.next == |tail|
    ensures found.next == |tail|
    ensures found.lineEnd == if HeldCr(tail) then |tail| - 1 else |tail|
  {
    PendingBytes(tail);
    assert forall i :: 0 <= i < |tail| ==> tail[i] in tail;
    assert forall i :: 0 <= i < |tail| - 1 ==> tail[i] == tail[..|tail| - 1][i];
    assert forall i :: 0 <= i < found.lineEnd ==> tail[i] == tail[..found.lineEnd][i];
  }
}
