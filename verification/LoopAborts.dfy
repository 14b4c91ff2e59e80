/**
 What an abort does to a run: it cuts the undisturbed run in front of the first
 event before which a question about the signal is answered with yes.
 */
module LoopAborts {
  import opened Base
  import opened Events
  import opened Requests
  import opened AgentLoop
  import opened LoopProperties

  type Signal = nat -> bool

  /** The same world, and nobody aborts. */
  function Undisturbed(w: AgentLoop.World): AgentLoop.World {
    w.(aborted := _ => false)
  }

  /** How often the signal is asked in front of an event, `prev` being the one before it. */
  function Polls(prev: Option<LoopEvent>, e: LoopEvent): nat {
    match e
    // Before the run and before the turn.
    case TurnStarted(turn) => if turn == 0 then 2 else 1
    // At the end of the answer, before its verdict, and before each tool.
    case ExecutionStarted(_, _, _) => if prev.Some? && prev.value.ExecutionDone? then 1 else 3
    // Before the tool is invoked, and while it runs.
    case ExecutionDone(_, _, _) => 2
    case LoopCompleted(_) => 2
    case LoopError(_, error, _) => if error.FromGateway? || error == InvalidToolCall || error == DuplicateToolCallId then 1 else 2
    // Before every event of the answer.
    case _ => 1
  }

  /** The turn an event belongs to. */
  function Within(e: LoopEvent): nat {
    match e
    case LoopCompleted(turns) => if turns > 0 then turns - 1 else 0
    case _ => TurnOf(e)
  }

  predicate Asked(aborted: Signal, from: nat, n: nat) {
    exists k :: from <= k < from + n && aborted(k)
  }

  /** The events of an undisturbed run as they come out under a signal, of which `k` questions have been asked. */
  function Watched(aborted: Signal, k: nat, prev: Option<LoopEvent>, events: seq<LoopEvent>): seq<LoopEvent>
    decreases |events|
  {
    if events == [] then []
    else
      var n := Polls(prev, events[0]);
      if Asked(aborted, k, n) then [LoopError(Within(events[0]), LoopAborted, false)]
      else [events[0]] + Watched(aborted, k + n, Some(events[0]), events[1..])
  }

  // ----- watching part of a run -----

  predicate Survives(aborted: Signal, k: nat, prev: Option<LoopEvent>, events: seq<LoopEvent>)
    decreases |events|
  {
    events != [] ==>
      var n := Polls(prev, events[0]);
      !Asked(aborted, k, n) && Survives(aborted, k + n, Some(events[0]), events[1..])
  }

  function PollsOf(prev: Option<LoopEvent>, events: seq<LoopEvent>): nat
    decreases |events|
  {
    if events == [] then 0 else Polls(prev, events[0]) + PollsOf(Some(events[0]), events[1..])
  }

  function LastOf(prev: Option<LoopEvent>, events: seq<LoopEvent>): Option<LoopEvent> {
    if events == [] then prev else Some(events[|events| - 1])
  }

  lemma WatchOne(aborted: Signal, k: nat, prev: Option<LoopEvent>, e: LoopEvent, rest: seq<LoopEvent>)
    ensures Watched(aborted, k, prev, [e] + rest) ==
            if Asked(aborted, k, Polls(prev, e)) then [LoopError(Within(e), LoopAborted, false)]
            else [e] + Watched(aborted, k + Polls(prev, e), Some(e), rest)
  {
    assert ([e] + rest)[1..] == rest;
  }

  /** One event in front: survival, questions and last event. */
  lemma SegmentOne(aborted: Signal, k: nat, prev: Option<LoopEvent>, e: LoopEvent, rest: seq<LoopEvent>)
    ensures Survives(aborted, k, prev, [e] + rest) <==>
            !Asked(aborted, k, Polls(prev, e)) && Survives(aborted, k + Polls(prev, e), Some(e), rest)
    ensures PollsOf(prev, [e] + rest) == Polls(prev, e) + PollsOf(Some(e), rest)
    ensures LastOf(prev, [e] + rest) == LastOf(Some(e), rest)
  {
    assert ([e] + rest)[1..] == rest;
  }

  lemma NothingWatched(aborted: Signal, k: nat, prev: Option<LoopEvent>)
    ensures Watched(aborted, k, prev, []) == [] && Survives(aborted, k, prev, [])
    ensures PollsOf(prev, []) == 0 && LastOf(prev, []) == prev
  {}

  lemma Assoc<T>(a: seq<T>, b: seq<T>, c: seq<T>)
    ensures (a + b) + c == a + (b + c)
  {}

  lemma NothingInFront<T>(s: seq<T>)
    ensures [] + s == s
  {}

  lemma {:induction false} WatchAppend(aborted: Signal, k: nat, prev: Option<LoopEvent>, a: seq<LoopEvent>, b: seq<LoopEvent>)
    ensures Watched(aborted, k, prev, a + b) ==
            if Survives(aborted, k, prev, a) then a + Watched(aborted, k + PollsOf(prev, a), LastOf(prev, a), b)
            else Watched(aborted, k, prev, a)
    ensures Survives(aborted, k, prev, a + b) <==>
            Survives(aborted, k, prev, a) && Survives(aborted, k + PollsOf(prev, a), LastOf(prev, a), b)
    ensures PollsOf(prev, a + b) == PollsOf(prev, a) + PollsOf(LastOf(prev, a), b)
    ensures LastOf(prev, a + b) == LastOf(LastOf(prev, a), b)
    decreases |a|
  {
    hide Asked, Polls, Within, Watched, Survives, PollsOf, LastOf;
    NothingWatched(aborted, k, prev);
    NothingInFront(b);
    NothingInFront(Watched(aborted, k, prev, b));
    if a != [] {
      var e, later := a[0], a[1..];
      var n := k + Polls(prev, e);
      assert a == [e] + later;
      Assoc([e], later, b);
      WatchOne(aborted, k, prev, e, later + b);
      WatchOne(aborted, k, prev, e, later);
      SegmentOne(aborted, k, prev, e, later + b);
      SegmentOne(aborted, k, prev, e, later);
      WatchAppend(aborted, n, Some(e), later, b);
      Assoc([e], later, Watched(aborted, n + PollsOf(Some(e), later), LastOf(Some(e), later), b));
    }
  }

  // ----- the reading of a turn -----

  /** An event the model's answer is relayed by. */
  predicate Relayed(e: LoopEvent, turn: nat) {
    Within(e) == turn && Polls(None, e) == 1 && !e.Terminal() && !e.TurnStarted? && !e.ExecutionStarted? && !e.ExecutionDone?
  }

  lemma RelayedPolls(prev: Option<LoopEvent>, e: LoopEvent, turn: nat)
    requires Relayed(e, turn)
    ensures Polls(prev, e) == 1
  {}

  /** A fault of the answer. */
  predicate Fault(e: LoopEvent, turn: nat) {
    e.LoopError? && e.turn == turn && (e.error.FromGateway? || e.error == InvalidToolCall || e.error == DuplicateToolCallId)
  }

  /** The event that one core event adds, if it is no fault. */
  lemma ReadAdds(turn: nat, seen: set<string>, so: Reading, event: CoreEvent)
    requires so.stop.None?
    ensures var next := Read(turn, seen, so, event);
            && next.checks == so.checks
            && if next.stop.Some? then next.emitted == so.emitted && Fault(next.stop.value, turn)
               else |next.emitted| == |so.emitted| + 1 && next.emitted[..|so.emitted|] == so.emitted && Relayed(next.emitted[|so.emitted|], turn)
  {
    hide CallProblem;
    ProblemIsFault(event, Seen(seen, so.calls));
  }

  lemma ProblemIsFault(event: CoreEvent, known: set<string>)
    ensures event.Model? && event.event.ToolCall? ==>
              CallProblem(event.event.id, event.event.name, event.event.input, known) in {None, Some(InvalidToolCall), Some(DuplicateToolCallId)}
  {
    hide IsJson;
  }

  /** What an undisturbed reading emits after `so`. */
  ghost predicate Tail(calm: Reading, so: Reading, tail: seq<LoopEvent>, turn: nat) {
    && calm.emitted == so.emitted + tail
    && (forall i :: 0 <= i < |tail| ==> Relayed(tail[i], turn))
    && (calm.stop.Some? ==> Fault(calm.stop.value, turn))
    && (calm.stop.None? ==> calm.checks == so.checks + |tail| + 1)
  }

  /** A reading under a signal against the undisturbed one. */
  ghost predicate ReadUnder(aborted: Signal, so: Reading, prev: Option<LoopEvent>, calm: Reading, tail: seq<LoopEvent>, got: Reading, turn: nat) {
    if calm.stop.Some? then
      got.stop.Some? && got.emitted + [got.stop.value] == so.emitted + Watched(aborted, so.checks, prev, tail + [calm.stop.value])
    else if Survives(aborted, so.checks, prev, tail) && !aborted(so.checks + |tail|) then got == calm
    else got.stop == Some(Failed(turn, LoopAborted))
         && got.emitted + [got.stop.value] ==
            so.emitted + if Survives(aborted, so.checks, prev, tail) then tail + [Failed(turn, LoopAborted)] else Watched(aborted, so.checks, prev, tail)
  }

  lemma {:induction false} ReadWatched(w: AgentLoop.World, turn: nat, seen: set<string>, so: Reading, prev: Option<LoopEvent>, events: seq<CoreEvent>) returns (tail: seq<LoopEvent>)
    requires so.stop.None?
    ensures var calm, got := ReadTurn(Undisturbed(w), turn, seen, so, events), ReadTurn(w, turn, seen, so, events);
            && Tail(calm, so, tail, turn)
            && ReadUnder(w.aborted, so, prev, calm, tail, got, turn)
    decreases |events|
  {
    hide Read;
    var calm, got := ReadTurn(Undisturbed(w), turn, seen, so, events), ReadTurn(w, turn, seen, so, events);
    tail := [];
    if events == [] {
      assert so.emitted + [] == so.emitted && so.emitted + ([] + [Failed(turn, LoopAborted)]) == so.emitted + [Failed(turn, LoopAborted)];
    } else {
      var begun := so.(checks := so.checks + 1);
      var next := Read(turn, seen, begun, events[0]);
      ReadAdds(turn, seen, begun, events[0]);
      if next.stop.Some? {
        FaultWatched(w.aborted, so, prev, next.stop.value, turn);
        assert so.emitted + [] == so.emitted && [] + [next.stop.value] == [next.stop.value];
      } else {
        var e := next.emitted[|so.emitted|];
        RelayedPolls(prev, e, turn);
        var later := ReadWatched(w, turn, seen, next, Some(e), events[1..]);
        tail := [e] + later;
        assert next.emitted == so.emitted + [e];
        ReadUnderMore(w.aborted, so, prev, next, e, calm, later, ReadTurn(w, turn, seen, next, events[1..]), got, turn);
      }
    }
  }

  lemma OneAsked(aborted: Signal, k: nat)
    ensures Asked(aborted, k, 1) <==> aborted(k)
  {}

  lemma FaultWatched(aborted: Signal, so: Reading, prev: Option<LoopEvent>, stop: LoopEvent, turn: nat)
    requires Fault(stop, turn)
    ensures Watched(aborted, so.checks, prev, [stop]) == [if aborted(so.checks) then Failed(turn, LoopAborted) else stop]
  {
    OneAsked(aborted, so.checks);
    WatchOne(aborted, so.checks, prev, stop, []);
    assert [stop] + [] == [stop];
  }

  lemma ReadUnderMore(
      aborted: Signal, so: Reading, prev: Option<LoopEvent>, next: Reading, e: LoopEvent, calm: Reading, later: seq<LoopEvent>,
      rest: Reading, got: Reading, turn: nat)
    requires Relayed(e, turn) && next.emitted == so.emitted + [e] && next.checks == so.checks + 1
    requires Tail(calm, next, later, turn) && ReadUnder(aborted, next, Some(e), calm, later, rest, turn)
    requires if aborted(so.checks) then got.emitted == so.emitted && got.stop == Some(Failed(turn, LoopAborted)) else got == rest
    ensures Tail(calm, so, [e] + later, turn) && ReadUnder(aborted, so, prev, calm, [e] + later, got, turn)
  {
    hide Asked, Polls, Within, Survives, Watched, Fault;
    TailMore(so, next, e, calm, later, turn);
    RelayedPolls(prev, e, turn);
    RelayedWithin(e, turn);
    OneAsked(aborted, so.checks);
    WatchOne(aborted, so.checks, prev, e, later);
    SegmentOne(aborted, so.checks, prev, e, later);
    Assoc(so.emitted, [e], Watched(aborted, next.checks, Some(e), later));
    Assoc(so.emitted, [e], later + [Failed(turn, LoopAborted)]);
    Assoc([e], later, [Failed(turn, LoopAborted)]);
    if calm.stop.Some? {
      var stop := calm.stop.value;
      WatchOne(aborted, so.checks, prev, e, later + [stop]);
      Assoc([e], later, [stop]);
      Assoc(so.emitted, [e], Watched(aborted, next.checks, Some(e), later + [stop]));
    }
  }

  lemma TailMore(so: Reading, next: Reading, e: LoopEvent, calm: Reading, later: seq<LoopEvent>, turn: nat)
    requires Relayed(e, turn) && next.emitted == so.emitted + [e] && next.checks == so.checks + 1 && Tail(calm, next, later, turn)
    ensures Tail(calm, so, [e] + later, turn)
  {
    hide Relayed, Fault;
    Assoc(so.emitted, [e], later);
  }

  lemma RelayedWithin(e: LoopEvent, turn: nat)
    requires Relayed(e, turn)
    ensures Within(e) == turn
  {}

  /** Polls and last event of a relayed answer. */
  lemma {:induction false} RelayedTail(aborted: Signal, k: nat, prev: Option<LoopEvent>, tail: seq<LoopEvent>, turn: nat)
    requires forall i :: 0 <= i < |tail| ==> Relayed(tail[i], turn)
    ensures PollsOf(prev, tail) == |tail|
    ensures BehindTool(LastOf(prev, tail)) ==> BehindTool(prev)
    decreases |tail|
  {
    if tail != [] {
      RelayedPolls(prev, tail[0], turn);
      RelayedTail(aborted, k + 1, Some(tail[0]), tail[1..], turn);
    }
  }

  // ----- the tools of a turn -----

  predicate BehindTool(prev: Option<LoopEvent>) {
    prev.Some? && prev.value.ExecutionDone?
  }

  /** Tools under a signal against the undisturbed ones; `k` questions had been asked before the event in front. */
  ghost predicate RunUnder(aborted: Signal, k: nat, prev: Option<LoopEvent>, so: Executed, calm: Executed, tail: seq<LoopEvent>, got: Executed, turn: nat) {
    && calm.stop.None? && calm.emitted == so.emitted + tail && so.executions <= calm.executions
    && (tail != [] ==> BehindTool(LastOf(prev, tail)) && calm.checks == k + PollsOf(prev, tail))
    && if Survives(aborted, k, prev, tail) then got == calm
       else got.stop == Some(Failed(turn, LoopAborted)) && got.executions <= calm.executions
            && got.emitted + [got.stop.value] == so.emitted + Watched(aborted, k, prev, tail)
  }

  lemma {:induction false} ToolsWatched(
      w: AgentLoop.World, limits: Limits, turn: nat, count: nat, so: Executed, k: nat, prev: Option<LoopEvent>, calls: seq<ToolCallRecord>)
      returns (tail: seq<LoopEvent>)
    requires so.stop.None? && so.checks == k + if BehindTool(prev) then 0 else 2
    requires forall j :: k <= j < so.checks ==> !w.aborted(j)
    ensures tail == [] <==> calls == []
    ensures tail != [] ==> tail[0] == ExecutionStarted(turn, calls[0].id, calls[0].name)
    ensures var calm, got := RunTools(Undisturbed(w), limits, turn, count, so, calls), RunTools(w, limits, turn, count, so, calls);
            RunUnder(w.aborted, k, prev, so, calm, tail, got, turn)
    decreases |calls|
  {
    hide RunTool, RunTools, RunUnder, BehindTool;
    tail := [];
    if calls == [] {
      NoTools(w, limits, turn, count, so);
      NoTools(Undisturbed(w), limits, turn, count, so);
      NothingUnder(w.aborted, k, prev, so, turn);
    } else {
      OneTool(w, limits, turn, count, so, calls);
      OneTool(Undisturbed(w), limits, turn, count, so, calls);
      var calm, got := RunTool(Undisturbed(w), limits, turn, count, so, calls[0]), RunTool(w, limits, turn, count, so, calls[0]);
      var pair := ToolWatched(w, limits, turn, count, so, k, prev, calls[0]);
      UnderMeans(w.aborted, k, prev, so, calm, pair, got, turn);
      BehindDone(pair[1]);
      // The undisturbed tools go on, whatever becomes of the others.
      var world := if got.stop.None? then w else Undisturbed(w);
      var later := ToolsWatched(world, limits, turn, count, calm, calm.checks, Some(pair[1]), calls[1..]);
      tail := pair + later;
      NoTools(Undisturbed(w), limits, turn, count, calm);
      assert Undisturbed(world) == Undisturbed(w);
      RunUnderMore(w.aborted, world.aborted, k, prev, so, calm, pair, later, RunTools(Undisturbed(w), limits, turn, count, calm, calls[1..]), got,
                   if got.stop.Some? then got else RunTools(w, limits, turn, count, calm, calls[1..]),
                   RunTools(world, limits, turn, count, calm, calls[1..]), turn);
    }
  }

  /** One tool. */
  lemma ToolWatched(
      w: AgentLoop.World, limits: Limits, turn: nat, count: nat, so: Executed, k: nat, prev: Option<LoopEvent>, call: ToolCallRecord)
      returns (pair: seq<LoopEvent>)
    requires so.stop.None? && so.checks == k + if BehindTool(prev) then 0 else 2
    requires forall j :: k <= j < so.checks ==> !w.aborted(j)
    ensures |pair| == 2 && pair[0] == ExecutionStarted(turn, call.id, call.name) && pair[1].ExecutionDone?
    ensures var calm, got := RunTool(Undisturbed(w), limits, turn, count, so, call), RunTool(w, limits, turn, count, so, call);
            RunUnder(w.aborted, k, prev, so, calm, pair, got, turn)
  {
    hide Watched, Survives, Asked, PollsOf;
    var calm, got := RunTool(Undisturbed(w), limits, turn, count, so, call), RunTool(w, limits, turn, count, so, call);
    assert Classify(Undisturbed(w), limits, w.execute(count + |so.executions|, call)) == Classify(w, limits, w.execute(count + |so.executions|, call));
    hide Classify;
    var start, done, cut := ExecutionStarted(turn, call.id, call.name), calm.emitted[|calm.emitted| - 1], [Failed(turn, LoopAborted)];
    pair := [start, done];
    assert calm.emitted == so.emitted + pair;
    PairWatched(w.aborted, k, so.checks, prev, start, done);
    Assoc(so.emitted, [start], cut);
  }

  /** A tool's two events: three questions, the first of them after `so` others. */
  lemma PairWatched(aborted: Signal, k: nat, so: nat, prev: Option<LoopEvent>, start: LoopEvent, done: LoopEvent)
    requires start.ExecutionStarted? && done.ExecutionDone? && done.turn == start.turn
    requires so == k + (if BehindTool(prev) then 0 else 2) && forall j :: k <= j < so ==> !aborted(j)
    ensures PollsOf(prev, [start, done]) == so + 3 - k
    ensures Survives(aborted, k, prev, [start, done]) <==> !aborted(so) && !aborted(so + 1) && !aborted(so + 2)
    ensures Watched(aborted, k, prev, [start, done]) ==
            var cut := [Failed(start.turn, LoopAborted)];
            if aborted(so) then cut else if aborted(so + 1) || aborted(so + 2) then [start] + cut else [start, done]
  {
    hide Watched, Survives, PollsOf;
    var n := Polls(prev, start);
    PairPolls(prev, start, done);
    assert [start] + [done] == [start, done] && [done] + [] == [done];
    WatchOne(aborted, k, prev, start, [done]);
    WatchOne(aborted, k + n, Some(start), done, []);
    SegmentOne(aborted, k, prev, start, [done]);
    SegmentOne(aborted, k + n, Some(start), done, []);
    NothingWatched(aborted, k + n + 2, Some(done));
    assert Asked(aborted, k, n) <==> aborted(so);
    assert Asked(aborted, k + n, 2) <==> aborted(so + 1) || aborted(so + 2);
  }

  lemma PairPolls(prev: Option<LoopEvent>, a: LoopEvent, b: LoopEvent)
    ensures PollsOf(prev, [a, b]) == Polls(prev, a) + Polls(Some(a), b)
  {
    hide Polls;
    assert [a, b][1..] == [b] && [b][1..] == [];
    assert PollsOf(Some(b), []) == 0;
    assert PollsOf(Some(a), [b]) == Polls(Some(a), b) + 0;
  }

  lemma UnderMeans(aborted: Signal, k: nat, prev: Option<LoopEvent>, so: Executed, calm: Executed, tail: seq<LoopEvent>, got: Executed, turn: nat)
    requires RunUnder(aborted, k, prev, so, calm, tail, got, turn)
    ensures calm.stop.None? && calm.emitted == so.emitted + tail
    ensures got.executions <= calm.executions && (got.stop.None? ==> got == calm)
  {}

  /** One tool, and the tools behind it. */
  lemma RunUnderMore(
      aborted: Signal, later': Signal, k: nat, prev: Option<LoopEvent>, so: Executed, calm1: Executed, pair: seq<LoopEvent>, later: seq<LoopEvent>,
      calm: Executed, got1: Executed, got: Executed, rest: Executed, turn: nat)
    requires |pair| > 0 && RunUnder(aborted, k, prev, so, calm1, pair, got1, turn)
    requires RunUnder(later', calm1.checks, Some(pair[|pair| - 1]), calm1, calm, later, rest, turn)
    requires if got1.stop.Some? then got == got1 else later' == aborted && got == rest
    requires later == [] ==> calm == calm1
    ensures RunUnder(aborted, k, prev, so, calm, pair + later, got, turn)
  {
    hide Asked, Polls, Survives, Watched, Within, BehindTool, PollsOf, LastOf;
    var last := pair[|pair| - 1];
    PairLast(prev, pair);
    WatchAppend(aborted, k, prev, pair, later);
    Assoc(so.emitted, pair, later);
    NothingWatched(aborted, calm1.checks, Some(last));
    Assoc(so.emitted, pair, Watched(aborted, calm1.checks, Some(last), later));
  }

  lemma PairLast(prev: Option<LoopEvent>, events: seq<LoopEvent>)
    requires events != []
    ensures LastOf(prev, events) == Some(events[|events| - 1])
  {}

  lemma NothingUnder(aborted: Signal, k: nat, prev: Option<LoopEvent>, so: Executed, turn: nat)
    requires so.stop.None?
    ensures RunUnder(aborted, k, prev, so, so, [], so, turn)
  {
    assert so.emitted + [] == so.emitted;
  }

  lemma BehindDone(e: LoopEvent)
    ensures BehindTool(Some(e)) <==> e.ExecutionDone?
  {}

  // ----- the run -----

  /** A log under a signal against the undisturbed one. */
  ghost predicate LogUnder(aborted: Signal, k: nat, prev: Option<LoopEvent>, calm: Log, got: Log) {
    && got.events == Watched(aborted, k, prev, calm.events)
    && got.requests <= calm.requests && got.executions <= calm.executions
  }

  /** The events of a turn behind its start, and what follows them. */
  lemma TurnWatched(aborted: Signal, k: nat, prev: Option<LoopEvent>, turn: nat, checks: nat, tail: seq<LoopEvent>, rest: seq<LoopEvent>)
    requires k + Polls(prev, TurnStarted(turn)) == checks && forall j :: k <= j < checks ==> !aborted(j)
    requires forall i :: 0 <= i < |tail| ==> Relayed(tail[i], turn)
    ensures Watched(aborted, k, prev, [TurnStarted(turn)] + (tail + rest)) ==
            var start := Some(TurnStarted(turn));
            [TurnStarted(turn)] +
            if Survives(aborted, checks, start, tail) then tail + Watched(aborted, checks + |tail|, LastOf(start, tail), rest)
            else Watched(aborted, checks, start, tail)
    ensures !BehindTool(LastOf(Some(TurnStarted(turn)), tail))
  {
    hide Watched, Survives, Polls, Relayed;
    var start := TurnStarted(turn);
    WatchOne(aborted, k, prev, start, tail + rest);
    WatchAppend(aborted, checks, Some(start), tail, rest);
    RelayedTail(aborted, checks, Some(start), tail, turn);
  }

  /** One more event asked about at least twice: the verdict, or the first tool. */
  lemma NextWatched(aborted: Signal, k: nat, prev: Option<LoopEvent>, e: LoopEvent, rest: seq<LoopEvent>, turn: nat)
    requires Polls(prev, e) >= 2 && Within(e) == turn && (aborted(k) || aborted(k + 1))
    ensures Watched(aborted, k, prev, [e] + rest) == [Failed(turn, LoopAborted)]
  {
    WatchOne(aborted, k, prev, e, rest);
  }

  lemma VerdictPolls(w: AgentLoop.World, limits: Limits, r: Request, turn: nat, reading: Reading, prev: Option<LoopEvent>)
    requires reading.stop.None? && TurnVerdict(Undisturbed(w), limits, r, turn, reading).Some?
    ensures var e := TurnVerdict(Undisturbed(w), limits, r, turn, reading).value;
            Polls(prev, e) == 2 && Within(e) == turn
  {}

  lemma VerdictUnder(w: AgentLoop.World, limits: Limits, r: Request, turn: nat, reading: Reading)
    ensures TurnVerdict(w, limits, r, turn, reading) ==
            if reading.stop.None? && w.aborted(reading.checks) then Some(Failed(turn, LoopAborted))
            else TurnVerdict(Undisturbed(w), limits, r, turn, reading)
    ensures TurnVerdict(w, limits, r, turn, reading).None? ==> reading.calls != [] && reading.stop.None? && turn + 1 < limits.maxTurns
  {}

  /** A turn whose answer has a fault. */
  lemma FaultyTurnWatched(aborted: Signal, at: Standing, k: nat, prev: Option<LoopEvent>, tail: seq<LoopEvent>, calm: Reading, got: Reading)
    requires k + Polls(prev, TurnStarted(at.turn)) == at.checks + 1 && forall j :: k <= j <= at.checks ==> !aborted(j)
    requires var begun := FRESH.(checks := at.checks + 1);
             Tail(calm, begun, tail, at.turn) && ReadUnder(aborted, begun, Some(TurnStarted(at.turn)), calm, tail, got, at.turn)
    requires calm.stop.Some?
    ensures got.stop.Some?
    ensures [TurnStarted(at.turn)] + got.emitted + [got.stop.value] == Watched(aborted, k, prev, [TurnStarted(at.turn)] + calm.emitted + [calm.stop.value])
  {
    hide Watched, Survives, Polls, Relayed, Fault, Within, BehindTool, LastOf, PollsOf;
    var start, stop, first := [TurnStarted(at.turn)], calm.stop.value, Some(TurnStarted(at.turn));
    NothingInFront(tail);
    TurnWatched(aborted, k, prev, at.turn, at.checks + 1, tail, [stop]);
    Assoc(start, tail, [stop]);
    WatchAppend(aborted, at.checks + 1, first, tail, [stop]);
    RelayedTail(aborted, at.checks + 1, first, tail, at.turn);
    NothingInFront(Watched(aborted, at.checks + 1, first, tail + [stop]));
    Assoc(start, got.emitted, [got.stop.value]);
  }

  /** A turn whose verdict ends the undisturbed run. */
  lemma JudgedTurnWatched(
      w: AgentLoop.World, limits: Limits, r: Request, at: Standing, k: nat, prev: Option<LoopEvent>, tail: seq<LoopEvent>, calm: Reading, got: Reading)
    requires k + Polls(prev, TurnStarted(at.turn)) == at.checks + 1 && forall j :: k <= j <= at.checks ==> !w.aborted(j)
    requires var begun := FRESH.(checks := at.checks + 1);
             Tail(calm, begun, tail, at.turn) && ReadUnder(w.aborted, begun, Some(TurnStarted(at.turn)), calm, tail, got, at.turn)
    requires calm.stop.None? && TurnVerdict(Undisturbed(w), limits, r, at.turn, calm).Some?
    ensures TurnVerdict(w, limits, r, at.turn, got).Some?
    ensures [TurnStarted(at.turn)] + got.emitted + [TurnVerdict(w, limits, r, at.turn, got).value] ==
            Watched(w.aborted, k, prev, [TurnStarted(at.turn)] + calm.emitted + [TurnVerdict(Undisturbed(w), limits, r, at.turn, calm).value])
  {
    hide Watched, Survives, Polls, TurnVerdict, Relayed, Fault, Within, BehindTool, LastOf, PollsOf;
    var start, last, cut := [TurnStarted(at.turn)], TurnVerdict(Undisturbed(w), limits, r, at.turn, calm).value, [Failed(at.turn, LoopAborted)];
    var first := Some(TurnStarted(at.turn));
    var c, before := at.checks + 1 + |tail|, LastOf(first, tail);
    NothingInFront(tail);
    TurnWatched(w.aborted, k, prev, at.turn, at.checks + 1, tail, [last]);
    Assoc(start, tail, [last]);
    VerdictUnder(w, limits, r, at.turn, got);
    VerdictPolls(w, limits, r, at.turn, calm, before);
    VerdictWatched(w.aborted, c, before, last, at.turn);
    Assoc(start, tail, cut);
    if got.stop.Some? {
      StoppedVerdict(w, limits, r, at.turn, got);
      NothingInFront(Watched(w.aborted, at.checks + 1, first, tail));
      NothingInFront(tail + cut);
      Assoc(start, got.emitted, [got.stop.value]);
    }
  }

  lemma VerdictWatched(aborted: Signal, c: nat, before: Option<LoopEvent>, last: LoopEvent, turn: nat)
    requires Polls(before, last) == 2 && Within(last) == turn
    ensures Watched(aborted, c, before, [last]) == [if aborted(c) || aborted(c + 1) then Failed(turn, LoopAborted) else last]
  {
    hide Watched;
    assert [last] + [] == [last];
    WatchOne(aborted, c, before, last, []);
    NothingWatched(aborted, c + 2, Some(last));
  }

  /** A turn that ends the undisturbed run. */
  lemma LastTurnWatched(
      w: AgentLoop.World, limits: Limits, r: Request, at: Standing, k: nat, prev: Option<LoopEvent>, tail: seq<LoopEvent>, calm: Reading, got: Reading)
    requires k + Polls(prev, TurnStarted(at.turn)) == at.checks + 1 && forall j :: k <= j <= at.checks ==> !w.aborted(j)
    requires var begun := FRESH.(checks := at.checks + 1);
             Tail(calm, begun, tail, at.turn) && ReadUnder(w.aborted, begun, Some(TurnStarted(at.turn)), calm, tail, got, at.turn)
    requires TurnVerdict(Undisturbed(w), limits, r, at.turn, calm).Some?
    ensures TurnVerdict(w, limits, r, at.turn, got).Some?
    ensures [TurnStarted(at.turn)] + got.emitted + [TurnVerdict(w, limits, r, at.turn, got).value] ==
            Watched(w.aborted, k, prev, [TurnStarted(at.turn)] + calm.emitted + [TurnVerdict(Undisturbed(w), limits, r, at.turn, calm).value])
  {
    hide Watched, TurnVerdict, Polls, Tail, ReadUnder;
    if calm.stop.Some? {
      FaultyTurnWatched(w.aborted, at, k, prev, tail, calm, got);
      StoppedVerdict(w, limits, r, at.turn, got);
      StoppedVerdict(Undisturbed(w), limits, r, at.turn, calm);
    } else {
      JudgedTurnWatched(w, limits, r, at, k, prev, tail, calm, got);
    }
  }

  lemma StoppedVerdict(w: AgentLoop.World, limits: Limits, r: Request, turn: nat, reading: Reading)
    requires reading.stop.Some?
    ensures TurnVerdict(w, limits, r, turn, reading) == reading.stop
  {}

  /** An abort before the tools of a turn. */
  lemma CutBeforeTools(
      w: AgentLoop.World, limits: Limits, r: Request, at: Standing, k: nat, prev: Option<LoopEvent>, tail: seq<LoopEvent>, calm: Reading, got: Reading,
      first: LoopEvent, rest: seq<LoopEvent>)
    requires k + Polls(prev, TurnStarted(at.turn)) == at.checks + 1 && forall j :: k <= j <= at.checks ==> !w.aborted(j)
    requires var begun := FRESH.(checks := at.checks + 1);
             Tail(calm, begun, tail, at.turn) && ReadUnder(w.aborted, begun, Some(TurnStarted(at.turn)), calm, tail, got, at.turn)
    requires calm.stop.None? && first.ExecutionStarted? && first.turn == at.turn
    requires got.stop.Some? || w.aborted(got.checks)
    ensures TurnVerdict(w, limits, r, at.turn, got).Some?
    ensures [TurnStarted(at.turn)] + got.emitted + [TurnVerdict(w, limits, r, at.turn, got).value] ==
            Watched(w.aborted, k, prev, [TurnStarted(at.turn)] + (calm.emitted + ([first] + rest)))
  {
    hide Watched, Survives, Polls, TurnVerdict, Relayed, Fault, Within, BehindTool, Asked;
    var start, cut := [TurnStarted(at.turn)], [Failed(at.turn, LoopAborted)];
    assert [] + tail == tail;
    TurnWatched(w.aborted, k, prev, at.turn, at.checks + 1, tail, [first] + rest);
    VerdictUnder(w, limits, r, at.turn, got);
    if got.stop.Some? {
      StoppedVerdict(w, limits, r, at.turn, got);
      Assoc(start, got.emitted, [got.stop.value]);
    }
    var c, before := at.checks + 1 + |tail|, LastOf(Some(TurnStarted(at.turn)), tail);
    ToolPolls(before, first);
    NothingInFront(Watched(w.aborted, at.checks + 1, Some(TurnStarted(at.turn)), tail));
    NothingInFront(tail + cut);
    if w.aborted(c) || w.aborted(c + 1) {
      NextWatched(w.aborted, c, before, first, rest, at.turn);
    }
    Assoc(start, tail, cut);
  }

  lemma ToolPolls(prev: Option<LoopEvent>, first: LoopEvent)
    requires first.ExecutionStarted?
    ensures Polls(prev, first) == (if BehindTool(prev) then 1 else 3) && Within(first) == first.turn
  {}

  /** A turn whose tools are under way: what the signal makes of them and of the rest. */
  lemma ToolsThenRest(
      w: AgentLoop.World, at: Standing, k: nat, prev: Option<LoopEvent>, tail: seq<LoopEvent>, idle: Executed, ran: Executed, tools: seq<LoopEvent>,
      got: Executed, rest: seq<LoopEvent>)
    requires k + Polls(prev, TurnStarted(at.turn)) == at.checks + 1 && forall j :: k <= j <= at.checks ==> !w.aborted(j)
    requires (forall i :: 0 <= i < |tail| ==> Relayed(tail[i], at.turn)) && Survives(w.aborted, at.checks + 1, Some(TurnStarted(at.turn)), tail)
    requires idle.emitted == [] && tools != []
    requires RunUnder(w.aborted, at.checks + 1 + |tail|, LastOf(Some(TurnStarted(at.turn)), tail), idle, ran, tools, got, at.turn)
    ensures var before := [TurnStarted(at.turn)] + tail;
            Watched(w.aborted, k, prev, before + ran.emitted + rest) ==
            if got.stop.Some? then before + got.emitted + [got.stop.value]
            else before + ran.emitted + Watched(w.aborted, ran.checks, Some(tools[|tools| - 1]), rest)
    ensures tools[|tools| - 1].ExecutionDone? && ran.emitted == tools && (got.stop.None? ==> got == ran)
  {
    hide Watched, Survives, Polls, Relayed, Within, PollsOf, LastOf, BehindTool;
    var start, c, last := [TurnStarted(at.turn)], at.checks + 1 + |tail|, LastOf(Some(TurnStarted(at.turn)), tail);
    NothingInFront(tools);
    BehindDone(tools[|tools| - 1]);
    PairLast(last, tools);
    TurnWatched(w.aborted, k, prev, at.turn, at.checks + 1, tail, tools + rest);
    Reassoc(start, tail, tools, rest);
    WatchAppend(w.aborted, c, last, tools, rest);
    if got.stop.Some? {
      NothingInFront(Watched(w.aborted, c, last, tools));
      Reassoc(start, tail, got.emitted, [got.stop.value]);
    } else {
      Reassoc(start, tail, tools, Watched(w.aborted, ran.checks, Some(tools[|tools| - 1]), rest));
    }
  }

  lemma Reassoc<T>(a: seq<T>, b: seq<T>, c: seq<T>, d: seq<T>)
    ensures a + b + c + d == a + (b + (c + d))
  {
    Assoc(a + b, c, d);
    Assoc(a, b, c + d);
  }

  lemma UnderAfter(
      aborted: Signal, k: nat, prev: Option<LoopEvent>, before: seq<LoopEvent>, k2: nat, last: LoopEvent, requests: seq<Request>,
      executions: seq<ToolCallRecord>, calm: Log, got: Log)
    requires LogUnder(aborted, k2, Some(last), calm, got)
    requires Watched(aborted, k, prev, before + calm.events) == before + Watched(aborted, k2, Some(last), calm.events)
    ensures LogUnder(aborted, k, prev, calm.After(before, requests, executions), got.After(before, requests, executions))
  {
    hide Watched;
  }

  /** A turn that goes on in the undisturbed run, with the events `rest` behind its tools. */
  lemma ToolTurnWatched(
      w: AgentLoop.World, limits: Limits, r: Request, at: Standing, k: nat, prev: Option<LoopEvent>, tail: seq<LoopEvent>, calm: Reading, got: Reading,
      rest: seq<LoopEvent>) returns (last: LoopEvent)
    requires k + Polls(prev, TurnStarted(at.turn)) == at.checks + 1 && forall j :: k <= j <= at.checks ==> !w.aborted(j)
    requires var begun := FRESH.(checks := at.checks + 1);
             Tail(calm, begun, tail, at.turn) && ReadUnder(w.aborted, begun, Some(TurnStarted(at.turn)), calm, tail, got, at.turn)
    requires TurnVerdict(Undisturbed(w), limits, r, at.turn, calm).None?
    ensures var ran := RunTools(Undisturbed(w), limits, at.turn, at.count, IDLE.(checks := calm.checks + 1), calm.calls);
            var watched := Watched(w.aborted, k, prev, [TurnStarted(at.turn)] + calm.emitted + ran.emitted + rest);
            var verdict := TurnVerdict(w, limits, r, at.turn, got);
            && ran.stop.None?
            && if verdict.Some? then watched == [TurnStarted(at.turn)] + got.emitted + [verdict.value]
               else
                 var here := RunTools(w, limits, at.turn, at.count, IDLE.(checks := got.checks + 1), got.calls);
                 && got == calm
                 && if here.stop.Some? then
                      here.executions <= ran.executions && watched == [TurnStarted(at.turn)] + got.emitted + here.emitted + [here.stop.value]
                    else
                      here == ran && watched == [TurnStarted(at.turn)] + calm.emitted + ran.emitted + Watched(w.aborted, ran.checks, Some(last), rest)
  {
    hide RunTools, TurnVerdict, Watched, Survives, Polls, Tail, ReadUnder, RunUnder, Relayed, LastOf, BehindTool;
    var calmWorld, start := Undisturbed(w), [TurnStarted(at.turn)];
    VerdictUnder(calmWorld, limits, r, at.turn, calm);
    VerdictUnder(w, limits, r, at.turn, got);
    ReadingUnder(w.aborted, FRESH.(checks := at.checks + 1), Some(TurnStarted(at.turn)), calm, tail, got, at.turn);
    var c, before := at.checks + 1 + |tail|, LastOf(Some(TurnStarted(at.turn)), tail);
    RelayedTail(w.aborted, at.checks + 1, Some(TurnStarted(at.turn)), tail, at.turn);
    BehindDone(TurnStarted(at.turn));
    var idle := IDLE.(checks := calm.checks + 1);
    var ran := RunTools(calmWorld, limits, at.turn, at.count, idle, calm.calls);
    var world := if got.stop.Some? || w.aborted(got.checks) then calmWorld else w;
    var tools := ToolsWatched(world, limits, at.turn, at.count, idle, c, before, calm.calls);
    last := tools[|tools| - 1];
    assert Undisturbed(world) == calmWorld;
    var here := RunTools(world, limits, at.turn, at.count, idle, calm.calls);
    UnderMeans(world.aborted, c, before, idle, ran, tools, here, at.turn);
    NothingInFront(tools);
    if got.stop.Some? || w.aborted(got.checks) {
      CutBeforeTools(w, limits, r, at, k, prev, tail, calm, got, tools[0], tools[1..] + rest);
      assert [tools[0]] + tools[1..] == tools;
      Assoc([tools[0]], tools[1..], rest);
      Reassoc(start, calm.emitted, tools, rest);
    } else {
      ToolsThenRest(w, at, k, prev, tail, idle, ran, tools, here, rest);
    }
  }

  lemma {:induction false} LoopWatched(w: AgentLoop.World, limits: Limits, r: Request, at: Standing, k: nat, prev: Option<LoopEvent>)
    requires at.turn < limits.maxTurns
    requires k + Polls(prev, TurnStarted(at.turn)) == at.checks + 1 && forall j :: k <= j < at.checks ==> !w.aborted(j)
    ensures LogUnder(w.aborted, k, prev, Loop(Undisturbed(w), limits, r, at), Loop(w, limits, r, at))
    decreases limits.maxTurns - at.turn
  {
    hide ReadTurn, RunTools, CoreRun, NextMessages, Seen, Loop, TurnVerdict, LogUnder, Watched, Survives, Polls, Tail, ReadUnder, Relayed;
    var calmWorld, start := Undisturbed(w), [TurnStarted(at.turn)];
    LoopStep(w, limits, r, at);
    LoopStep(calmWorld, limits, r, at);
    if w.aborted(at.checks) {
      BeforeTurn(w.aborted, k, prev, at, Loop(calmWorld, limits, r, at));
      return;
    }
    var request := r.(messages := at.messages);
    var begun := FRESH.(checks := at.checks + 1);
    var tail := ReadWatched(w, at.turn, at.seen, begun, Some(TurnStarted(at.turn)), CoreRun(request, w.gateway(at.turn, request)));
    var calm, got := TurnReading(calmWorld, r, at), TurnReading(w, r, at);
    if TurnVerdict(calmWorld, limits, r, at.turn, calm).Some? {
      LastTurnWatched(w, limits, r, at, k, prev, tail, calm, got);
      SameRequests(w.aborted, k, prev, Loop(calmWorld, limits, r, at), Loop(w, limits, r, at));
      return;
    }
    VerdictUnder(calmWorld, limits, r, at.turn, calm);
    var ran := RunTools(calmWorld, limits, at.turn, at.count, IDLE.(checks := calm.checks + 1), calm.calls);
    var next := Standing(at.turn + 1, NextMessages(at, calm, ran), Seen(at.seen, calm.calls), ran.checks, at.count + |ran.executions|);
    var rest := Loop(calmWorld, limits, r, next);
    var last := ToolTurnWatched(w, limits, r, at, k, prev, tail, calm, got, rest.events);
    var here := RunTools(w, limits, at.turn, at.count, IDLE.(checks := got.checks + 1), got.calls);
    if TurnVerdict(w, limits, r, at.turn, got).Some? || here.stop.Some? {
      SameRequests(w.aborted, k, prev, Loop(calmWorld, limits, r, at), Loop(w, limits, r, at));
    } else {
      NextTurnPolls(last, next.turn);
      LoopWatched(w, limits, r, next, ran.checks, Some(last));
      UnderAfter(w.aborted, k, prev, start + calm.emitted + ran.emitted, ran.checks, last, [request], ran.executions, rest, Loop(w, limits, r, next));
    }
  }

  lemma NextTurnPolls(prev: LoopEvent, turn: nat)
    requires turn > 0
    ensures Polls(Some(prev), TurnStarted(turn)) == 1
  {}

  lemma ReadingUnder(aborted: Signal, so: Reading, prev: Option<LoopEvent>, calm: Reading, tail: seq<LoopEvent>, got: Reading, turn: nat)
    requires Tail(calm, so, tail, turn) && ReadUnder(aborted, so, prev, calm, tail, got, turn)
    requires calm.stop.None? && so.emitted == []
    ensures calm.emitted == tail && calm.checks == so.checks + |tail| + 1
    ensures forall i :: 0 <= i < |tail| ==> Relayed(tail[i], turn)
    ensures got.stop.None? ==> got == calm && Survives(aborted, so.checks, prev, tail) && !aborted(so.checks + |tail|)
  {
    hide Relayed, Survives, Watched;
    NothingInFront(tail);
  }

  /** Logs with the right events, one request and no more tools. */
  lemma SameRequests(aborted: Signal, k: nat, prev: Option<LoopEvent>, calm: Log, got: Log)
    requires got.events == Watched(aborted, k, prev, calm.events)
    requires |got.requests| <= 1 && (got.requests != [] ==> calm.requests != [] && got.requests[0] == calm.requests[0])
    requires got.executions <= calm.executions
    ensures LogUnder(aborted, k, prev, calm, got)
  {
    hide Watched;
  }

  /** An abort before the turn starts. */
  lemma BeforeTurn(aborted: Signal, k: nat, prev: Option<LoopEvent>, at: Standing, calm: Log)
    requires k + Polls(prev, TurnStarted(at.turn)) == at.checks + 1 && aborted(at.checks)
    requires calm.events != [] && calm.events[0] == TurnStarted(at.turn)
    ensures LogUnder(aborted, k, prev, calm, Log([Failed(at.turn, LoopAborted)], [], []))
  {
    hide Watched;
    var rest := calm.events[1..];
    assert [TurnStarted(at.turn)] + rest == calm.events;
    WatchOne(aborted, k, prev, TurnStarted(at.turn), rest);
    assert Asked(aborted, k, Polls(prev, TurnStarted(at.turn)));
  }

  /**
   A run is the undisturbed run, cut in front of the first event before which one
   of its questions about the signal was answered with yes, and closed there by
   the error `aborted`; its requests and executions are the first of the
   undisturbed ones.
   */
  lemma AbortCutsTheRun(w: AgentLoop.World, limits: Limits, r: Request)
    requires limits.maxTurns >= 1
    ensures var calm, got := AgentLoop.Run(Undisturbed(w), limits, r), AgentLoop.Run(w, limits, r);
            && got.events == Watched(w.aborted, 0, None, calm.events)
            && got.requests <= calm.requests && got.executions <= calm.executions
  {
    hide Loop, HistoryIds, Watched;
    var at := Standing(0, r.messages, HistoryIds(r.messages), 1, 0);
    var calm := Loop(Undisturbed(w), limits, r, at);
    if w.aborted(0) {
      LoopStarts(Undisturbed(w), limits, r, at);
      assert [TurnStarted(0)] + calm.events[1..] == calm.events;
      WatchOne(w.aborted, 0, None, TurnStarted(0), calm.events[1..]);
      assert Asked(w.aborted, 0, 2);
    } else {
      LoopWatched(w, limits, r, at, 0, None);
    }
  }

  lemma LoopStarts(w: AgentLoop.World, limits: Limits, r: Request, at: Standing)
    requires at.turn < limits.maxTurns && !w.aborted(at.checks)
    ensures Loop(w, limits, r, at).events != [] && Loop(w, limits, r, at).events[0] == TurnStarted(at.turn)
  {
    hide ReadTurn, RunTools, CoreRun, TurnVerdict;
  }
}
