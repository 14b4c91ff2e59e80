/**
 What a turn passes on when nobody aborts: the model's answer, event by event, up
 to the first error or unusable call; and that event is what the run ends with.
 */
module LoopRelay {
  import opened Base
  import opened Events
  import opened Requests
  import opened AgentLoop
  import opened LoopProperties
  import opened LoopHistory
  import opened ToolDiscipline
  import opened LoopEnding

  // ----- one answer -----

  predicate Malformed(e: ModelEvent) {
    e.ToolCall? && (e.id == "" || e.name == "" || !IsJson(e.input))
  }

  /** A call whose id is in the history, or was used earlier in the answer. */
  predicate Repeated(known: set<string>, answer: seq<CoreEvent>, i: nat)
    requires i < |answer|
  {
    CallAt(answer, i) && (answer[i].event.id in known || exists j :: 0 <= j < i && CallAt(answer, j) && answer[j].event.id == answer[i].event.id)
  }

  predicate CallAt(answer: seq<CoreEvent>, i: nat)
    requires i < |answer|
  {
    answer[i].Model? && answer[i].event.ToolCall?
  }

  predicate Faulty(known: set<string>, answer: seq<CoreEvent>, i: nat)
    requires i < |answer|
  {
    answer[i].Model? && (answer[i].event.Error? || Malformed(answer[i].event) || Repeated(known, answer, i))
  }

  /** Up to `n` the answer is sound, and there it has its first fault or ends. */
  predicate SoundUpTo(known: set<string>, answer: seq<CoreEvent>, n: nat) {
    && n <= |answer|
    && (forall i :: 0 <= i < n ==> !Faulty(known, answer, i))
    && (n < |answer| ==> Faulty(known, answer, n))
  }

  /** How a fault is reported. */
  function Report(turn: nat, answer: seq<CoreEvent>, n: nat): LoopEvent
    requires n < |answer| && answer[n].Model?
  {
    match answer[n].event
    case Error(code, retryable) => LoopError(turn, FromGateway(code), retryable)
    case e => LoopError(turn, if Malformed(e) then InvalidToolCall else DuplicateToolCallId, false)
  }

  /** The same news, in the words of the loop. */
  predicate Relays(turn: nat, event: CoreEvent, told: LoopEvent) {
    match told
    case LoopRoute(t, routeId, model) => t == turn && event == RouteSelected(routeId, model)
    case LoopText(t, text) => t == turn && event == Model(TextDelta(text))
    case LoopUsage(t, i, o) => t == turn && event == Model(Usage(i, o))
    case TurnCompleted(t) => t == turn && event == Model(Completed)
    case LoopCall(t, id, name, input) => t == turn && event == Model(ToolCall(id, name, input))
    case _ => false
  }

  predicate RelaysAll(turn: nat, answer: seq<CoreEvent>, n: nat, told: seq<LoopEvent>)
    requires n <= |answer|
  {
    |told| == n && forall i :: 0 <= i < n ==> Relays(turn, answer[i], told[i])
  }

  /** What has been read of an answer. */
  ghost predicate HasRead(turn: nat, known: set<string>, answer: seq<CoreEvent>, n: nat, so: Reading) {
    && n <= |answer| && (forall i :: 0 <= i < n ==> !Faulty(known, answer, i))
    && RelaysAll(turn, answer, n, so.emitted)
    && (forall id :: id in IdsOf(so.calls) <==> exists j :: 0 <= j < n && CallAt(answer, j) && answer[j].event.id == id)
  }

  lemma ReadNext(turn: nat, known: set<string>, answer: seq<CoreEvent>, n: nat, so: Reading)
    requires HasRead(turn, known, answer, n, so) && so.stop.None? && n < |answer|
    ensures var next := Read(turn, known, so, answer[n]);
            if Faulty(known, answer, n) then next.stop == Some(Report(turn, answer, n)) && next.emitted == so.emitted
            else next.stop.None? && HasRead(turn, known, answer, n + 1, next)
  {
    hide IsJson;
    var next := Read(turn, known, so, answer[n]);
    if CallAt(answer, n) {
      var e := answer[n].event;
      assert Repeated(known, answer, n) <==> e.id in Seen(known, so.calls);
      if !Faulty(known, answer, n) {
        OneMoreCall(so.calls, ToolCallRecord(e.id, e.name, e.input));
      }
    }
  }

  lemma OneMoreCall(calls: seq<ToolCallRecord>, call: ToolCallRecord)
    ensures IdsOf(calls + [call]) == IdsOf(calls) + {call.id}
  {
    assert forall c :: c in calls + [call] <==> c in calls || c == call;
  }

  ghost predicate Calm(w: AgentLoop.World) {
    forall k :: !w.aborted(k)
  }

  /** A turn without an abort relays its answer up to the first fault. */
  lemma {:induction false} CalmReading(w: AgentLoop.World, turn: nat, known: set<string>, answer: seq<CoreEvent>, n: nat, so: Reading) returns (m: nat)
    requires Calm(w) && so.stop.None? && HasRead(turn, known, answer, n, so)
    ensures m <= |answer| && SoundUpTo(known, answer, m)
    ensures var reading := ReadTurn(w, turn, known, so, answer[n..]);
            && RelaysAll(turn, answer, m, reading.emitted)
            && reading.stop == if m < |answer| then Some(Report(turn, answer, m)) else None
    decreases |answer| - n
  {
    hide Read, HasRead, Faulty, Relays;
    assert HasRead(turn, known, answer, n, so) ==> n <= |answer| && (forall i :: 0 <= i < n ==> !Faulty(known, answer, i)) && RelaysAll(turn, answer, n, so.emitted) by {
      ReadSoFar(turn, known, answer, n, so);
    }
    m := n;
    if n < |answer| {
      var begun := so.(checks := so.checks + 1);
      ReadElsewhere(turn, known, answer, n, so, begun);
      ReadNext(turn, known, answer, n, begun);
      assert answer[n..][1..] == answer[n + 1..];
      if !Faulty(known, answer, n) {
        m := CalmReading(w, turn, known, answer, n + 1, Read(turn, known, begun, answer[n]));
      }
    }
  }

  lemma ReadSoFar(turn: nat, known: set<string>, answer: seq<CoreEvent>, n: nat, so: Reading)
    requires HasRead(turn, known, answer, n, so)
    ensures n <= |answer| && (forall i :: 0 <= i < n ==> !Faulty(known, answer, i)) && RelaysAll(turn, answer, n, so.emitted)
  {}

  lemma ReadElsewhere(turn: nat, known: set<string>, answer: seq<CoreEvent>, n: nat, a: Reading, b: Reading)
    requires HasRead(turn, known, answer, n, a) && b.emitted == a.emitted && b.calls == a.calls
    ensures HasRead(turn, known, answer, n, b)
  {}

  lemma NothingHasBeenRead(turn: nat, known: set<string>, answer: seq<CoreEvent>, so: Reading)
    requires so.emitted == [] && so.calls == []
    ensures HasRead(turn, known, answer, 0, so)
  {}

  // ----- the ids of the history -----

  /** After a turn the known ids are those of the history with the turn in it. */
  lemma HistoryGrows(messages: seq<Message>, text: string, calls: seq<ToolCallRecord>, results: seq<Block>)
    requires Answers(results, calls)
    ensures HistoryIds(messages + [AssistantMessage(text, calls), Message(Tool, results)]) == HistoryIds(messages) + IdsOf(calls)
  {
    var said, ran := AssistantMessage(text, calls), Message(Tool, results);
    var all := messages + [said, ran];
    assert all[..|all| - 1] == messages + [said];
    assert (messages + [said])[..|messages|] == messages;
    assert BlockIds(ran.content) == {};
    CallBlocksAre(calls);
    forall id
      ensures id in BlockIds(said.content) <==> id in IdsOf(calls)
    {
      if id in IdsOf(calls) {
        var i :| 0 <= i < |calls| && calls[i].id == id;
        assert CallBlocks(calls)[i] in said.content;
      }
      if id in BlockIds(said.content) {
        var b :| b in said.content && b.Call? && b.id == id;
        assert b in CallBlocks(calls);
        var i :| 0 <= i < |calls| && CallBlocks(calls)[i] == b;
        assert calls[i] in calls;
      }
    }
  }

  // ----- the run -----

  predicate FromModel(e: LoopEvent, turn: nat) {
    TurnOf(e) == turn && !e.Terminal() && !e.ExecutionStarted? && !e.ExecutionDone?
  }

  /** What the model said in a turn. */
  function SpokenIn(events: seq<LoopEvent>, turn: nat): seq<LoopEvent> {
    if events == [] then []
    else
      var last := events[|events| - 1];
      SpokenIn(events[..|events| - 1], turn) + if FromModel(last, turn) then [last] else []
  }

  lemma {:induction false} SpokenAppend(a: seq<LoopEvent>, b: seq<LoopEvent>, turn: nat)
    ensures SpokenIn(a + b, turn) == SpokenIn(a, turn) + SpokenIn(b, turn)
    decreases |b|
  {
    if b == [] {
      assert a + b == a;
    } else {
      assert (a + b)[..|a + b| - 1] == a + b[..|b| - 1];
      SpokenAppend(a, b[..|b| - 1], turn);
    }
  }

  lemma {:induction false} AllSpoken(events: seq<LoopEvent>, turn: nat)
    requires forall i :: 0 <= i < |events| ==> FromModel(events[i], turn)
    ensures SpokenIn(events, turn) == events
    decreases |events|
  {
    if events != [] {
      assert forall i :: 0 <= i < |events| - 1 ==> events[..|events| - 1][i] == events[i];
      AllSpoken(events[..|events| - 1], turn);
      assert events == events[..|events| - 1] + [events[|events| - 1]];
    }
  }

  lemma {:induction false} NothingSaid(events: seq<LoopEvent>, turn: nat)
    requires forall i :: 0 <= i < |events| ==> !FromModel(events[i], turn)
    ensures SpokenIn(events, turn) == []
    decreases |events|
  {
    if events != [] {
      assert forall i :: 0 <= i < |events| - 1 ==> events[..|events| - 1][i] == events[i];
      NothingSaid(events[..|events| - 1], turn);
    }
  }

  function Answer(w: AgentLoop.World, turn: nat, request: Request): seq<CoreEvent> {
    CoreRun(request, w.gateway(turn, request))
  }

  /** Turn `t` relays the answer to its request; in the last turn a fault is the end, and only a fault cuts the run short. */
  ghost predicate TurnRelayed(w: AgentLoop.World, events: seq<LoopEvent>, t: nat, request: Request, isLast: bool)
    requires events != []
  {
    var answer, last := Answer(w, t, request), events[|events| - 1];
    exists n: nat ::
      && SoundUpTo(HistoryIds(request.messages), answer, n)
      && (var spoken := SpokenIn(events, t);
          spoken != [] && spoken[0] == TurnStarted(t) && RelaysAll(t, answer, n, spoken[1..]))
      && (if n < |answer| then isLast && last == Report(t, answer, n) else isLast ==> !CutShort(last))
  }

  ghost predicate RelayedFrom(w: AgentLoop.World, from: nat, log: Log) {
    && log.events != [] && log.requests != []
    && forall k :: 0 <= k < |log.requests| ==> TurnRelayed(w, log.events, from + k, log.requests[k], k == |log.requests| - 1)
  }

  /** A turn whose events end in `stop`, or go on to its tools. */
  lemma TurnIsRelayed(w: AgentLoop.World, limits: Limits, r: Request, at: Standing, tail: seq<LoopEvent>, isLast: bool)
    requires Calm(w) && at.turn < limits.maxTurns && at.seen == HistoryIds(at.messages)
    requires tail != [] && forall i :: 0 <= i < |tail| ==> !FromModel(tail[i], at.turn)
    requires var reading := TurnReading(w, r, at);
             if reading.stop.Some? then isLast && tail == [reading.stop.value]
             else isLast ==> !CutShort(tail[|tail| - 1])
    ensures TurnRelayed(w, [TurnStarted(at.turn)] + TurnReading(w, r, at).emitted + tail, at.turn, r.(messages := at.messages), isLast)
  {
    hide ReadTurn, SoundUpTo, Relays, HistoryIds, CoreRun, SpokenIn;
    var request := r.(messages := at.messages);
    var answer, begun := Answer(w, at.turn, request), FRESH.(checks := at.checks + 1);
    NothingHasBeenRead(at.turn, at.seen, answer, begun);
    assert answer[0..] == answer;
    var n := CalmReading(w, at.turn, at.seen, answer, 0, begun);
    var reading := TurnReading(w, r, at);
    var said := [TurnStarted(at.turn)] + reading.emitted;
    RelaysAreSpoken(at.turn, answer, n, reading.emitted);
    AllSpoken(said, at.turn);
    NothingSaid(tail, at.turn);
    SpokenAppend(said, tail, at.turn);
    assert said + [] == said;
    assert SpokenIn(said + tail, at.turn)[1..] == reading.emitted;
  }

  lemma RelaysAreSpoken(turn: nat, answer: seq<CoreEvent>, n: nat, told: seq<LoopEvent>)
    requires n <= |answer| && RelaysAll(turn, answer, n, told)
    ensures forall i :: 0 <= i < |[TurnStarted(turn)] + told| ==> FromModel(([TurnStarted(turn)] + told)[i], turn)
  {
    forall i | 0 <= i < n
      ensures FromModel(told[i], turn)
    {
      assert Relays(turn, answer[i], told[i]);
    }
  }

  lemma VerdictNotCut(w: AgentLoop.World, limits: Limits, r: Request, turn: nat, reading: Reading)
    requires Calm(w) && TurnVerdict(w, limits, r, turn, reading).Some?
    ensures if reading.stop.Some? then TurnVerdict(w, limits, r, turn, reading) == reading.stop
            else !CutShort(TurnVerdict(w, limits, r, turn, reading).value)
  {}

  /** Without an abort the tools run to the end. */
  lemma {:induction false} CalmTools(w: AgentLoop.World, limits: Limits, turn: nat, count: nat, so: Executed, calls: seq<ToolCallRecord>)
    requires Calm(w) && so.stop.None?
    ensures RunTools(w, limits, turn, count, so, calls).stop.None?
    decreases |calls|
  {
    hide Classify;
    if calls != [] {
      CalmTools(w, limits, turn, count, RunTool(w, limits, turn, count, so, calls[0]), calls[1..]);
    }
  }

  lemma RelayedLater(w: AgentLoop.World, turn: nat, before: seq<LoopEvent>, request: Request, executions: seq<ToolCallRecord>, log: Log)
    requires forall i :: 0 <= i < |before| ==> TurnOf(before[i]) == turn
    requires RelayedFrom(w, turn + 1, log)
    requires TurnRelayed(w, before + log.events, turn, request, false)
    ensures RelayedFrom(w, turn, log.After(before, [request], executions))
  {
    hide SoundUpTo, Answer, RelaysAll, CutShort, Report, HistoryIds;
    var whole := log.After(before, [request], executions);
    assert whole.events[|whole.events| - 1] == log.events[|log.events| - 1];
    forall k | 0 <= k < |whole.requests|
      ensures TurnRelayed(w, whole.events, turn + k, whole.requests[k], k == |whole.requests| - 1)
    {
      if k > 0 {
        assert whole.requests[k] == log.requests[k - 1];
        assert TurnRelayed(w, log.events, turn + k, log.requests[k - 1], k - 1 == |log.requests| - 1);
        NothingSaid(before, turn + k);
        SpokenAppend(before, log.events, turn + k);
        assert [] + SpokenIn(log.events, turn + k) == SpokenIn(log.events, turn + k);
      }
    }
  }

  lemma {:induction false} LoopRelays(w: AgentLoop.World, limits: Limits, r: Request, at: Standing)
    requires Calm(w) && at.turn < limits.maxTurns && at.seen == HistoryIds(at.messages)
    ensures RelayedFrom(w, at.turn, Loop(w, limits, r, at))
    decreases limits.maxTurns - at.turn
  {
    hide ReadTurn, RunTools, TurnReading, Seen, Loop, TurnVerdict, TurnRelayed, CutShort, HistoryIds, AssistantMessage, Answers, WellTraced, IdsOf;
    LoopStep(w, limits, r, at);
    var reading := TurnReading(w, r, at);
    var said := [TurnStarted(at.turn)] + reading.emitted;
    var verdict := TurnVerdict(w, limits, r, at.turn, reading);
    if verdict.Some? {
      VerdictNotCut(w, limits, r, at.turn, reading);
      TurnSays(w, limits, r, at);
      VerdictTerminal(w, limits, r, at.turn, reading);
      TurnIsRelayed(w, limits, r, at, [verdict.value], true);
    } else {
      VerdictExplained(w, limits, r, at);
      var idle := IDLE.(checks := reading.checks + 1);
      var ran := RunTools(w, limits, at.turn, at.count, idle, reading.calls);
      CalmTools(w, limits, at.turn, at.count, idle, reading.calls);
      BatchAnswers(w, limits, at.turn, at.count, reading.checks + 1, reading.calls);
      NothingReported(at.turn);
      ToolsReport(w, limits, at.turn, at.count, idle, reading.calls);
      var next := Standing(at.turn + 1, NextMessages(at, reading, ran), Seen(at.seen, reading.calls), ran.checks, at.count + |ran.executions|);
      HistoryGrows(at.messages, reading.text, reading.calls, ran.results);
      SeenIs(at.seen, reading.calls);
      LoopRelays(w, limits, r, next);
      LoopTrace(w, limits, r, next);
      var rest := Loop(w, limits, r, next);
      LaterTurns(r, next.turn, rest.events);
      TurnSays(w, limits, r, at);
      EarlierTurn(at.turn, said, ran.emitted);
      BehindModel(at.turn, ran.emitted, rest.events);
      TurnIsRelayed(w, limits, r, at, ran.emitted + rest.events, false);
      assert said + (ran.emitted + rest.events) == (said + ran.emitted) + rest.events;
      RelayedLater(w, at.turn, said + ran.emitted, r.(messages := at.messages), ran.executions, rest);
    }
  }

  lemma SeenIs(seen: set<string>, calls: seq<ToolCallRecord>)
    ensures Seen(seen, calls) == seen + IdsOf(calls)
  {}

  lemma BehindModel(turn: nat, ran: seq<LoopEvent>, rest: seq<LoopEvent>)
    requires Executions(turn, ran) && forall i :: 0 <= i < |rest| ==> TurnOf(rest[i]) > turn
    ensures forall i :: 0 <= i < |ran + rest| ==> !FromModel((ran + rest)[i], turn)
  {}

  /**
   A run nobody aborts: every turn passes on the answer to its request, event by
   event, up to the first error, malformed call or repeated id; that is reported
   as the last event of the run, and nothing else cuts a run short.
   */
  lemma TurnsRelayAnswers(w: AgentLoop.World, limits: Limits, r: Request)
    requires limits.maxTurns >= 1 && Calm(w)
    ensures RelayedFrom(w, 0, AgentLoop.Run(w, limits, r))
  {
    hide Loop, HistoryIds, RelayedFrom;
    LoopRelays(w, limits, r, Standing(0, r.messages, HistoryIds(r.messages), 1, 0));
  }
}
