/**
 The conversation a run builds, told from outside: every request is the caller's
 history and, turn by turn, what the run's events announced and what the
 executor returned.
 */
module LoopHistory {
  import opened Base
  import opened Events
  import opened Requests
  import opened AgentLoop
  import opened LoopProperties

  /** The text announced in a turn. */
  function SaidIn(events: seq<LoopEvent>, turn: nat): string {
    if events == [] then ""
    else
      var last := events[|events| - 1];
      SaidIn(events[..|events| - 1], turn) + if last.LoopText? && last.turn == turn then last.text else ""
  }

  /** The calls announced in a turn. */
  function CalledIn(events: seq<LoopEvent>, turn: nat): seq<ToolCallRecord> {
    if events == [] then []
    else
      var last := events[|events| - 1];
      CalledIn(events[..|events| - 1], turn) +
      if last.LoopCall? && last.turn == turn then [ToolCallRecord(last.id, last.name, last.input)] else []
  }

  /** The results of a batch whose first call is the `count`-th execution of the run. */
  function ResultsOf(w: AgentLoop.World, limits: Limits, count: nat, calls: seq<ToolCallRecord>): seq<Block> {
    seq(|calls|, i requires 0 <= i < |calls| =>
      var (content, isError) := Classify(w, limits, w.execute(count + i, calls[i]));
      Result(calls[i].id, content, if isError then Some(true) else None))
  }

  /** The history after `k` more turns of a run with these events. */
  function Told(w: AgentLoop.World, limits: Limits, events: seq<LoopEvent>, turn: nat, count: nat, messages: seq<Message>, k: nat): seq<Message>
    decreases k
  {
    if k == 0 then messages
    else
      var calls := CalledIn(events, turn);
      Told(w, limits, events, turn + 1, count + |calls|,
           messages + [AssistantMessage(SaidIn(events, turn), calls), Message(Tool, ResultsOf(w, limits, count, calls))], k - 1)
  }

  // ----- announcements -----

  lemma {:induction false} AnnouncedAppend(a: seq<LoopEvent>, b: seq<LoopEvent>, turn: nat)
    ensures SaidIn(a + b, turn) == SaidIn(a, turn) + SaidIn(b, turn)
    ensures CalledIn(a + b, turn) == CalledIn(a, turn) + CalledIn(b, turn)
    decreases |b|
  {
    hide SaidIn, CalledIn;
    if b == [] {
      assert a + b == a;
      SilentSaysNothing(b, turn);
    } else {
      var init, last := b[..|b| - 1], b[|b| - 1];
      AnnouncedAppend(a, init, turn);
      OneMoreEvent(a + init, last, turn);
      OneMoreEvent(init, last, turn);
      assert b == init + [last] && a + b == (a + init) + [last];
    }
  }

  /** Events that announce nothing in a turn. */
  predicate Silent(events: seq<LoopEvent>, turn: nat) {
    forall i :: 0 <= i < |events| ==> !((events[i].LoopText? || events[i].LoopCall?) && events[i].turn == turn)
  }

  lemma {:induction false} SilentSaysNothing(events: seq<LoopEvent>, turn: nat)
    requires Silent(events, turn)
    ensures SaidIn(events, turn) == "" && CalledIn(events, turn) == []
    decreases |events|
  {
    if events != [] {
      assert Silent(events[..|events| - 1], turn) by {
        assert forall i :: 0 <= i < |events| - 1 ==> events[..|events| - 1][i] == events[i];
      }
      SilentSaysNothing(events[..|events| - 1], turn);
    }
  }

  /** What a reading has collected is what it has announced. */
  predicate Announced(turn: nat, so: Reading) {
    so.text == SaidIn(so.emitted, turn) && so.calls == CalledIn(so.emitted, turn)
  }

  lemma ReadAnnounces(turn: nat, seen: set<string>, so: Reading, event: CoreEvent)
    requires Announced(turn, so)
    ensures Announced(turn, Read(turn, seen, so, event))
  {
    hide CallProblem, SaidIn, CalledIn;
    var next := Read(turn, seen, so, event);
    if next.emitted != so.emitted {
      OneMoreEvent(so.emitted, next.emitted[|next.emitted| - 1], turn);
      assert so.text + "" == so.text && so.calls + [] == so.calls;
    }
  }

  lemma OneMoreEvent(events: seq<LoopEvent>, e: LoopEvent, turn: nat)
    ensures SaidIn(events + [e], turn) == SaidIn(events, turn) + if e.LoopText? && e.turn == turn then e.text else ""
    ensures CalledIn(events + [e], turn) ==
            CalledIn(events, turn) + if e.LoopCall? && e.turn == turn then [ToolCallRecord(e.id, e.name, e.input)] else []
  {
    assert (events + [e])[..|events|] == events;
  }

  lemma {:induction false} TurnAnnounces(w: AgentLoop.World, turn: nat, seen: set<string>, so: Reading, events: seq<CoreEvent>)
    requires Announced(turn, so)
    ensures Announced(turn, ReadTurn(w, turn, seen, so, events))
    decreases |events|
  {
    hide Announced, Read;
    if w.aborted(so.checks) {
      AnnouncedElsewhere(turn, so, so.(stop := Some(Failed(turn, LoopAborted)), checks := so.checks + 1));
    } else if events == [] {
      AnnouncedElsewhere(turn, so, so.(checks := so.checks + 1));
    } else {
      var begun := so.(checks := so.checks + 1);
      AnnouncedElsewhere(turn, so, begun);
      ReadAnnounces(turn, seen, begun, events[0]);
      var next := Read(turn, seen, begun, events[0]);
      if next.stop.None? {
        TurnAnnounces(w, turn, seen, next, events[1..]);
      }
    }
  }

  lemma AnnouncedElsewhere(turn: nat, a: Reading, b: Reading)
    requires Announced(turn, a) && b.text == a.text && b.calls == a.calls && b.emitted == a.emitted
    ensures Announced(turn, b)
  {}

  /** A batch that ran to the end holds the results of its calls, in order. */
  lemma {:induction false} BatchResults(w: AgentLoop.World, limits: Limits, turn: nat, count: nat, so: Executed, done: seq<ToolCallRecord>, calls: seq<ToolCallRecord>)
    requires so.stop.None? && so.executions == done && so.results == ResultsOf(w, limits, count, done)
    ensures var ran := RunTools(w, limits, turn, count, so, calls);
            ran.stop.None? ==> ran.executions == done + calls && ran.results == ResultsOf(w, limits, count, done + calls)
    decreases |calls|
  {
    hide Classify;
    if calls == [] {
      assert done + calls == done;
    } else {
      var next := RunTool(w, limits, turn, count, so, calls[0]);
      assert (done + [calls[0]]) + calls[1..] == done + calls;
      if next.stop.None? {
        assert next.results == ResultsOf(w, limits, count, done + [calls[0]]);
        BatchResults(w, limits, turn, count, next, done + [calls[0]], calls[1..]);
      }
    }
  }

  // ----- the run -----

  /** Every request of a log, from a position on. */
  ghost predicate Retold(w: AgentLoop.World, limits: Limits, r: Request, at: Standing, log: Log) {
    forall k :: 0 <= k < |log.requests| ==>
      log.requests[k] == r.(messages := Told(w, limits, log.events, at.turn, at.count, at.messages, k))
  }

  /** Events of earlier turns do not change what is told from a turn on. */
  lemma {:induction false} ToldLater(w: AgentLoop.World, limits: Limits, before: seq<LoopEvent>, events: seq<LoopEvent>, turn: nat, count: nat, messages: seq<Message>, k: nat)
    requires forall i :: 0 <= i < |before| ==> TurnOf(before[i]) < turn
    ensures Told(w, limits, before + events, turn, count, messages, k) == Told(w, limits, events, turn, count, messages, k)
    decreases k
  {
    hide SaidIn, CalledIn, AssistantMessage;
    if k > 0 {
      AnnouncedAppend(before, events, turn);
      SilentSaysNothing(before, turn);
      assert "" + SaidIn(events, turn) == SaidIn(events, turn) && [] + CalledIn(events, turn) == CalledIn(events, turn);
      var calls := CalledIn(events, turn);
      ToldLater(w, limits, before, events, turn + 1, count + |calls|,
                messages + [AssistantMessage(SaidIn(events, turn), calls), Message(Tool, ResultsOf(w, limits, count, calls))], k - 1);
    }
  }

  /** One turn announces what it adds to the history. */
  lemma TurnTold(turn: nat, reading: Reading, ran: seq<LoopEvent>, rest: seq<LoopEvent>)
    requires Announced(turn, reading) && Executions(turn, ran)
    requires forall i :: 0 <= i < |rest| ==> TurnOf(rest[i]) > turn
    ensures var events := [TurnStarted(turn)] + reading.emitted + ran + rest;
            SaidIn(events, turn) == reading.text && CalledIn(events, turn) == reading.calls
  {
    hide SaidIn, CalledIn;
    var start := [TurnStarted(turn)];
    AnnouncedAppend(start + reading.emitted + ran, rest, turn);
    AnnouncedAppend(start + reading.emitted, ran, turn);
    AnnouncedAppend(start, reading.emitted, turn);
    SilentSaysNothing(start, turn);
    SilentSaysNothing(ran, turn);
    SilentSaysNothing(rest, turn);
    var text, calls := reading.text, reading.calls;
    assert ("" + text) + "" + "" == text && ([] + calls) + [] + [] == calls;
  }

  lemma FirstRequest(w: AgentLoop.World, limits: Limits, r: Request, at: Standing, events: seq<LoopEvent>, executions: seq<ToolCallRecord>)
    ensures Retold(w, limits, r, at, Log(events, [r.(messages := at.messages)], executions))
  {}

  lemma NextRequests(w: AgentLoop.World, limits: Limits, r: Request, at: Standing, reading: Reading, ran: Executed, next: Standing, log: Log)
    requires Announced(at.turn, reading) && Executions(at.turn, ran.emitted)
    requires forall i :: 0 <= i < |reading.emitted| ==> TurnOf(reading.emitted[i]) == at.turn
    requires ran.executions == reading.calls && ran.results == ResultsOf(w, limits, at.count, reading.calls)
    requires next.turn == at.turn + 1 && next.count == at.count + |reading.calls| && next.messages == NextMessages(at, reading, ran)
    requires Retold(w, limits, r, next, log) && forall i :: 0 <= i < |log.events| ==> TurnOf(log.events[i]) > at.turn
    ensures Retold(w, limits, r, at,
              log.After([TurnStarted(at.turn)] + reading.emitted + ran.emitted, [r.(messages := at.messages)], ran.executions))
  {
    hide SaidIn, CalledIn, AssistantMessage, ResultsOf;
    var before := [TurnStarted(at.turn)] + reading.emitted + ran.emitted;
    var whole := log.After(before, [r.(messages := at.messages)], ran.executions);
    TurnTold(at.turn, reading, ran.emitted, log.events);
    forall k | 0 <= k < |whole.requests|
      ensures whole.requests[k] == r.(messages := Told(w, limits, whole.events, at.turn, at.count, at.messages, k))
    {
      if k > 0 {
        assert whole.requests[k] == log.requests[k - 1];
        ToldLater(w, limits, before, log.events, next.turn, next.count, next.messages, k - 1);
      }
    }
  }

  lemma {:induction false} LoopRetold(w: AgentLoop.World, limits: Limits, r: Request, at: Standing)
    requires at.turn < limits.maxTurns
    ensures Retold(w, limits, r, at, Loop(w, limits, r, at))
    decreases limits.maxTurns - at.turn
  {
    hide ReadTurn, RunTools, CoreRun, Retold, Announced, NextMessages, Loop, WellTraced, ResultsOf, Executions;
    LoopStep(w, limits, r, at);
    if w.aborted(at.checks) {
      NothingRetold(w, limits, r, at, Failed(at.turn, LoopAborted));
    } else {
      var request := r.(messages := at.messages);
      var reading := TurnReading(w, r, at);
      var begun := FRESH.(checks := at.checks + 1);
      NothingRead(at.turn, begun);
      TurnAnnounces(w, at.turn, at.seen, begun, CoreRun(request, w.gateway(at.turn, request)));
      ReadSpeaks(w, at.turn, at.seen, begun, CoreRun(request, w.gateway(at.turn, request)));
      var said := [TurnStarted(at.turn)] + reading.emitted;
      var verdict := TurnVerdict(w, limits, r, at.turn, reading);
      if verdict.Some? {
        FirstRequest(w, limits, r, at, said + [verdict.value], []);
      } else {
        var idle := IDLE.(checks := reading.checks + 1);
        var ran := RunTools(w, limits, at.turn, at.count, idle, reading.calls);
        if ran.stop.Some? {
          FirstRequest(w, limits, r, at, said + ran.emitted + [ran.stop.value], ran.executions);
        } else {
          var next := Standing(at.turn + 1, NextMessages(at, reading, ran), Seen(at.seen, reading.calls), ran.checks, at.count + |ran.executions|);
          NoResults(w, limits, at.count);
          BatchResults(w, limits, at.turn, at.count, idle, [], reading.calls);
          assert [] + reading.calls == reading.calls;
          NothingReported(at.turn);
          ToolsReport(w, limits, at.turn, at.count, idle, reading.calls);
          LoopRetold(w, limits, r, next);
          LoopTrace(w, limits, r, next);
          LaterTurns(r, next.turn, Loop(w, limits, r, next).events);
          NextRequests(w, limits, r, at, reading, ran, next, Loop(w, limits, r, next));
        }
      }
    }
  }

  lemma NothingRetold(w: AgentLoop.World, limits: Limits, r: Request, at: Standing, e: LoopEvent)
    ensures Retold(w, limits, r, at, Log([e], [], []))
  {}

  lemma NothingRead(turn: nat, so: Reading)
    requires so.emitted == [] && so.text == "" && so.calls == []
    ensures Announced(turn, so)
  {}

  lemma NoResults(w: AgentLoop.World, limits: Limits, count: nat)
    ensures ResultsOf(w, limits, count, []) == []
  {}

  lemma NothingReported(turn: nat)
    ensures Executions(turn, [])
  {}

  lemma LaterTurns(r: Request, from: nat, events: seq<LoopEvent>)
    requires WellTraced(r, from, events)
    ensures forall i :: 0 <= i < |events| ==> TurnOf(events[i]) >= from
  {}

  /**
   Every request of a run is the caller's request with a history that can be
   told from the run's own events and the executor's answers: per turn one
   assistant message with the announced text and calls, and one tool message
   with the classified result of each call, in order.
   */
  lemma HistoryIsTheTrace(w: AgentLoop.World, limits: Limits, r: Request)
    requires limits.maxTurns >= 1
    ensures var log := AgentLoop.Run(w, limits, r);
            forall k :: 0 <= k < |log.requests| ==>
              log.requests[k] == r.(messages := Told(w, limits, log.events, 0, 0, r.messages, k))
  {
    hide Loop, Told, HistoryIds;
    if !w.aborted(0) {
      LoopRetold(w, limits, r, Standing(0, r.messages, HistoryIds(r.messages), 1, 0));
    }
  }

  // ----- what the messages say -----

  function TextsOf(content: seq<Block>): seq<string> {
    if content == [] then []
    else TextsOf(content[..|content| - 1]) + if content[|content| - 1].Text? then [content[|content| - 1].text] else []
  }

  function CallsOf(content: seq<Block>): seq<ToolCallRecord> {
    if content == [] then []
    else
      var last := content[|content| - 1];
      CallsOf(content[..|content| - 1]) + if last.Call? then [ToolCallRecord(last.id, last.name, last.input)] else []
  }

  lemma {:induction false} CallBlocksSay(prefix: seq<Block>, calls: seq<ToolCallRecord>)
    ensures TextsOf(prefix + CallBlocks(calls)) == TextsOf(prefix)
    ensures CallsOf(prefix + CallBlocks(calls)) == CallsOf(prefix) + calls
    decreases |calls|
  {
    if calls == [] {
      assert prefix + [] == prefix && CallsOf(prefix) + [] == CallsOf(prefix);
    } else {
      var init, last := calls[..|calls| - 1], calls[|calls| - 1];
      CallBlocksSay(prefix, init);
      var front := prefix + CallBlocks(init);
      assert prefix + CallBlocks(calls) == front + [Call(last.id, last.name, last.input)];
      assert (prefix + CallBlocks(calls))[..|front|] == front;
      assert CallsOf(prefix) + init + [last] == CallsOf(prefix) + calls;
    }
  }

  /** The assistant message of a turn: its text in one block, if there is any, and its calls in order. */
  lemma AssistantSays(text: string, calls: seq<ToolCallRecord>)
    ensures var m := AssistantMessage(text, calls);
            && m.role == Assistant
            && TextsOf(m.content) == (if text == "" then [] else [text])
            && CallsOf(m.content) == calls
            && forall i :: 0 <= i < |m.content| ==> !m.content[i].Result? && (m.content[i].Text? ==> i == 0)
  {
    var front := if text == "" then [] else [Text(text)];
    CallBlocksSay(front, calls);
    CallBlocksAre(calls);
    assert front == [] || front[..0] == [];
    assert CallsOf(front) == [] && [] + calls == calls;
  }

  // ----- what the executor's answers become -----

  /** Whether a tool counts as failed. */
  predicate ToolFails(w: AgentLoop.World, limits: Limits, raw: RawResult) {
    match raw
    case Unusable => true
    case Usable(content, isError) => w.utf8(content) > limits.maxToolResultBytes || isError == Some(true)
  }

  /** Ids and outcomes of the answered tools. */
  function Outcomes(events: seq<LoopEvent>): seq<(string, bool)> {
    if events == [] then []
    else
      var last := events[|events| - 1];
      Outcomes(events[..|events| - 1]) + if last.ExecutionDone? then [(last.id, last.isError)] else []
  }

  /** The result block of an answer: its own content, unless that is unusable or too large. */
  lemma ResultSays(w: AgentLoop.World, limits: Limits, count: nat, calls: seq<ToolCallRecord>, i: nat)
    requires i < |calls|
    ensures var raw, result := w.execute(count + i, calls[i]), ResultsOf(w, limits, count, calls)[i];
            && result.Result? && result.callId == calls[i].id
            && (result.isError == Some(true) <==> ToolFails(w, limits, raw))
            && (result.isError == None <==> !ToolFails(w, limits, raw))
            && result.content ==
               if raw.Usable? && w.utf8(raw.content) <= limits.maxToolResultBytes then raw.content else "Tool execution failed."
  {}

  lemma {:induction false} OutcomesAppend(a: seq<LoopEvent>, b: seq<LoopEvent>)
    ensures Outcomes(a + b) == Outcomes(a) + Outcomes(b)
    decreases |b|
  {
    if b == [] {
      assert a + b == a;
    } else {
      assert (a + b)[..|a + b| - 1] == a + b[..|b| - 1];
      OutcomesAppend(a, b[..|b| - 1]);
    }
  }

  lemma {:induction false} NoOutcome(events: seq<LoopEvent>)
    requires forall i :: 0 <= i < |events| ==> !events[i].ExecutionDone?
    ensures Outcomes(events) == []
    decreases |events|
  {
    if events != [] {
      assert forall i :: 0 <= i < |events| - 1 ==> events[..|events| - 1][i] == events[i];
      NoOutcome(events[..|events| - 1]);
    }
  }

  lemma OneOutcome(e: LoopEvent)
    ensures Outcomes([e]) == if e.ExecutionDone? then [(e.id, e.isError)] else []
  {
    assert [e][..0] == [];
  }

  /** The outcomes of executions, the first of which is the `count`-th of the run. */
  function Expected(w: AgentLoop.World, limits: Limits, count: nat, executions: seq<ToolCallRecord>): seq<(string, bool)> {
    seq(|executions|, i requires 0 <= i < |executions| => (executions[i].id, ToolFails(w, limits, w.execute(count + i, executions[i]))))
  }

  /** All executions are reported as they turned out; an abort may leave the last one unreported. */
  ghost predicate Reported(w: AgentLoop.World, limits: Limits, count: nat, events: seq<LoopEvent>, executions: seq<ToolCallRecord>) {
    var outcomes, expected := Outcomes(events), Expected(w, limits, count, executions);
    || outcomes == expected
    || (expected != [] && outcomes == expected[..|expected| - 1]
        && events != [] && events[|events| - 1].LoopError? && events[|events| - 1].error == LoopAborted)
  }

  lemma ToolReported(w: AgentLoop.World, limits: Limits, turn: nat, count: nat, so: Executed, call: ToolCallRecord)
    requires so.stop.None? && Outcomes(so.emitted) == Expected(w, limits, count, so.executions)
    ensures var next := RunTool(w, limits, turn, count, so, call);
            if next.stop.None? then Outcomes(next.emitted) == Expected(w, limits, count, next.executions)
            else next.stop.value == Failed(turn, LoopAborted) && Reported(w, limits, count, next.emitted + [next.stop.value], next.executions)
  {
    hide Outcomes;
    var next := RunTool(w, limits, turn, count, so, call);
    var start := ExecutionStarted(turn, call.id, call.name);
    OutcomesAppend(so.emitted, [start]);
    OneOutcome(start);
    assert Outcomes(so.emitted) + [] == Outcomes(so.emitted);
    if |next.executions| > |so.executions| {
      assert Expected(w, limits, count, next.executions) ==
             Expected(w, limits, count, so.executions) + [(call.id, ToolFails(w, limits, w.execute(count + |so.executions|, call)))];
    }
    if next.stop.None? {
      var done := next.emitted[|next.emitted| - 1];
      assert next.emitted == (so.emitted + [start]) + [done];
      OutcomesAppend(so.emitted + [start], [done]);
      OneOutcome(done);
    } else {
      OutcomesAppend(next.emitted, [next.stop.value]);
      OneOutcome(next.stop.value);
      assert Outcomes(next.emitted) + [] == Outcomes(next.emitted);
    }
  }

  lemma {:induction false} ToolsReported(w: AgentLoop.World, limits: Limits, turn: nat, count: nat, so: Executed, calls: seq<ToolCallRecord>)
    requires so.stop.None? && Outcomes(so.emitted) == Expected(w, limits, count, so.executions)
    ensures var ran := RunTools(w, limits, turn, count, so, calls);
            if ran.stop.None? then Outcomes(ran.emitted) == Expected(w, limits, count, ran.executions)
            else ran.stop.value == Failed(turn, LoopAborted) && Reported(w, limits, count, ran.emitted + [ran.stop.value], ran.executions)
    decreases |calls|
  {
    hide RunTool, Outcomes, Expected, Reported;
    if calls != [] {
      ToolReported(w, limits, turn, count, so, calls[0]);
      var next := RunTool(w, limits, turn, count, so, calls[0]);
      if next.stop.None? {
        ToolsReported(w, limits, turn, count, next, calls[1..]);
      }
    }
  }

  lemma ReportedInFront(w: AgentLoop.World, limits: Limits, count: nat, said: seq<LoopEvent>, events: seq<LoopEvent>, executions: seq<ToolCallRecord>)
    requires (forall i :: 0 <= i < |said| ==> !said[i].ExecutionDone?) && Reported(w, limits, count, events, executions) && events != []
    ensures Reported(w, limits, count, said + events, executions)
  {
    hide Outcomes, Expected;
    NoOutcome(said);
    OutcomesAppend(said, events);
    assert [] + Outcomes(events) == Outcomes(events);
    assert (said + events)[|said + events| - 1] == events[|events| - 1];
  }

  lemma ReportedMore(
      w: AgentLoop.World, limits: Limits, count: nat, ran: seq<LoopEvent>, done: seq<ToolCallRecord>, events: seq<LoopEvent>, executions: seq<ToolCallRecord>)
    requires Outcomes(ran) == Expected(w, limits, count, done)
    requires Reported(w, limits, count + |done|, events, executions) && events != []
    ensures Reported(w, limits, count, ran + events, done + executions)
  {
    hide Outcomes;
    OutcomesAppend(ran, events);
    var later := Expected(w, limits, count + |done|, executions);
    assert Expected(w, limits, count, done + executions) == Expected(w, limits, count, done) + later;
    assert (ran + events)[|ran + events| - 1] == events[|events| - 1];
    if Outcomes(events) != later {
      var front := Expected(w, limits, count, done);
      assert (front + later)[..|front + later| - 1] == front + later[..|later| - 1];
    }
  }

  lemma {:induction false} LoopReported(w: AgentLoop.World, limits: Limits, r: Request, at: Standing)
    requires at.turn < limits.maxTurns
    ensures var log := Loop(w, limits, r, at); log.events != [] && Reported(w, limits, at.count, log.events, log.executions)
    decreases limits.maxTurns - at.turn
  {
    hide ReadTurn, RunTools, CoreRun, Loop, TurnVerdict, Reported, NextMessages, Seen, Executions, Expected, Outcomes;
    LoopStep(w, limits, r, at);
    if w.aborted(at.checks) {
      NothingToReport(w, limits, at.count, [Failed(at.turn, LoopAborted)]);
    } else {
      var request := r.(messages := at.messages);
      var reading := TurnReading(w, r, at);
      NothingSpoken(at.turn);
      ReadSpeaks(w, at.turn, at.seen, FRESH.(checks := at.checks + 1), CoreRun(request, w.gateway(at.turn, request)));
      var said := [TurnStarted(at.turn)] + reading.emitted;
      var verdict := TurnVerdict(w, limits, r, at.turn, reading);
      if verdict.Some? {
        VerdictMeans(w, limits, r, at.turn, reading);
        NothingToReport(w, limits, at.count, said + [verdict.value]);
      } else {
        VerdictMeans(w, limits, r, at.turn, reading);
        var idle := IDLE.(checks := reading.checks + 1);
        var ran := RunTools(w, limits, at.turn, at.count, idle, reading.calls);
        NothingToReport(w, limits, at.count, []);
        ToolsReported(w, limits, at.turn, at.count, idle, reading.calls);
        if ran.stop.Some? {
          ReportedInFront(w, limits, at.count, said, ran.emitted + [ran.stop.value], ran.executions);
          assert said + (ran.emitted + [ran.stop.value]) == said + ran.emitted + [ran.stop.value];
        } else {
          var next := Standing(at.turn + 1, NextMessages(at, reading, ran), Seen(at.seen, reading.calls), ran.checks, at.count + |ran.executions|);
          LoopReported(w, limits, r, next);
          var rest := Loop(w, limits, r, next);
          ReportedMore(w, limits, at.count, ran.emitted, ran.executions, rest.events, rest.executions);
          ReportedInFront(w, limits, at.count, said, ran.emitted + rest.events, ran.executions + rest.executions);
          assert said + (ran.emitted + rest.events) == (said + ran.emitted) + rest.events;
        }
      }
    }
  }

  lemma NothingToReport(w: AgentLoop.World, limits: Limits, count: nat, events: seq<LoopEvent>)
    requires forall i :: 0 <= i < |events| ==> !events[i].ExecutionDone?
    ensures Reported(w, limits, count, events, []) && Outcomes(events) == [] && Expected(w, limits, count, []) == []
  {
    NoOutcome(events);
  }

  /**
   The tools a run reports as done are those it executed, in order, each with the
   outcome its answer calls for; only an abort can leave the last one unreported.
   */
  lemma OutcomesAreReported(w: AgentLoop.World, limits: Limits, r: Request)
    requires limits.maxTurns >= 1
    ensures var log := AgentLoop.Run(w, limits, r); Reported(w, limits, 0, log.events, log.executions)
  {
    hide Loop, HistoryIds, Reported;
    if w.aborted(0) {
      NothingToReport(w, limits, 0, [Failed(0, LoopAborted)]);
    } else {
      LoopReported(w, limits, r, Standing(0, r.messages, HistoryIds(r.messages), 1, 0));
    }
  }
}
