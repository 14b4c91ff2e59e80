/** What every run of the loop keeps: the history, the budgets, the batches, the shape of the trace. */
module LoopProperties {
  import opened Base
  import opened Events
  import opened Requests
  import opened AgentLoop

  // ----- what one turn reads -----

  predicate ObjectCalls(events: seq<CoreEvent>) {
    forall i :: 0 <= i < |events| && events[i].Model? && events[i].event.ToolCall? ==> events[i].event.input.Obj?
  }

  lemma {:induction false} ReadCalls(w: World, turn: nat, seen: set<string>, so: Reading, events: seq<CoreEvent>)
    requires NewCalls(so.calls, seen)
    ensures var reading := ReadTurn(w, turn, seen, so, events);
            && NewCalls(reading.calls, seen)
            && (ObjectCalls(events) && AllObjects(so.calls) ==> AllObjects(reading.calls))
    decreases |events|
  {
    hide IsJson;
    if !w.aborted(so.checks) && events != [] {
      var begun := so.(checks := so.checks + 1);
      var next := Read(turn, seen, begun, events[0]);
      ReadOne(turn, seen, begun, events[0]);
      if next.stop.None? {
        ReadCalls(w, turn, seen, next, events[1..]);
      }
    }
  }

  lemma ReadOne(turn: nat, seen: set<string>, so: Reading, event: CoreEvent)
    requires NewCalls(so.calls, seen)
    ensures NewCalls(Read(turn, seen, so, event).calls, seen)
  {
    hide IsJson;
    if event.Model? && event.event.ToolCall? {
      var e := event.event;
      if CallProblem(e.id, e.name, e.input, Seen(seen, so.calls)).None? {
        forall i | 0 <= i < |so.calls|
          ensures so.calls[i].id != e.id
        {
          assert so.calls[i] in so.calls;
        }
      }
    }
  }

  /** A batch that ran to the end has executed every call and holds its results. */
  lemma {:induction false} ToolsAnswer(w: AgentLoop.World, limits: Limits, turn: nat, count: nat, so: Executed, done: seq<ToolCallRecord>, calls: seq<ToolCallRecord>)
    requires so.stop.None? && Answers(so.results, done) && so.executions == done
    ensures var ran := RunTools(w, limits, turn, count, so, calls);
            && ran.executions <= done + calls
            && (ran.stop.None? ==> Answers(ran.results, done + calls) && ran.executions == done + calls)
    decreases |calls|
  {
    hide Classify;
    if calls == [] {
      assert done + calls == done;
    } else {
      var next := RunTool(w, limits, turn, count, so, calls[0]);
      assert (done + [calls[0]]) + calls[1..] == done + calls;
      if next.stop.None? {
        ToolsAnswer(w, limits, turn, count, next, done + [calls[0]], calls[1..]);
      }
    }
  }

  lemma BatchAnswers(w: AgentLoop.World, limits: Limits, turn: nat, count: nat, checks: nat, calls: seq<ToolCallRecord>)
    ensures var ran := RunTools(w, limits, turn, count, IDLE.(checks := checks), calls);
            && ran.executions <= calls
            && (ran.stop.None? ==> Answers(ran.results, calls) && ran.executions == calls)
  {
    ToolsAnswer(w, limits, turn, count, IDLE.(checks := checks), [], calls);
    assert [] + calls == calls;
  }

  // ----- the layer below -----

  predicate CoreTerminal(e: CoreEvent) {
    e.Model? && e.event.Terminal()
  }

  /** One terminal event, at the end. */
  predicate CoreEndsOnce(events: seq<CoreEvent>) {
    && events != [] && CoreTerminal(events[|events| - 1])
    && forall i :: 0 <= i < |events| - 1 ==> !CoreTerminal(events[i])
  }

  /** The five codes an adapter reports. */
  predicate KnownCode(code: ErrorCode) {
    code in {Aborted, ProviderProtocolError, UpstreamUnavailable, RateLimited, GatewayError}
  }

  /**
   Agent Core answers an invalid request by one error. For a valid one it
   names the route first and passes every event of the gateway on, but for an error
   of an unknown code, which becomes `gateway_error`, as does an exception. So it ends
   in exactly one terminal event if and only if the gateway does, or throws before any.
   */
  lemma CoreTrace(r: Request, run: GatewayRun)
    ensures var events, n := CoreRun(r, run), |run.events|;
            && (!ValidRequest(r) ==> |events| == 1 && events[0].Model? && events[0].event.Error? && !events[0].event.retryable)
            && (ValidRequest(r) ==>
                  && |events| == 1 + n + (if run.throws then 1 else 0)
                  && events[0] == RouteSelected(r.routeId, r.model)
                  && (forall i :: 0 <= i < n ==>
                        if run.events[i].Error? && !KnownCode(run.events[i].code)
                        then events[i + 1] == Model(Error(GatewayError, run.events[i].retryable))
                        else events[i + 1] == Model(run.events[i]))
                  && (run.throws ==> events[n + 1] == Model(Error(GatewayError, false))))
            && (CoreEndsOnce(events) <==> !ValidRequest(r) || if run.throws then NoTerminal(run.events) else OneTerminalAtEnd(run.events))
  {
    hide ValidRequest;
    if ValidRequest(r) {
      var events, n := CoreRun(r, run), |run.events|;
      assert forall i :: 0 <= i < n ==> events[i + 1] == Model(Sanitize(run.events[i]));
      assert forall i :: 0 <= i < n ==> (CoreTerminal(events[i + 1]) <==> run.events[i].Terminal());
      assert |events| == 1 + n + if run.throws then 1 else 0;
      if CoreEndsOnce(events) {
        forall i | 0 <= i < n && (run.throws || i < n - 1)
          ensures !run.events[i].Terminal()
        {
          assert !CoreTerminal(events[i + 1]);
        }
      }
    }
  }

  // ----- the history -----

  /** The gateway gives tool inputs as objects, as both decoders do. */
  ghost predicate ObjectWorld(w: AgentLoop.World) {
    forall turn, r, i :: 0 <= i < |w.gateway(turn, r).events| && w.gateway(turn, r).events[i].ToolCall? ==>
      w.gateway(turn, r).events[i].input.Obj?
  }

  lemma CoreKeepsObjects(w: AgentLoop.World, turn: nat, r: Request)
    requires ObjectWorld(w)
    ensures ObjectCalls(CoreRun(r, w.gateway(turn, r)))
  {
    hide ValidRequest;
    var events, run := CoreRun(r, w.gateway(turn, r)), w.gateway(turn, r);
    forall i | 0 <= i < |events| && events[i].Model? && events[i].event.ToolCall?
      ensures events[i].event.input.Obj?
    {
      assert events[i] == SanitizeAll(run.events)[i - 1];
      assert run.events[i - 1].ToolCall?;
    }
  }

  predicate AllAccepted(requests: seq<Request>) {
    forall i :: 0 <= i < |requests| ==> AdapterAccepts(requests[i])
  }

  lemma AcceptedFirst(request: Request, rest: seq<Request>)
    requires AdapterAccepts(request) && AllAccepted(rest)
    ensures AllAccepted([request] + rest) && AllAccepted([request])
  {
    hide AdapterAccepts;
  }

  /** After a turn that goes on, the next request is accepted and the ids are those of its history. */
  lemma TurnKeepsHistory(w: AgentLoop.World, limits: Limits, r: Request, at: Standing)
    requires at.turn < limits.maxTurns && ObjectWorld(w)
    requires AdapterAccepts(r.(messages := at.messages)) && at.seen == HistoryIds(at.messages)
    requires TurnVerdict(w, limits, r, at.turn, TurnReading(w, r, at)).None?
    ensures var reading := TurnReading(w, r, at);
            var ran := RunTools(w, limits, at.turn, at.count, IDLE.(checks := reading.checks + 1), reading.calls);
            ran.stop.None? ==>
              && AdapterAccepts(r.(messages := NextMessages(at, reading, ran)))
              && Seen(at.seen, reading.calls) == HistoryIds(NextMessages(at, reading, ran))
  {
    hide AdapterAccepts;
    hide ReadTurn;
    hide RunTools;
    hide CoreRun;
    hide HistoryIds;
    hide NewCalls;
    var request := r.(messages := at.messages);
    var reading := TurnReading(w, r, at);
    CoreKeepsObjects(w, at.turn, request);
    NoCallsAreNew(at.seen);
    ReadCalls(w, at.turn, at.seen, FRESH.(checks := at.checks + 1), CoreRun(request, w.gateway(at.turn, request)));
    var ran := RunTools(w, limits, at.turn, at.count, IDLE.(checks := reading.checks + 1), reading.calls);
    BatchAnswers(w, limits, at.turn, at.count, reading.checks + 1, reading.calls);
    if ran.stop.None? {
      NextRequestAccepted(r, at.messages, reading.text, reading.calls, ran.results);
    }
  }

  lemma {:induction false} LoopKeepsHistory(w: AgentLoop.World, limits: Limits, r: Request, at: Standing)
    requires at.turn < limits.maxTurns && ObjectWorld(w)
    requires AdapterAccepts(r.(messages := at.messages)) && at.seen == HistoryIds(at.messages)
    ensures AllAccepted(Loop(w, limits, r, at).requests)
    decreases limits.maxTurns - at.turn
  {
    hide AdapterAccepts;
    hide AllAccepted;
    hide TurnReading;
    hide RunTools;
    hide HistoryIds;
    hide IdsOf;
    hide NextMessages;
    hide ObjectWorld;
    LoopStep(w, limits, r, at);
    if w.aborted(at.checks) {
      NoneAccepted();
    } else {
      var request := r.(messages := at.messages);
      var reading := TurnReading(w, r, at);
      NoneAccepted();
      AcceptedFirst(request, []);
      if TurnVerdict(w, limits, r, at.turn, reading).None? {
        var ran := RunTools(w, limits, at.turn, at.count, IDLE.(checks := reading.checks + 1), reading.calls);
        TurnKeepsHistory(w, limits, r, at);
        if ran.stop.None? {
          var next := Standing(at.turn + 1, NextMessages(at, reading, ran), Seen(at.seen, reading.calls), ran.checks, at.count + |ran.executions|);
          LoopKeepsHistory(w, limits, r, next);
          AcceptedFirst(request, Loop(w, limits, r, next).requests);
        }
      }
    }
  }

  lemma NoneAccepted()
    ensures AllAccepted([])
  {}

  lemma NoCallsAreNew(seen: set<string>)
    ensures NewCalls([], seen)
  {}

  /**
   If the caller's request is inside the subset both adapters express, every
   request of every turn is: no encoder can refuse what the loop has built.
   */
  lemma HistoryPreserved(w: AgentLoop.World, limits: Limits, r: Request)
    requires limits.maxTurns >= 1 && AdapterAccepts(r) && ObjectWorld(w)
    ensures AllAccepted(Run(w, limits, r).requests)
  {
    hide AdapterAccepts;
    hide Loop;
    hide HistoryIds;
    if w.aborted(0) {
      NoneAccepted();
    } else {
      assert r.(messages := r.messages) == r;
      LoopKeepsHistory(w, limits, r, Standing(0, r.messages, HistoryIds(r.messages), 1, 0));
    }
  }

  // ----- budgets -----

  predicate DistinctIds(calls: seq<ToolCallRecord>) {
    forall i, j :: 0 <= i < j < |calls| ==> calls[i].id != calls[j].id
  }

  /** Requests and executions left, from the start of a turn. */
  ghost predicate WithinBudget(limits: Limits, at: Standing, log: Log) {
    && |log.requests| <= limits.maxTurns - at.turn
    && |log.executions| <= (limits.maxTurns - 1 - at.turn) * limits.maxToolCallsPerTurn
    && DistinctIds(log.executions)
    && forall i :: 0 <= i < |log.executions| ==> log.executions[i].id !in at.seen
  }

  lemma BudgetStep(limits: Limits, at: Standing, calls: seq<ToolCallRecord>, events: seq<LoopEvent>, request: Request, next: Standing, log: Log)
    requires at.turn + 1 < limits.maxTurns && next.turn == at.turn + 1 && next.seen == Seen(at.seen, calls)
    requires WithinBudget(limits, next, log) && NewCalls(calls, at.seen) && |calls| <= limits.maxToolCallsPerTurn
    ensures WithinBudget(limits, at, log.After(events, [request], calls))
  {
    hide IsJson;
    var left, cap := limits.maxTurns - 1 - at.turn, limits.maxToolCallsPerTurn;
    assert left * cap == cap + (left - 1) * cap;
    var all := calls + log.executions;
    forall i, j | 0 <= i < j < |all|
      ensures all[i].id != all[j].id
    {
      if i < |calls| <= j {
        assert calls[i] in calls;
        assert calls[i].id in Seen(at.seen, calls);
        assert log.executions[j - |calls|].id !in next.seen;
      }
    }
    forall i | 0 <= i < |all|
      ensures all[i].id !in at.seen
    {
      if i >= |calls| {
        assert log.executions[i - |calls|].id !in next.seen;
      }
    }
  }

  lemma BudgetStop(limits: Limits, at: Standing, calls: seq<ToolCallRecord>, events: seq<LoopEvent>, request: Request, executions: seq<ToolCallRecord>)
    requires executions == [] || at.turn + 1 < limits.maxTurns
    requires at.turn < limits.maxTurns && executions <= calls && NewCalls(calls, at.seen)
    requires executions == [] || |calls| <= limits.maxToolCallsPerTurn
    ensures WithinBudget(limits, at, Log(events, [request], executions))
  {
    hide IsJson;
    var left, cap := limits.maxTurns - 1 - at.turn, limits.maxToolCallsPerTurn;
    if executions == [] {
      assert 0 <= left * cap;
    } else {
      assert left * cap == cap + (left - 1) * cap;
      assert 0 <= (left - 1) * cap;
    }
  }

  lemma {:induction false} LoopWithinBudget(w: AgentLoop.World, limits: Limits, r: Request, at: Standing)
    requires at.turn < limits.maxTurns
    ensures WithinBudget(limits, at, Loop(w, limits, r, at))
    decreases limits.maxTurns - at.turn
  {
    hide ReadTurn;
    hide RunTools;
    hide CoreRun;
    hide IdsOf;
    hide NewCalls;
    hide WithinBudget;
    LoopStep(w, limits, r, at);
    if w.aborted(at.checks) {
      NoBudgetUsed(limits, at, Failed(at.turn, LoopAborted));
    } else {
      var request := r.(messages := at.messages);
      var reading := TurnReading(w, r, at);
      NoCallsAreNew(at.seen);
      ReadCalls(w, at.turn, at.seen, FRESH.(checks := at.checks + 1), CoreRun(request, w.gateway(at.turn, request)));
      var said := [TurnStarted(at.turn)] + reading.emitted;
      var verdict := TurnVerdict(w, limits, r, at.turn, reading);
      if verdict.Some? {
        BudgetStop(limits, at, reading.calls, said + [verdict.value], request, []);
      } else {
        var ran := RunTools(w, limits, at.turn, at.count, IDLE.(checks := reading.checks + 1), reading.calls);
        BatchAnswers(w, limits, at.turn, at.count, reading.checks + 1, reading.calls);
        if ran.stop.Some? {
          BudgetStop(limits, at, reading.calls, said + ran.emitted + [ran.stop.value], request, ran.executions);
        } else {
          var next := Standing(at.turn + 1, NextMessages(at, reading, ran), Seen(at.seen, reading.calls), ran.checks, at.count + |ran.executions|);
          LoopWithinBudget(w, limits, r, next);
          BudgetStep(limits, at, reading.calls, said + ran.emitted, request, next, Loop(w, limits, r, next));
        }
      }
    }
  }

  lemma NoBudgetUsed(limits: Limits, at: Standing, e: LoopEvent)
    requires at.turn < limits.maxTurns
    ensures WithinBudget(limits, at, Log([e], [], []))
  {
    NotNegative(limits.maxTurns - 1 - at.turn, limits.maxToolCallsPerTurn);
  }

  lemma NotNegative(a: nat, b: nat)
    ensures 0 <= a * b
  {}

  /**
   At most maxTurns requests and (maxTurns - 1) * maxToolCallsPerTurn executions,
   and no tool-call id is executed twice, nor one the caller's history holds.
   */
  lemma RunWithinBudget(w: AgentLoop.World, limits: Limits, r: Request)
    requires limits.maxTurns >= 1
    ensures var log := Run(w, limits, r);
            && |log.requests| <= limits.maxTurns
            && |log.executions| <= (limits.maxTurns - 1) * limits.maxToolCallsPerTurn
            && DistinctIds(log.executions)
            && forall i :: 0 <= i < |log.executions| ==> log.executions[i].id !in HistoryIds(r.messages)
  {
    hide Loop;
    hide HistoryIds;
    if w.aborted(0) {
      assert 0 <= (limits.maxTurns - 1) * limits.maxToolCallsPerTurn;
    } else {
      LoopWithinBudget(w, limits, r, Standing(0, r.messages, HistoryIds(r.messages), 1, 0));
    }
  }

  // ----- the trace -----

  predicate Quiet(events: seq<LoopEvent>) {
    forall i :: 0 <= i < |events| ==> !events[i].Terminal()
  }

  /** One terminal event, at the end. */
  predicate EndsOnce(events: seq<LoopEvent>) {
    events != [] && events[|events| - 1].Terminal() && Quiet(events[..|events| - 1])
  }

  function TurnOf(e: LoopEvent): nat {
    match e
    case TurnStarted(t) => t
    case LoopRoute(t, _, _) => t
    case LoopText(t, _) => t
    case LoopCall(t, _, _, _) => t
    case LoopUsage(t, _, _) => t
    case ExecutionStarted(t, _, _) => t
    case ExecutionDone(t, _, _) => t
    case TurnCompleted(t) => t
    case LoopCompleted(turns) => turns
    case LoopError(t, _, _) => t
  }

  /** What the model said in a turn: no terminal event, no execution, and only calls that were recorded. */
  ghost predicate Spoken(turn: nat, emitted: seq<LoopEvent>, calls: seq<ToolCallRecord>) {
    forall i :: 0 <= i < |emitted| ==>
      && !emitted[i].Terminal() && TurnOf(emitted[i]) == turn
      && !emitted[i].ExecutionStarted? && !emitted[i].ExecutionDone?
      && (emitted[i].LoopCall? ==> ToolCallRecord(emitted[i].id, emitted[i].name, emitted[i].input) in calls)
  }

  lemma {:induction false} ReadSpeaks(w: AgentLoop.World, turn: nat, seen: set<string>, so: Reading, events: seq<CoreEvent>)
    requires so.stop.None? && Spoken(turn, so.emitted, so.calls)
    ensures var reading := ReadTurn(w, turn, seen, so, events);
            && Spoken(turn, reading.emitted, reading.calls)
            && (reading.stop.Some? ==> reading.stop.value.LoopError? && reading.stop.value.turn == turn)
    decreases |events|
  {
    hide CallProblem;
    if !w.aborted(so.checks) && events != [] {
      var begun := so.(checks := so.checks + 1);
      var next := Read(turn, seen, begun, events[0]);
      assert forall c :: c in so.calls ==> c in next.calls;
      if next.stop.None? {
        ReadSpeaks(w, turn, seen, next, events[1..]);
      }
    }
  }

  /** Tools only report executions of their own turn. */
  ghost predicate Executions(turn: nat, emitted: seq<LoopEvent>) {
    forall i :: 0 <= i < |emitted| ==> (emitted[i].ExecutionStarted? || emitted[i].ExecutionDone?) && TurnOf(emitted[i]) == turn
  }

  lemma {:induction false} ToolsReport(w: AgentLoop.World, limits: Limits, turn: nat, count: nat, so: Executed, calls: seq<ToolCallRecord>)
    requires so.stop.None? && Executions(turn, so.emitted)
    ensures var ran := RunTools(w, limits, turn, count, so, calls);
            && Executions(turn, ran.emitted)
            && (ran.stop.Some? ==> ran.stop.value == Failed(turn, LoopAborted))
    decreases |calls|
  {
    hide Classify;
    if calls != [] {
      var next := RunTool(w, limits, turn, count, so, calls[0]);
      if next.stop.None? {
        ToolsReport(w, limits, turn, count, next, calls[1..]);
      }
    }
  }

  /** From a turn on: one terminal event, turns in order, and no tool started before a call of its turn, or one of an unknown tool. */
  ghost predicate WellTraced(r: Request, from: nat, events: seq<LoopEvent>) {
    && EndsOnce(events)
    && (forall i :: 0 <= i < |events| ==> TurnOf(events[i]) >= from)
    && (forall i, j :: 0 <= i < j < |events| ==> TurnOf(events[i]) <= TurnOf(events[j]))
    && (forall i, j :: 0 <= i < |events| && 0 <= j < |events| && events[i].ExecutionStarted? && events[j].LoopCall?
                       && events[i].turn == events[j].turn ==>
          j < i && events[j].name in ToolNames(r))
  }

  lemma StoppedTrace(r: Request, turn: nat, spoken: seq<LoopEvent>, calls: seq<ToolCallRecord>, ran: seq<LoopEvent>, stop: LoopEvent)
    requires Spoken(turn, spoken, calls) && Executions(turn, ran) && stop.Terminal() && TurnOf(stop) >= turn
    requires ran != [] ==> forall c :: c in calls ==> c.name in ToolNames(r)
    ensures WellTraced(r, turn, [TurnStarted(turn)] + spoken + ran + [stop])
  {
    var events := [TurnStarted(turn)] + spoken + ran + [stop];
    var quiet := [TurnStarted(turn)] + spoken + ran;
    assert events[..|events| - 1] == quiet;
    forall i | 0 <= i < |quiet|
      ensures !quiet[i].Terminal() && TurnOf(quiet[i]) == turn
      ensures quiet[i].ExecutionStarted? ==> i >= 1 + |spoken|
      ensures quiet[i].LoopCall? ==> i < 1 + |spoken| && (ran != [] ==> quiet[i].name in ToolNames(r))
    {
      if 0 < i < 1 + |spoken| {
        assert quiet[i] == spoken[i - 1];
      } else if i >= 1 + |spoken| {
        assert quiet[i] == ran[i - 1 - |spoken|];
      }
    }
  }

  lemma ContinuedTrace(r: Request, turn: nat, spoken: seq<LoopEvent>, calls: seq<ToolCallRecord>, ran: seq<LoopEvent>, rest: seq<LoopEvent>)
    requires Spoken(turn, spoken, calls) && Executions(turn, ran) && WellTraced(r, turn + 1, rest)
    requires forall c :: c in calls ==> c.name in ToolNames(r)
    ensures WellTraced(r, turn, [TurnStarted(turn)] + spoken + ran + rest)
  {
    var quiet := [TurnStarted(turn)] + spoken + ran;
    var events := quiet + rest;
    forall i | 0 <= i < |quiet|
      ensures !quiet[i].Terminal() && TurnOf(quiet[i]) == turn
      ensures quiet[i].ExecutionStarted? ==> i >= 1 + |spoken|
      ensures quiet[i].LoopCall? ==> i < 1 + |spoken| && quiet[i].name in ToolNames(r)
    {
      if 0 < i < 1 + |spoken| {
        assert quiet[i] == spoken[i - 1];
      } else if i >= 1 + |spoken| {
        assert quiet[i] == ran[i - 1 - |spoken|];
      }
    }
    assert events[..|events| - 1] == quiet + rest[..|rest| - 1];
    forall i | 0 <= i < |events|
      ensures i < |quiet| ==> TurnOf(events[i]) == turn
      ensures i >= |quiet| ==> events[i] == rest[i - |quiet|] && TurnOf(events[i]) > turn
    {
    }
  }

  lemma {:induction false} LoopTrace(w: AgentLoop.World, limits: Limits, r: Request, at: Standing)
    requires at.turn < limits.maxTurns
    ensures WellTraced(r, at.turn, Loop(w, limits, r, at).events)
    decreases limits.maxTurns - at.turn
  {
    hide ReadTurn;
    hide RunTools;
    hide CoreRun;
    hide WellTraced;
    hide TurnVerdict;
    hide Loop;
    hide Spoken;
    hide Executions;
    NothingSpoken(at.turn);
    LoopStep(w, limits, r, at);
    if w.aborted(at.checks) {
      SoleEvent(r, at.turn, Failed(at.turn, LoopAborted));
    } else {
      var request := r.(messages := at.messages);
      var reading := TurnReading(w, r, at);
      ReadSpeaks(w, at.turn, at.seen, FRESH.(checks := at.checks + 1), CoreRun(request, w.gateway(at.turn, request)));
      var said := [TurnStarted(at.turn)] + reading.emitted;
      var verdict := TurnVerdict(w, limits, r, at.turn, reading);
      VerdictMeans(w, limits, r, at.turn, reading);
      if verdict.Some? {
        StoppedTrace(r, at.turn, reading.emitted, reading.calls, [], verdict.value);
        assert said + [] == said;
      } else {
        var ran := RunTools(w, limits, at.turn, at.count, IDLE.(checks := reading.checks + 1), reading.calls);
        ToolsReport(w, limits, at.turn, at.count, IDLE.(checks := reading.checks + 1), reading.calls);
        if ran.stop.Some? {
          StoppedTrace(r, at.turn, reading.emitted, reading.calls, ran.emitted, ran.stop.value);
        } else {
          var next := Standing(at.turn + 1, NextMessages(at, reading, ran), Seen(at.seen, reading.calls), ran.checks, at.count + |ran.executions|);
          LoopTrace(w, limits, r, next);
          ContinuedTrace(r, at.turn, reading.emitted, reading.calls, ran.emitted, Loop(w, limits, r, next).events);
        }
      }
    }
  }

  lemma NothingSpoken(turn: nat)
    ensures Spoken(turn, [], []) && Executions(turn, [])
  {}

  /** A verdict ends the run; without one all calls are of known tools. */
  lemma VerdictMeans(w: AgentLoop.World, limits: Limits, r: Request, turn: nat, reading: Reading)
    requires reading.stop.Some? ==> reading.stop.value.LoopError? && reading.stop.value.turn == turn
    ensures var verdict := TurnVerdict(w, limits, r, turn, reading);
            if verdict.Some? then verdict.value.Terminal() && TurnOf(verdict.value) >= turn
            else reading.stop.None? && turn + 1 < limits.maxTurns && forall c :: c in reading.calls ==> c.name in ToolNames(r)
  {}

  lemma SoleEvent(r: Request, from: nat, e: LoopEvent)
    requires e.Terminal() && TurnOf(e) >= from
    ensures WellTraced(r, from, [e])
  {
    assert [e][..0] == [];
  }

  /** Every run ends in one terminal event, never goes back to an earlier turn, and starts its tools behind their turn's calls. */
  lemma RunTrace(w: AgentLoop.World, limits: Limits, r: Request)
    requires limits.maxTurns >= 1
    ensures WellTraced(r, 0, Run(w, limits, r).events)
  {
    hide Loop;
    hide WellTraced;
    if w.aborted(0) {
      SoleEvent(r, 0, Failed(0, LoopAborted));
    } else {
      LoopTrace(w, limits, r, Standing(0, r.messages, HistoryIds(r.messages), 1, 0));
    }
  }
}
