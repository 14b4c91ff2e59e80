/**
 The bounded multi-turn loop: ask the model, run the tools it calls, append the
 exchange to the history, ask again.

 `aborted(k)` answers the k-th question about cancellation, asked directly or by
 racing a wait against the signal. Any function is allowed, so whatever is
 proved holds for every timing of an abort.
 */
module AgentLoop {
  import opened Base
  import opened Events
  import opened Requests

  // ----- Agent Core -----

  /** What Agent Core hands to the loop: the chosen route, then sanitized model events. */
  datatype CoreEvent = RouteSelected(routeId: string, model: string) | Model(event: ModelEvent)

  /** A gateway stream; `throws` is an exception after the events. */
  datatype GatewayRun = GatewayRun(events: seq<ModelEvent>, throws: bool)

  /** Only the five known codes get through. */
  function Sanitize(e: ModelEvent): ModelEvent {
    if e.Error? && e.code.OtherCode? then Error(GatewayError, e.retryable) else e
  }

  function SanitizeAll(events: seq<ModelEvent>): seq<CoreEvent> {
    seq(|events|, i requires 0 <= i < |events| => Model(Sanitize(events[i])))
  }

  function CoreRun(r: Request, run: GatewayRun): seq<CoreEvent> {
    if !ValidRequest(r) then [Model(Error(OtherCode("invalid_request"), false))]
    else
      [RouteSelected(r.routeId, r.model)] + SanitizeAll(run.events) +
      if run.throws then [Model(Error(GatewayError, false))] else []
  }

  // ----- events of the loop -----

  datatype LoopCode =
    | FromGateway(code: ErrorCode)
    | LoopAborted
    | ToolExecutionUnavailable
    | UnknownTool
    | InvalidToolCall
    | DuplicateToolCallId
    | TooManyToolCalls
    | MaxTurnsExceeded
    | IncompleteModelResponse

  datatype LoopEvent =
    | TurnStarted(turn: nat)
    | LoopRoute(turn: nat, routeId: string, model: string)
    | LoopText(turn: nat, text: string)
    | LoopCall(turn: nat, id: string, name: string, input: Json)
    | LoopUsage(turn: nat, inputTokens: nat, outputTokens: nat)
    | ExecutionStarted(turn: nat, id: string, name: string)
    | ExecutionDone(turn: nat, id: string, isError: bool)
    | TurnCompleted(turn: nat)
    | LoopCompleted(turns: nat)
    | LoopError(turn: nat, error: LoopCode, retryable: bool)
  {
    predicate Terminal() { LoopCompleted? || LoopError? }
  }

  function Failed(turn: nat, code: LoopCode): LoopEvent {
    LoopError(turn, code, false)
  }

  /** What an executor produced: something unusable, or a content with an optional flag. */
  datatype RawResult = Unusable | Usable(content: string, isError: Option<bool>)

  datatype Limits = Limits(maxTurns: nat, maxToolCallsPerTurn: nat, maxToolResultBytes: nat)

  /** Everything outside the loop. */
  datatype World = World(
    gateway: (nat, Request) -> GatewayRun,
    hasExecutor: bool,
    execute: (nat, ToolCallRecord) -> RawResult,
    utf8: string -> nat,
    aborted: nat -> bool)

  const TOOL_FAILURE_CONTENT := "Tool execution failed."

  // ----- reading one turn -----

  /** What a turn said, how many abort checks it took, and the event that ended the run early. */
  datatype Reading = Reading(
    emitted: seq<LoopEvent>, text: string, calls: seq<ToolCallRecord>, completed: bool,
    stop: Option<LoopEvent>, checks: nat)

  /** `readToolCall`: an unusable call is never repaired. */
  function CallProblem(id: string, name: string, input: Json, seen: set<string>): Option<LoopCode> {
    if id == "" || name == "" || !IsJson(input) then Some(InvalidToolCall)
    else if id in seen then Some(DuplicateToolCallId)
    else None
  }

  function Seen(seen: set<string>, calls: seq<ToolCallRecord>): set<string> {
    seen + IdsOf(calls)
  }

  /** One event of the turn, added to what has been read. */
  function Read(turn: nat, seen: set<string>, so: Reading, event: CoreEvent): Reading {
    match event
    case RouteSelected(routeId, model) => so.(emitted := so.emitted + [LoopRoute(turn, routeId, model)])
    case Model(TextDelta(text)) => so.(emitted := so.emitted + [LoopText(turn, text)], text := so.text + text)
    case Model(Usage(i, o)) => so.(emitted := so.emitted + [LoopUsage(turn, i, o)])
    case Model(Completed) => so.(emitted := so.emitted + [TurnCompleted(turn)], completed := true)
    case Model(Error(code, retryable)) => so.(stop := Some(LoopError(turn, FromGateway(code), retryable)))
    case Model(ToolCall(id, name, input)) =>
      var problem := CallProblem(id, name, input, Seen(seen, so.calls));
      if problem.Some? then so.(stop := Some(Failed(turn, problem.value)))
      else so.(emitted := so.emitted + [LoopCall(turn, id, name, input)], calls := so.calls + [ToolCallRecord(id, name, input)])
  }

  /** The turn, event by event; the signal is asked before each of them and before the end. */
  function ReadTurn(w: World, turn: nat, seen: set<string>, so: Reading, events: seq<CoreEvent>): Reading
    decreases |events|
  {
    if w.aborted(so.checks) then so.(stop := Some(Failed(turn, LoopAborted)), checks := so.checks + 1)
    else if events == [] then so.(checks := so.checks + 1)
    else
      var next := Read(turn, seen, so.(checks := so.checks + 1), events[0]);
      if next.stop.Some? then next else ReadTurn(w, turn, seen, next, events[1..])
  }

  /** Why a finished turn cannot go on to its tools; None when it can. */
  function TurnVerdict(w: World, limits: Limits, r: Request, turn: nat, reading: Reading): Option<LoopEvent> {
    if reading.stop.Some? then reading.stop
    else if w.aborted(reading.checks) then Some(Failed(turn, LoopAborted))
    else if !reading.completed then Some(Failed(turn, IncompleteModelResponse))
    else if reading.calls == [] then Some(LoopCompleted(turn + 1))
    else if |reading.calls| > limits.maxToolCallsPerTurn then Some(Failed(turn, TooManyToolCalls))
    else if !w.hasExecutor then Some(Failed(turn, ToolExecutionUnavailable))
    else if exists c <- reading.calls :: c.name !in ToolNames(r) then Some(Failed(turn, UnknownTool))
    else if turn + 1 >= limits.maxTurns then Some(Failed(turn, MaxTurnsExceeded))
    else None
  }

  function ToolNames(r: Request): set<string> {
    set t | t in r.tools :: t.name
  }

  // ----- running the tools of one turn -----

  datatype Executed = Executed(
    emitted: seq<LoopEvent>, results: seq<Block>, executions: seq<ToolCallRecord>, stop: Option<LoopEvent>, checks: nat)

  /** A malformed, failed or oversized result becomes one fixed failure. */
  function Classify(w: World, limits: Limits, raw: RawResult): (string, bool) {
    if raw.Unusable? || w.utf8(raw.content) > limits.maxToolResultBytes then (TOOL_FAILURE_CONTENT, true)
    else (raw.content, raw.isError == Some(true))
  }

  /** One tool: asked before it starts, before it is invoked, and while it runs. */
  function RunTool(w: World, limits: Limits, turn: nat, count: nat, so: Executed, call: ToolCallRecord): Executed {
    if w.aborted(so.checks) then so.(stop := Some(Failed(turn, LoopAborted)), checks := so.checks + 1)
    else
      var begun := so.(emitted := so.emitted + [ExecutionStarted(turn, call.id, call.name)]);
      if w.aborted(so.checks + 1) then begun.(stop := Some(Failed(turn, LoopAborted)), checks := so.checks + 2)
      else
        var invoked := begun.(executions := so.executions + [call], checks := so.checks + 3);
        if w.aborted(so.checks + 2) then invoked.(stop := Some(Failed(turn, LoopAborted)))
        else
          var (content, isError) := Classify(w, limits, w.execute(count + |so.executions|, call));
          invoked.(
            emitted := begun.emitted + [ExecutionDone(turn, call.id, isError)],
            results := so.results + [Result(call.id, content, if isError then Some(true) else None)])
  }

  function RunTools(w: World, limits: Limits, turn: nat, count: nat, so: Executed, calls: seq<ToolCallRecord>): Executed
    decreases |calls|
  {
    if calls == [] then so
    else
      var next := RunTool(w, limits, turn, count, so, calls[0]);
      if next.stop.Some? then next else RunTools(w, limits, turn, count, next, calls[1..])
  }

  // ----- the loop -----

  /** What a run emits, the requests it sends and the tools it invokes. */
  datatype Log = Log(events: seq<LoopEvent>, requests: seq<Request>, executions: seq<ToolCallRecord>) {
    function After(events': seq<LoopEvent>, requests': seq<Request>, executions': seq<ToolCallRecord>): Log {
      Log(events' + events, requests' + requests, executions' + executions)
    }
  }

  /** Where the loop stands at the start of a turn. */
  datatype Standing = Standing(turn: nat, messages: seq<Message>, seen: set<string>, checks: nat, count: nat)

  const FRESH := Reading([], "", [], false, None, 0)
  const IDLE := Executed([], [], [], None, 0)

  function TurnReading(w: World, r: Request, at: Standing): Reading {
    var request := r.(messages := at.messages);
    ReadTurn(w, at.turn, at.seen, FRESH.(checks := at.checks + 1), CoreRun(request, w.gateway(at.turn, request)))
  }

  function NextMessages(at: Standing, reading: Reading, ran: Executed): seq<Message> {
    at.messages + [AssistantMessage(reading.text, reading.calls), Message(Tool, ran.results)]
  }

  function Loop(w: World, limits: Limits, r: Request, at: Standing): Log
    requires at.turn < limits.maxTurns
    decreases limits.maxTurns - at.turn
  {
    if w.aborted(at.checks) then Log([Failed(at.turn, LoopAborted)], [], [])
    else
      var request := r.(messages := at.messages);
      var reading := TurnReading(w, r, at);
      var said := [TurnStarted(at.turn)] + reading.emitted;
      var verdict := TurnVerdict(w, limits, r, at.turn, reading);
      if verdict.Some? then Log(said + [verdict.value], [request], [])
      else
        var ran := RunTools(w, limits, at.turn, at.count, IDLE.(checks := reading.checks + 1), reading.calls);
        if ran.stop.Some? then Log(said + ran.emitted + [ran.stop.value], [request], ran.executions)
        else
          var next := Standing(at.turn + 1, NextMessages(at, reading, ran), Seen(at.seen, reading.calls), ran.checks, at.count + |ran.executions|);
          Loop(w, limits, r, next).After(said + ran.emitted, [request], ran.executions)
  }

  function Run(w: World, limits: Limits, r: Request): Log
    requires limits.maxTurns >= 1
  {
    if w.aborted(0) then Log([Failed(0, LoopAborted)], [], [])
    else Loop(w, limits, r, Standing(0, r.messages, HistoryIds(r.messages), 1, 0))
  }

  // ----- the loop as the program runs it -----

  method CollectToolCallIds(messages: seq<Message>) returns (ids: set<string>)
    ensures ids == HistoryIds(messages)
  {
    ids := {};
    for i := 0 to |messages|
      invariant ids == HistoryIds(messages[..i])
    {
      var content := messages[i].content;
      assert messages[..i + 1][..i] == messages[..i];
      ghost var before := ids;
      for j := 0 to |content|
        invariant ids == before + BlockIds(content[..j])
      {
        assert content[..j + 1] == content[..j] + [content[j]];
        assert forall b :: b in content[..j + 1] <==> b in content[..j] || b == content[j];
        if content[j].Call? {
          ids := ids + {content[j].id};
        }
        assert BlockIds(content[..j + 1]) == BlockIds(content[..j]) + if content[j].Call? then {content[j].id} else {};
      }
      assert content[..|content|] == content;
    }
    assert messages[..|messages|] == messages;
  }

  /** Reads one turn; `reading.stop` says that the run is over. */
  method ReadModel(w: World, turn: nat, seen: set<string>, checks: nat, events: seq<CoreEvent>) returns (reading: Reading)
    ensures reading == ReadTurn(w, turn, seen, FRESH.(checks := checks), events)
  {
    hide CallProblem;
    hide IdsOf;
    reading := FRESH.(checks := checks);
    var seenToolCallIds := seen;
    ghost var goal := ReadTurn(w, turn, seen, reading, events);
    var i := 0;
    assert events[0..] == events;
    NoNewIds(seen);
    while true
      invariant i <= |events|
      invariant reading.stop.None?
      invariant seenToolCallIds == Seen(seen, reading.calls)
      invariant goal == ReadTurn(w, turn, seen, reading, events[i..])
      decreases |events| - i
    {
      if w.aborted(reading.checks) {
        return reading.(stop := Some(Failed(turn, LoopAborted)), checks := reading.checks + 1);
      }
      reading := reading.(checks := reading.checks + 1);
      if i == |events| {
        return;
      }
      ghost var before := reading;
      match events[i] {
        case RouteSelected(routeId, model) =>
          reading := reading.(emitted := reading.emitted + [LoopRoute(turn, routeId, model)]);
        case Model(TextDelta(text)) =>
          reading := reading.(text := reading.text + text, emitted := reading.emitted + [LoopText(turn, text)]);
        case Model(Usage(inputTokens, outputTokens)) =>
          reading := reading.(emitted := reading.emitted + [LoopUsage(turn, inputTokens, outputTokens)]);
        case Model(Completed) =>
          reading := reading.(completed := true, emitted := reading.emitted + [TurnCompleted(turn)]);
        case Model(Error(code, retryable)) =>
          return reading.(stop := Some(LoopError(turn, FromGateway(code), retryable)));
        case Model(ToolCall(id, name, input)) =>
          var problem := CallProblem(id, name, input, seenToolCallIds);
          if problem.Some? {
            return reading.(stop := Some(Failed(turn, problem.value)));
          }
          OneMoreId(seen, reading.calls, ToolCallRecord(id, name, input));
          seenToolCallIds := seenToolCallIds + {id};
          reading := reading.(
            calls := reading.calls + [ToolCallRecord(id, name, input)],
            emitted := reading.emitted + [LoopCall(turn, id, name, input)]);
      }
      assert reading == Read(turn, seen, before, events[i]);
      assert events[i..][1..] == events[i + 1..];
      i := i + 1;
    }
  }

  lemma NoNewIds(seen: set<string>)
    ensures Seen(seen, []) == seen
  {}

  lemma OneMoreId(seen: set<string>, calls: seq<ToolCallRecord>, call: ToolCallRecord)
    ensures Seen(seen, calls + [call]) == Seen(seen, calls) + {call.id}
  {
    assert forall c :: c in calls + [call] <==> c in calls || c == call;
  }

  /** Runs the tools of one accepted batch, serially and in order. */
  method ExecuteBatch(w: World, limits: Limits, turn: nat, count: nat, checks: nat, calls: seq<ToolCallRecord>) returns (ran: Executed)
    ensures ran == RunTools(w, limits, turn, count, IDLE.(checks := checks), calls)
  {
    hide Classify;
    hide RunTools;
    ran := IDLE.(checks := checks);
    ghost var goal := RunTools(w, limits, turn, count, ran, calls);
    assert calls[0..] == calls;
    var i := 0;
    while i < |calls|
      invariant i <= |calls|
      invariant ran.stop.None?
      invariant goal == RunTools(w, limits, turn, count, ran, calls[i..])
    {
      OneTool(w, limits, turn, count, ran, calls[i..]);
      var call := calls[i];
      ghost var before := ran;
      if w.aborted(ran.checks) {
        return ran.(stop := Some(Failed(turn, LoopAborted)), checks := ran.checks + 1);
      }
      var checks := ran.checks;
      ran := ran.(emitted := ran.emitted + [ExecutionStarted(turn, call.id, call.name)]);
      if w.aborted(checks + 1) {
        return ran.(stop := Some(Failed(turn, LoopAborted)), checks := checks + 2);
      }
      var raw := w.execute(count + |ran.executions|, call);
      ran := ran.(executions := ran.executions + [call], checks := checks + 3);
      if w.aborted(checks + 2) {
        return ran.(stop := Some(Failed(turn, LoopAborted)));
      }
      var (content, isError) := Classify(w, limits, raw);
      ran := ran.(
        emitted := ran.emitted + [ExecutionDone(turn, call.id, isError)],
        results := ran.results + [Result(call.id, content, if isError then Some(true) else None)]);
      assert ran == RunTool(w, limits, turn, count, before, call);
      assert calls[i..][1..] == calls[i + 1..];
      i := i + 1;
    }
    assert calls[i..] == [];
    NoTools(w, limits, turn, count, ran);
  }

  lemma NoTools(w: World, limits: Limits, turn: nat, count: nat, so: Executed)
    ensures RunTools(w, limits, turn, count, so, []) == so
  {}

  lemma OneTool(w: World, limits: Limits, turn: nat, count: nat, so: Executed, calls: seq<ToolCallRecord>)
    requires calls != []
    ensures RunTools(w, limits, turn, count, so, calls) ==
            var next := RunTool(w, limits, turn, count, so, calls[0]);
            if next.stop.Some? then next else RunTools(w, limits, turn, count, next, calls[1..])
  {
    hide RunTool;
  }

  method RunLoop(w: World, limits: Limits, r: Request) returns (log: Log)
    requires limits.maxTurns >= 1
    ensures log == Run(w, limits, r)
  {
    hide Loop;
    hide ReadTurn;
    hide RunTools;
    hide CoreRun;
    hide HistoryIds;
    hide IdsOf;
    hide TurnVerdict;
    hide AssistantMessage;
    if w.aborted(0) {
      return Log([Failed(0, LoopAborted)], [], []);
    }
    var availableTools := set t | t in r.tools :: t.name;
    var seenToolCallIds := CollectToolCallIds(r.messages);
    var messages := r.messages;
    var turn: nat, checks: nat, count: nat := 0, 1, 0;
    var events: seq<LoopEvent>, requests: seq<Request>, executions: seq<ToolCallRecord> := [], [], [];
    ghost var goal := Loop(w, limits, r, Standing(0, messages, seenToolCallIds, 1, 0));
    LogAfterNothing(goal);
    while turn < limits.maxTurns
      invariant turn < limits.maxTurns
      invariant goal == Loop(w, limits, r, Standing(turn, messages, seenToolCallIds, checks, count)).After(events, requests, executions)
      decreases limits.maxTurns - turn
    {
      ghost var at := Standing(turn, messages, seenToolCallIds, checks, count);
      LoopStep(w, limits, r, at);
      if w.aborted(checks) {
        return Log(events + [Failed(turn, LoopAborted)], requests, executions);
      }
      var said := [TurnStarted(turn)];
      var turnRequest := r.(messages := messages);
      var reading := ReadModel(w, turn, seenToolCallIds, checks + 1, CoreRun(turnRequest, w.gateway(turn, turnRequest)));
      said := said + reading.emitted;
      var verdict := Judge(w, limits, r, turn, availableTools, reading);
      if verdict.Some? {
        log := Log(events + (said + [verdict.value]), requests + [turnRequest], executions + []);
        return;
      }
      var ran := ExecuteBatch(w, limits, turn, count, reading.checks + 1, reading.calls);
      said := said + ran.emitted;
      if ran.stop.Some? {
        log := Log(events + (said + [ran.stop.value]), requests + [turnRequest], executions + ran.executions);
        return;
      }
      ghost var next := Standing(turn + 1, NextMessages(at, reading, ran), Seen(at.seen, reading.calls), ran.checks, count + |ran.executions|);
      LogAfterAfter(Loop(w, limits, r, next), said, [turnRequest], ran.executions, events, requests, executions);
      events, requests, executions := events + said, requests + [turnRequest], executions + ran.executions;
      messages := messages + [AssistantMessage(reading.text, reading.calls), Message(Tool, ran.results)];
      seenToolCallIds := Seen(seenToolCallIds, reading.calls);
      checks, count := ran.checks, count + |ran.executions|;
      turn := turn + 1;
    }
    // The budget check inside the loop always fires first.
    assert false;
  }

  /** The checks between the model's answer and its tools. */
  method Judge(w: World, limits: Limits, r: Request, turn: nat, availableTools: set<string>, reading: Reading)
    returns (verdict: Option<LoopEvent>)
    requires availableTools == ToolNames(r)
    ensures verdict == TurnVerdict(w, limits, r, turn, reading)
    ensures verdict.None? ==> turn + 1 < limits.maxTurns
  {
    if reading.stop.Some? {
      return reading.stop;
    }
    if w.aborted(reading.checks) {
      return Some(Failed(turn, LoopAborted));
    }
    if !reading.completed {
      return Some(Failed(turn, IncompleteModelResponse));
    }
    if reading.calls == [] {
      return Some(LoopCompleted(turn + 1));
    }
    if |reading.calls| > limits.maxToolCallsPerTurn {
      return Some(Failed(turn, TooManyToolCalls));
    }
    if !w.hasExecutor {
      return Some(Failed(turn, ToolExecutionUnavailable));
    }
    for i := 0 to |reading.calls|
      invariant forall j :: 0 <= j < i ==> reading.calls[j].name in availableTools
    {
      if reading.calls[i].name !in availableTools {
        return Some(Failed(turn, UnknownTool));
      }
    }
    if turn + 1 >= limits.maxTurns {
      return Some(Failed(turn, MaxTurnsExceeded));
    }
    return None;
  }

  lemma LoopStep(w: World, limits: Limits, r: Request, at: Standing)
    requires at.turn < limits.maxTurns
    ensures Loop(w, limits, r, at) ==
            if w.aborted(at.checks) then Log([Failed(at.turn, LoopAborted)], [], [])
            else
              var request := r.(messages := at.messages);
              var reading := TurnReading(w, r, at);
              var said := [TurnStarted(at.turn)] + reading.emitted;
              var verdict := TurnVerdict(w, limits, r, at.turn, reading);
              if verdict.Some? then Log(said + [verdict.value], [request], [])
              else
                var ran := RunTools(w, limits, at.turn, at.count, IDLE.(checks := reading.checks + 1), reading.calls);
                if ran.stop.Some? then Log(said + ran.emitted + [ran.stop.value], [request], ran.executions)
                else
                  Loop(w, limits, r, Standing(at.turn + 1, NextMessages(at, reading, ran), Seen(at.seen, reading.calls), ran.checks, at.count + |ran.executions|))
                  .After(said + ran.emitted, [request], ran.executions)
  {
    hide TurnReading;
    hide RunTools;
  }

  lemma LogAfterNothing(log: Log)
    ensures log.After([], [], []) == log
  {}

  lemma LogAfterAfter(log: Log, e1: seq<LoopEvent>, r1: seq<Request>, x1: seq<ToolCallRecord>, e0: seq<LoopEvent>, r0: seq<Request>, x0: seq<ToolCallRecord>)
    ensures log.After(e1, r1, x1).After(e0, r0, x0) == log.After(e0 + e1, r0 + r1, x0 + x1)
  {
    assert e0 + (e1 + log.events) == (e0 + e1) + log.events;
    assert r0 + (r1 + log.requests) == (r0 + r1) + log.requests;
    assert x0 + (x1 + log.executions) == (x0 + x1) + log.executions;
  }
}
