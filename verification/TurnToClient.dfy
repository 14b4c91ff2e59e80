/**
 A turn from the loop to the client: what the client reads is what the session
 has stored, exactly when every tool call that is delivered has an object input.
 */
module TurnToClient {
  import opened Base
  import opened Events
  import opened Requests
  import opened LoopProperties
  import opened EventMapper
  import opened EventJson
  import opened TurnDelivery
  import opened NdjsonClient
  import opened Registry
  import AgentLoop
  import Gateway
  import Pipeline

  // ----- the inputs a run announces -----

  /** Every announced input is a JSON value; and an object, if `objects`. */
  predicate InputsOk(objects: bool, events: seq<AgentLoop.LoopEvent>) {
    forall i :: 0 <= i < |events| && events[i].LoopCall? ==> IsJson(events[i].input) && (objects ==> events[i].input.Obj?)
  }

  lemma InputsAppend(objects: bool, a: seq<AgentLoop.LoopEvent>, b: seq<AgentLoop.LoopEvent>)
    requires InputsOk(objects, a) && InputsOk(objects, b)
    ensures InputsOk(objects, a + b)
  {
    hide IsJson;
  }

  lemma TurnInputs(w: AgentLoop.World, r: Request, at: AgentLoop.Standing, objects: bool)
    requires objects ==> ObjectWorld(w)
    ensures InputsOk(objects, AgentLoop.TurnReading(w, r, at).emitted)
  {
    hide IsJson, ObjectWorld;
    hide AgentLoop.ReadTurn, AgentLoop.CoreRun;
    var request := r.(messages := at.messages);
    var events := AgentLoop.CoreRun(request, w.gateway(at.turn, request));
    var begun := AgentLoop.FRESH.(checks := at.checks + 1);
    NothingSpoken(at.turn);
    ReadSpeaks(w, at.turn, at.seen, begun, events);
    ReadCalls(w, at.turn, at.seen, begun, events);
    if objects {
      CoreKeepsObjects(w, at.turn, request);
    }
    var reading := AgentLoop.TurnReading(w, r, at);
    forall i | 0 <= i < |reading.emitted| && reading.emitted[i].LoopCall?
      ensures IsJson(reading.emitted[i].input) && (objects ==> reading.emitted[i].input.Obj?)
    {
      var e := reading.emitted[i];
      assert ToolCallRecord(e.id, e.name, e.input) in reading.calls;
    }
  }

  lemma {:induction false} LoopInputs(w: AgentLoop.World, limits: AgentLoop.Limits, r: Request, at: AgentLoop.Standing, objects: bool)
    requires at.turn < limits.maxTurns && (objects ==> ObjectWorld(w))
    ensures InputsOk(objects, AgentLoop.Loop(w, limits, r, at).events)
    decreases limits.maxTurns - at.turn
  {
    hide IsJson, ObjectWorld, InputsOk, Executions;
    hide AgentLoop.TurnReading, AgentLoop.RunTools, AgentLoop.TurnVerdict, AgentLoop.Loop;
    AgentLoop.LoopStep(w, limits, r, at);
    if w.aborted(at.checks) {
      NoCalls(objects, [AgentLoop.Failed(at.turn, AgentLoop.LoopAborted)]);
    } else {
      var reading := AgentLoop.TurnReading(w, r, at);
      TurnInputs(w, r, at, objects);
      var start := [AgentLoop.TurnStarted(at.turn)];
      NoCalls(objects, start);
      InputsAppend(objects, start, reading.emitted);
      var verdict := AgentLoop.TurnVerdict(w, limits, r, at.turn, reading);
      if verdict.Some? {
        VerdictIsTerminal(w, limits, r, at, reading);
        NoCalls(objects, [verdict.value]);
        InputsAppend(objects, start + reading.emitted, [verdict.value]);
      } else {
        var idle := AgentLoop.IDLE.(checks := reading.checks + 1);
        var ran := AgentLoop.RunTools(w, limits, at.turn, at.count, idle, reading.calls);
        NoReports(at.turn);
        ToolsReport(w, limits, at.turn, at.count, idle, reading.calls);
        ReportsNoCalls(at.turn, ran.emitted);
        NoCalls(objects, ran.emitted);
        InputsAppend(objects, start + reading.emitted, ran.emitted);
        if ran.stop.Some? {
          NoCalls(objects, [ran.stop.value]);
          InputsAppend(objects, start + reading.emitted + ran.emitted, [ran.stop.value]);
        } else {
          var next := AgentLoop.Standing(
            at.turn + 1, AgentLoop.NextMessages(at, reading, ran), AgentLoop.Seen(at.seen, reading.calls), ran.checks, at.count + |ran.executions|);
          VerdictLeavesTurns(w, limits, r, at, reading);
          LoopInputs(w, limits, r, next, objects);
          InputsAppend(objects, start + reading.emitted + ran.emitted, AgentLoop.Loop(w, limits, r, next).events);
        }
      }
    }
  }

  lemma NoCalls(objects: bool, events: seq<AgentLoop.LoopEvent>)
    requires forall i :: 0 <= i < |events| ==> !events[i].LoopCall?
    ensures InputsOk(objects, events)
  {}

  lemma NoReports(turn: nat)
    ensures Executions(turn, [])
  {}

  lemma ReportsNoCalls(turn: nat, events: seq<AgentLoop.LoopEvent>)
    requires Executions(turn, events)
    ensures forall i :: 0 <= i < |events| ==> !events[i].LoopCall?
  {}

  lemma VerdictIsTerminal(w: AgentLoop.World, limits: AgentLoop.Limits, r: Request, at: AgentLoop.Standing, reading: AgentLoop.Reading)
    requires reading == AgentLoop.TurnReading(w, r, at)
    ensures var verdict := AgentLoop.TurnVerdict(w, limits, r, at.turn, reading); verdict.Some? ==> !verdict.value.LoopCall?
  {
    hide AgentLoop.ReadTurn, AgentLoop.CoreRun;
    NothingSpoken(at.turn);
    var request := r.(messages := at.messages);
    ReadSpeaks(w, at.turn, at.seen, AgentLoop.FRESH.(checks := at.checks + 1), AgentLoop.CoreRun(request, w.gateway(at.turn, request)));
  }

  lemma VerdictLeavesTurns(w: AgentLoop.World, limits: AgentLoop.Limits, r: Request, at: AgentLoop.Standing, reading: AgentLoop.Reading)
    requires AgentLoop.TurnVerdict(w, limits, r, at.turn, reading).None?
    ensures at.turn + 1 < limits.maxTurns
  {}

  lemma RunInputs(w: AgentLoop.World, limits: AgentLoop.Limits, r: Request, objects: bool)
    requires limits.maxTurns >= 1 && (objects ==> ObjectWorld(w))
    ensures InputsOk(objects, AgentLoop.Run(w, limits, r).events)
  {
    hide AgentLoop.Loop;
    hide HistoryIds, IsJson, ObjectWorld;
    if !w.aborted(0) {
      LoopInputs(w, limits, r, AgentLoop.Standing(0, r.messages, HistoryIds(r.messages), 1, 0), objects);
    }
  }

  // ----- the events that are delivered -----

  predicate ObjectCall(e: AgentEvent) {
    e.CallEvent? ==> e.input.Obj?
  }

  predicate AllObjectCalls(events: seq<AgentEvent>) {
    forall i :: 0 <= i < |events| ==> ObjectCall(events[i])
  }

  predicate CallsOk(objects: bool, events: seq<AgentEvent>) {
    forall i :: 0 <= i < |events| && events[i].CallEvent? ==> IsJson(events[i].input) && (objects ==> events[i].input.Obj?)
  }

  lemma {:induction false} MappedCalls(objects: bool, events: seq<AgentLoop.LoopEvent>, turnId: string, pending: Option<AgentEvent>)
    requires InputsOk(objects, events) && (pending.Some? ==> pending == Some(CompletedEvent(turnId)))
    ensures CallsOk(objects, MapEvents(events, turnId, pending))
    decreases |events|
  {
    hide IsJson;
    if events != [] {
      assert InputsOk(objects, events[1..]);
      MappedCalls(objects, events[1..], turnId, pending);
      MappedCalls(objects, events[1..], turnId, None);
      MappedCalls(objects, events[1..], turnId, Some(CompletedEvent(turnId)));
    }
  }

  lemma DeliveredCalls(objects: bool, turnId: string, runner: seq<AgentEvent>, end: RunnerEnd, gone: Option<nat>)
    requires CallsOk(objects, runner)
    ensures CallsOk(objects, Deliver(turnId, runner, end, gone).events)
  {
    hide IsJson;
  }

  /** What the session stores for a turn of the loop. */
  function Stored(w: AgentLoop.World, limits: AgentLoop.Limits, r: Request, turnId: string, end: RunnerEnd, gone: Option<nat>): Delivery
    requires limits.maxTurns >= 1
  {
    Deliver(turnId, MapEvents(AgentLoop.Run(w, limits, r).events, turnId, None), end, gone)
  }

  lemma StoredShape(w: AgentLoop.World, limits: AgentLoop.Limits, r: Request, turnId: string, end: RunnerEnd, gone: Option<nat>, objects: bool)
    requires limits.maxTurns >= 1 && (objects ==> ObjectWorld(w))
    ensures var told := Stored(w, limits, r, turnId, end, gone);
            && DeliversOnce(told.events) && StatusTells(told)
            && CallsOk(objects, told.events)
  {
    hide AgentLoop.Run;
    hide MapEvents, Deliver, IsJson, InputsOk, CallsOk, ObjectWorld;
    BackendTrace(w, limits, r, turnId);
    var runner := MapEvents(AgentLoop.Run(w, limits, r).events, turnId, None);
    DeliveredTurn(turnId, runner, end, gone);
    RunInputs(w, limits, r, objects);
    MappedCalls(objects, AgentLoop.Run(w, limits, r).events, turnId, None);
    DeliveredCalls(objects, turnId, runner, end, gone);
  }

  /** The objects written for some events. */
  lemma WrittenJsons(message: AgentLoop.LoopCode -> string, events: seq<AgentEvent>)
    requires CallsOk(false, events)
    ensures var js := EventJsons(message, events);
            && (forall i :: 0 <= i < |js| ==> IsJson(js[i]) && (IsTerminal(js[i]) <==> events[i].Terminal()))
            && (AllValid(js) <==> AllObjectCalls(events))
  {
    hide IsJson, ValidEvent, IsTerminal, JsonOf;
    var js := EventJsons(message, events);
    forall i | 0 <= i < |events|
      ensures IsJson(js[i]) && (IsTerminal(js[i]) <==> events[i].Terminal()) && (ValidEvent(js[i]) <==> ObjectCall(events[i]))
    {
      EventIsJson(message, events[i]);
      ValidExactlyWhen(message, events[i]);
    }
  }

  // ----- the turn at the client -----

  /**
   Whatever the model, the tools, the moment of an abort and the cutting of the
   response: the client reads all the stored events exactly when every delivered
   tool call has an object input; and otherwise it reads the events before the
   first other one, and refuses the rest. The last stored event agrees with the
   session's status.
   */
  lemma TurnReachesClient(
      w: AgentLoop.World, limits: AgentLoop.Limits, r: Request, turnId: string, end: RunnerEnd, gone: Option<nat>,
      c: Client, stringify: Json -> string, message: AgentLoop.LoopCode -> string, chunks: seq<Chunk>)
    requires limits.maxTurns >= 1
    requires var js := EventJsons(message, Stored(w, limits, r, turnId, end, gone).events);
             && JsonLaw(c, stringify, js)
             && (forall i :: 0 <= i < |js| ==> Bytes(c, stringify(js[i])) <= c.maxLineBytes)
             && WholeText(chunks) == Written(stringify, js)
    requires Size(chunks) <= c.maxTotalBytes
    ensures var told := Stored(w, limits, r, turnId, end, gone);
            var js := EventJsons(message, told.events);
            && ParseStream(c, chunks) == (if AllObjectCalls(told.events) then Parsed(js, true, true) else Parsed(UpToInvalid(js), false, false))
            && (ParseStream(c, chunks).events == js <==> AllObjectCalls(told.events))
            && DeliversOnce(told.events) && StatusTells(told)
  {
    hide Stored, ParseStream, WholeText, Size, Bytes, Written, ValidEvent, IsTerminal, IsJson, JsonLaw, JsonOf, CallsOk, AllObjectCalls, StatusTells;
    var told := Stored(w, limits, r, turnId, end, gone);
    var js := EventJsons(message, told.events);
    StoredShape(w, limits, r, turnId, end, gone, false);
    WrittenJsons(message, told.events);
    ClientReads(c, stringify, js, chunks);
    SomeInvalid(js);
  }

  lemma {:induction false} SomeInvalid(events: seq<Json>)
    ensures !AllValid(events) ==> UpToInvalid(events) != events
    decreases |events|
  {
    hide ValidEvent;
    if events != [] && ValidEvent(events[0]) {
      SomeInvalid(events[1..]);
      assert events == [events[0]] + events[1..];
      assert AllValid(events[1..]) ==> AllValid(events);
    }
  }

  /** With this program's own gateway, whatever the servers send, the turn reaches the client. */
  lemma OwnGatewayReachesClient<D>(
      sites: nat -> Pipeline.Site<D>, p: Gateway.Policy, st: Registry.State, hasExecutor: bool,
      execute: (nat, ToolCallRecord) -> AgentLoop.RawResult, utf8: string -> nat, aborted: nat -> bool,
      limits: AgentLoop.Limits, r: Request, turnId: string, end: RunnerEnd, gone: Option<nat>,
      c: Client, stringify: Json -> string, message: AgentLoop.LoopCode -> string, chunks: seq<Chunk>)
    requires Gateway.ValidPolicy(p) && limits.maxTurns >= 1
    requires var w := Pipeline.LoopWorld(sites, p, st, hasExecutor, execute, utf8, aborted);
             var js := EventJsons(message, Stored(w, limits, r, turnId, end, gone).events);
             && JsonLaw(c, stringify, js)
             && (forall i :: 0 <= i < |js| ==> Bytes(c, stringify(js[i])) <= c.maxLineBytes)
             && WholeText(chunks) == Written(stringify, js)
    requires Size(chunks) <= c.maxTotalBytes
    ensures var w := Pipeline.LoopWorld(sites, p, st, hasExecutor, execute, utf8, aborted);
            ParseStream(c, chunks) == Parsed(EventJsons(message, Stored(w, limits, r, turnId, end, gone).events), true, true)
  {
    hide Stored, ParseStream, WholeText, Size, Bytes, Written, IsJson, JsonLaw, JsonOf, CallsOk, AllObjectCalls, ObjectWorld;
    hide Pipeline.LoopWorld, Gateway.ValidPolicy;
    var w := Pipeline.LoopWorld(sites, p, st, hasExecutor, execute, utf8, aborted);
    Pipeline.LoopWorldObjects(sites, p, st, hasExecutor, execute, utf8, aborted);
    StoredShape(w, limits, r, turnId, end, gone, true);
    ObjectsAreObjects(Stored(w, limits, r, turnId, end, gone).events);
    TurnReachesClient(w, limits, r, turnId, end, gone, c, stringify, message, chunks);
  }

  lemma ObjectsAreObjects(events: seq<AgentEvent>)
    requires CallsOk(true, events)
    ensures AllObjectCalls(events)
  {
    hide IsJson;
  }

  // ----- a foreign gateway that shows it -----

  /** A gateway that calls a tool with an array. */
  function ArrayWorld(): AgentLoop.World {
    AgentLoop.World(
      (turn: nat, r: Request) => AgentLoop.GatewayRun([ToolCall("call-1", "list", Arr([])), Completed], false),
      false, (k: nat, call: ToolCallRecord) => AgentLoop.Unusable, (text: string) => 0, (k: nat) => false)
  }

  /** The turn it makes, as it is stored: the route, the call with its array, and an error. */
  lemma ArrayTurn(limits: AgentLoop.Limits, r: Request, turnId: string)
    requires limits.maxTurns >= 1 && limits.maxToolCallsPerTurn >= 1 && ValidRequest(r)
    requires "call-1" !in HistoryIds(r.messages)
    ensures Stored(ArrayWorld(), limits, r, turnId, StreamDone, None).events ==
            [RouteEvent(turnId, r.routeId, r.model), CallEvent(turnId, "call-1", "list", Arr([])),
             ErrorEvent(turnId, AgentLoop.ToolExecutionUnavailable, false)]
  {
    hide ValidRequest, HistoryIds;
    var w, turn := ArrayWorld(), 0;
    var at := AgentLoop.Standing(0, r.messages, HistoryIds(r.messages), 1, 0);
    var request := r.(messages := at.messages);
    assert request == r;
    var call, done := ToolCall("call-1", "list", Arr([])), AgentLoop.Model(Completed);
    var core := [AgentLoop.RouteSelected(r.routeId, r.model), AgentLoop.Model(call), done];
    assert AgentLoop.CoreRun(request, w.gateway(0, request)) == core;
    var begun := AgentLoop.FRESH.(checks := 2);
    var one := AgentLoop.Read(0, at.seen, begun.(checks := 3), core[0]);
    var two := AgentLoop.Read(0, at.seen, one.(checks := 4), core[1]);
    var three := AgentLoop.Read(0, at.seen, two.(checks := 5), core[2]);
    assert core[1..][1..] == [done] && core[1..][0] == core[1] && [done][1..] == [];
    assert AgentLoop.Seen(at.seen, []) == at.seen;
    assert two.calls == [ToolCallRecord("call-1", "list", Arr([]))];
    assert AgentLoop.ReadTurn(w, 0, at.seen, three, []) == three.(checks := 6);
    assert AgentLoop.ReadTurn(w, 0, at.seen, two, [done]) == three.(checks := 6);
    assert AgentLoop.ReadTurn(w, 0, at.seen, one, core[1..]) == three.(checks := 6);
    assert AgentLoop.ReadTurn(w, 0, at.seen, begun, core) == three.(checks := 6);
    var said := [AgentLoop.LoopRoute(0, r.routeId, r.model), AgentLoop.LoopCall(0, "call-1", "list", Arr([])), AgentLoop.TurnCompleted(0)];
    assert three.emitted == said;
    AgentLoop.LoopStep(w, limits, r, at);
    var stop := AgentLoop.Failed(0, AgentLoop.ToolExecutionUnavailable);
    assert AgentLoop.Run(w, limits, r).events == [AgentLoop.TurnStarted(0)] + said + [stop];
    ArrayMapped(r, turnId, [AgentLoop.TurnStarted(0)] + said + [stop]);
  }

  lemma ArrayMapped(r: Request, turnId: string, events: seq<AgentLoop.LoopEvent>)
    requires events ==
             [AgentLoop.TurnStarted(0), AgentLoop.LoopRoute(0, r.routeId, r.model), AgentLoop.LoopCall(0, "call-1", "list", Arr([])),
              AgentLoop.TurnCompleted(0), AgentLoop.Failed(0, AgentLoop.ToolExecutionUnavailable)]
    ensures Deliver(turnId, MapEvents(events, turnId, None), StreamDone, None).events ==
            [RouteEvent(turnId, r.routeId, r.model), CallEvent(turnId, "call-1", "list", Arr([])),
             ErrorEvent(turnId, AgentLoop.ToolExecutionUnavailable, false)]
  {
    hide MapEvents, Deliver, StatusTells;
    var route, call := RouteEvent(turnId, r.routeId, r.model), CallEvent(turnId, "call-1", "list", Arr([]));
    var error := ErrorEvent(turnId, AgentLoop.ToolExecutionUnavailable, false);
    MapOne(events, turnId, None, None);
    MapOne(events[1..], turnId, None, None);
    MapOne(events[2..], turnId, None, None);
    TailMapped(turnId, events);
    assert events[1..][1..] == events[2..] && events[2..][1..] == events[3..];
    assert [call] + [error] == [call, error] && [] + ([route] + [call, error]) == [route, call, error];
    DeliveredTurn(turnId, [route, call, error], StreamDone, None);
  }

  lemma TailMapped(turnId: string, events: seq<AgentLoop.LoopEvent>)
    requires |events| == 5 && events[3] == AgentLoop.TurnCompleted(0) && events[4] == AgentLoop.Failed(0, AgentLoop.ToolExecutionUnavailable)
    ensures MapEvents(events[3..], turnId, None) == [ErrorEvent(turnId, AgentLoop.ToolExecutionUnavailable, false)]
  {
    hide MapEvents;
    var error := [ErrorEvent(turnId, AgentLoop.ToolExecutionUnavailable, false)];
    MapOne(events[3..], turnId, None, Some(CompletedEvent(turnId)));
    assert events[3..][1..] == events[4..] && events[4..] == [events[4]];
    MapLast(events[4], turnId, Some(CompletedEvent(turnId)));
    assert [] + error == error;
  }

  /** Three events are stored; the client reads the first and refuses the response. */
  lemma ArrayCallIsRefused(
      limits: AgentLoop.Limits, r: Request, turnId: string, c: Client, stringify: Json -> string, message: AgentLoop.LoopCode -> string, chunks: seq<Chunk>)
    requires limits.maxTurns >= 1 && limits.maxToolCallsPerTurn >= 1 && ValidRequest(r)
    requires "call-1" !in HistoryIds(r.messages)
    requires var js := EventJsons(message, Stored(ArrayWorld(), limits, r, turnId, StreamDone, None).events);
             && JsonLaw(c, stringify, js)
             && (forall i :: 0 <= i < |js| ==> Bytes(c, stringify(js[i])) <= c.maxLineBytes)
             && WholeText(chunks) == Written(stringify, js)
    requires Size(chunks) <= c.maxTotalBytes
    ensures ParseStream(c, chunks) == Parsed([JsonOf(message, RouteEvent(turnId, r.routeId, r.model))], false, false)
  {
    hide Stored, ParseStream, WholeText, Size, Bytes, Written, ValidEvent, IsTerminal, IsJson, JsonLaw, JsonOf;
    ArrayTurn(limits, r, turnId);
    TurnReachesClient(ArrayWorld(), limits, r, turnId, StreamDone, None, c, stringify, message, chunks);
    var told := Stored(ArrayWorld(), limits, r, turnId, StreamDone, None).events;
    var js := EventJsons(message, told);
    assert !ObjectCall(told[1]);
    ValidExactlyWhen(message, told[0]);
    ValidExactlyWhen(message, told[1]);
    assert js[0] == JsonOf(message, told[0]) && js[1..][0] == JsonOf(message, told[1]);
    assert UpToInvalid(js[1..]) == [];
    assert UpToInvalid(js) == [js[0]] + [];
  }

  // ----- a runner that just stops -----

  /** One text and no terminal event: stored as completed, and refused by the client. */
  lemma SilentEndIsRefused(
      turnId: string, text: string, c: Client, stringify: Json -> string, message: AgentLoop.LoopCode -> string, chunks: seq<Chunk>)
    requires var j := JsonOf(message, TextEvent(turnId, text));
             JsonLaw(c, stringify, [j]) && Bytes(c, stringify(j)) <= c.maxLineBytes && WholeText(chunks) == Written(stringify, [j])
    requires Size(chunks) <= c.maxTotalBytes
    ensures Deliver(turnId, [TextEvent(turnId, text)], StreamDone, None) == Delivery([TextEvent(turnId, text)], CompletedStatus)
    ensures ParseStream(c, chunks) == Parsed([JsonOf(message, TextEvent(turnId, text))], false, false)
  {
    hide ParseStream, WholeText, Size, Bytes, Written, ValidEvent, IsTerminal, JsonLaw, JsonOf;
    var e := TextEvent(turnId, text);
    EventIsJson(message, e);
    ValidExactlyWhen(message, e);
    ClientReads(c, stringify, [JsonOf(message, e)], chunks);
    assert UpToTerminal([e][1..]) == [];
    assert UpToTerminal([e]) == [e];
  }
}
