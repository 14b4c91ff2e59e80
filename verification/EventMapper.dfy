/** From loop events to the events of the local API: one completion, at the very end. */
module EventMapper {
  import opened Base
  import opened Events
  import opened AgentLoop
  import opened LoopProperties
  import opened Requests

  datatype AgentEvent =
    | RouteEvent(requestId: string, routeId: string, model: string)
    | TextEvent(requestId: string, text: string)
    | CallEvent(requestId: string, id: string, name: string, input: Json)
    | UsageEvent(requestId: string, inputTokens: nat, outputTokens: nat)
    | CompletedEvent(requestId: string)
    | ErrorEvent(requestId: string, error: LoopCode, retryable: bool)
  {
    predicate Terminal() { CompletedEvent? || ErrorEvent? }
  }

  /** What an event shows to the outside; None for internal detail and for a stashed completion. */
  function Shown(e: LoopEvent, turnId: string): seq<AgentEvent> {
    match e
    case LoopRoute(_, routeId, model) => [RouteEvent(turnId, routeId, model)]
    case LoopText(_, text) => [TextEvent(turnId, text)]
    case LoopCall(_, id, name, input) => [CallEvent(turnId, id, name, input)]
    case LoopUsage(_, i, o) => [UsageEvent(turnId, i, o)]
    case _ => []
  }

  /** `pending` is the stashed completion of a model turn. */
  function MapEvents(events: seq<LoopEvent>, turnId: string, pending: Option<AgentEvent>): seq<AgentEvent>
    decreases |events|
  {
    if events == [] then []
    else
      match events[0]
      case TurnStarted(_) => MapEvents(events[1..], turnId, pending)
      case ExecutionStarted(_, _, _) => MapEvents(events[1..], turnId, pending)
      case ExecutionDone(_, _, _) => MapEvents(events[1..], turnId, pending)
      case TurnCompleted(_) => MapEvents(events[1..], turnId, Some(CompletedEvent(turnId)))
      case LoopCompleted(_) => [if pending.Some? then pending.value else CompletedEvent(turnId)]
      case LoopError(_, error, retryable) => [ErrorEvent(turnId, error, retryable)]
      case _ => Shown(events[0], turnId) + MapEvents(events[1..], turnId, None)
  }

  method MapAgentLoopEvents(events: seq<LoopEvent>, turnId: string) returns (out: seq<AgentEvent>)
    ensures out == MapEvents(events, turnId, None)
  {
    hide Shown;
    out := [];
    var pendingCompleted: Option<AgentEvent> := None;
    var i := 0;
    assert events[0..] == events;
    while i < |events|
      invariant i <= |events|
      invariant MapEvents(events, turnId, None) == out + MapEvents(events[i..], turnId, pendingCompleted)
    {
      assert events[i..][1..] == events[i + 1..];
      match events[i] {
        case TurnStarted(_) =>
        case ExecutionStarted(_, _, _) =>
        case ExecutionDone(_, _, _) =>
        case TurnCompleted(_) =>
          pendingCompleted := Some(CompletedEvent(turnId));
        case LoopCompleted(_) =>
          return out + [if pendingCompleted.Some? then pendingCompleted.value else CompletedEvent(turnId)];
        case LoopError(_, error, retryable) =>
          return out + [ErrorEvent(turnId, error, retryable)];
        case _ =>
          pendingCompleted := None;
          out := out + Shown(events[i], turnId);
      }
      i := i + 1;
    }
  }

  /** Everything shown along the way. */
  function AllShown(events: seq<LoopEvent>, turnId: string): seq<AgentEvent> {
    if events == [] then [] else Shown(events[0], turnId) + AllShown(events[1..], turnId)
  }

  function FinalEvent(last: LoopEvent, turnId: string): AgentEvent {
    if last.LoopError? then ErrorEvent(turnId, last.error, last.retryable) else CompletedEvent(turnId)
  }

  /** The shown events in order, and then one terminal event: no completion of a middle turn gets out. */
  lemma {:induction false} MapsToShownThenFinal(events: seq<LoopEvent>, turnId: string, pending: Option<AgentEvent>)
    requires EndsOnce(events) && (pending.Some? ==> pending == Some(CompletedEvent(turnId)))
    ensures MapEvents(events, turnId, pending) ==
            AllShown(events[..|events| - 1], turnId) + [FinalEvent(events[|events| - 1], turnId)]
    decreases |events|
  {
    hide Shown, MapEvents;
    var quiet := events[..|events| - 1];
    if |events| > 1 {
      var rest := events[1..];
      assert quiet[0] == events[0] && quiet[1..] == rest[..|rest| - 1];
      assert rest[|rest| - 1] == events[|events| - 1];
      var next := if events[0].TurnCompleted? then Some(CompletedEvent(turnId))
                  else if Shown(events[0], turnId) != [] then None else pending;
      MapsToShownThenFinal(rest, turnId, next);
      MapOne(events, turnId, pending, next);
      assert AllShown(quiet, turnId) == Shown(events[0], turnId) + AllShown(quiet[1..], turnId);
    } else {
      assert quiet == [];
      MapLast(events[0], turnId, pending);
      assert events == [events[0]];
    }
  }

  lemma MapOne(events: seq<LoopEvent>, turnId: string, pending: Option<AgentEvent>, next: Option<AgentEvent>)
    requires events != [] && !events[0].Terminal()
    requires next == if events[0].TurnCompleted? then Some(CompletedEvent(turnId)) else if Shown(events[0], turnId) != [] then None else pending
    ensures MapEvents(events, turnId, pending) == Shown(events[0], turnId) + MapEvents(events[1..], turnId, next)
  {}

  lemma MapLast(last: LoopEvent, turnId: string, pending: Option<AgentEvent>)
    requires last.Terminal() && (pending.Some? ==> pending == Some(CompletedEvent(turnId)))
    ensures MapEvents([last], turnId, pending) == [FinalEvent(last, turnId)]
  {}

  lemma {:induction false} ShownQuiet(events: seq<LoopEvent>, turnId: string)
    ensures forall i :: 0 <= i < |AllShown(events, turnId)| ==>
              !AllShown(events, turnId)[i].Terminal() && AllShown(events, turnId)[i].requestId == turnId
    decreases |events|
  {
    if events != [] {
      ShownQuiet(events[1..], turnId);
    }
  }

  /** One terminal event, at the end. */
  predicate DeliversOnce(events: seq<AgentEvent>) {
    && events != []
    && events[|events| - 1].Terminal()
    && forall i :: 0 <= i < |events| - 1 ==> !events[i].Terminal()
  }

  /** The same news, in the words of the local API. */
  predicate Announces(e: LoopEvent, turnId: string, a: AgentEvent) {
    match a
    case RouteEvent(id, routeId, model) => id == turnId && e.LoopRoute? && e.routeId == routeId && e.model == model
    case TextEvent(id, text) => id == turnId && e.LoopText? && e.text == text
    case CallEvent(id, callId, name, input) => id == turnId && e.LoopCall? && e.id == callId && e.name == name && e.input == input
    case UsageEvent(id, i, o) => id == turnId && e.LoopUsage? && e.inputTokens == i && e.outputTokens == o
    case _ => false
  }

  predicate Public(e: LoopEvent) {
    e.LoopRoute? || e.LoopText? || e.LoopCall? || e.LoopUsage?
  }

  /** The public events of a list are announced, in order, and nothing else is. */
  predicate Reports(events: seq<LoopEvent>, turnId: string, told: seq<AgentEvent>)
    decreases |events|
  {
    if events == [] then told == []
    else if !Public(events[0]) then Reports(events[1..], turnId, told)
    else told != [] && Announces(events[0], turnId, told[0]) && Reports(events[1..], turnId, told[1..])
  }

  /** What is shown reports the events; `last` adds nothing. */
  lemma {:induction false} ShownReports(events: seq<LoopEvent>, turnId: string)
    requires events != [] && !Public(events[|events| - 1])
    ensures Reports(events, turnId, AllShown(events[..|events| - 1], turnId))
    decreases |events|
  {
    hide Announces, Public, Shown;
    var quiet := events[..|events| - 1];
    if |events| == 1 {
      assert quiet == [] && events[1..] == [];
    } else {
      var rest := events[1..];
      assert quiet[0] == events[0] && quiet[1..] == rest[..|rest| - 1] && rest[|rest| - 1] == events[|events| - 1];
      ShownReports(rest, turnId);
      ShownIsNews(events[0], turnId);
      var first, later := Shown(events[0], turnId), AllShown(rest[..|rest| - 1], turnId);
      assert first == [] ==> first + later == later;
      assert |first| == 1 ==> (first + later)[0] == first[0] && (first + later)[1..] == later;
    }
  }

  lemma ShownIsNews(e: LoopEvent, turnId: string)
    ensures |Shown(e, turnId)| == (if Public(e) then 1 else 0)
    ensures Public(e) ==> Announces(e, turnId, Shown(e, turnId)[0])
  {}

  /**
   Whatever the model, the tools and the timing of an abort: the turn announces
   the route, the texts, the calls and the usage of the run in their order, and
   ends in one terminal event, an error exactly when the run ends in that error.
   */
  lemma BackendTrace(w: AgentLoop.World, limits: Limits, r: Request, turnId: string)
    requires limits.maxTurns >= 1
    ensures var events := AgentLoop.Run(w, limits, r).events;
            var out := MapEvents(events, turnId, None);
            && DeliversOnce(out) && (forall i :: 0 <= i < |out| ==> out[i].requestId == turnId)
            && events != []
            && out[|out| - 1] == (if events[|events| - 1].LoopError?
                                  then ErrorEvent(turnId, events[|events| - 1].error, events[|events| - 1].retryable)
                                  else CompletedEvent(turnId))
            && Reports(events, turnId, out[..|out| - 1])
  {
    hide AgentLoop.Run;
    hide MapEvents, Reports;
    RunTrace(w, limits, r);
    var events := AgentLoop.Run(w, limits, r).events;
    var quiet, last := events[..|events| - 1], events[|events| - 1];
    MapsToShownThenFinal(events, turnId, None);
    ShownQuiet(quiet, turnId);
    ShownReports(events, turnId);
    var out := MapEvents(events, turnId, None);
    assert out[..|out| - 1] == AllShown(quiet, turnId);
  }
}
