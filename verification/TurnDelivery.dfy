/**
 One turn at the server: every event goes to the session store and, as a line
 of JSON, to the response, until a terminal event, an abort or a failure.
 */
module TurnDelivery {
  import opened Base
  import opened Events
  import opened AgentLoop
  import opened EventJson
  import opened EventMapper

  datatype Status = Idle | Running | CompletedStatus | Cancelled | FailedStatus

  /** How the runner's stream ends after its events. */
  datatype RunnerEnd = StreamDone | StreamThrows

  function AbortedEvent(turnId: string): AgentEvent {
    ErrorEvent(turnId, LoopAborted, false)
  }

  function RunnerErrorEvent(turnId: string): AgentEvent {
    ErrorEvent(turnId, FromGateway(OtherCode("runner_error")), false)
  }

  /** The error code on the wire is the text "aborted". */
  predicate IsAbort(error: LoopCode) {
    CodeText(error) == "aborted"
  }

  /** The status the last event of a turn calls for. */
  function StatusOf(last: AgentEvent): Status {
    if last.ErrorEvent? then (if IsAbort(last.error) then Cancelled else FailedStatus) else CompletedStatus
  }

  /** The events up to and including the first terminal one. */
  function UpToTerminal(events: seq<AgentEvent>): (run: seq<AgentEvent>)
    ensures |run| <= |events| && run == events[..|run|]
  {
    if events == [] then []
    else if events[0].Terminal() then [events[0]]
    else [events[0]] + UpToTerminal(events[1..])
  }

  predicate EndsTerminal(events: seq<AgentEvent>) {
    events != [] && events[|events| - 1].Terminal()
  }

  /** The events of one turn and its final status. */
  datatype Delivery = Delivery(events: seq<AgentEvent>, status: Status)

  /**
   What one turn delivers. `gone` is the number of events delivered before the
   client is seen to be gone; None when it stays.
   */
  function Deliver(turnId: string, runner: seq<AgentEvent>, end: RunnerEnd, gone: Option<nat>): Delivery {
    var run := UpToTerminal(runner);
    if gone.Some? && (gone.value < |run| || (gone.value == |run| && !EndsTerminal(run))) then
      Delivery(run[..gone.value] + [AbortedEvent(turnId)], Cancelled)
    else if EndsTerminal(run) then Delivery(run, StatusOf(run[|run| - 1]))
    else if end.StreamThrows? then Delivery(run + [RunnerErrorEvent(turnId)], FailedStatus)
    else Delivery(run, CompletedStatus)
  }

  class Session {
    var status: Status
    var activeTurn: Option<string>
    var events: seq<AgentEvent>

    constructor ()
      ensures status == Idle && activeTurn == None && events == []
    {
      status, activeTurn, events := Idle, None, [];
    }

    method AppendEvent(event: AgentEvent)
      modifies this`events
      ensures events == old(events) + [event]
    {
      events := events + [event];
    }

    method SetStatus(status: Status, activeTurn: Option<string>)
      modifies this`status, this`activeTurn
      ensures this.status == status && this.activeTurn == activeTurn
    {
      this.status, this.activeTurn := status, activeTurn;
    }
  }

  class Turn {
    const turnId: string
    const session: Session
    var lines: seq<AgentEvent>
    var sawTerminal: bool

    constructor (session: Session, turnId: string)
      ensures this.session == session && this.turnId == turnId && lines == [] && !sawTerminal
    {
      this.session, this.turnId, lines, sawTerminal := session, turnId, [], false;
    }

    /** Stores and writes one event; nothing gets out behind a terminal one. */
    method Emit(event: AgentEvent)
      modifies this`lines, this`sawTerminal, session`events
      ensures lines == old(lines) + if old(sawTerminal) then [] else [event]
      ensures session.events == old(session.events) + if old(sawTerminal) then [] else [event]
      ensures sawTerminal == (old(sawTerminal) || event.Terminal())
    {
      if sawTerminal {
        return;
      }
      session.AppendEvent(event);
      lines := lines + [event];
      sawTerminal := event.Terminal();
    }

    /** Handles one turn of the runner's stream. */
    method Handle(runner: seq<AgentEvent>, end: RunnerEnd, gone: Option<nat>)
      requires lines == [] && !sawTerminal
      modifies this, session
      ensures var told := Deliver(turnId, runner, end, gone);
              && lines == told.events
              && session.events == old(session.events) + told.events
              && session.status == told.status
              && session.activeTurn == None
    {
      hide UpToTerminal;
      session.SetStatus(Running, Some(turnId));
      var i := 0;
      ghost var run := UpToTerminal(runner);
      RunStops(runner);
      while !sawTerminal
        invariant i <= |run|
        invariant lines == run[..i] && session.events == old(session.events) + lines
        invariant sawTerminal == (i == |run| && EndsTerminal(run))
        invariant gone.Some? ==> gone.value >= i
        decreases |run| - i, !sawTerminal
      {
        if gone == Some(i) {
          Emit(AbortedEvent(turnId));
          session.SetStatus(Cancelled, None);
          return;
        }
        if i == |runner| {
          if end.StreamThrows? {
            Emit(RunnerErrorEvent(turnId));
            session.SetStatus(FailedStatus, None);
          } else {
            session.SetStatus(CompletedStatus, None);
          }
          return;
        }
        Emit(runner[i]);
        i := i + 1;
      }
      var last := lines[|lines| - 1];
      session.SetStatus(
        if last.ErrorEvent? then (if IsAbort(last.error) then Cancelled else FailedStatus) else CompletedStatus, None);
    }
  }

  /** The run stops at the runner's end or at its first terminal event. */
  lemma {:induction false} RunStops(runner: seq<AgentEvent>)
    ensures var run := UpToTerminal(runner);
            && (!EndsTerminal(run) ==> run == runner)
            && (forall i :: 0 <= i < |run| ==> (run[i].Terminal() <==> (i == |run| - 1 && EndsTerminal(run))))
  {
    if runner != [] && !runner[0].Terminal() {
      RunStops(runner[1..]);
      var run, rest := UpToTerminal(runner), UpToTerminal(runner[1..]);
      assert run == [runner[0]] + rest;
      assert forall i :: 0 < i < |run| ==> run[i] == rest[i - 1];
      if rest != [] {
        assert run[|run| - 1] == rest[|rest| - 1];
      }
    }
  }

  /**
   A runner that ends in its one terminal event is delivered whole, or cut
   short by an abort; either way the last event decides the status.
   */
  lemma DeliveredTurn(turnId: string, runner: seq<AgentEvent>, end: RunnerEnd, gone: Option<nat>)
    requires DeliversOnce(runner)
    ensures var told := Deliver(turnId, runner, end, gone);
            && DeliversOnce(told.events)
            && StatusTells(told)
            && told.events == if gone.Some? && gone.value < |runner| then runner[..gone.value] + [AbortedEvent(turnId)] else runner
  {
    hide CodeText;
    StatusExactlyWhen(turnId, runner, end, gone);
    RunStops(runner);
    var run := UpToTerminal(runner);
    if EndsTerminal(run) {
      assert runner[|run| - 1].Terminal();
    }
    assert run == runner;
  }

  /** Any runner at all: the response lacks a terminal line exactly when the stream just stops, and is then reported as completed. */
  lemma EndsWithoutTerminal(turnId: string, runner: seq<AgentEvent>, end: RunnerEnd, gone: Option<nat>)
    ensures var told := Deliver(turnId, runner, end, gone);
            && (DeliversOnce(told.events) <==>
                  !(end.StreamDone? && !EndsTerminal(UpToTerminal(runner)) && (gone.Some? ==> gone.value > |runner|)))
            && (!DeliversOnce(told.events) ==> told.status == CompletedStatus && told.events == runner)
  {
    hide UpToTerminal;
    RunStops(runner);
    var run := UpToTerminal(runner);
    var told := Deliver(turnId, runner, end, gone);
    if gone.Some? && (gone.value < |run| || (gone.value == |run| && !EndsTerminal(run))) {
      QuietThenOne(run[..gone.value], AbortedEvent(turnId));
    } else if !EndsTerminal(run) && end.StreamThrows? {
      QuietThenOne(run, RunnerErrorEvent(turnId));
    }
  }

  lemma QuietThenOne(quiet: seq<AgentEvent>, last: AgentEvent)
    requires last.Terminal() && forall i :: 0 <= i < |quiet| ==> !quiet[i].Terminal()
    ensures DeliversOnce(quiet + [last])
  {}

  // ----- the final status -----

  /** The errors whose code reads "aborted" on the wire. */
  predicate SaysAborted(e: AgentEvent) {
    e.ErrorEvent? && e.error in {LoopAborted, FromGateway(Aborted), FromGateway(OtherCode("aborted"))}
  }

  /** The status says what the last event says. */
  predicate StatusTells(told: Delivery) {
    var failed := told.events != [] && told.events[|told.events| - 1].ErrorEvent?;
    && (told.status == Cancelled <==> failed && SaysAborted(told.events[|told.events| - 1]))
    && (told.status == FailedStatus <==> failed && !SaysAborted(told.events[|told.events| - 1]))
    && (told.status == CompletedStatus <==> !failed)
  }

  lemma AbortedCodes(error: LoopCode)
    ensures IsAbort(error) <==> error in {LoopAborted, FromGateway(Aborted), FromGateway(OtherCode("aborted"))}
  {
    var texts := ["provider_protocol_error", "upstream_unavailable", "rate_limited", "gateway_error", "tool_execution_unavailable", "unknown_tool",
                  "invalid_tool_call", "duplicate_tool_call_id", "too_many_tool_calls", "max_turns_exceeded", "incomplete_model_response"];
    assert forall i :: 0 <= i < |texts| ==> |texts[i]| > |"aborted"|;
    assert error.FromGateway? && error.code.OtherCode? ==> CodeText(error) == error.code.text;
    assert CodeText(error) in texts || error == LoopAborted || error == FromGateway(Aborted) || (error.FromGateway? && error.code.OtherCode?);
  }

  /**
   The final status of any turn: cancelled exactly when the last event is an error
   that says "aborted", completed exactly when it is a completion or the stream
   just stopped, and failed when it is any other error.
   */
  lemma StatusExactlyWhen(turnId: string, runner: seq<AgentEvent>, end: RunnerEnd, gone: Option<nat>)
    ensures StatusTells(Deliver(turnId, runner, end, gone))
  {
    hide UpToTerminal, CodeText;
    RunStops(runner);
    var run := UpToTerminal(runner);
    if EndsTerminal(run) && run[|run| - 1].ErrorEvent? {
      AbortedCodes(run[|run| - 1].error);
    }
    AbortedCodes(LoopAborted);
  }

  /** Any runner: what is delivered, by the place `n` of its first terminal event. */
  lemma DeliveredExactly(turnId: string, runner: seq<AgentEvent>, end: RunnerEnd, gone: Option<nat>) returns (n: nat)
    ensures n <= |runner| && (forall i :: 0 <= i < n ==> !runner[i].Terminal()) && (n < |runner| ==> runner[n].Terminal())
    ensures Deliver(turnId, runner, end, gone).events ==
            if gone.Some? && gone.value <= n then runner[..gone.value] + [ErrorEvent(turnId, LoopAborted, false)]
            else if n < |runner| then runner[..n + 1]
            else if end.StreamThrows? then runner + [ErrorEvent(turnId, FromGateway(OtherCode("runner_error")), false)]
            else runner
  {
    hide UpToTerminal;
    RunStops(runner);
    var run := UpToTerminal(runner);
    n := if EndsTerminal(run) then |run| - 1 else |run|;
    assert forall i :: 0 <= i < |run| ==> run[i] == runner[i];
    assert gone.Some? && gone.value <= n ==> run[..gone.value] == runner[..gone.value];
  }
}
