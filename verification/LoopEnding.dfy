/**
 Why a run of the loop ends, told from its events: what the last turn announced,
 the limits, and the executor decide, unless an abort, a gateway error or an
 unusable call has cut the run short.
 */
module LoopEnding {
  import opened Base
  import opened Events
  import opened Requests
  import opened AgentLoop
  import opened LoopProperties
  import opened LoopHistory
  import opened ToolDiscipline

  /** The errors that do not wait for the end of a turn. */
  predicate CutShort(e: LoopEvent) {
    e.LoopError? && (e.error.FromGateway? || e.error in {LoopAborted, InvalidToolCall, DuplicateToolCallId})
  }

  predicate AllKnown(r: Request, batch: seq<ToolCallRecord>) {
    forall i :: 0 <= i < |batch| ==> exists tool <- r.tools :: tool.name == batch[i].name
  }

  /** The last turn `t`, and the event the run ends with. */
  ghost predicate EndsFor(w: AgentLoop.World, limits: Limits, r: Request, events: seq<LoopEvent>, t: nat)
    requires events != []
  {
    var last, batch := events[|events| - 1], CalledIn(events, t);
    var done := TurnCompleted(t) in events && !CutShort(last);
    var runnable := done && batch != [] && |batch| <= limits.maxToolCallsPerTurn && w.hasExecutor;
    && (last == LoopCompleted(t + 1) <==> done && batch == [])
    && (last == LoopError(t, IncompleteModelResponse, false) <==> TurnCompleted(t) !in events && !CutShort(last))
    && (last == LoopError(t, TooManyToolCalls, false) <==> done && |batch| > limits.maxToolCallsPerTurn)
    && (last == LoopError(t, ToolExecutionUnavailable, false) <==> done && 0 < |batch| <= limits.maxToolCallsPerTurn && !w.hasExecutor)
    && (last == LoopError(t, UnknownTool, false) <==> runnable && !AllKnown(r, batch))
    && (last == LoopError(t, MaxTurnsExceeded, false) <==> runnable && AllKnown(r, batch) && t + 1 >= limits.maxTurns)
    && !(runnable && AllKnown(r, batch) && t + 1 < limits.maxTurns)
  }

  /** A turn with none of these faults: all its calls were started and answered, in order. */
  ghost predicate Fulfilled(w: AgentLoop.World, limits: Limits, r: Request, events: seq<LoopEvent>, t: nat) {
    var batch := CalledIn(events, t);
    && TurnCompleted(t) in events
    && 0 < |batch| <= limits.maxToolCallsPerTurn && w.hasExecutor && AllKnown(r, batch) && t + 1 < limits.maxTurns
    && StartedIn(events, t) == Heads(batch)
    && DoneIn(events, t) == seq(|batch|, i requires 0 <= i < |batch| => batch[i].id)
  }

  /** The calls answered in a turn. */
  function DoneIn(events: seq<LoopEvent>, turn: nat): seq<string> {
    if events == [] then []
    else
      var last := events[|events| - 1];
      DoneIn(events[..|events| - 1], turn) + if last.ExecutionDone? && last.turn == turn then [last.id] else []
  }

  ghost predicate Explained(w: AgentLoop.World, limits: Limits, r: Request, from: nat, log: Log) {
    && log.events != []
    && (log.requests == [] ==> log.events == [LoopError(from, LoopAborted, false)])
    && (log.requests != [] ==> EndsFor(w, limits, r, log.events, from + |log.requests| - 1))
    && (forall t :: from <= t < from + |log.requests| - 1 ==> Fulfilled(w, limits, r, log.events, t))
  }

  // ----- answers -----

  lemma {:induction false} DoneAppend(a: seq<LoopEvent>, b: seq<LoopEvent>, turn: nat)
    ensures DoneIn(a + b, turn) == DoneIn(a, turn) + DoneIn(b, turn)
    decreases |b|
  {
    if b == [] {
      assert a + b == a;
    } else {
      assert (a + b)[..|a + b| - 1] == a + b[..|b| - 1];
      DoneAppend(a, b[..|b| - 1], turn);
    }
  }

  lemma {:induction false} NothingDone(events: seq<LoopEvent>, turn: nat)
    requires forall i :: 0 <= i < |events| ==> !(events[i].ExecutionDone? && events[i].turn == turn)
    ensures DoneIn(events, turn) == []
    decreases |events|
  {
    if events != [] {
      assert forall i :: 0 <= i < |events| - 1 ==> events[..|events| - 1][i] == events[i];
      NothingDone(events[..|events| - 1], turn);
    }
  }

  lemma OneDone(e: LoopEvent, turn: nat)
    ensures DoneIn([e], turn) == if e.ExecutionDone? && e.turn == turn then [e.id] else []
  {
    assert [e][..0] == [];
  }

  function IdList(calls: seq<ToolCallRecord>): seq<string> {
    seq(|calls|, i requires 0 <= i < |calls| => calls[i].id)
  }

  lemma ToolAnswers(w: AgentLoop.World, limits: Limits, turn: nat, count: nat, so: Executed, done: seq<ToolCallRecord>, call: ToolCallRecord)
    requires so.stop.None?
    requires StartedIn(so.emitted, turn) == Heads(done) && DoneIn(so.emitted, turn) == IdList(done)
    ensures var next := RunTool(w, limits, turn, count, so, call);
            next.stop.None? ==>
              StartedIn(next.emitted, turn) == Heads(done + [call]) && DoneIn(next.emitted, turn) == IdList(done + [call])
  {
    hide Classify, StartedIn, DoneIn;
    var next := RunTool(w, limits, turn, count, so, call);
    if next.stop.None? {
      var start, end := ExecutionStarted(turn, call.id, call.name), next.emitted[|next.emitted| - 1];
      assert next.emitted == so.emitted + [start] + [end];
      StartedAppend(so.emitted + [start], [end], turn);
      StartedAppend(so.emitted, [start], turn);
      DoneAppend(so.emitted + [start], [end], turn);
      DoneAppend(so.emitted, [start], turn);
      OneStarted(start, turn);
      OneStarted(end, turn);
      OneDone(start, turn);
      OneDone(end, turn);
      assert Heads(done + [call]) == Heads(done) + [(call.id, call.name)] + [];
      assert IdList(done + [call]) == IdList(done) + [] + [call.id];
    }
  }

  /** A batch that ran to the end was started and answered, call by call. */
  lemma {:induction false} BatchAnswered(w: AgentLoop.World, limits: Limits, turn: nat, count: nat, so: Executed, done: seq<ToolCallRecord>, calls: seq<ToolCallRecord>)
    requires so.stop.None?
    requires StartedIn(so.emitted, turn) == Heads(done) && DoneIn(so.emitted, turn) == IdList(done)
    ensures var ran := RunTools(w, limits, turn, count, so, calls);
            ran.stop.None? ==>
              StartedIn(ran.emitted, turn) == Heads(done + calls) && DoneIn(ran.emitted, turn) == IdList(done + calls)
    decreases |calls|
  {
    hide StartedIn, DoneIn, RunTool, Heads, IdList;
    if calls == [] {
      assert done + calls == done;
    } else {
      var next := RunTool(w, limits, turn, count, so, calls[0]);
      ToolAnswers(w, limits, turn, count, so, done, calls[0]);
      assert (done + [calls[0]]) + calls[1..] == done + calls;
      if next.stop.None? {
        BatchAnswered(w, limits, turn, count, next, done + [calls[0]], calls[1..]);
      }
    }
  }

  // ----- the reading of a turn -----

  /** A reading has completed exactly when it announced so, and stops by itself only to cut the run short. */
  lemma {:induction false} ReadingTells(w: AgentLoop.World, turn: nat, seen: set<string>, so: Reading, events: seq<CoreEvent>)
    requires so.stop.None? && (so.completed <==> TurnCompleted(turn) in so.emitted)
    ensures var reading := ReadTurn(w, turn, seen, so, events);
            && (reading.completed <==> TurnCompleted(turn) in reading.emitted)
            && (reading.stop.Some? ==> CutShort(reading.stop.value))
    decreases |events|
  {
    hide IsJson, Seen;
    if !w.aborted(so.checks) && events != [] {
      var begun := so.(checks := so.checks + 1);
      var next := Read(turn, seen, begun, events[0]);
      if next.stop.None? {
        ReadingTells(w, turn, seen, next, events[1..]);
      }
    }
  }

  /** What a turn has said before its verdict. */
  lemma TurnSays(w: AgentLoop.World, limits: Limits, r: Request, at: Standing)
    requires at.turn < limits.maxTurns
    ensures var reading := TurnReading(w, r, at);
            var said := [TurnStarted(at.turn)] + reading.emitted;
            && (forall i :: 0 <= i < |said| ==> TurnOf(said[i]) == at.turn && !said[i].ExecutionStarted? && !said[i].ExecutionDone? && !said[i].Terminal())
            && CalledIn(said, at.turn) == reading.calls
            && (TurnCompleted(at.turn) in said <==> reading.completed)
            && (reading.stop.Some? ==> CutShort(reading.stop.value))
  {
    hide ReadTurn, CoreRun, CalledIn;
    var request := r.(messages := at.messages);
    var events := CoreRun(request, w.gateway(at.turn, request));
    var begun := FRESH.(checks := at.checks + 1);
    NothingSpoken(at.turn);
    ReadSpeaks(w, at.turn, at.seen, begun, events);
    NothingRead(at.turn, begun);
    TurnAnnounces(w, at.turn, at.seen, begun, events);
    ReadingTells(w, at.turn, at.seen, begun, events);
    var reading := TurnReading(w, r, at);
    AnnouncedAppend([TurnStarted(at.turn)], reading.emitted, at.turn);
    SilentSaysNothing([TurnStarted(at.turn)], at.turn);
    assert [] + reading.calls == reading.calls;
  }

  // ----- the run -----

  /** The verdict is the one the announcements call for. */
  lemma VerdictEnds(w: AgentLoop.World, limits: Limits, r: Request, turn: nat, reading: Reading, events: seq<LoopEvent>)
    requires TurnVerdict(w, limits, r, turn, reading).Some?
    requires events != [] && events[|events| - 1] == TurnVerdict(w, limits, r, turn, reading).value
    requires CalledIn(events, turn) == reading.calls && (TurnCompleted(turn) in events <==> reading.completed)
    requires reading.stop.Some? ==> CutShort(reading.stop.value)
    ensures EndsFor(w, limits, r, events, turn)
  {
    hide CalledIn, AllKnown;
    KnownNames(r, reading.calls);
  }

  lemma VerdictExplained(w: AgentLoop.World, limits: Limits, r: Request, at: Standing)
    requires at.turn < limits.maxTurns
    ensures var reading := TurnReading(w, r, at);
            var said := [TurnStarted(at.turn)] + reading.emitted;
            var verdict := TurnVerdict(w, limits, r, at.turn, reading);
            if verdict.Some? then EndsFor(w, limits, r, said + [verdict.value], at.turn)
            else reading.completed && 0 < |reading.calls| <= limits.maxToolCallsPerTurn && w.hasExecutor
                 && AllKnown(r, reading.calls) && at.turn + 1 < limits.maxTurns && reading.stop.None?
  {
    hide TurnReading, CalledIn, StartedIn, AllKnown, EndsFor;
    TurnSays(w, limits, r, at);
    var reading := TurnReading(w, r, at);
    var said := [TurnStarted(at.turn)] + reading.emitted;
    var verdict := TurnVerdict(w, limits, r, at.turn, reading);
    KnownNames(r, reading.calls);
    if verdict.Some? {
      hide TurnVerdict;
      VerdictTerminal(w, limits, r, at.turn, reading);
      NothingReported(at.turn);
      ThisTurn(said, [], [verdict.value], at.turn);
      assert said + [] + [verdict.value] == said + [verdict.value];
      VerdictEnds(w, limits, r, at.turn, reading, said + [verdict.value]);
    }
  }

  lemma VerdictTerminal(w: AgentLoop.World, limits: Limits, r: Request, turn: nat, reading: Reading)
    requires TurnVerdict(w, limits, r, turn, reading).Some? && (reading.stop.Some? ==> CutShort(reading.stop.value))
    ensures TurnVerdict(w, limits, r, turn, reading).value.Terminal()
  {}

  lemma KnownNames(r: Request, batch: seq<ToolCallRecord>)
    ensures AllKnown(r, batch) <==> !(exists c <- batch :: c.name !in ToolNames(r))
  {
    if AllKnown(r, batch) {
      forall c | c in batch
        ensures c.name in ToolNames(r)
      {
        var i :| 0 <= i < |batch| && batch[i] == c;
        assert exists tool <- r.tools :: tool.name == batch[i].name;
      }
    }
    if !(exists c <- batch :: c.name !in ToolNames(r)) {
      forall i | 0 <= i < |batch|
        ensures exists tool <- r.tools :: tool.name == batch[i].name
      {
        assert batch[i] in batch;
      }
    }
  }

  /** A turn of its own is not changed by what stands before it. */
  lemma TurnStandsAlone(before: seq<LoopEvent>, rest: seq<LoopEvent>, t: nat)
    requires forall i :: 0 <= i < |before| ==> TurnOf(before[i]) < t
    ensures CalledIn(before + rest, t) == CalledIn(rest, t) && StartedIn(before + rest, t) == StartedIn(rest, t)
    ensures DoneIn(before + rest, t) == DoneIn(rest, t)
    ensures TurnCompleted(t) in before + rest <==> TurnCompleted(t) in rest
  {
    hide CalledIn, StartedIn, DoneIn;
    LaterTurn(before, rest, t);
    NothingDone(before, t);
    DoneAppend(before, rest, t);
    assert [] + DoneIn(rest, t) == DoneIn(rest, t);
  }

  /** Two lists that say the same about a turn. */
  ghost predicate SameTurn(a: seq<LoopEvent>, b: seq<LoopEvent>, t: nat) {
    && a != [] && b != [] && a[|a| - 1] == b[|b| - 1]
    && CalledIn(a, t) == CalledIn(b, t) && StartedIn(a, t) == StartedIn(b, t) && DoneIn(a, t) == DoneIn(b, t)
    && (TurnCompleted(t) in a <==> TurnCompleted(t) in b)
  }

  lemma SameExplanation(w: AgentLoop.World, limits: Limits, r: Request, a: seq<LoopEvent>, b: seq<LoopEvent>, t: nat)
    requires SameTurn(a, b, t)
    ensures EndsFor(w, limits, r, a, t) <==> EndsFor(w, limits, r, b, t)
    ensures Fulfilled(w, limits, r, a, t) <==> Fulfilled(w, limits, r, b, t)
  {
    hide CalledIn, StartedIn, DoneIn, AllKnown;
  }

  /** What follows a turn that goes on keeps its explanation. */
  lemma ExplainedLater(w: AgentLoop.World, limits: Limits, r: Request, turn: nat, before: seq<LoopEvent>, request: Request, executions: seq<ToolCallRecord>, log: Log)
    requires forall i :: 0 <= i < |before| ==> TurnOf(before[i]) == turn
    requires Explained(w, limits, r, turn + 1, log)
    requires Fulfilled(w, limits, r, before + log.events, turn)
    ensures Explained(w, limits, r, turn, log.After(before, [request], executions))
  {
    hide EndsFor, Fulfilled, CalledIn, StartedIn, DoneIn;
    var whole := log.After(before, [request], executions);
    forall t: nat | t > turn
      ensures EndsFor(w, limits, r, whole.events, t) <==> EndsFor(w, limits, r, log.events, t)
      ensures Fulfilled(w, limits, r, whole.events, t) <==> Fulfilled(w, limits, r, log.events, t)
    {
      TurnStandsAlone(before, log.events, t);
      SameExplanation(w, limits, r, whole.events, log.events, t);
    }
    if log.requests == [] {
      AbortedTurn(w, limits, r, turn, before, log.events[0]);
      assert whole.events == before + [log.events[0]];
    }
  }

  lemma TurnFulfilled(w: AgentLoop.World, limits: Limits, r: Request, turn: nat, said: seq<LoopEvent>, ran: seq<LoopEvent>, rest: seq<LoopEvent>)
    requires forall i :: 0 <= i < |said| ==> TurnOf(said[i]) == turn && !said[i].ExecutionStarted? && !said[i].ExecutionDone?
    requires Executions(turn, ran) && forall i :: 0 <= i < |rest| ==> TurnOf(rest[i]) > turn
    requires TurnCompleted(turn) in said
    requires var batch := CalledIn(said, turn);
             && 0 < |batch| <= limits.maxToolCallsPerTurn && w.hasExecutor && AllKnown(r, batch) && turn + 1 < limits.maxTurns
             && StartedIn(ran, turn) == Heads(batch) && DoneIn(ran, turn) == IdList(batch)
    ensures Fulfilled(w, limits, r, said + ran + rest, turn)
  {
    hide CalledIn, StartedIn, DoneIn, AllKnown, Heads;
    ThisTurn(said, ran, rest, turn);
    NothingDone(said, turn);
    NothingDone(rest, turn);
    DoneAppend(said, ran, turn);
    DoneAppend(said + ran, rest, turn);
    assert [] + DoneIn(ran, turn) + [] == DoneIn(ran, turn);
    assert TurnCompleted(turn) in said + ran + rest;
  }

  lemma {:induction false} LoopExplained(w: AgentLoop.World, limits: Limits, r: Request, at: Standing)
    requires at.turn < limits.maxTurns
    ensures Explained(w, limits, r, at.turn, Loop(w, limits, r, at))
    decreases limits.maxTurns - at.turn
  {
    hide ReadTurn, RunTools, CoreRun, TurnReading, NextMessages, Seen, Loop, WellTraced, Executions, TurnVerdict, CalledIn, StartedIn, DoneIn, Heads, IdList, AllKnown, EndsFor, Fulfilled;
    LoopStep(w, limits, r, at);
    if !w.aborted(at.checks) {
      var reading := TurnReading(w, r, at);
      var said := [TurnStarted(at.turn)] + reading.emitted;
      TurnSays(w, limits, r, at);
      VerdictExplained(w, limits, r, at);
      var verdict := TurnVerdict(w, limits, r, at.turn, reading);
      if verdict.None? {
        var idle := IDLE.(checks := reading.checks + 1);
        var ran := RunTools(w, limits, at.turn, at.count, idle, reading.calls);
        NothingReported(at.turn);
        ToolsReport(w, limits, at.turn, at.count, idle, reading.calls);
        if ran.stop.Some? {
          AbortedTurn(w, limits, r, at.turn, said + ran.emitted, ran.stop.value);
        } else {
          NothingYet(at.turn);
          NothingAnswered(at.turn);
          BatchAnswered(w, limits, at.turn, at.count, idle, [], reading.calls);
          assert [] + reading.calls == reading.calls;
          var next := Standing(at.turn + 1, NextMessages(at, reading, ran), Seen(at.seen, reading.calls), ran.checks, at.count + |ran.executions|);
          LoopExplained(w, limits, r, next);
          LoopTrace(w, limits, r, next);
          var rest := Loop(w, limits, r, next);
          LaterTurns(r, next.turn, rest.events);
          EarlierTurn(at.turn, said, ran.emitted);
          TurnFulfilled(w, limits, r, at.turn, said, ran.emitted, rest.events);
          ExplainedLater(w, limits, r, at.turn, said + ran.emitted, r.(messages := at.messages), ran.executions, rest);
        }
      }
    }
  }

  lemma NothingAnswered(turn: nat)
    ensures DoneIn([], turn) == IdList([])
  {}

  lemma AbortedTurn(w: AgentLoop.World, limits: Limits, r: Request, turn: nat, before: seq<LoopEvent>, stop: LoopEvent)
    requires stop.LoopError? && stop.error == LoopAborted
    ensures EndsFor(w, limits, r, before + [stop], turn)
  {
    hide CalledIn, AllKnown;
  }

  /**
   A run that nothing has cut short ends as its last turn calls for: completed
   exactly when the turn was completed and called no tool; and with each of the
   errors exactly when its fault is the first that applies. A batch without a fault
   is run, and all earlier turns had such a batch.
   */
  lemma EndsExactlyWhen(w: AgentLoop.World, limits: Limits, r: Request)
    requires limits.maxTurns >= 1
    ensures Explained(w, limits, r, 0, AgentLoop.Run(w, limits, r))
  {
    hide Loop, HistoryIds, EndsFor, Fulfilled;
    if !w.aborted(0) {
      LoopExplained(w, limits, r, Standing(0, r.messages, HistoryIds(r.messages), 1, 0));
    }
  }
}
