/**
 Which tools a run invokes: all it reports as done, and a last one that was started,
 exactly when the question in front of its invocation was answered with no.
 */
module LoopInvocations {
  import opened Base
  import opened Events
  import opened Requests
  import opened AgentLoop
  import opened LoopProperties
  import opened LoopHistory
  import opened LoopEnding
  import opened LoopAborts

  /** A tool was started last, and the next question was answered with no. */
  predicate InvokedLast(aborted: Signal, k: nat, prev: Option<LoopEvent>, body: seq<LoopEvent>) {
    body != [] && body[|body| - 1].ExecutionStarted? && !aborted(k + PollsOf(prev, body))
  }

  /** The executions of a log, told from its events and the signal; `k` questions were asked before it. */
  ghost predicate Invoked(aborted: Signal, k: nat, prev: Option<LoopEvent>, log: Log) {
    && log.events != []
    && var body := log.events[..|log.events| - 1];
       |log.executions| == |Outcomes(body)| + if InvokedLast(aborted, k, prev, body) then 1 else 0
  }

  lemma PollsMore(prev: Option<LoopEvent>, events: seq<LoopEvent>, e: LoopEvent)
    ensures PollsOf(prev, events + [e]) == PollsOf(prev, events) + Polls(LastOf(prev, events), e)
    ensures LastOf(prev, events + [e]) == Some(e)
  {
    hide Polls;
    WatchAppend(_ => false, 0, prev, events, [e]);
    SegmentOne(_ => false, 0, LastOf(prev, events), e, []);
    NothingWatched(_ => false, 0, Some(e));
    assert [e] + [] == [e];
  }

  /** Tools under way behind `front`: what has been asked, done and invoked. */
  ghost predicate Going(k: nat, prev: Option<LoopEvent>, front: seq<LoopEvent>, so: Executed) {
    var body := front + so.emitted;
    && so.stop.None?
    && so.checks == k + PollsOf(prev, body) + (if BehindTool(LastOf(prev, body)) then 0 else 2)
    && |so.executions| == |Outcomes(so.emitted)|
  }

  ghost predicate Stopped(aborted: Signal, k: nat, prev: Option<LoopEvent>, front: seq<LoopEvent>, ran: Executed) {
    |ran.executions| == |Outcomes(ran.emitted)| + if InvokedLast(aborted, k, prev, front + ran.emitted) then 1 else 0
  }

  lemma GoingMeans(k: nat, prev: Option<LoopEvent>, front: seq<LoopEvent>, so: Executed)
    requires Going(k, prev, front, so)
    ensures so.stop.None?
  {}

  /** A tool is started: the next question is the one in front of its invocation. */
  lemma StartAsks(k: nat, prev: Option<LoopEvent>, front: seq<LoopEvent>, so: Executed, start: LoopEvent)
    requires Going(k, prev, front, so) && start.ExecutionStarted?
    ensures var body := front + (so.emitted + [start]);
            && k + PollsOf(prev, body) == so.checks + 1 && LastOf(prev, body) == Some(start)
            && body != [] && body[|body| - 1] == start
    ensures |Outcomes(so.emitted + [start])| == |so.executions|
  {
    hide Outcomes, PollsOf, LastOf, BehindTool;
    var body := front + so.emitted;
    PollsMore(prev, body, start);
    ToolPolls(LastOf(prev, body), start);
    Assoc(front, so.emitted, [start]);
    OutcomesAppend(so.emitted, [start]);
    OneOutcome(start);
  }

  /** A tool is done: two more questions. */
  lemma DoneAsks(k: nat, prev: Option<LoopEvent>, front: seq<LoopEvent>, emitted: seq<LoopEvent>, start: LoopEvent, done: LoopEvent)
    requires done.ExecutionDone? && LastOf(prev, front + emitted) == Some(start)
    ensures var body := front + (emitted + [done]);
            PollsOf(prev, body) == PollsOf(prev, front + emitted) + 2 && BehindTool(LastOf(prev, body))
    ensures |Outcomes(emitted + [done])| == |Outcomes(emitted)| + 1
  {
    hide Outcomes, PollsOf, LastOf;
    PollsMore(prev, front + emitted, done);
    Assoc(front, emitted, [done]);
    OutcomesAppend(emitted, [done]);
    OneOutcome(done);
  }

  lemma ToolInvoked(w: AgentLoop.World, limits: Limits, turn: nat, count: nat, k: nat, prev: Option<LoopEvent>, front: seq<LoopEvent>, so: Executed, call: ToolCallRecord)
    requires Going(k, prev, front, so)
    requires front + so.emitted == [] || !(front + so.emitted)[|front + so.emitted| - 1].ExecutionStarted?
    ensures var next := RunTool(w, limits, turn, count, so, call);
            if next.stop.None? then
              Going(k, prev, front, next) && next.emitted != [] && next.emitted[|next.emitted| - 1].ExecutionDone?
            else Stopped(w.aborted, k, prev, front, next)
  {
    hide Classify, Outcomes, PollsOf, LastOf, BehindTool;
    var next := RunTool(w, limits, turn, count, so, call);
    var start := ExecutionStarted(turn, call.id, call.name);
    StartAsks(k, prev, front, so, start);
    if next.stop.None? {
      var done := next.emitted[|next.emitted| - 1];
      assert next.emitted == (so.emitted + [start]) + [done];
      DoneAsks(k, prev, front, so.emitted + [start], start, done);
    }
  }

  lemma {:induction false} ToolsInvoked(
      w: AgentLoop.World, limits: Limits, turn: nat, count: nat, k: nat, prev: Option<LoopEvent>, front: seq<LoopEvent>, so: Executed, calls: seq<ToolCallRecord>)
    requires Going(k, prev, front, so)
    requires front + so.emitted == [] || !(front + so.emitted)[|front + so.emitted| - 1].ExecutionStarted?
    ensures var ran := RunTools(w, limits, turn, count, so, calls);
            if ran.stop.None? then
              Going(k, prev, front, ran) && (calls != [] ==> ran.emitted != [] && ran.emitted[|ran.emitted| - 1].ExecutionDone?)
            else Stopped(w.aborted, k, prev, front, ran)
    decreases |calls|
  {
    hide RunTool, Going, Stopped;
    GoingMeans(k, prev, front, so);
    if calls != [] {
      var next := RunTool(w, limits, turn, count, so, calls[0]);
      ToolInvoked(w, limits, turn, count, k, prev, front, so, calls[0]);
      if next.stop.None? {
        assert (front + next.emitted)[|front + next.emitted| - 1] == next.emitted[|next.emitted| - 1];
        ToolsInvoked(w, limits, turn, count, k, prev, front, next, calls[1..]);
      }
    }
  }

  // ----- the run -----

  /** Events of a turn in front of its tools. */
  predicate ToolFree(events: seq<LoopEvent>) {
    forall i :: 0 <= i < |events| ==> !events[i].ExecutionStarted? && !events[i].ExecutionDone?
  }

  lemma NothingInvoked(aborted: Signal, k: nat, prev: Option<LoopEvent>, body: seq<LoopEvent>, last: LoopEvent, requests: seq<Request>)
    requires ToolFree(body)
    ensures Invoked(aborted, k, prev, Log(body + [last], requests, []))
  {
    assert (body + [last])[..|body|] == body;
    NoOutcome(body);
  }

  lemma StoppedInvoked(aborted: Signal, k: nat, prev: Option<LoopEvent>, front: seq<LoopEvent>, ran: Executed, requests: seq<Request>)
    requires ToolFree(front) && ran.stop.Some? && Stopped(aborted, k, prev, front, ran)
    ensures Invoked(aborted, k, prev, Log(front + ran.emitted + [ran.stop.value], requests, ran.executions))
  {
    hide PollsOf, Outcomes;
    var body := front + ran.emitted;
    assert (body + [ran.stop.value])[..|body|] == body;
    NoOutcome(front);
    OutcomesAppend(front, ran.emitted);
  }

  lemma InvokedLater(aborted: Signal, k: nat, prev: Option<LoopEvent>, front: seq<LoopEvent>, ran: Executed, request: Request, rest: Log)
    requires ToolFree(front) && |ran.executions| == |Outcomes(ran.emitted)|
    requires ran.emitted != [] && ran.emitted[|ran.emitted| - 1].ExecutionDone?
    requires Invoked(aborted, k + PollsOf(prev, front + ran.emitted), LastOf(prev, front + ran.emitted), rest)
    ensures Invoked(aborted, k, prev, rest.After(front + ran.emitted, [request], ran.executions))
  {
    hide PollsOf, Outcomes, LastOf, Polls, Survives, Watched, Asked;
    var before, body := front + ran.emitted, rest.events[..|rest.events| - 1];
    var whole := before + rest.events;
    assert whole[..|whole| - 1] == before + body;
    NoOutcome(front);
    OutcomesAppend(front, ran.emitted);
    OutcomesAppend(before, body);
    WatchAppend(aborted, k, prev, before, body);
    if body != [] {
      assert (before + body)[|before + body| - 1] == body[|body| - 1];
    } else {
      assert before + body == before;
    }
  }

  /** A turn that goes on to its tools has asked once per event of the answer, and once at its end. */
  lemma GoingStarts(w: AgentLoop.World, r: Request, at: Standing, k: nat, prev: Option<LoopEvent>)
    requires k + Polls(prev, TurnStarted(at.turn)) == at.checks + 1 && TurnReading(w, r, at).stop.None?
    ensures var reading := TurnReading(w, r, at);
            Going(k, prev, [TurnStarted(at.turn)] + reading.emitted, IDLE.(checks := reading.checks + 1))
  {
    hide Read, Polls, Survives, Watched, Relayed, PollsOf, LastOf, CoreRun;
    var request := r.(messages := at.messages);
    var begun, start := FRESH.(checks := at.checks + 1), TurnStarted(at.turn);
    var tail := ReadWatched(w, at.turn, at.seen, begun, Some(start), CoreRun(request, w.gateway(at.turn, request)));
    var reading := TurnReading(w, r, at);
    assert reading.stop.None? ==> reading == TurnReading(Undisturbed(w), r, at);
    NothingInFront(tail);
    SegmentOne(w.aborted, k, prev, start, tail);
    RelayedTail(w.aborted, 0, Some(start), tail, at.turn);
    BehindDone(start);
    var front := [start] + reading.emitted;
    assert front + [] == front;
    assert Outcomes([]) == [];
  }

  lemma {:induction false} LoopInvoked(w: AgentLoop.World, limits: Limits, r: Request, at: Standing, k: nat, prev: Option<LoopEvent>)
    requires at.turn < limits.maxTurns && k + Polls(prev, TurnStarted(at.turn)) == at.checks + 1
    ensures Invoked(w.aborted, k, prev, Loop(w, limits, r, at))
    decreases limits.maxTurns - at.turn
  {
    hide TurnReading, RunTools, NextMessages, Seen, Loop, TurnVerdict, Invoked, Polls, Going, Stopped;
    LoopStep(w, limits, r, at);
    if w.aborted(at.checks) {
      NothingInvoked(w.aborted, k, prev, [], Failed(at.turn, LoopAborted), []);
      NothingInFront([Failed(at.turn, LoopAborted)]);
      return;
    }
    var request := r.(messages := at.messages);
    var reading := TurnReading(w, r, at);
    var said := [TurnStarted(at.turn)] + reading.emitted;
    TurnSays(w, limits, r, at);
    var verdict := TurnVerdict(w, limits, r, at.turn, reading);
    if verdict.Some? {
      NothingInvoked(w.aborted, k, prev, said, verdict.value, [request]);
    } else {
      VerdictUnder(w, limits, r, at.turn, reading);
      GoingStarts(w, r, at, k, prev);
      var idle := IDLE.(checks := reading.checks + 1);
      NothingBehind(said);
      ToolsInvoked(w, limits, at.turn, at.count, k, prev, said, idle, reading.calls);
      var ran := RunTools(w, limits, at.turn, at.count, idle, reading.calls);
      if ran.stop.Some? {
        StoppedInvoked(w.aborted, k, prev, said, ran, [request]);
      } else {
        var next := Standing(at.turn + 1, NextMessages(at, reading, ran), Seen(at.seen, reading.calls), ran.checks, at.count + |ran.executions|);
        var body := said + ran.emitted;
        GoingOn(k, prev, said, ran, next.turn);
        LoopInvoked(w, limits, r, next, k + PollsOf(prev, body), LastOf(prev, body));
        InvokedLater(w.aborted, k, prev, said, ran, request, Loop(w, limits, r, next));
      }
    }
  }

  lemma NothingBehind(said: seq<LoopEvent>)
    ensures said + [] == said
  {}

  lemma GoingOn(k: nat, prev: Option<LoopEvent>, front: seq<LoopEvent>, ran: Executed, turn: nat)
    requires Going(k, prev, front, ran) && turn > 0 && ran.emitted != [] && ran.emitted[|ran.emitted| - 1].ExecutionDone?
    ensures var body := front + ran.emitted;
            k + PollsOf(prev, body) + Polls(LastOf(prev, body), TurnStarted(turn)) == ran.checks + 1
    ensures |ran.executions| == |Outcomes(ran.emitted)|
  {
    hide PollsOf, Outcomes;
    var body := front + ran.emitted;
    assert body[|body| - 1] == ran.emitted[|ran.emitted| - 1];
  }

  /**
   The executor is invoked for every tool reported as done, and for one more exactly
   when that was started last and the question about the signal in front of its
   invocation was answered with no.
   */
  lemma InvokedExactlyWhen(w: AgentLoop.World, limits: Limits, r: Request)
    requires limits.maxTurns >= 1
    ensures Invoked(w.aborted, 0, None, AgentLoop.Run(w, limits, r))
  {
    hide Loop, HistoryIds, Invoked;
    if w.aborted(0) {
      NothingInvoked(w.aborted, 0, None, [], Failed(0, LoopAborted), []);
      NothingInFront([Failed(0, LoopAborted)]);
    } else {
      LoopInvoked(w, limits, r, Standing(0, r.messages, HistoryIds(r.messages), 1, 0), 0, None);
    }
  }
}
