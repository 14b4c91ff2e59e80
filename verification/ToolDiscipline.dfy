/**
 Which tools a run may start, told from its events alone: a started tool is the
 next call of a batch that was announced, completed, small enough and known.
 */
module ToolDiscipline {
  import opened Base
  import opened Events
  import opened Requests
  import opened AgentLoop
  import opened LoopProperties
  import opened LoopHistory

  /** Id and name of the tools started in a turn. */
  function StartedIn(events: seq<LoopEvent>, turn: nat): seq<(string, string)> {
    if events == [] then []
    else
      var last := events[|events| - 1];
      StartedIn(events[..|events| - 1], turn) +
      if last.ExecutionStarted? && last.turn == turn then [(last.id, last.name)] else []
  }

  function Heads(calls: seq<ToolCallRecord>): seq<(string, string)> {
    seq(|calls|, i requires 0 <= i < |calls| => (calls[i].id, calls[i].name))
  }

  function Take(calls: seq<ToolCallRecord>, n: nat): seq<ToolCallRecord> {
    if n <= |calls| then calls[..n] else calls
  }

  /** The announced calls that were started, over `n` turns. */
  function StartedCalls(events: seq<LoopEvent>, from: nat, n: nat): seq<ToolCallRecord>
    decreases n
  {
    if n == 0 then []
    else Take(CalledIn(events, from), |StartedIn(events, from)|) + StartedCalls(events, from + 1, n - 1)
  }

  /** The batch the tool started at `i` belongs to was accepted before. */
  ghost predicate Licensed(w: AgentLoop.World, limits: Limits, r: Request, events: seq<LoopEvent>, i: nat)
    requires i < |events| && events[i].ExecutionStarted?
  {
    var turn := events[i].turn;
    var batch := CalledIn(events, turn);
    && CalledIn(events[..i], turn) == batch
    && TurnCompleted(turn) in events[..i]
    && |batch| <= limits.maxToolCallsPerTurn
    && turn + 1 < limits.maxTurns
    && w.hasExecutor
    && forall c :: c in batch ==> c.name in ToolNames(r)
  }

  ghost predicate Disciplined(w: AgentLoop.World, limits: Limits, r: Request, from: nat, events: seq<LoopEvent>, executions: seq<ToolCallRecord>)
    requires from <= limits.maxTurns
  {
    && (forall turn: nat :: StartedIn(events, turn) <= Heads(CalledIn(events, turn)))
    && (forall i :: 0 <= i < |events| && events[i].ExecutionStarted? ==> Licensed(w, limits, r, events, i))
    && Performed(StartedCalls(events, from, limits.maxTurns - from), events, executions)
  }

  /** All that was started was invoked, except for a last tool that an abort came before. */
  predicate Performed(started: seq<ToolCallRecord>, events: seq<LoopEvent>, executions: seq<ToolCallRecord>) {
    || executions == started
    || (started != [] && executions == started[..|started| - 1]
        && events != [] && events[|events| - 1].LoopError? && events[|events| - 1].error == LoopAborted)
  }

  // ----- starts -----

  lemma {:induction false} StartedAppend(a: seq<LoopEvent>, b: seq<LoopEvent>, turn: nat)
    ensures StartedIn(a + b, turn) == StartedIn(a, turn) + StartedIn(b, turn)
    decreases |b|
  {
    if b == [] {
      assert a + b == a;
    } else {
      assert (a + b)[..|a + b| - 1] == a + b[..|b| - 1];
      StartedAppend(a, b[..|b| - 1], turn);
    }
  }

  lemma {:induction false} NothingStarted(events: seq<LoopEvent>, turn: nat)
    requires forall i :: 0 <= i < |events| ==> !(events[i].ExecutionStarted? && events[i].turn == turn)
    ensures StartedIn(events, turn) == []
    decreases |events|
  {
    if events != [] {
      assert forall i :: 0 <= i < |events| - 1 ==> events[..|events| - 1][i] == events[i];
      NothingStarted(events[..|events| - 1], turn);
    }
  }

  lemma OneStarted(e: LoopEvent, turn: nat)
    ensures StartedIn([e], turn) == if e.ExecutionStarted? && e.turn == turn then [(e.id, e.name)] else []
  {
    assert [e][..0] == [];
  }

  /** A batch under way: what has been started and invoked of `calls`. */
  ghost predicate UnderWay(turn: nat, ran: Executed, calls: seq<ToolCallRecord>) {
    && StartedIn(ran.emitted, turn) <= Heads(calls)
    && ran.executions <= calls
    && |ran.executions| <= |StartedIn(ran.emitted, turn)| <= |ran.executions| + 1
    && (ran.stop.None? ==> |StartedIn(ran.emitted, turn)| == |ran.executions|)
  }

  lemma ToolStarts(w: AgentLoop.World, limits: Limits, turn: nat, count: nat, so: Executed, done: seq<ToolCallRecord>, call: ToolCallRecord, later: seq<ToolCallRecord>)
    requires so.stop.None? && so.executions == done && StartedIn(so.emitted, turn) == Heads(done)
    ensures var next := RunTool(w, limits, turn, count, so, call);
            && UnderWay(turn, next, done + [call] + later)
            && (next.stop.None? ==> next.executions == done + [call] && StartedIn(next.emitted, turn) == Heads(done + [call]))
  {
    hide Classify, StartedIn;
    var next := RunTool(w, limits, turn, count, so, call);
    var start := ExecutionStarted(turn, call.id, call.name);
    StartedAppend(so.emitted, [start], turn);
    OneStarted(start, turn);
    assert Heads(done + [call]) == Heads(done) + [(call.id, call.name)];
    assert Heads(done + [call] + later) == Heads(done + [call]) + Heads(later);
    assert done + [call] + later == done + ([call] + later);
    if next.stop.None? {
      var end := next.emitted[|next.emitted| - 1];
      StartedAppend(so.emitted + [start], [end], turn);
      OneStarted(end, turn);
    }
  }

  lemma {:induction false} BatchStarts(w: AgentLoop.World, limits: Limits, turn: nat, count: nat, so: Executed, done: seq<ToolCallRecord>, calls: seq<ToolCallRecord>)
    requires so.stop.None? && so.executions == done && StartedIn(so.emitted, turn) == Heads(done)
    ensures var ran := RunTools(w, limits, turn, count, so, calls);
            && UnderWay(turn, ran, done + calls)
            && (ran.stop.None? ==> ran.executions == done + calls)
    decreases |calls|
  {
    hide StartedIn, RunTool, Heads;
    if calls == [] {
      assert done + calls == done;
      assert |Heads(done)| == |done| by { HeadsLength(done); }
    } else {
      var next := RunTool(w, limits, turn, count, so, calls[0]);
      ToolStarts(w, limits, turn, count, so, done, calls[0], calls[1..]);
      assert done + [calls[0]] + calls[1..] == done + calls;
      if next.stop.None? {
        BatchStarts(w, limits, turn, count, next, done + [calls[0]], calls[1..]);
        assert (done + [calls[0]]) + calls[1..] == done + calls;
      }
    }
  }

  lemma HeadsLength(calls: seq<ToolCallRecord>)
    ensures |Heads(calls)| == |calls|
  {}

  // ----- completion -----

  /** A reading that has seen the completion has announced it. */
  lemma {:induction false} CompletionAnnounced(w: AgentLoop.World, turn: nat, seen: set<string>, so: Reading, events: seq<CoreEvent>)
    requires so.completed ==> TurnCompleted(turn) in so.emitted
    ensures var reading := ReadTurn(w, turn, seen, so, events);
            reading.completed ==> TurnCompleted(turn) in reading.emitted
    decreases |events|
  {
    hide CallProblem;
    if !w.aborted(so.checks) && events != [] {
      var begun := so.(checks := so.checks + 1);
      var next := Read(turn, seen, begun, events[0]);
      if next.stop.None? {
        CompletionAnnounced(w, turn, seen, next, events[1..]);
      }
    }
  }

  // ----- a turn, and what follows it -----

  /** The events of one turn up to its tools, by which the batch was accepted. */
  ghost predicate Accepted(w: AgentLoop.World, limits: Limits, r: Request, turn: nat, said: seq<LoopEvent>) {
    && (forall i :: 0 <= i < |said| ==> TurnOf(said[i]) == turn && !said[i].ExecutionStarted?)
    && TurnCompleted(turn) in said
    && |CalledIn(said, turn)| <= limits.maxToolCallsPerTurn
    && turn + 1 < limits.maxTurns && w.hasExecutor
    && forall c :: c in CalledIn(said, turn) ==> c.name in ToolNames(r)
  }

  /** Events of other turns say nothing about this one. */
  lemma OtherTurns(events: seq<LoopEvent>, turn: nat)
    requires forall i :: 0 <= i < |events| ==> TurnOf(events[i]) != turn
    ensures CalledIn(events, turn) == [] && StartedIn(events, turn) == []
  {
    SilentSaysNothing(events, turn);
    NothingStarted(events, turn);
  }

  lemma {:induction false} StartedLater(before: seq<LoopEvent>, rest: seq<LoopEvent>, from: nat, n: nat)
    requires forall i :: 0 <= i < |before| ==> TurnOf(before[i]) < from
    ensures StartedCalls(before + rest, from, n) == StartedCalls(rest, from, n)
    decreases n
  {
    hide CalledIn, StartedIn;
    if n > 0 {
      OtherTurns(before, from);
      AnnouncedAppend(before, rest, from);
      StartedAppend(before, rest, from);
      assert [] + CalledIn(rest, from) == CalledIn(rest, from) && [] + StartedIn(rest, from) == StartedIn(rest, from);
      StartedLater(before, rest, from + 1, n - 1);
    }
  }

  lemma {:induction false} NoneStarted(events: seq<LoopEvent>, from: nat, n: nat)
    requires forall i :: 0 <= i < |events| ==> !events[i].ExecutionStarted?
    ensures StartedCalls(events, from, n) == []
    decreases n
  {
    hide CalledIn;
    if n > 0 {
      NothingStarted(events, from);
      NoneStarted(events, from + 1, n - 1);
      assert Take(CalledIn(events, from), 0) == [];
    }
  }

  /** A run without tools. */
  lemma NoToolsStarted(w: AgentLoop.World, limits: Limits, r: Request, from: nat, events: seq<LoopEvent>)
    requires from <= limits.maxTurns && forall i :: 0 <= i < |events| ==> !events[i].ExecutionStarted?
    ensures Disciplined(w, limits, r, from, events, [])
  {
    NoneStarted(events, from, limits.maxTurns - from);
    forall turn: nat
      ensures StartedIn(events, turn) <= Heads(CalledIn(events, turn))
    {
      NothingStarted(events, turn);
    }
  }

  /** What the whole says about the turn of `said` and `ran`. */
  lemma ThisTurn(said: seq<LoopEvent>, ran: seq<LoopEvent>, rest: seq<LoopEvent>, turn: nat)
    requires forall i :: 0 <= i < |said| ==> TurnOf(said[i]) == turn && !said[i].ExecutionStarted?
    requires Executions(turn, ran) && forall i :: 0 <= i < |rest| ==> TurnOf(rest[i]) > turn || rest[i].Terminal()
    ensures CalledIn(said + ran + rest, turn) == CalledIn(said, turn)
    ensures StartedIn(said + ran + rest, turn) == StartedIn(ran, turn)
  {
    hide CalledIn, StartedIn;
    SilentSaysNothing(ran, turn);
    SilentSaysNothing(rest, turn);
    NothingStarted(said, turn);
    NothingStarted(rest, turn);
    hide Silent, Executions;
    QuietBehind(said, ran, turn);
    QuietBehind(said + ran, rest, turn);
    StartedAppend(said, ran, turn);
    StartedAppend(said + ran, rest, turn);
    NothingAround(StartedIn(ran, turn));
  }

  lemma QuietBehind(a: seq<LoopEvent>, b: seq<LoopEvent>, turn: nat)
    requires CalledIn(b, turn) == []
    ensures CalledIn(a + b, turn) == CalledIn(a, turn)
  {
    hide CalledIn;
    AnnouncedAppend(a, b, turn);
    assert CalledIn(a, turn) + [] == CalledIn(a, turn);
  }

  lemma NothingAround(started: seq<(string, string)>)
    ensures [] + started + [] == started
  {}

  /** What the whole says about a later turn. */
  lemma LaterTurn(before: seq<LoopEvent>, rest: seq<LoopEvent>, turn: nat)
    requires forall i :: 0 <= i < |before| ==> TurnOf(before[i]) != turn
    ensures CalledIn(before + rest, turn) == CalledIn(rest, turn) && StartedIn(before + rest, turn) == StartedIn(rest, turn)
  {
    hide CalledIn, StartedIn;
    OtherTurns(before, turn);
    AnnouncedAppend(before, rest, turn);
    StartedAppend(before, rest, turn);
    assert [] + CalledIn(rest, turn) == CalledIn(rest, turn) && [] + StartedIn(rest, turn) == StartedIn(rest, turn);
  }

  lemma LicensedHere(w: AgentLoop.World, limits: Limits, r: Request, turn: nat, said: seq<LoopEvent>, ran: seq<LoopEvent>, rest: seq<LoopEvent>, k: nat)
    requires Accepted(w, limits, r, turn, said) && Executions(turn, ran) && k < |ran| && ran[k].ExecutionStarted?
    requires forall i :: 0 <= i < |rest| ==> TurnOf(rest[i]) > turn || rest[i].Terminal()
    ensures Licensed(w, limits, r, said + ran + rest, |said| + k)
  {
    hide CalledIn;
    var events := said + ran + rest;
    ThisTurn(said, ran, rest, turn);
    assert events[..|said| + k] == said + ran[..k];
    assert forall i :: 0 <= i < k ==> ran[..k][i] == ran[i];
    ThisTurn(said, ran[..k], [], turn);
    assert said + ran[..k] + [] == said + ran[..k];
    assert events[|said| + k] == ran[k];
  }

  lemma LicensedLater(w: AgentLoop.World, limits: Limits, r: Request, before: seq<LoopEvent>, rest: seq<LoopEvent>, k: nat)
    requires k < |rest| && rest[k].ExecutionStarted? && Licensed(w, limits, r, rest, k)
    requires forall i :: 0 <= i < |before| ==> TurnOf(before[i]) != rest[k].turn
    ensures Licensed(w, limits, r, before + rest, |before| + k)
  {
    hide CalledIn;
    var turn := rest[k].turn;
    LaterTurn(before, rest, turn);
    LaterTurn(before, rest[..k], turn);
    assert (before + rest)[..|before| + k] == before + rest[..k];
    assert (before + rest)[|before| + k] == rest[k];
  }

  /** A turn with tools, in front of what the next turns do. */
  lemma TurnThenRest(
      w: AgentLoop.World, limits: Limits, r: Request, turn: nat, said: seq<LoopEvent>, ran: Executed, rest: seq<LoopEvent>, executions: seq<ToolCallRecord>)
    requires Accepted(w, limits, r, turn, said) && Executions(turn, ran.emitted)
    requires UnderWay(turn, ran, CalledIn(said, turn)) && ran.stop.None? && ran.executions == CalledIn(said, turn)
    requires Disciplined(w, limits, r, turn + 1, rest, executions)
    requires rest != [] && forall i :: 0 <= i < |rest| ==> TurnOf(rest[i]) > turn
    ensures Disciplined(w, limits, r, turn, said + ran.emitted + rest, ran.executions + executions)
  {
    hide CalledIn, StartedIn, Licensed, StartedCalls;
    var before := said + ran.emitted;
    var events := before + rest;
    EarlierTurn(turn, said, ran.emitted);
    ThisTurn(said, ran.emitted, rest, turn);
    PrefixesHold(turn, said, ran, rest);
    StartsLicensed(w, limits, r, turn, said, ran.emitted, rest);
    var n := limits.maxTurns - turn;
    StartedLater(before, rest, turn + 1, n - 1);
    StartedUnfolds(events, turn, n);
    var batch, later := CalledIn(said, turn), StartedCalls(rest, turn + 1, n - 1);
    assert Take(batch, |batch|) == batch;
    assert events[|events| - 1] == rest[|rest| - 1];
    if executions != later {
      assert batch + later[..|later| - 1] == (batch + later)[..|batch + later| - 1];
    }
  }

  /** A turn whose tools an abort has cut short. */
  lemma TurnCutShort(
      w: AgentLoop.World, limits: Limits, r: Request, turn: nat, said: seq<LoopEvent>, ran: Executed, stop: LoopEvent)
    requires Accepted(w, limits, r, turn, said) && Executions(turn, ran.emitted)
    requires UnderWay(turn, ran, CalledIn(said, turn)) && stop == Failed(turn, LoopAborted)
    ensures Disciplined(w, limits, r, turn, said + ran.emitted + [stop], ran.executions)
  {
    hide CalledIn, StartedIn, Licensed, StartedCalls;
    var before := said + ran.emitted;
    var events := before + [stop];
    EarlierTurn(turn, said, ran.emitted);
    ThisTurn(said, ran.emitted, [stop], turn);
    forall t: nat
      ensures StartedIn([stop], t) <= Heads(CalledIn([stop], t))
    {
      NothingStarted([stop], t);
    }
    PrefixesHold(turn, said, ran, [stop]);
    StartsLicensed(w, limits, r, turn, said, ran.emitted, [stop]);
    var n := limits.maxTurns - turn;
    StartedLater(before, [stop], turn + 1, n - 1);
    NoneStarted([stop], turn + 1, n - 1);
    StartedUnfolds(events, turn, n);
    var batch, k := CalledIn(said, turn), |StartedIn(ran.emitted, turn)|;
    HeadsLength(batch);
    assert batch[..k] + [] == batch[..k];
    if |ran.executions| < k {
      assert batch[..k][..k - 1] == ran.executions;
    }
  }

  lemma EarlierTurn(turn: nat, said: seq<LoopEvent>, ran: seq<LoopEvent>)
    requires forall i :: 0 <= i < |said| ==> TurnOf(said[i]) == turn
    requires Executions(turn, ran)
    ensures forall i :: 0 <= i < |said + ran| ==> TurnOf((said + ran)[i]) == turn
  {}

  lemma StartedUnfolds(events: seq<LoopEvent>, from: nat, n: nat)
    requires n > 0
    ensures StartedCalls(events, from, n) ==
            Take(CalledIn(events, from), |StartedIn(events, from)|) + StartedCalls(events, from + 1, n - 1)
  {}

  lemma PrefixesHold(turn: nat, said: seq<LoopEvent>, ran: Executed, rest: seq<LoopEvent>)
    requires forall i :: 0 <= i < |said| ==> TurnOf(said[i]) == turn && !said[i].ExecutionStarted?
    requires Executions(turn, ran.emitted) && UnderWay(turn, ran, CalledIn(said, turn))
    requires forall i :: 0 <= i < |rest| ==> TurnOf(rest[i]) > turn || rest[i].Terminal()
    requires forall t: nat :: StartedIn(rest, t) <= Heads(CalledIn(rest, t))
    ensures forall t: nat :: StartedIn(said + ran.emitted + rest, t) <= Heads(CalledIn(said + ran.emitted + rest, t))
  {
    hide CalledIn, StartedIn;
    EarlierTurn(turn, said, ran.emitted);
    forall t: nat
      ensures StartedIn(said + ran.emitted + rest, t) <= Heads(CalledIn(said + ran.emitted + rest, t))
    {
      if t == turn {
        ThisTurn(said, ran.emitted, rest, turn);
      } else {
        LaterTurn(said + ran.emitted, rest, t);
      }
    }
  }

  lemma StartsLicensed(w: AgentLoop.World, limits: Limits, r: Request, turn: nat, said: seq<LoopEvent>, ran: seq<LoopEvent>, rest: seq<LoopEvent>)
    requires Accepted(w, limits, r, turn, said) && Executions(turn, ran)
    requires forall i :: 0 <= i < |rest| ==> TurnOf(rest[i]) > turn || rest[i].Terminal()
    requires forall i :: 0 <= i < |rest| && rest[i].ExecutionStarted? ==> Licensed(w, limits, r, rest, i)
    ensures var events := said + ran + rest;
            forall i :: 0 <= i < |events| && events[i].ExecutionStarted? ==> Licensed(w, limits, r, events, i)
  {
    hide CalledIn, Licensed;
    var before := said + ran;
    var events := before + rest;
    EarlierTurn(turn, said, ran);
    assert forall i :: 0 <= i < |said| ==> events[i] == said[i];
    forall i | 0 <= i < |events| && events[i].ExecutionStarted?
      ensures Licensed(w, limits, r, events, i)
    {
      if i < |before| {
        assert events[i] == ran[i - |said|];
        LicensedHere(w, limits, r, turn, said, ran, rest, i - |said|);
      } else {
        assert events[i] == rest[i - |before|];
        LicensedLater(w, limits, r, before, rest, i - |before|);
      }
    }
  }

  // ----- the run -----

  lemma {:induction false} LoopDisciplined(w: AgentLoop.World, limits: Limits, r: Request, at: Standing)
    requires at.turn < limits.maxTurns
    ensures var log := Loop(w, limits, r, at); Disciplined(w, limits, r, at.turn, log.events, log.executions)
    decreases limits.maxTurns - at.turn
  {
    hide ReadTurn, RunTools, CoreRun, TurnReading, NextMessages, Seen, Disciplined, Loop, WellTraced, Executions, UnderWay, Accepted, TurnVerdict, CalledIn, StartedIn, Heads;
    LoopStep(w, limits, r, at);
    if w.aborted(at.checks) {
      NoToolsStarted(w, limits, r, at.turn, [Failed(at.turn, LoopAborted)]);
    } else {
      var reading := TurnReading(w, r, at);
      var said := [TurnStarted(at.turn)] + reading.emitted;
      TurnSaid(w, limits, r, at);
      var verdict := TurnVerdict(w, limits, r, at.turn, reading);
      if verdict.Some? {
        assert forall i :: 0 <= i < |said + [verdict.value]| ==> !(said + [verdict.value])[i].ExecutionStarted?;
        NoToolsStarted(w, limits, r, at.turn, said + [verdict.value]);
      } else {
        var idle := IDLE.(checks := reading.checks + 1);
        var ran := RunTools(w, limits, at.turn, at.count, idle, reading.calls);
        NothingYet(at.turn);
        BatchStarts(w, limits, at.turn, at.count, idle, [], reading.calls);
        assert [] + reading.calls == reading.calls;
        NothingReported(at.turn);
        ToolsReport(w, limits, at.turn, at.count, idle, reading.calls);
        if ran.stop.Some? {
          TurnCutShort(w, limits, r, at.turn, said, ran, ran.stop.value);
        } else {
          var next := Standing(at.turn + 1, NextMessages(at, reading, ran), Seen(at.seen, reading.calls), ran.checks, at.count + |ran.executions|);
          LoopDisciplined(w, limits, r, next);
          LoopTrace(w, limits, r, next);
          var rest := Loop(w, limits, r, next);
          LaterTurns(r, next.turn, rest.events);
          SomeEvents(r, next.turn, rest.events);
          TurnThenRest(w, limits, r, at.turn, said, ran, rest.events, rest.executions);
        }
      }
    }
  }

  lemma NothingYet(turn: nat)
    ensures StartedIn([], turn) == Heads([])
  {}

  lemma SomeEvents(r: Request, from: nat, events: seq<LoopEvent>)
    requires WellTraced(r, from, events)
    ensures events != []
  {}

  /** What a turn announces, and when its batch is accepted. */
  lemma TurnSaid(w: AgentLoop.World, limits: Limits, r: Request, at: Standing)
    requires at.turn < limits.maxTurns
    ensures var reading := TurnReading(w, r, at);
            var said := [TurnStarted(at.turn)] + reading.emitted;
            var verdict := TurnVerdict(w, limits, r, at.turn, reading);
            && (forall i :: 0 <= i < |said| ==> !said[i].ExecutionStarted?)
            && (verdict.Some? ==> !verdict.value.ExecutionStarted?)
            && (verdict.None? ==> at.turn + 1 < limits.maxTurns && Accepted(w, limits, r, at.turn, said) && CalledIn(said, at.turn) == reading.calls)
  {
    hide ReadTurn, CoreRun, CalledIn;
    var request := r.(messages := at.messages);
    var events := CoreRun(request, w.gateway(at.turn, request));
    var begun := FRESH.(checks := at.checks + 1);
    NothingSpoken(at.turn);
    ReadSpeaks(w, at.turn, at.seen, begun, events);
    NothingRead(at.turn, begun);
    TurnAnnounces(w, at.turn, at.seen, begun, events);
    CompletionAnnounced(w, at.turn, at.seen, begun, events);
    var reading := TurnReading(w, r, at);
    AnnouncedAppend([TurnStarted(at.turn)], reading.emitted, at.turn);
    SilentSaysNothing([TurnStarted(at.turn)], at.turn);
    assert [] + reading.calls == reading.calls;
    VerdictMeans(w, limits, r, at.turn, reading);
  }

  /**
   No tool runs unless its whole batch was accepted: the tools started in a turn
   are, in order, the first calls announced in it; before the first of them all
   its calls and its completion were announced, within the limits and for known
   tools; and the tools invoked are those started, but for a last one that an
   abort came before.
   */
  lemma ToolsRunOnlyWhenAccepted(w: AgentLoop.World, limits: Limits, r: Request)
    requires limits.maxTurns >= 1
    ensures var log := AgentLoop.Run(w, limits, r); Disciplined(w, limits, r, 0, log.events, log.executions)
  {
    hide Loop, Disciplined, HistoryIds;
    if w.aborted(0) {
      NoToolsStarted(w, limits, r, 0, [Failed(0, LoopAborted)]);
    } else {
      LoopDisciplined(w, limits, r, Standing(0, r.messages, HistoryIds(r.messages), 1, 0));
    }
  }
}
