/**
 One attempt, the single-shot gateway, and the gateway that retries and fails over.

 The world answers the k-th request with a trace. Time counts suspensions: the
 abort flag can only change while the program waits for an attempt or a backoff.
 */
module Gateway {
  import opened Base
  import opened Events
  import opened Registry

  // ----- one attempt -----

  /** How the transport and the adapter treated one request. */
  datatype Attempt =
    | NotPrepared
    | SendFailed(abortedMeanwhile: bool)
    | SendAborted
    | Answered(status: nat, hasBody: bool, decoded: seq<ModelEvent>)
    | DecodeRefused(abortedMeanwhile: bool)

  /** 429 is a rate limit; a few statuses are a temporary failure; the rest is final. */
  function StatusCode(status: nat): ErrorCode {
    if status == 429 then RateLimited
    else if status in {408, 425, 500, 502, 503, 504} then UpstreamUnavailable
    else GatewayError
  }

  /** What `runCandidateAttempt` yields. */
  function AttemptTrace(a: Attempt): seq<ModelEvent> {
    match a
    case NotPrepared => [StreamError(GatewayError)]
    case SendFailed(aborted) => [StreamError(if aborted then Aborted else UpstreamUnavailable)]
    case SendAborted => [StreamError(Aborted)]
    case Answered(status, hasBody, decoded) =>
      if status < 200 || status > 299 then [StreamError(StatusCode(status))]
      else if !hasBody then [StreamError(ProviderProtocolError)]
      else decoded
    case DecodeRefused(aborted) => [StreamError(if aborted then Aborted else GatewayError)]
  }

  /** An error event whose flag is the one its code calls for. */
  predicate Canonical(e: ModelEvent) {
    e.Error? ==> e == StreamError(e.code)
  }

  /** One terminal event, at the end, and canonical errors. */
  predicate Proper(trace: seq<ModelEvent>) {
    OneTerminalAtEnd(trace) && forall i :: 0 <= i < |trace| ==> Canonical(trace[i])
  }

  lemma AttemptIsProper(a: Attempt)
    requires a.Answered? ==> Proper(a.decoded)
    ensures Proper(AttemptTrace(a))
  {
    var t := AttemptTrace(a);
    if |t| == 1 {
      assert t[..0] == [];
    }
  }

  // ----- policy -----

  datatype Policy = Policy(maxAttemptsPerProvider: nat, maxTotalAttempts: nat, initialBackoffMs: nat, maxBackoffMs: nat)

  predicate ValidPolicy(p: Policy) {
    p.maxAttemptsPerProvider >= 1 && p.maxTotalAttempts >= 1 && p.maxBackoffMs >= p.initialBackoffMs
  }

  function PowerOfTwo(n: nat): nat {
    if n == 0 then 1 else 2 * PowerOfTwo(n - 1)
  }

  function BackoffDelay(p: Policy, retryIndex: nat): (d: nat)
    ensures d <= p.maxBackoffMs
  {
    var scaled := p.initialBackoffMs * PowerOfTwo(retryIndex);
    if scaled < p.maxBackoffMs then scaled else p.maxBackoffMs
  }

  lemma {:induction false} PowerGrows(a: nat, b: nat)
    requires a <= b
    ensures PowerOfTwo(a) <= PowerOfTwo(b)
    decreases b - a
  {
    if a < b {
      PowerGrows(a, b - 1);
    }
  }

  /** Waiting never gets shorter from one retry to the next. */
  lemma BackoffGrows(p: Policy, a: nat, b: nat)
    requires a <= b
    ensures BackoffDelay(p, a) <= BackoffDelay(p, b)
  {
    hide PowerOfTwo;
    PowerGrows(a, b);
    ProductGrows(p.initialBackoffMs, PowerOfTwo(a), PowerOfTwo(b));
  }

  lemma {:induction false} ProductGrows(x: nat, a: nat, b: nat)
    requires a <= b
    ensures x * a <= x * b
    decreases x
  {
    if x > 0 {
      ProductGrows(x - 1, a, b);
      assert x * a == (x - 1) * a + a && x * b == (x - 1) * b + b;
    }
  }

  predicate Retryable(e: ModelEvent) {
    e.Error? && e.retryable && (e.code == RateLimited || e.code == UpstreamUnavailable)
  }

  predicate Visible(e: ModelEvent) {
    !e.Error?
  }

  // ----- judging an attempt -----

  /** An attempt is surfaced, or answered by another one; then nothing of it was visible. */
  datatype Verdict = Commit(events: seq<ModelEvent>) | Retry(code: ErrorCode)

  /** Reads a trace as it arrives; `shown` is what has already been passed on. */
  function Judge(trace: seq<ModelEvent>, shown: seq<ModelEvent>): Verdict
    decreases |trace|
  {
    if trace == [] then Commit(if shown != [] then shown else [StreamError(GatewayError)])
    else if Visible(trace[0]) then Judge(trace[1..], shown + [trace[0]])
    else if shown != [] || !Retryable(trace[0]) then Commit(shown + [trace[0]])
    else Retry(trace[0].code)
  }

  // ----- the machine -----

  /** The world and the caller's signal. */
  datatype World = World(answer: (nat, Resolved) -> seq<ModelEvent>, aborted: nat -> bool)

  /** What was emitted, which requests were sent (candidate, attempt), and how long each backoff was. */
  datatype Log = Log(out: seq<ModelEvent>, requests: seq<(nat, nat)>, waits: seq<nat>) {
    function After(requests': seq<(nat, nat)>, waits': seq<nat>): Log {
      Log(out, requests' + requests, waits' + waits)
    }
  }

  /** Where the nested loops stand. */
  datatype Position = Position(candidate: nat, attempt: nat, used: nat, time: nat, lastCode: Option<ErrorCode>)

  function Final(code: Option<ErrorCode>): seq<ModelEvent> {
    [StreamError(if code.Some? then code.value else GatewayError)]
  }

  function Resume(w: World, p: Policy, cs: seq<Resolved>, at: Position): Log
    decreases |cs| - at.candidate, p.maxAttemptsPerProvider - at.attempt
  {
    if at.candidate >= |cs| then Log(Final(at.lastCode), [], [])
    else if at.attempt >= p.maxAttemptsPerProvider then Resume(w, p, cs, at.(candidate := at.candidate + 1, attempt := 0))
    else if w.aborted(at.time) then Log([StreamError(Aborted)], [], [])
    else if at.used >= p.maxTotalAttempts then Log(Final(at.lastCode), [], [])
    else
      var waits := if at.attempt > 0 then [BackoffDelay(p, at.attempt - 1)] else [];
      var time := at.time + |waits|;
      if at.attempt > 0 && w.aborted(time) then Log([StreamError(Aborted)], [], waits)
      else
        match Judge(w.answer(at.used, cs[at.candidate]), [])
        case Commit(events) => Log(events, [(at.candidate, at.attempt)], waits)
        case Retry(code) =>
          Resume(w, p, cs, Position(at.candidate, at.attempt + 1, at.used + 1, time + 1, Some(code)))
          .After([(at.candidate, at.attempt)], waits)
  }

  const START := Position(0, 0, 0, 0, None)

  function Resilient(w: World, p: Policy, candidates: Result<seq<Resolved>, RegistryError>): Log {
    if w.aborted(0) then Log([StreamError(Aborted)], [], [])
    else
      match candidates
      case Err(_) => Log([StreamError(GatewayError)], [], [])
      case Ok(cs) => Resume(w, p, cs, START)
  }

  /** The single-shot gateway. */
  function SingleShot(w: World, resolved: Result<Resolved, RegistryError>): seq<ModelEvent> {
    if w.aborted(0) then [StreamError(Aborted)]
    else
      match resolved
      case Err(_) => [StreamError(GatewayError)]
      case Ok(candidate) => w.answer(0, candidate)
  }

  // ----- the gateway as the program runs it -----

  /** `stream`: candidates in order, attempts in order, one request at a time. */
  method Stream(w: World, p: Policy, candidates: Result<seq<Resolved>, RegistryError>) returns (log: Log)
    requires ValidPolicy(p)
    ensures log == Resilient(w, p, candidates)
  {
    hide Resume;
    hide Judge;
    hide BackoffDelay;
    hide StreamError;
    if w.aborted(0) {
      return Log([StreamError(Aborted)], [], []);
    }
    if candidates.Err? {
      return Log([StreamError(GatewayError)], [], []);
    }
    var cs := candidates.value;
    var attemptsUsed, time := 0, 0;
    var lastRetryableCode: Option<ErrorCode> := None;
    var requests: seq<(nat, nat)> := [];
    var waits: seq<nat> := [];
    ghost var goal := Resume(w, p, cs, START);
    NothingAfter(goal);
    var c := 0;
    while c < |cs|
      invariant c <= |cs|
      invariant goal == Resume(w, p, cs, Position(c, 0, attemptsUsed, time, lastRetryableCode)).After(requests, waits)
    {
      var a := 0;
      while a < p.maxAttemptsPerProvider
        invariant a <= p.maxAttemptsPerProvider
        invariant goal == Resume(w, p, cs, Position(c, a, attemptsUsed, time, lastRetryableCode)).After(requests, waits)
      {
        ghost var at := Position(c, a, attemptsUsed, time, lastRetryableCode);
        ResumeStep(w, p, cs, at);
        if w.aborted(time) {
          return Log([StreamError(Aborted)], requests, waits);
        }
        if attemptsUsed >= p.maxTotalAttempts {
          return Log(Final(lastRetryableCode), requests, waits);
        }
        ghost var requests0, waits0 := requests, waits;
        var waited: seq<nat> := [];
        if a > 0 {
          waited := [BackoffDelay(p, a - 1)];
          waits := waits + waited;
          time := time + 1;
          if w.aborted(time) {
            return Log([StreamError(Aborted)], requests, waits);
          }
        }
        assert waits == waits0 + waited && time == at.time + |waited|;
        requests := requests + [(c, a)];
        var out, retry := RunAttempt(w.answer(attemptsUsed, cs[c]));
        attemptsUsed := attemptsUsed + 1;
        time := time + 1;
        if retry.None? {
          return Log(out, requests, waits);
        }
        lastRetryableCode := retry;
        a := a + 1;
        ghost var next := Position(c, a, attemptsUsed, time, lastRetryableCode);
        AfterTwice(Resume(w, p, cs, next), [(c, a - 1)], waited, requests0, waits0);
      }
      ResumeNextCandidate(w, p, cs, Position(c, a, attemptsUsed, time, lastRetryableCode));
      c := c + 1;
    }
    ResumeDone(w, p, cs, Position(c, 0, attemptsUsed, time, lastRetryableCode));
    return Log(Final(lastRetryableCode), requests, waits);
  }

  /** Passes the events of one attempt on, until it is over or can be retried. */
  method RunAttempt(trace: seq<ModelEvent>) returns (out: seq<ModelEvent>, retry: Option<ErrorCode>)
    ensures Judge(trace, []) == if retry.Some? then Retry(retry.value) else Commit(out)
  {
    out := [];
    var visible := false;
    var i := 0;
    while i < |trace|
      invariant i <= |trace|
      invariant visible <==> out != []
      invariant Judge(trace, []) == Judge(trace[i..], out)
    {
      var event := trace[i];
      if Visible(event) {
        visible := true;
        out := out + [event];
        assert trace[i..][1..] == trace[i + 1..];
        i := i + 1;
        continue;
      }
      if visible || !Retryable(event) {
        return out + [event], None;
      }
      return [], Some(event.code);
    }
    if visible {
      return out, None;
    }
    return [StreamError(GatewayError)], None;
  }

  lemma ResumeStep(w: World, p: Policy, cs: seq<Resolved>, at: Position)
    requires at.candidate < |cs| && at.attempt < p.maxAttemptsPerProvider
    ensures Resume(w, p, cs, at) ==
            if w.aborted(at.time) then Log([StreamError(Aborted)], [], [])
            else if at.used >= p.maxTotalAttempts then Log(Final(at.lastCode), [], [])
            else
              var waits := if at.attempt > 0 then [BackoffDelay(p, at.attempt - 1)] else [];
              var time := at.time + |waits|;
              if at.attempt > 0 && w.aborted(time) then Log([StreamError(Aborted)], [], waits)
              else
                var verdict := Judge(w.answer(at.used, cs[at.candidate]), []);
                if verdict.Commit? then Log(verdict.events, [(at.candidate, at.attempt)], waits)
                else
                  Resume(w, p, cs, Position(at.candidate, at.attempt + 1, at.used + 1, time + 1, Some(verdict.code)))
                  .After([(at.candidate, at.attempt)], waits)
  {}

  lemma ResumeNextCandidate(w: World, p: Policy, cs: seq<Resolved>, at: Position)
    requires at.candidate < |cs| && at.attempt >= p.maxAttemptsPerProvider
    ensures Resume(w, p, cs, at) == Resume(w, p, cs, at.(candidate := at.candidate + 1, attempt := 0))
  {}

  lemma ResumeDone(w: World, p: Policy, cs: seq<Resolved>, at: Position)
    requires at.candidate >= |cs|
    ensures Resume(w, p, cs, at) == Log(Final(at.lastCode), [], [])
  {}

  lemma NothingAfter(log: Log)
    ensures log.After([], []) == log
  {}

  lemma AfterTwice(log: Log, r1: seq<(nat, nat)>, w1: seq<nat>, r0: seq<(nat, nat)>, w0: seq<nat>)
    ensures log.After(r1, w1).After(r0, w0) == log.After(r0 + r1, w0 + w1)
  {
    assert r0 + (r1 + log.requests) == (r0 + r1) + log.requests;
    assert w0 + (w1 + log.waits) == (w0 + w1) + log.waits;
  }

  // ----- one attempt is committed to -----

  lemma {:induction false} JudgeCommits(trace: seq<ModelEvent>, shown: seq<ModelEvent>)
    requires Proper(trace) && NoTerminal(shown)
    requires forall i :: 0 <= i < |shown| ==> Canonical(shown[i])
    ensures Judge(trace, shown).Commit? ==> Judge(trace, shown).events == shown + trace
    ensures Judge(trace, shown).Retry? <==> shown == [] && Retryable(trace[0])
    ensures Judge(trace, shown).Retry? ==> trace == [StreamError(Judge(trace, shown).code)]
    decreases |trace|
  {
    if |trace| == 1 {
      assert trace == [trace[0]];
      if Visible(trace[0]) {
        assert trace[1..] == [];
      }
    } else {
      assert trace[..|trace| - 1][0] == trace[0];
      var rest := trace[1..];
      assert rest[..|rest| - 1] == trace[..|trace| - 1][1..];
      JudgeCommits(rest, shown + [trace[0]]);
      assert shown + trace == (shown + [trace[0]]) + rest;
    }
  }

  /** The request the k-th entry of a log stands for. */
  function AnswerTo(w: World, cs: seq<Resolved>, requests: seq<(nat, nat)>, first: nat, k: nat): seq<ModelEvent>
    requires k < |requests| && requests[k].0 < |cs|
  {
    w.answer(first + k, cs[requests[k].0])
  }

  /** Attempts follow each other: the next attempt of a candidate, or the first of the next one. */
  predicate Follows(p: Policy, a: (nat, nat), b: (nat, nat)) {
    || b == (a.0, a.1 + 1)
    || (b == (a.0 + 1, 0) && a.1 + 1 == p.maxAttemptsPerProvider)
  }

  /** A log that respects the order and the bounds, read from a position. */
  ghost predicate Orderly(w: World, p: Policy, cs: seq<Resolved>, at: Position, log: Log) {
    && (forall k :: 0 <= k < |log.requests| ==> log.requests[k].0 < |cs| && log.requests[k].1 < p.maxAttemptsPerProvider)
    && (log.requests != [] && at.attempt < p.maxAttemptsPerProvider ==> log.requests[0] == (at.candidate, at.attempt))
    && (log.requests != [] && at.attempt == p.maxAttemptsPerProvider ==> log.requests[0] == (at.candidate + 1, 0))
    && (forall k :: 0 < k < |log.requests| ==> Follows(p, log.requests[k - 1], log.requests[k]))
    && at.used + |log.requests| <= p.maxTotalAttempts
    && |log.waits| <= p.maxTotalAttempts - at.used
    && (at.attempt == 0 || at.attempt == p.maxAttemptsPerProvider ==> |log.waits| <= p.maxTotalAttempts - at.used - 1 || at.used == p.maxTotalAttempts)
    && (forall k :: 0 <= k < |log.waits| ==> log.waits[k] <= p.maxBackoffMs)
  }

  lemma {:induction false} ResumeOrderly(w: World, p: Policy, cs: seq<Resolved>, at: Position)
    requires ValidPolicy(p) && at.attempt <= p.maxAttemptsPerProvider && at.used <= p.maxTotalAttempts
    ensures Orderly(w, p, cs, at, Resume(w, p, cs, at))
    decreases |cs| - at.candidate, p.maxAttemptsPerProvider - at.attempt
  {
    hide BackoffDelay;
    hide Judge;
    hide Orderly;
    hide Resume;
    if at.candidate >= |cs| {
      ResumeDone(w, p, cs, at);
      OrderlyEnd(w, p, cs, at, Resume(w, p, cs, at));
    } else {
      if at.attempt == p.maxAttemptsPerProvider {
        ResumeNextCandidate(w, p, cs, at);
        OrderlyNext(w, p, cs, at, Resume(w, p, cs, at));
        ResumeOrderly(w, p, cs, at.(candidate := at.candidate + 1, attempt := 0));
      } else {
        ResumeStep(w, p, cs, at);
        var waits := if at.attempt > 0 then [BackoffDelay(p, at.attempt - 1)] else [];
        var time := at.time + |waits|;
        var verdict := Judge(w.answer(at.used, cs[at.candidate]), []);
        if w.aborted(at.time) || at.used >= p.maxTotalAttempts || (at.attempt > 0 && w.aborted(time)) || verdict.Commit? {
          OrderlyEnd(w, p, cs, at, Resume(w, p, cs, at));
        } else {
          var next := Position(at.candidate, at.attempt + 1, at.used + 1, time + 1, Some(verdict.code));
          ResumeOrderly(w, p, cs, next);
          OrderlyRetry(w, p, cs, at, next, Resume(w, p, cs, next), waits);
        }
      }
    }
  }

  /** A log that ends here, with or without one more request. */
  lemma OrderlyEnd(w: World, p: Policy, cs: seq<Resolved>, at: Position, log: Log)
    requires ValidPolicy(p) && at.attempt <= p.maxAttemptsPerProvider && at.used <= p.maxTotalAttempts
    requires log.requests == [] || (log.requests == [(at.candidate, at.attempt)] && at.candidate < |cs|
                                    && at.attempt < p.maxAttemptsPerProvider && at.used < p.maxTotalAttempts)
    requires log.waits == [] || (0 < at.attempt < p.maxAttemptsPerProvider && at.used < p.maxTotalAttempts
                                 && |log.waits| == 1 && log.waits[0] <= p.maxBackoffMs)
    ensures Orderly(w, p, cs, at, log)
  {}

  lemma OrderlyNext(w: World, p: Policy, cs: seq<Resolved>, at: Position, log: Log)
    requires ValidPolicy(p) && at.attempt == p.maxAttemptsPerProvider
    ensures Orderly(w, p, cs, at.(candidate := at.candidate + 1, attempt := 0), log) ==> Orderly(w, p, cs, at, log)
  {}

  lemma OrderlyRetry(w: World, p: Policy, cs: seq<Resolved>, at: Position, next: Position, log: Log, waits: seq<nat>)
    requires at.candidate < |cs| && at.attempt < p.maxAttemptsPerProvider && at.used < p.maxTotalAttempts
    requires next.candidate == at.candidate && next.attempt == at.attempt + 1 && next.used == at.used + 1
    requires |waits| == (if at.attempt > 0 then 1 else 0) && (waits != [] ==> waits[0] <= p.maxBackoffMs)
    requires Orderly(w, p, cs, next, log)
    ensures Orderly(w, p, cs, at, log.After([(at.candidate, at.attempt)], waits))
  {
    var whole := log.After([(at.candidate, at.attempt)], waits);
    assert forall k :: 0 < k < |whole.requests| ==> whole.requests[k] == log.requests[k - 1];
  }

  function Sum(waits: seq<nat>): nat {
    if waits == [] then 0 else waits[0] + Sum(waits[1..])
  }

  lemma {:induction false} SumBound(waits: seq<nat>, bound: nat)
    requires forall k :: 0 <= k < |waits| ==> waits[k] <= bound
    ensures Sum(waits) <= |waits| * bound
    decreases |waits|
  {
    if waits != [] {
      SumBound(waits[1..], bound);
      assert |waits| * bound == bound + (|waits| - 1) * bound;
    }
  }

  /**
   Attempts run in candidate order, attempt after attempt, within both limits,
   and the time spent waiting is bounded.
   */
  lemma AttemptsAreBounded(w: World, p: Policy, candidates: Result<seq<Resolved>, RegistryError>)
    requires ValidPolicy(p)
    ensures var log := Resilient(w, p, candidates);
            && |log.requests| <= p.maxTotalAttempts
            && (log.requests != [] ==> log.requests[0] == (0, 0))
            && (forall k :: 0 < k < |log.requests| ==> Follows(p, log.requests[k - 1], log.requests[k]))
            && (forall k :: 0 <= k < |log.requests| ==> log.requests[k].1 < p.maxAttemptsPerProvider)
            && Sum(log.waits) <= (p.maxTotalAttempts - 1) * p.maxBackoffMs
  {
    hide Resume;
    hide Sum;
    var log := Resilient(w, p, candidates);
    if !w.aborted(0) && candidates.Ok? {
      ResumeOrderly(w, p, candidates.value, START);
      SumBound(log.waits, p.maxBackoffMs);
      MulMonotone(|log.waits|, p.maxTotalAttempts - 1, p.maxBackoffMs);
    } else {
      SumNothing();
      MulMonotone(0, p.maxTotalAttempts - 1, p.maxBackoffMs);
    }
  }

  lemma SumNothing()
    ensures Sum([]) == 0
  {}

  lemma MulMonotone(n: nat, max: nat, bound: nat)
    requires n <= max
    ensures n * bound <= max * bound
  {}

  // ----- never two attempts' output -----

  /** The answers are well formed, whoever gives them. */
  ghost predicate ProperWorld(w: World) {
    forall k, c :: Proper(w.answer(k, c))
  }

  /** One retryable error and nothing else: the answers that are followed by another request. */
  predicate RetriedAway(answer: seq<ModelEvent>) {
    |answer| == 1 && Retryable(answer[0]) && Canonical(answer[0])
  }

  /** Every request but the last was retried away; the last one is what is seen, unless it too was, and the caller aborted. */
  ghost predicate OneAttempt(w: World, cs: seq<Resolved>, used: nat, lastCode: Option<ErrorCode>, log: Log) {
    var n := |log.requests|;
    && (forall k :: 0 <= k < n ==> log.requests[k].0 < |cs|)
    && (forall k :: 0 <= k < n - 1 ==> RetriedAway(AnswerTo(w, cs, log.requests, used, k)))
    && (n > 0 ==>
          || log.out == AnswerTo(w, cs, log.requests, used, n - 1)
          || (log.out == [StreamError(Aborted)] && RetriedAway(AnswerTo(w, cs, log.requests, used, n - 1))))
    && (n == 0 ==> log.out == Final(lastCode) || log.out == [StreamError(Aborted)])
  }

  lemma {:induction false} ResumeOneAttempt(w: World, p: Policy, cs: seq<Resolved>, at: Position)
    requires ValidPolicy(p) && ProperWorld(w) && at.attempt <= p.maxAttemptsPerProvider
    ensures OneAttempt(w, cs, at.used, at.lastCode, Resume(w, p, cs, at))
    decreases |cs| - at.candidate, p.maxAttemptsPerProvider - at.attempt
  {
    hide BackoffDelay;
    hide Judge;
    hide Proper;
    hide Resume;
    hide Retryable;
    if at.candidate >= |cs| {
      ResumeDone(w, p, cs, at);
    } else if at.attempt == p.maxAttemptsPerProvider {
      ResumeNextCandidate(w, p, cs, at);
      ResumeOneAttempt(w, p, cs, at.(candidate := at.candidate + 1, attempt := 0));
    } else {
      ResumeStep(w, p, cs, at);
      if !w.aborted(at.time) && at.used < p.maxTotalAttempts {
        var waits := if at.attempt > 0 then [BackoffDelay(p, at.attempt - 1)] else [];
        var time := at.time + |waits|;
        if !(at.attempt > 0 && w.aborted(time)) {
          var answer := w.answer(at.used, cs[at.candidate]);
          var verdict := Judge(answer, []);
          JudgeAnswer(answer);
          if verdict.Retry? {
            var next := Position(at.candidate, at.attempt + 1, at.used + 1, time + 1, Some(verdict.code));
            ResumeOneAttempt(w, p, cs, next);
            OneMoreAttempt(w, cs, at, Resume(w, p, cs, next), verdict.code, waits);
          }
        }
      }
    }
  }

  lemma JudgeAnswer(answer: seq<ModelEvent>)
    requires Proper(answer)
    ensures var verdict := Judge(answer, []);
            if verdict.Commit? then verdict.events == answer
            else answer == [StreamError(verdict.code)] && Retryable(StreamError(verdict.code))
  {
    JudgeCommits(answer, []);
    assert [] + answer == answer;
  }

  lemma OneMoreAttempt(w: World, cs: seq<Resolved>, at: Position, log: Log, code: ErrorCode, waits: seq<nat>)
    requires OneAttempt(w, cs, at.used + 1, Some(code), log)
    requires at.candidate < |cs| && w.answer(at.used, cs[at.candidate]) == [StreamError(code)] && Retryable(StreamError(code))
    ensures OneAttempt(w, cs, at.used, at.lastCode, log.After([(at.candidate, at.attempt)], waits))
  {
    var whole := log.After([(at.candidate, at.attempt)], waits);
    assert AnswerTo(w, cs, whole.requests, at.used, 0) == [StreamError(code)];
    forall k | 0 < k < |whole.requests|
      ensures whole.requests[k] == log.requests[k - 1]
      ensures AnswerTo(w, cs, whole.requests, at.used, k) == AnswerTo(w, cs, log.requests, at.used + 1, k - 1)
    {
    }
  }

  /**
   The output is one attempt's output: all earlier requests were answered by a
   single retryable error, and no request follows a visible event. A caller that
   aborts between attempts, or a failed resolution, gets one error event.
   */
  lemma CommitsToOneAttempt(w: World, p: Policy, candidates: Result<seq<Resolved>, RegistryError>)
    requires ValidPolicy(p) && ProperWorld(w)
    ensures var log := Resilient(w, p, candidates);
            && OneTerminalAtEnd(log.out)
            && (log.requests == [] ==> |log.out| == 1 && log.out[0].Error?)
            && (log.requests != [] ==> candidates.Ok? && OneAttempt(w, candidates.value, 0, None, log))
  {
    hide Resume;
    hide OneAttempt;
    hide Proper;
    var log := Resilient(w, p, candidates);
    if !w.aborted(0) && candidates.Ok? {
      ResumeOneAttempt(w, p, candidates.value, START);
      OneAttemptShape(w, candidates.value, 0, None, log);
    } else {
      assert log.out[..0] == [];
    }
  }

  lemma OneAttemptShape(w: World, cs: seq<Resolved>, used: nat, lastCode: Option<ErrorCode>, log: Log)
    requires ProperWorld(w) && OneAttempt(w, cs, used, lastCode, log)
    ensures OneTerminalAtEnd(log.out)
    ensures log.requests == [] ==> |log.out| == 1 && log.out[0].Error?
  {
    var n := |log.requests|;
    if n > 0 && log.out == AnswerTo(w, cs, log.requests, used, n - 1) {
      assert Proper(w.answer(used + n - 1, cs[log.requests[n - 1].0]));
    } else {
      assert log.out[..0] == [];
    }
  }

  // ----- refinement -----

  /**
   For a route without fallbacks and a policy of one attempt, the resilient
   gateway is the single-shot one, failures of resolution included.
   */
  lemma RefinesSingleShot(w: World, p: Policy, st: State, routeId: string)
    requires ValidPolicy(p) && p.maxAttemptsPerProvider == 1 && ProperWorld(w)
    requires routeId in st.routes ==> st.routes[routeId].FallbackIds() == []
    ensures Resilient(w, p, ResolveCandidates(st, routeId)).out == SingleShot(w, ResolveRoute(st, routeId))
  {
    hide Judge;
    hide Resume;
    hide ResolveCandidates;
    hide ResolveRoute;
    hide Proper;
    SoleCandidate(st, routeId);
    if !w.aborted(0) && ResolveRoute(st, routeId).Ok? {
      var c := ResolveRoute(st, routeId).value;
      ResumeStep(w, p, [c], START);
      JudgeAnswer(w.answer(0, c));
      var verdict := Judge(w.answer(0, c), []);
      if verdict.Retry? {
        var next := Position(0, 1, 1, 1, Some(verdict.code));
        ResumeNextCandidate(w, p, [c], next);
        ResumeDone(w, p, [c], next.(candidate := 1, attempt := 0));
      }
    }
  }
}
