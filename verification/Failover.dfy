/**
 When the resilient gateway tries again: after every rate limit and every temporary
 failure, until a limit is reached or the caller aborts, and after nothing else.
 The codes are spelled out here; the gateway's own judgement is not mentioned.
 */
module Failover {
  import opened Base
  import opened Events
  import opened Registry
  import opened Gateway

  /** An answer that fails at once, and in a way that may pass. */
  predicate Transient(answer: seq<ModelEvent>) {
    answer != [] && answer[0] in {Error(RateLimited, true), Error(UpstreamUnavailable, true)}
  }

  /** The requests that waited, and how long. */
  function Waits(p: Policy, requests: seq<(nat, nat)>): seq<nat> {
    if requests == [] then []
    else
      var attempt := requests[|requests| - 1].1;
      Waits(p, requests[..|requests| - 1]) + if attempt > 0 then [BackoffDelay(p, attempt - 1)] else []
  }

  /** The last attempt that may be made. */
  predicate LastResort(p: Policy, cs: seq<Resolved>, request: (nat, nat)) {
    request.0 + 1 == |cs| && request.1 + 1 == p.maxAttemptsPerProvider
  }

  /** The caller had aborted when the log ended, and was told so. */
  predicate AbortedEnd(w: World, at: Position, log: Log) {
    log.out == [Error(Aborted, false)] && w.aborted(at.time + |log.requests| + |log.waits|)
  }

  /** A log that begins at `at`: who is asked again, and who is not. */
  ghost predicate Persistent(w: World, p: Policy, cs: seq<Resolved>, at: Position, log: Log) {
    var n := |log.requests|;
    && (forall k :: 0 <= k < n ==> log.requests[k].0 < |cs|)
    && (forall k :: 0 <= k < n - 1 ==> Transient(AnswerTo(w, cs, log.requests, at.used, k)) && !LastResort(p, cs, log.requests[k]))
    && (n > 0 && Transient(AnswerTo(w, cs, log.requests, at.used, n - 1)) ==>
          at.used + n == p.maxTotalAttempts || LastResort(p, cs, log.requests[n - 1]) || AbortedEnd(w, at, log))
    && (n == 0 ==> Exhausted(p, cs, at) || at.used == p.maxTotalAttempts || AbortedEnd(w, at, log))
    && (Exhausted(p, cs, at) ==> n == 0)
    && (n > 0 && Transient(AnswerTo(w, cs, log.requests, at.used, n - 1)) && !AbortedEnd(w, at, log) ==>
          log.out == [AnswerTo(w, cs, log.requests, at.used, n - 1)[0]])
    && (n == 0 && !AbortedEnd(w, at, log) ==> log.out == GivingUp(at.lastCode))
  }

  /** The one error of a gateway that gives up, by the last retryable code it has seen. */
  function GivingUp(lastCode: Option<ErrorCode>): seq<ModelEvent> {
    match lastCode
    case Some(RateLimited) => [Error(RateLimited, true)]
    case Some(UpstreamUnavailable) => [Error(UpstreamUnavailable, true)]
    case Some(code) => [Error(code, false)]
    case None => [Error(GatewayError, false)]
  }

  predicate Exhausted(p: Policy, cs: seq<Resolved>, at: Position) {
    at.candidate >= |cs| || (at.candidate + 1 == |cs| && at.attempt == p.maxAttemptsPerProvider)
  }

  /** When the k-th request is considered: one step for each request and each wait before it. */
  function Clock(p: Policy, time: nat, requests: seq<(nat, nat)>, k: nat): nat
    requires k <= |requests|
  {
    time + k + |Waits(p, requests[..k])|
  }

  /** No request is sent, and no wait begun, once the caller has aborted. */
  ghost predicate Timely(w: World, p: Policy, time: nat, requests: seq<(nat, nat)>) {
    forall k :: 0 <= k < |requests| ==>
      !w.aborted(Clock(p, time, requests, k)) && (requests[k].1 > 0 ==> !w.aborted(Clock(p, time, requests, k) + 1))
  }

  /** The waits are those of the requests; a last one may have been ended by an abort. */
  ghost predicate Waited(w: World, p: Policy, at: Position, log: Log) {
    log.waits == Waits(p, log.requests) || (AbortedEnd(w, at, log) && Waits(p, log.requests) < log.waits)
  }

  lemma JudgeRetries(answer: seq<ModelEvent>)
    ensures Judge(answer, []).Retry? <==> Transient(answer)
    ensures Transient(answer) ==> Judge(answer, []).code == answer[0].code
  {
    if answer != [] && Visible(answer[0]) {
      NeverRetried(answer[1..], [answer[0]]);
      assert [] + [answer[0]] == [answer[0]];
    }
  }

  lemma {:induction false} NeverRetried(trace: seq<ModelEvent>, shown: seq<ModelEvent>)
    requires shown != []
    ensures Judge(trace, shown).Commit?
    decreases |trace|
  {
    if trace != [] && Visible(trace[0]) {
      NeverRetried(trace[1..], shown + [trace[0]]);
    }
  }

  lemma {:induction false} WaitsAppend(p: Policy, a: seq<(nat, nat)>, b: seq<(nat, nat)>)
    ensures Waits(p, a + b) == Waits(p, a) + Waits(p, b)
    decreases |b|
  {
    hide BackoffDelay;
    if b == [] {
      assert a + b == a;
    } else {
      assert (a + b)[..|a + b| - 1] == a + b[..|b| - 1];
      WaitsAppend(p, a, b[..|b| - 1]);
    }
  }

  lemma OneWait(p: Policy, request: (nat, nat))
    ensures Waits(p, [request]) == if request.1 > 0 then [BackoffDelay(p, request.1 - 1)] else []
    ensures Waits(p, []) == []
  {
    assert [request][..0] == [];
  }

  /** One request in front of the rest of a log. */
  lemma PersistentAfter(w: World, p: Policy, cs: seq<Resolved>, at: Position, next: Position, log: Log, waits: seq<nat>)
    requires at.candidate < |cs| && at.attempt < p.maxAttemptsPerProvider && at.used < p.maxTotalAttempts
    requires next.candidate == at.candidate && next.attempt == at.attempt + 1 && next.used == at.used + 1 && next.time == at.time + |waits| + 1
    requires Transient(w.answer(at.used, cs[at.candidate])) && Persistent(w, p, cs, next, log)
    requires next.lastCode == Some(w.answer(at.used, cs[at.candidate])[0].code)
    ensures Persistent(w, p, cs, at, log.After([(at.candidate, at.attempt)], waits))
  {
    GivesUpWith(w.answer(at.used, cs[at.candidate]));
    hide Transient, GivingUp;
    var whole := log.After([(at.candidate, at.attempt)], waits);
    forall k | 0 < k < |whole.requests|
      ensures whole.requests[k] == log.requests[k - 1]
      ensures AnswerTo(w, cs, whole.requests, at.used, k) == AnswerTo(w, cs, log.requests, next.used, k - 1)
    {
    }
    assert AnswerTo(w, cs, whole.requests, at.used, 0) == w.answer(at.used, cs[at.candidate]);
    assert AbortedEnd(w, next, log) ==> AbortedEnd(w, at, whole);
  }

  lemma GivesUpWith(answer: seq<ModelEvent>)
    requires Transient(answer)
    ensures answer != [] && answer[0].Error? && GivingUp(Some(answer[0].code)) == [answer[0]]
  {}

  lemma TimelyAfter(w: World, p: Policy, time: nat, first: (nat, nat), later: nat, requests: seq<(nat, nat)>)
    requires later == time + 1 + (if first.1 > 0 then 1 else 0)
    requires !w.aborted(time) && (first.1 > 0 ==> !w.aborted(time + 1)) && Timely(w, p, later, requests)
    ensures Timely(w, p, time, [first] + requests)
  {
    hide BackoffDelay, Waits;
    var whole := [first] + requests;
    OneWait(p, first);
    forall k | 0 <= k < |whole|
      ensures k == 0 ==> Clock(p, time, whole, k) == time
      ensures k > 0 ==> whole[k] == requests[k - 1] && Clock(p, time, whole, k) == Clock(p, later, requests, k - 1)
    {
      if k == 0 {
        assert whole[..0] == [];
      } else {
        assert whole[..k] == [first] + requests[..k - 1];
        WaitsAppend(p, [first], requests[..k - 1]);
      }
    }
  }

  lemma WaitedAfter(w: World, p: Policy, at: Position, next: Position, log: Log, waits: seq<nat>)
    requires waits == (if at.attempt > 0 then [BackoffDelay(p, at.attempt - 1)] else []) && next.time == at.time + |waits| + 1
    requires Waited(w, p, next, log)
    ensures Waited(w, p, at, log.After([(at.candidate, at.attempt)], waits))
  {
    hide BackoffDelay, Waits;
    var first := (at.candidate, at.attempt);
    OneWait(p, first);
    WaitsAppend(p, [first], log.requests);
    assert AbortedEnd(w, next, log) ==> AbortedEnd(w, at, log.After([first], waits));
  }

  lemma {:induction false} ResumePersists(w: World, p: Policy, cs: seq<Resolved>, at: Position)
    requires ValidPolicy(p) && at.attempt <= p.maxAttemptsPerProvider && at.used <= p.maxTotalAttempts
    ensures var log := Resume(w, p, cs, at);
            Persistent(w, p, cs, at, log) && Timely(w, p, at.time, log.requests) && Waited(w, p, at, log)
    decreases |cs| - at.candidate, p.maxAttemptsPerProvider - at.attempt
  {
    hide BackoffDelay, Judge, Resume, Transient, Persistent, Timely, Waited;
    var log := Resume(w, p, cs, at);
    if at.candidate >= |cs| {
      ResumeDone(w, p, cs, at);
      NoRequest(w, p, cs, at, log);
    } else if at.attempt == p.maxAttemptsPerProvider {
      var next := at.(candidate := at.candidate + 1, attempt := 0);
      ResumeNextCandidate(w, p, cs, at);
      ResumePersists(w, p, cs, next);
      NextCandidate(w, p, cs, at, log);
    } else {
      ResumeStep(w, p, cs, at);
      var waits := if at.attempt > 0 then [BackoffDelay(p, at.attempt - 1)] else [];
      var time, first := at.time + |waits|, (at.candidate, at.attempt);
      var answer := w.answer(at.used, cs[at.candidate]);
      if w.aborted(at.time) || at.used >= p.maxTotalAttempts || (at.attempt > 0 && w.aborted(time)) {
        NoRequest(w, p, cs, at, log);
      } else {
        JudgeRetries(answer);
        var verdict := Judge(answer, []);
        if verdict.Commit? {
          LastRequest(w, p, cs, at, log, waits);
        } else {
          var next := Position(at.candidate, at.attempt + 1, at.used + 1, time + 1, Some(verdict.code));
          var rest := Resume(w, p, cs, next);
          ResumePersists(w, p, cs, next);
          PersistentAfter(w, p, cs, at, next, rest, waits);
          TimelyAfter(w, p, at.time, first, next.time, rest.requests);
          WaitedAfter(w, p, at, next, rest, waits);
        }
      }
    }
  }

  lemma NextCandidate(w: World, p: Policy, cs: seq<Resolved>, at: Position, log: Log)
    requires ValidPolicy(p) && at.candidate < |cs| && at.attempt == p.maxAttemptsPerProvider
    requires var next := at.(candidate := at.candidate + 1, attempt := 0);
             Persistent(w, p, cs, next, log) && Waited(w, p, next, log)
    ensures Persistent(w, p, cs, at, log) && Waited(w, p, at, log)
  {
    hide Transient, Waits;
  }

  lemma NoRequest(w: World, p: Policy, cs: seq<Resolved>, at: Position, log: Log)
    requires log.requests == []
    requires (log.waits == [] && log.out == Final(at.lastCode) && (Exhausted(p, cs, at) || at.used == p.maxTotalAttempts)) || AbortedEnd(w, at, log)
    ensures Persistent(w, p, cs, at, log) && Timely(w, p, at.time, log.requests) && Waited(w, p, at, log)
  {}

  lemma LastRequest(w: World, p: Policy, cs: seq<Resolved>, at: Position, log: Log, waits: seq<nat>)
    requires at.candidate < |cs| && at.attempt < p.maxAttemptsPerProvider && log.requests == [(at.candidate, at.attempt)] && log.waits == waits
    requires waits == if at.attempt > 0 then [BackoffDelay(p, at.attempt - 1)] else []
    requires !Transient(w.answer(at.used, cs[at.candidate])) && !w.aborted(at.time) && !w.aborted(at.time + |waits|)
    ensures Persistent(w, p, cs, at, log) && Timely(w, p, at.time, log.requests) && Waited(w, p, at, log)
  {
    hide BackoffDelay, Transient, Waits;
    OneWait(p, (at.candidate, at.attempt));
    assert log.requests[..0] == [];
  }

  /**
   A rate limit or a temporary failure is answered by another request, unless
   `maxTotalAttempts` is reached, the last candidate has had its last attempt, or the
   caller aborts and is told so; any other answer is the last. A gateway that gives up
   repeats the last answer. Requests wait as long as their attempt calls for, and
   none is sent once the caller has aborted.
   */
  lemma RetriedExactlyWhen(w: World, p: Policy, cs: seq<Resolved>)
    requires ValidPolicy(p) && !w.aborted(0)
    ensures var log := Resilient(w, p, Ok(cs));
            var n := |log.requests|;
            && (forall k :: 0 <= k < n ==> log.requests[k].0 < |cs|)
            && (forall k :: 0 <= k < n && !(k == n - 1 && AbortedEnd(w, START, log)) ==>
                  (k < n - 1 <==> Transient(AnswerTo(w, cs, log.requests, 0, k)) && k + 1 < p.maxTotalAttempts && !LastResort(p, cs, log.requests[k])))
            && (if cs == [] then n == 0 && log.out == [Error(GatewayError, false)] else n > 0)
            && (n > 0 && Transient(AnswerTo(w, cs, log.requests, 0, n - 1)) && !AbortedEnd(w, START, log) ==>
                  log.out == [AnswerTo(w, cs, log.requests, 0, n - 1)[0]])
            && Timely(w, p, 0, log.requests) && Waited(w, p, START, log)
  {
    hide Resume, Transient, Timely, Waited;
    ResumePersists(w, p, cs, START);
    AttemptsAreBounded(w, p, Ok(cs));
    if cs != [] {
      ResumeStep(w, p, cs, START);
    } else {
      ResumeDone(w, p, cs, START);
    }
  }

  /** Nobody is asked after an abort, or for a route that does not resolve; one error says so. */
  lemma RefusedBeforeAsking(w: World, p: Policy, candidates: Result<seq<Resolved>, RegistryError>, resolved: Result<Resolved, RegistryError>)
    ensures w.aborted(0) ==>
              Resilient(w, p, candidates) == Log([Error(Aborted, false)], [], []) && SingleShot(w, resolved) == [Error(Aborted, false)]
    ensures !w.aborted(0) && candidates.Err? ==> Resilient(w, p, candidates) == Log([Error(GatewayError, false)], [], [])
    ensures !w.aborted(0) && resolved.Err? ==> SingleShot(w, resolved) == [Error(GatewayError, false)]
  {
    hide Resume;
  }

  /** A wait doubles from one attempt to the next, up to the maximum. */
  lemma BackoffDoubles(p: Policy, attempt: nat)
    requires ValidPolicy(p)
    ensures BackoffDelay(p, 0) == p.initialBackoffMs
    ensures BackoffDelay(p, attempt + 1) == if 2 * BackoffDelay(p, attempt) < p.maxBackoffMs then 2 * BackoffDelay(p, attempt) else p.maxBackoffMs
  {
    var x, power := p.initialBackoffMs, PowerOfTwo(attempt);
    assert PowerOfTwo(attempt + 1) == 2 * power;
    assert x * (2 * power) == 2 * (x * power);
  }

  // ----- what an attempt makes of the transport -----

  /** An attempt is worth another one after 429, a temporary status or a broken connection. */
  lemma AttemptTransientExactlyWhen(a: Attempt)
    ensures Transient(AttemptTrace(a)) <==>
            match a
            case SendFailed(aborted) => !aborted
            case Answered(status, hasBody, decoded) =>
              if 200 <= status <= 299 then hasBody && Transient(decoded) else status in {408, 425, 429, 500, 502, 503, 504}
            case _ => false
    ensures a.Answered? && !(200 <= a.status <= 299) ==> (AttemptTrace(a) == [Error(RateLimited, true)] <==> a.status == 429)
    ensures a.Answered? && 200 <= a.status <= 299 && a.hasBody ==> AttemptTrace(a) == a.decoded
    ensures a.Answered? && 200 <= a.status <= 299 && !a.hasBody ==> AttemptTrace(a) == [Error(ProviderProtocolError, false)]
    ensures a.Answered? && !(200 <= a.status <= 299) ==>
              (AttemptTrace(a) == [Error(GatewayError, false)] <==> a.status !in {408, 425, 429, 500, 502, 503, 504})
    ensures a in {NotPrepared, DecodeRefused(false)} ==> AttemptTrace(a) == [Error(GatewayError, false)]
    ensures !a.Answered? ==> (AttemptTrace(a) == [Error(Aborted, false)] <==> a in {SendAborted, SendFailed(true), DecodeRefused(true)})
  {}
}
