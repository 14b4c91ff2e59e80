/**
 The layers put together: what the decoders say about the bytes of any
 response is what the gateway and the loop above them rely on.
 */
module Pipeline {
  import opened Base
  import opened Events
  import opened DecodeUtils
  import opened Sse
  import opened StreamRuntime
  import opened Registry
  import Anthropic = AnthropicStream
  import OpenAI = OpenAIStream
  import Gateway
  import Requests
  import AgentLoop
  import LoopProperties

  // ----- what a decoder may emit -----

  /** A canonical error, or an event whose tool input is an object. */
  predicate Good(e: ModelEvent) {
    Gateway.Canonical(e) && (e.ToolCall? ==> e.input.Obj?)
  }

  predicate AllGood(events: seq<ModelEvent>) {
    forall i :: 0 <= i < |events| ==> Good(events[i])
  }

  /** A decoder that emits good events only, by an invariant of its states. */
  ghost predicate Sound<S(!new)>(dec: FrameDecoder<S>, inv: S -> bool) {
    && inv(dec.start)
    && (forall s, frame :: inv(s) && dec.handle(s, frame).Ok? ==>
          inv(dec.handle(s, frame).value.0) && AllGood(dec.handle(s, frame).value.1))
    && (forall s :: inv(s) && dec.finish(s).Ok? ==> AllGood(dec.finish(s).value))
  }

  lemma {:induction false} FramesGood<S(!new)>(dec: FrameDecoder<S>, inv: S -> bool, s: S, frames: seq<SseEvent>)
    requires Sound(dec, inv) && inv(s)
    ensures var run := RunFrames(dec, s, frames);
            AllGood(run.events) && (run.state.Some? ==> inv(run.state.value))
    decreases |frames|
  {
    if frames != [] && dec.handle(s, frames[0]).Ok? {
      FramesGood(dec, inv, dec.handle(s, frames[0]).value.0, frames[1..]);
    }
  }

  lemma EofGood<S(!new), D>(dec: FrameDecoder<S>, inv: S -> bool, cfg: Config<D>, parser: ParserState<D>, s: S)
    requires Sound(dec, inv) && inv(s)
    ensures AllGood(AtEof(dec, cfg, parser, s).events)
  {
    hide Finish;
    if Finish(cfg, parser).Some? {
      FramesGood(dec, inv, s, Finish(cfg, parser).value);
    }
  }

  lemma {:induction false} DrainGood<S(!new), D>(
    dec: FrameDecoder<S>, inv: S -> bool, cfg: Config<D>, parser: ParserState<D>, s: S, source: Source)
    requires Sound(dec, inv) && inv(s)
    ensures AllGood(Drain(dec, cfg, parser, s, source).events)
    decreases |source.chunks|
  {
    hide AtEof, Sound, Feed, RunFrames;
    if source.chunks == [] {
      EofGood(dec, inv, cfg, parser, s);
    } else {
      var fed := Feed(cfg, parser, source.chunks[0]);
      FramesGood(dec, inv, s, fed.frames);
      var run := RunFed(dec, s, fed);
      if run.state.Some? {
        DrainGood(dec, inv, cfg, fed.next.value, run.state.value, source.(chunks := source.chunks[1..]));
      }
    }
  }

  /** Every source and every abort: a proper trace of good events. */
  lemma ObservedGood<S(!new), D>(dec: FrameDecoder<S>, inv: S -> bool, cfg: Config<D>, source: Source, abortAt: Option<nat>)
    requires WellBehaved(dec) && Sound(dec, inv)
    ensures var seen := Observed(FullTrace(dec, cfg, source), abortAt); Gateway.Proper(seen) && AllGood(seen)
  {
    hide Drain, WellBehaved;
    ObservedShape(dec, cfg, source, abortAt);
    DrainGood(dec, inv, cfg, Initial(cfg), dec.start, source);
    var seen := Observed(FullTrace(dec, cfg, source), abortAt);
    assert forall i :: 0 <= i < |seen| ==> Good(seen[i]);
  }

  // ----- the two decoders -----

  /** Every tool input the state holds is an object. */
  predicate AnthropicObjects(st: Anthropic.AnthropicState) {
    && (forall index <- st.blocks :: st.blocks[index].ToolBlock? ==> st.blocks[index].initial.Obj?)
    && CallsAreObjects(st.pending)
  }

  predicate CallsAreObjects(calls: seq<Anthropic.PendingCall>) {
    forall i :: 0 <= i < |calls| ==> calls[i].input.Obj?
  }

  lemma {:induction false} InsertKeepsObjects(calls: seq<Anthropic.PendingCall>, call: Anthropic.PendingCall)
    requires CallsAreObjects(calls) && call.input.Obj?
    ensures CallsAreObjects(Anthropic.InsertCall(calls, call))
    decreases |calls|
  {
    if calls != [] {
      InsertKeepsObjects(calls[..|calls| - 1], call);
    }
  }

  lemma {:induction false} SortKeepsObjects(calls: seq<Anthropic.PendingCall>)
    requires CallsAreObjects(calls)
    ensures CallsAreObjects(Anthropic.SortCalls(calls))
    decreases |calls|
  {
    if calls != [] {
      SortKeepsObjects(calls[..|calls| - 1]);
      InsertKeepsObjects(Anthropic.SortCalls(calls[..|calls| - 1]), calls[|calls| - 1]);
    }
  }

  lemma ReadOpensObjects(payload: Fields)
    ensures var m := Anthropic.ReadMessage(payload);
            m.Some? && m.value.OpenTool? ==> m.value.initial.Obj?
  {
    hide FiniteJson;
  }

  lemma AnthropicStep(p: Platform, limit: nat, st: Anthropic.AnthropicState, m: Anthropic.Message)
    requires AnthropicObjects(st) && (m.OpenTool? ==> m.initial.Obj?)
    requires Anthropic.ApplyMessage(p, limit, st, m).Some?
    ensures var next := Anthropic.ApplyMessage(p, limit, st, m).value; AnthropicObjects(next.0) && AllGood(next.1)
  {
    hide FiniteJson, Trim;
    SortKeepsObjects(st.pending);
  }

  lemma AnthropicSound(p: Platform, limit: nat)
    ensures Sound(Anthropic.Decoder(p, limit), AnthropicObjects)
  {
    hide Anthropic.ReadMessage;
    hide Anthropic.ApplyMessage;
    hide AnthropicObjects;
    var dec := Anthropic.Decoder(p, limit);
    assert AnthropicObjects(Anthropic.INITIAL) by {
      InitialObjects();
    }
    forall st: Anthropic.AnthropicState, frame: SseEvent | AnthropicObjects(st) && dec.handle(st, frame).Ok?
      ensures AnthropicObjects(dec.handle(st, frame).value.0) && AllGood(dec.handle(st, frame).value.1)
    {
      ReadOpensObjects(p.parse(frame.data).value.fields);
      AnthropicStep(p, limit, st, Anthropic.ReadFrame(p, frame.data).value);
    }
  }

  lemma InitialObjects()
    ensures AnthropicObjects(Anthropic.INITIAL)
  {}

  lemma {:induction false} BatchObjects(p: Platform, entries: map<nat, OpenAI.Entry>, indices: seq<nat>)
    requires OpenAI.Batch(p, entries, indices).Some?
    ensures AllGood(OpenAI.Batch(p, entries, indices).value)
    decreases |indices|
  {
    hide FiniteJson, Trim;
    if indices != [] {
      BatchObjects(p, entries, indices[..|indices| - 1]);
    }
  }

  lemma OpenAIStep(p: Platform, limit: nat, st: OpenAI.OpenAIState, chunk: OpenAI.Chunk)
    requires OpenAI.ApplyChunk(p, limit, st, chunk).Some?
    ensures AllGood(OpenAI.ApplyChunk(p, limit, st, chunk).value.1)
  {
    hide OpenAI.Batch;
    hide OpenAI.ApplyDeltas;
    if chunk.Data? && chunk.choice.Some? && chunk.choice.value.finish == Some("tool_calls") {
      var choice := chunk.choice.value;
      var calls := if choice.tools.None? then st.toolCalls else OpenAI.ApplyDeltas(p, limit, st.toolCalls, choice.tools.value).value;
      BatchObjects(p, calls.entries, OpenAI.SortIndices(calls.order));
    }
  }

  predicate AnyState(st: OpenAI.OpenAIState) { true }

  lemma OpenAISound(p: Platform, limit: nat)
    ensures Sound(OpenAI.Decoder(p, limit), AnyState)
  {
    hide OpenAI.ReadFrame;
    hide OpenAI.ApplyChunk;
    var dec := OpenAI.Decoder(p, limit);
    forall st: OpenAI.OpenAIState, frame: SseEvent | dec.handle(st, frame).Ok?
      ensures AllGood(dec.handle(st, frame).value.1)
    {
      OpenAIStep(p, limit, st, OpenAI.ReadFrame(p, frame.data).value);
    }
  }

  // ----- from bytes to attempts -----

  /** How one request went, down to the bytes of the response body. */
  datatype Exchange =
    | Unprepared
    | Unsent(abortedMeanwhile: bool)
    | SendCut
    | Response(status: nat, hasBody: bool, body: Source, abortAt: Option<nat>)
    | Unreadable(abortedMeanwhile: bool)

  /** Everything below the gateway: the k-th request to a candidate has this exchange. */
  datatype Site<!D> = Site(
    platform: Platform, limit: nat, cfg: Config<D>, exchange: (nat, Resolved) -> Exchange, aborted: nat -> bool)

  function Decoded<D>(site: Site<D>, protocol: Protocol, body: Source, abortAt: Option<nat>): seq<ModelEvent> {
    match protocol
    case AnthropicMessages => Observed(FullTrace(Anthropic.Decoder(site.platform, site.limit), site.cfg, body), abortAt)
    case OpenAICompatible => Observed(FullTrace(OpenAI.Decoder(site.platform, site.limit), site.cfg, body), abortAt)
  }

  function AttemptOf<D>(site: Site<D>, c: Resolved, x: Exchange): Gateway.Attempt {
    match x
    case Unprepared => Gateway.NotPrepared
    case Unsent(aborted) => Gateway.SendFailed(aborted)
    case SendCut => Gateway.SendAborted
    case Response(status, hasBody, body, abortAt) => Gateway.Answered(status, hasBody, Decoded(site, c.protocol, body, abortAt))
    case Unreadable(aborted) => Gateway.DecodeRefused(aborted)
  }

  function GatewayWorld<D>(site: Site<D>): Gateway.World {
    Gateway.World((k: nat, c: Resolved) => Gateway.AttemptTrace(AttemptOf(site, c, site.exchange(k, c))), site.aborted)
  }

  lemma DecodedGood<D>(site: Site<D>, protocol: Protocol, body: Source, abortAt: Option<nat>)
    ensures var seen := Decoded(site, protocol, body, abortAt); Gateway.Proper(seen) && AllGood(seen)
  {
    hide FullTrace, Observed, WellBehaved, Sound;
    match protocol
    case AnthropicMessages =>
      Anthropic.DecoderWellBehaved(site.platform, site.limit);
      AnthropicSound(site.platform, site.limit);
      ObservedGood(Anthropic.Decoder(site.platform, site.limit), AnthropicObjects, site.cfg, body, abortAt);
    case OpenAICompatible =>
      OpenAI.DecoderWellBehaved(site.platform, site.limit);
      OpenAISound(site.platform, site.limit);
      ObservedGood(OpenAI.Decoder(site.platform, site.limit), AnyState, site.cfg, body, abortAt);
  }

  /** Whatever the servers send: the answers the gateway works on are proper traces of good events. */
  lemma AnswersGood<D>(site: Site<D>)
    ensures Gateway.ProperWorld(GatewayWorld(site))
    ensures forall k, c :: AllGood(GatewayWorld(site).answer(k, c))
  {
    hide Decoded, Gateway.Proper;
    forall k, c
      ensures Gateway.Proper(GatewayWorld(site).answer(k, c)) && AllGood(GatewayWorld(site).answer(k, c))
    {
      var x := site.exchange(k, c);
      if x.Response? {
        DecodedGood(site, c.protocol, x.body, x.abortAt);
      }
      Gateway.AttemptIsProper(AttemptOf(site, c, x));
    }
  }

  /** The resilient gateway over any servers: one terminal event, canonical errors, object inputs. */
  lemma GatewayOutputGood<D>(site: Site<D>, p: Gateway.Policy, candidates: Result<seq<Resolved>, RegistryError>)
    requires Gateway.ValidPolicy(p)
    ensures var log := Gateway.Resilient(GatewayWorld(site), p, candidates); OneTerminalAtEnd(log.out) && AllGood(log.out)
  {
    hide GatewayWorld, Gateway.Resilient, Gateway.ProperWorld;
    AnswersGood(site);
    var w := GatewayWorld(site);
    var log := Gateway.Resilient(w, p, candidates);
    Gateway.CommitsToOneAttempt(w, p, candidates);
    if log.requests != [] {
      LastAnswer(w, candidates.value, log);
    } else {
      NoRequest(w, p, candidates);
    }
  }

  lemma LastAnswer(w: Gateway.World, cs: seq<Resolved>, log: Gateway.Log)
    requires log.requests != [] && Gateway.OneAttempt(w, cs, 0, None, log)
    requires forall k, c :: AllGood(w.answer(k, c))
    ensures AllGood(log.out)
  {
    var n := |log.requests|;
    assert AllGood(Gateway.AnswerTo(w, cs, log.requests, 0, n - 1));
  }

  lemma NoRequest(w: Gateway.World, p: Gateway.Policy, candidates: Result<seq<Resolved>, RegistryError>)
    requires Gateway.ValidPolicy(p) && Gateway.ProperWorld(w)
    requires Gateway.Resilient(w, p, candidates).requests == []
    ensures AllGood(Gateway.Resilient(w, p, candidates).out)
  {
    hide Gateway.Resume, Gateway.ProperWorld;
    if !w.aborted(0) && candidates.Ok? {
      Gateway.ResumeOneAttempt(w, p, candidates.value, Gateway.START);
    }
  }

  // ----- from attempts to the loop -----

  /** The loop's world: every turn asks the resilient gateway of a registry, over that turn's exchanges. */
  function LoopWorld<D>(
    sites: nat -> Site<D>, p: Gateway.Policy, st: Registry.State, hasExecutor: bool,
    execute: (nat, Requests.ToolCallRecord) -> AgentLoop.RawResult, utf8: string -> nat, aborted: nat -> bool): AgentLoop.World
  {
    AgentLoop.World(
      (turn: nat, r: Requests.Request) =>
        AgentLoop.GatewayRun(Gateway.Resilient(GatewayWorld(sites(turn)), p, ResolveCandidates(st, r.routeId)).out, false),
      hasExecutor, execute, utf8, aborted)
  }

  /** Such a loop is only ever given objects as tool inputs. */
  lemma LoopWorldObjects<D>(
      sites: nat -> Site<D>, p: Gateway.Policy, st: Registry.State, hasExecutor: bool,
      execute: (nat, Requests.ToolCallRecord) -> AgentLoop.RawResult, utf8: string -> nat, aborted: nat -> bool)
    requires Gateway.ValidPolicy(p)
    ensures LoopProperties.ObjectWorld(LoopWorld(sites, p, st, hasExecutor, execute, utf8, aborted))
  {
    hide GatewayWorld, ResolveCandidates, Gateway.Resilient, Gateway.ValidPolicy;
    var w := LoopWorld(sites, p, st, hasExecutor, execute, utf8, aborted);
    forall turn, r: Requests.Request, i | 0 <= i < |w.gateway(turn, r).events| && w.gateway(turn, r).events[i].ToolCall?
      ensures w.gateway(turn, r).events[i].input.Obj?
    {
      GatewayOutputGood(sites(turn), p, ResolveCandidates(st, r.routeId));
      assert Good(w.gateway(turn, r).events[i]);
    }
  }

  /**
   From the bytes up: whatever the servers send, the tools return and the
   caller cancels, a conversation that starts with an accepted request sends
   accepted requests only, and ends in one terminal event.
   */
  lemma ConversationsStayWellFormed<D>(
      sites: nat -> Site<D>, p: Gateway.Policy, st: Registry.State, hasExecutor: bool,
      execute: (nat, Requests.ToolCallRecord) -> AgentLoop.RawResult, utf8: string -> nat, aborted: nat -> bool,
      limits: AgentLoop.Limits, r: Requests.Request)
    requires Gateway.ValidPolicy(p) && limits.maxTurns >= 1 && Requests.AdapterAccepts(r)
    ensures var log := AgentLoop.Run(LoopWorld(sites, p, st, hasExecutor, execute, utf8, aborted), limits, r);
            LoopProperties.AllAccepted(log.requests) && LoopProperties.EndsOnce(log.events)
  {
    hide LoopWorld, Gateway.ValidPolicy, Requests.AdapterAccepts, LoopProperties.ObjectWorld;
    hide AgentLoop.Run;
    var w := LoopWorld(sites, p, st, hasExecutor, execute, utf8, aborted);
    LoopWorldObjects(sites, p, st, hasExecutor, execute, utf8, aborted);
    LoopProperties.HistoryPreserved(w, limits, r);
    LoopProperties.RunTrace(w, limits, r);
  }
}
