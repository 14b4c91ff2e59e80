/**
 From a server's bytes through the gateway: a candidate that answers in its own
 protocol is heard, word for word, whichever protocol that is.
 */
module FirstAnswer {
  import opened Base
  import opened Events
  import opened Registry
  import opened Sse
  import opened SseRoundTrip
  import opened StreamRuntime
  import opened ProtocolAgreement
  import opened WireAgreement
  import opened Pipeline
  import A = AnthropicStream
  import O = OpenAIStream
  import Gateway

  /** The body says the response in the protocol of its provider. */
  ghost predicate Speaks<D(!new)>(
    site: Site<D>, codec: Codec<D>, protocol: Protocol, r: Response, firstOutput: Option<nat>, woven: seq<A.Message>, frames: seq<WireFrame>)
  {
    && Faithful(site.cfg.decoder, codec)
    && WellFormed(site.platform, site.limit, r.parts) && Countable(r) && SafeOption(firstOutput)
    && (forall i :: 0 <= i < |frames| ==> |PrintFrame(codec, frames[i])| <= site.cfg.maxFrameBytes)
    && match protocol
       case AnthropicMessages => OnAnthropicWire(site.platform, r, firstOutput, woven, frames)
       case OpenAICompatible => OnOpenAIWire(site.platform, r, frames)
  }

  lemma Heard<D(!new)>(
    site: Site<D>, codec: Codec<D>, protocol: Protocol, r: Response, firstOutput: Option<nat>, woven: seq<A.Message>,
    frames: seq<WireFrame>, more: seq<Byte>, chunks: seq<seq<Byte>>, end: SourceEnd)
    requires Speaks(site, codec, protocol, r, firstOutput, woven, frames) && Flatten(chunks) == PrintFrames(codec, frames) + more
    ensures Decoded(site, protocol, Source(chunks, end), None) == EventsOf(site.platform, r)
  {
    hide FullTrace, RunFrames, Faithful, WellFormed, EventsOf, A.Decoder, O.Decoder;
    FramesWritable(protocol, site, codec, r, firstOutput, woven, frames);
    match protocol
    case AnthropicMessages =>
      AnthropicFrames(site.platform, site.limit, r, firstOutput, woven, frames);
      AnthropicStart(site.platform, site.limit);
      BytesTrace(A.Decoder(site.platform, site.limit), site.cfg, codec, frames, more, chunks, end);
    case OpenAICompatible =>
      OpenAIFrames(site.platform, site.limit, r, frames);
      OpenAIStart(site.platform, site.limit);
      BytesTrace(O.Decoder(site.platform, site.limit), site.cfg, codec, frames, more, chunks, end);
  }

  lemma AnthropicStart(p: DecodeUtils.Platform, limit: nat)
    ensures A.Decoder(p, limit).start == A.INITIAL
  {}

  lemma OpenAIStart(p: DecodeUtils.Platform, limit: nat)
    ensures O.Decoder(p, limit).start == O.INITIAL
  {}

  lemma FramesWritable<D(!new)>(
    protocol: Protocol, site: Site<D>, codec: Codec<D>, r: Response, firstOutput: Option<nat>, woven: seq<A.Message>, frames: seq<WireFrame>)
    requires Speaks(site, codec, protocol, r, firstOutput, woven, frames)
    ensures forall i :: 0 <= i < |frames| ==> WritableFrame(frames[i])
  {
    hide WritableFrame, Faithful, WellFormed;
  }

  lemma {:induction false} TextIsNoError(pieces: seq<string>)
    ensures forall i :: 0 <= i < |PieceEvents(pieces)| ==> !PieceEvents(pieces)[i].Error?
    decreases |pieces|
  {
    if pieces != [] {
      TextIsNoError(pieces[1..]);
    }
  }

  lemma {:induction false} PartsAreNoError(p: DecodeUtils.Platform, parts: seq<Part>)
    ensures forall i :: 0 <= i < |TextOf(parts)| ==> !TextOf(parts)[i].Error?
    ensures forall i :: 0 <= i < |CallsOf(p, parts)| ==> !CallsOf(p, parts)[i].Error?
    decreases |parts|
  {
    hide InputOf;
    if parts != [] {
      PartsAreNoError(p, parts[..|parts| - 1]);
      if parts[|parts| - 1].TextPart? {
        TextIsNoError(parts[|parts| - 1].pieces);
      }
    }
  }

  /** An answer without an error is committed to as it is. */
  lemma {:induction false} CommittedWhole(trace: seq<ModelEvent>, shown: seq<ModelEvent>)
    requires (trace != [] || shown != []) && forall i :: 0 <= i < |trace| ==> !trace[i].Error?
    ensures Gateway.Judge(trace, shown) == Gateway.Commit(shown + trace)
    decreases |trace|
  {
    if trace == [] {
      assert shown + [] == shown;
    } else {
      CommittedWhole(trace[1..], shown + [trace[0]]);
      assert shown + [trace[0]] + trace[1..] == shown + trace;
    }
  }

  /**
   The first candidate answers: one request, and the gateway passes on exactly the
   events of the response, in whichever protocol the provider speaks, in any chunks.
   */
  lemma FirstAnswerIsHeard<D(!new)>(
    site: Site<D>, policy: Gateway.Policy, cs: seq<Resolved>, codec: Codec<D>, r: Response, firstOutput: Option<nat>, woven: seq<A.Message>,
    frames: seq<WireFrame>, more: seq<Byte>, chunks: seq<seq<Byte>>, end: SourceEnd, status: nat)
    requires Gateway.ValidPolicy(policy) && cs != [] && !site.aborted(0) && 200 <= status <= 299
    requires Speaks(site, codec, cs[0].protocol, r, firstOutput, woven, frames) && Flatten(chunks) == PrintFrames(codec, frames) + more
    requires site.exchange(0, cs[0]) == Pipeline.Response(status, true, Source(chunks, end), None)
    ensures Gateway.Resilient(GatewayWorld(site), policy, Ok(cs)) == Gateway.Log(EventsOf(site.platform, r), [(0, 0)], [])
  {
    hide Speaks, Gateway.Judge, Decoded;
    Heard(site, codec, cs[0].protocol, r, firstOutput, woven, frames, more, chunks, end);
    var events := EventsOf(site.platform, r);
    PartsAreNoError(site.platform, r.parts);
    CommittedWhole(events, []);
    assert [] + events == events;
    assert GatewayWorld(site).answer(0, cs[0]) == events;
    Gateway.ResumeStep(GatewayWorld(site), policy, cs, Gateway.START);
  }
}
