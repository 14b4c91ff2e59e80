/**
 The two protocols on the wire: a response printed as JSON in Server-Sent Events
 frames, encoded to bytes and delivered in any chunks, decodes to the events of
 the response under either protocol.
 */
module WireAgreement {
  import opened Base
  import opened Events
  import opened DecodeUtils
  import opened Sse
  import opened SseRoundTrip
  import opened StreamRuntime
  import opened ProtocolAgreement
  import A = AnthropicStream
  import O = OpenAIStream
  import W = AnthropicInterleaving

  // ----- Anthropic messages as JSON -----

  function Count(n: nat): Json {
    Num(Integer(n))
  }

  function CountField(name: string, count: Option<nat>): Fields {
    if count.None? then map[] else map[name := Count(count.value)]
  }

  function MessageJson(m: A.Message): Json {
    match m
    case Ping => Obj(map["type" := Str("ping")])
    case MessageStart(input, output) =>
      Obj(map["type" := Str("message_start"),
              "message" := Obj(map["usage" := Obj(CountField("input_tokens", input) + CountField("output_tokens", output))])])
    case OpenText(index) =>
      Obj(map["type" := Str("content_block_start"), "index" := Count(index), "content_block" := Obj(map["type" := Str("text")])])
    case OpenTool(index, id, name, initial) =>
      Obj(map["type" := Str("content_block_start"), "index" := Count(index),
              "content_block" := Obj(map["type" := Str("tool_use"), "id" := Str(id), "name" := Str(name), "input" := initial])])
    case TextPiece(index, text) =>
      Obj(map["type" := Str("content_block_delta"), "index" := Count(index),
              "delta" := Obj(map["type" := Str("text_delta"), "text" := Str(text)])])
    case JsonPiece(index, partial) =>
      Obj(map["type" := Str("content_block_delta"), "index" := Count(index),
              "delta" := Obj(map["type" := Str("input_json_delta"), "partial_json" := Str(partial)])])
    case CloseBlock(index) => Obj(map["type" := Str("content_block_stop"), "index" := Count(index)])
    case MessageDelta(reason, output) =>
      Obj(map["type" := Str("message_delta"),
              "delta" := Obj(if reason.None? then map[] else map["stop_reason" := Str(reason.value)]),
              "usage" := Obj(CountField("output_tokens", output))])
    case MessageStop => Obj(map["type" := Str("message_stop")])
    case Failure(_) => Obj(map["type" := Str("error")])
  }

  predicate SafeOption(count: Option<nat>) {
    count.Some? ==> count.value <= MAX_SAFE_INTEGER
  }

  predicate Sendable(m: A.Message) {
    match m
    case MessageStart(input, output) => SafeOption(input) && SafeOption(output)
    case OpenText(index) => index <= MAX_SAFE_INTEGER
    case OpenTool(index, id, name, initial) => index <= MAX_SAFE_INTEGER && id != "" && name != "" && initial == NO_INPUT
    case TextPiece(index, _) => index <= MAX_SAFE_INTEGER
    case JsonPiece(index, _) => index <= MAX_SAFE_INTEGER
    case CloseBlock(index) => index <= MAX_SAFE_INTEGER
    case MessageDelta(_, output) => SafeOption(output)
    case Failure(_) => false
    case _ => true
  }

  lemma ReadStartBack(input: Option<nat>, output: Option<nat>)
    requires SafeOption(input) && SafeOption(output)
    ensures A.ReadStart(MessageJson(A.MessageStart(input, output)).fields) == Some(A.MessageStart(input, output))
  {
    var usage := CountField("input_tokens", input) + CountField("output_tokens", output);
    assert Field(usage, "input_tokens") == if input.None? then None else Some(Count(input.value));
    assert Field(usage, "output_tokens") == if output.None? then None else Some(Count(output.value));
  }

  lemma ReadOpenBack(m: A.Message)
    requires (m.OpenText? || m.OpenTool?) && Sendable(m)
    ensures A.ReadOpen(MessageJson(m).fields) == Some(m)
  {
    assert FiniteJson(NO_INPUT, 0);
    var fields := MessageJson(m).fields;
    assert fields["index"] == Count(m.index);
  }

  lemma ReadPieceBack(m: A.Message)
    requires (m.TextPiece? || m.JsonPiece?) && Sendable(m)
    ensures A.ReadPiece(MessageJson(m).fields) == Some(m)
  {
    var fields := MessageJson(m).fields;
    assert fields["index"] == Count(m.index);
  }

  lemma ReadDeltaBack(reason: Option<string>, output: Option<nat>)
    requires SafeOption(output)
    ensures A.ReadDelta(MessageJson(A.MessageDelta(reason, output)).fields) == Some(A.MessageDelta(reason, output))
  {
    var usage := CountField("output_tokens", output);
    assert Field(usage, "output_tokens") == if output.None? then None else Some(Count(output.value));
  }

  function Kind(m: A.Message): string {
    match m
    case Ping => "ping"
    case MessageStart(_, _) => "message_start"
    case OpenText(_) => "content_block_start"
    case OpenTool(_, _, _, _) => "content_block_start"
    case TextPiece(_, _) => "content_block_delta"
    case JsonPiece(_, _) => "content_block_delta"
    case CloseBlock(_) => "content_block_stop"
    case MessageDelta(_, _) => "message_delta"
    case MessageStop => "message_stop"
    case Failure(_) => "error"
  }

  lemma KindOf(m: A.Message)
    ensures MessageJson(m).Obj? && Field(MessageJson(m).fields, "type") == Some(Str(Kind(m)))
    ensures m.CloseBlock? && Sendable(m) ==> A.ReadIndex(MessageJson(m).fields) == Some(m.index)
  {}

  /** Reading a printed message gives the message back. */
  lemma MessageReadBack(m: A.Message)
    requires Sendable(m)
    ensures A.ReadMessage(MessageJson(m).fields) == Some(m)
  {
    hide A.ReadStart;
    hide A.ReadOpen;
    hide A.ReadPiece;
    hide A.ReadDelta;
    hide A.ReadIndex;
    hide MessageJson;
    KindOf(m);
    match m
    case MessageStart(input, output) => ReadStartBack(input, output);
    case OpenText(_) => ReadOpenBack(m);
    case OpenTool(_, _, _, _) => ReadOpenBack(m);
    case TextPiece(_, _) => ReadPieceBack(m);
    case JsonPiece(_, _) => ReadPieceBack(m);
    case MessageDelta(reason, output) => ReadDeltaBack(reason, output);
    case _ =>
  }

  // ----- OpenAI chunks as JSON -----

  function DeltaJson(d: O.ToolDelta): Json {
    Obj(map["index" := Count(d.index)]
      + (if d.id.None? then map[] else map["id" := Str(d.id.value)])
      + map["function" := Obj((if d.name.None? then map[] else map["name" := Str(d.name.value)])
                            + (if d.args.None? then map[] else map["arguments" := Str(d.args.value)]))])
  }

  function DeltasJson(deltas: seq<O.ToolDelta>): seq<Json> {
    if deltas == [] then [] else [DeltaJson(deltas[0])] + DeltasJson(deltas[1..])
  }

  function ChoiceJson(c: O.Choice): Json {
    Obj(map["index" := Count(0),
            "delta" := Obj(map["content" := Str(c.content)]
                         + (if c.tools.None? then map[] else map["tool_calls" := Arr(DeltasJson(c.tools.value))])),
            "finish_reason" := if c.finish.None? then Null else Str(c.finish.value)])
  }

  function ChunkJson(chunk: O.Chunk): Json
    requires chunk.Data?
  {
    Obj(map["choices" := Arr(if chunk.choice.None? then [] else [ChoiceJson(chunk.choice.value)]),
            "usage" := if chunk.prompt.None? && chunk.completion.None? then Null
                       else Obj(CountField("prompt_tokens", chunk.prompt) + CountField("completion_tokens", chunk.completion))])
  }

  predicate SendableDelta(d: O.ToolDelta) {
    && d.index <= MAX_SAFE_INTEGER
    && (d.id.Some? ==> d.id.value != "")
    && (d.name.Some? ==> d.name.value != "")
  }

  predicate SendableChunk(chunk: O.Chunk) {
    match chunk
    case DoneMarker => true
    case Failure(_) => false
    case Data(choice, prompt, completion) =>
      && SafeOption(prompt) && SafeOption(completion)
      && (choice.Some? && choice.value.tools.Some? ==>
            forall i :: 0 <= i < |choice.value.tools.value| ==> SendableDelta(choice.value.tools.value[i]))
  }

  lemma DeltaReadBack(d: O.ToolDelta)
    requires SendableDelta(d)
    ensures O.ReadToolDelta(DeltaJson(d)) == Some(d)
  {
    var fields := DeltaJson(d).fields;
    assert fields["index"] == Count(d.index);
    assert Field(fields, "id") == if d.id.None? then None else Some(Str(d.id.value));
    assert Field(fields, "type") == None;
    var fn := fields["function"];
    assert fn.Obj?;
    assert Field(fn.fields, "name") == if d.name.None? then None else Some(Str(d.name.value));
    assert Field(fn.fields, "arguments") == if d.args.None? then None else Some(Str(d.args.value));
  }

  lemma {:induction false} DeltasReadBack(deltas: seq<O.ToolDelta>)
    requires forall i :: 0 <= i < |deltas| ==> SendableDelta(deltas[i])
    ensures O.ReadToolDeltas(DeltasJson(deltas)) == Some(deltas)
    decreases |deltas|
  {
    hide DeltaJson;
    hide O.ReadToolDelta;
    if deltas != [] {
      DeltaReadBack(deltas[0]);
      DeltasReadBack(deltas[1..]);
      assert DeltasJson(deltas)[0] == DeltaJson(deltas[0]) && DeltasJson(deltas)[1..] == DeltasJson(deltas[1..]);
      assert deltas == [deltas[0]] + deltas[1..];
    }
  }

  lemma ChoiceReadBack(c: O.Choice)
    requires c.tools.Some? ==> forall i :: 0 <= i < |c.tools.value| ==> SendableDelta(c.tools.value[i])
    ensures O.ReadChoice(ChoiceJson(c)) == Some(c)
  {
    hide O.ReadToolDeltas;
    hide DeltasJson;
    if c.tools.Some? {
      DeltasReadBack(c.tools.value);
    }
    var delta := ChoiceJson(c).fields["delta"].fields;
    assert Field(delta, "content") == Some(Str(c.content));
    assert Field(delta, "tool_calls") == if c.tools.None? then None else Some(Arr(DeltasJson(c.tools.value)));
    assert O.SupportedDelta(delta);
  }

  lemma ChunkReadBack(chunk: O.Chunk)
    requires chunk.Data? && SendableChunk(chunk)
    ensures O.ReadChunk(ChunkJson(chunk).fields) == Some(chunk)
  {
    hide O.ReadChoice;
    hide ChoiceJson;
    if chunk.choice.Some? {
      ChoiceReadBack(chunk.choice.value);
    }
    var usage := CountField("prompt_tokens", chunk.prompt) + CountField("completion_tokens", chunk.completion);
    assert Field(usage, "prompt_tokens") == if chunk.prompt.None? then None else Some(Count(chunk.prompt.value));
    assert Field(usage, "completion_tokens") == if chunk.completion.None? then None else Some(Count(chunk.completion.value));
  }

  // ----- JSON text in frames -----

  /** This value survives printing and parsing, on one line that is not the final marker. */
  predicate Prints(p: Platform, json: Json) {
    var text := p.stringify(json);
    p.parse(text) == Some(json) && text != "" && Trim(text) != "[DONE]"
  }

  function MessageText(p: Platform, m: A.Message): string {
    p.stringify(MessageJson(m))
  }

  function ChunkText(p: Platform, chunk: O.Chunk): string {
    if chunk.Data? then p.stringify(ChunkJson(chunk)) else "[DONE]"
  }

  /** Frames that carry the given texts; event names, ids, comments and line ends are free. */
  predicate Carries(frames: seq<WireFrame>, texts: seq<string>) {
    && |frames| == |texts|
    && forall i :: 0 <= i < |frames| ==> WritableFrame(frames[i]) && DataLines(frames[i].lines) == [texts[i]] && texts[i] != ""
  }

  lemma {:induction false} CarriedMeanings(frames: seq<WireFrame>, texts: seq<string>)
    requires Carries(frames, texts)
    ensures |Meanings(frames)| == |texts|
    ensures forall i :: 0 <= i < |texts| ==> Meanings(frames)[i].data == texts[i]
    decreases |frames|
  {
    if frames != [] {
      CarriedMeanings(frames[1..], texts[1..]);
      assert Join(DataLines(frames[0].lines), "\n") == texts[0];
    }
  }

  // ----- frames through a decoder -----

  lemma {:induction false} FramesRunA(p: Platform, limit: nat, st: A.AnthropicState, frames: seq<SseEvent>, msgs: seq<A.Message>)
    requires !st.terminal && |frames| == |msgs|
    requires forall i :: 0 <= i < |msgs| ==> A.ReadFrame(p, frames[i].data) == Some(msgs[i])
    requires forall i :: 0 <= i < |msgs| - 1 ==> !msgs[i].MessageStop? && !msgs[i].Failure?
    requires RunA(p, limit, st, msgs).Some? && RunA(p, limit, st, msgs).value.0.terminal
    ensures RunFrames(A.Decoder(p, limit), st, frames) == Run(RunA(p, limit, st, msgs).value.1, None)
    decreases |frames|
  {
    hide A.ReadFrame;
    hide A.ApplyMessage;
    if msgs != [] {
      var (next, events) := A.ApplyMessage(p, limit, st, msgs[0]).value;
      if |msgs| == 1 {
        RunANothing(p, limit, next);
        assert msgs[1..] == [];
        assert events + [] == events;
      } else {
        StaysOpenA(p, limit, st, msgs[0]);
        FramesRunA(p, limit, next, frames[1..], msgs[1..]);
      }
    }
  }

  lemma StaysOpenA(p: Platform, limit: nat, st: A.AnthropicState, m: A.Message)
    requires A.ApplyMessage(p, limit, st, m).Some? && !m.MessageStop? && !m.Failure?
    ensures A.ApplyMessage(p, limit, st, m).value.0.terminal == st.terminal
  {}

  lemma {:induction false} FramesRunO(p: Platform, limit: nat, st: O.OpenAIState, frames: seq<SseEvent>, chunks: seq<O.Chunk>)
    requires !st.terminal && |frames| == |chunks|
    requires forall i :: 0 <= i < |chunks| ==> O.ReadFrame(p, frames[i].data) == Some(chunks[i])
    requires forall i :: 0 <= i < |chunks| - 1 ==> chunks[i].Data?
    requires RunO(p, limit, st, chunks).Some? && RunO(p, limit, st, chunks).value.0.terminal
    ensures RunFrames(O.Decoder(p, limit), st, frames) == Run(RunO(p, limit, st, chunks).value.1, None)
    decreases |frames|
  {
    hide O.ReadFrame;
    hide O.ApplyChunk;
    if chunks != [] {
      var (next, events) := O.ApplyChunk(p, limit, st, chunks[0]).value;
      if |chunks| == 1 {
        RunONothing(p, limit, next);
        assert chunks[1..] == [];
        assert events + [] == events;
      } else {
        StaysOpenO(p, limit, st, chunks[0]);
        FramesRunO(p, limit, next, frames[1..], chunks[1..]);
      }
    }
  }

  lemma StaysOpenO(p: Platform, limit: nat, st: O.OpenAIState, chunk: O.Chunk)
    requires O.ApplyChunk(p, limit, st, chunk).Some? && chunk.Data?
    ensures O.ApplyChunk(p, limit, st, chunk).value.0.terminal == st.terminal
  {
    hide O.ApplyDeltas;
    hide O.EmitToolCalls;
  }

  /** Bytes whose frames end the decoding give that trace, in any chunks, whatever bytes follow and however they end. */
  lemma BytesTrace<S(!new), D(!new)>(
    dec: FrameDecoder<S>, cfg: Config<D>, codec: Codec<D>, frames: seq<WireFrame>, more: seq<Byte>, chunks: seq<seq<Byte>>, end: SourceEnd)
    requires Faithful(cfg.decoder, codec)
    requires forall i :: 0 <= i < |frames| ==> WritableFrame(frames[i]) && |PrintFrame(codec, frames[i])| <= cfg.maxFrameBytes
    requires Flatten(chunks) == PrintFrames(codec, frames) + more
    requires RunFrames(dec, dec.start, Meanings(frames)).state.None?
    ensures FullTrace(dec, cfg, Source(chunks, end)) == Trace(RunFrames(dec, dec.start, Meanings(frames)).events, false)
  {
    hide Faithful;
    hide Feed;
    hide RunFrames;
    var printed := PrintFrames(codec, frames);
    var bytes := printed + more;
    TraceChunkIndependence(dec, cfg, Initial(cfg), dec.start, chunks, end);
    DrainChunk(dec, cfg, Initial(cfg), dec.start, Source([bytes], end));
    assert AtFrameStart(codec, Initial(cfg)) by { StartsClean(cfg, codec); }
    FramesFed(cfg, codec, Initial(cfg), frames);
    FeedAppend(cfg, Initial(cfg), printed, more);
    var first := Feed(cfg, Initial(cfg), printed);
    RunFramesAppend(dec, dec.start, first.frames, Feed(cfg, first.next.value, more).frames);
  }

  lemma StartsClean<D(!new)>(cfg: Config<D>, codec: Codec<D>)
    requires Faithful(cfg.decoder, codec)
    ensures AtFrameStart(codec, Initial(cfg))
  {}

  // ----- everything a response prints can be sent -----

  /** Counts and block numbers that JavaScript represents exactly. */
  predicate Countable(r: Response) {
    r.inputTokens <= MAX_SAFE_INTEGER && r.outputTokens <= MAX_SAFE_INTEGER && |r.parts| <= MAX_SAFE_INTEGER
  }

  predicate Quiet(m: A.Message) {
    Sendable(m) && !m.MessageStop? && !m.Failure?
  }

  lemma {:induction false} TextQuiet(index: nat, pieces: seq<string>)
    requires index <= MAX_SAFE_INTEGER
    ensures forall i :: 0 <= i < |TextMessages(index, pieces)| ==> Quiet(TextMessages(index, pieces)[i])
    decreases |pieces|
  {
    if pieces != [] {
      TextQuiet(index, pieces[1..]);
    }
  }

  lemma {:induction false} JsonQuiet(index: nat, fragments: seq<string>)
    requires index <= MAX_SAFE_INTEGER
    ensures forall i :: 0 <= i < |JsonMessages(index, fragments)| ==> Quiet(JsonMessages(index, fragments)[i])
    decreases |fragments|
  {
    if fragments != [] {
      JsonQuiet(index, fragments[1..]);
    }
  }

  lemma {:induction false} PartsQuiet(p: Platform, limit: nat, parts: seq<Part>)
    requires |parts| <= MAX_SAFE_INTEGER && forall i :: 0 <= i < |parts| ==> Usable(p, limit, parts[i])
    ensures forall i :: 0 <= i < |PartsMessages(parts)| ==> Quiet(PartsMessages(parts)[i])
    decreases |parts|
  {
    hide PartMessages;
    hide Quiet;
    hide Usable;
    if parts != [] {
      var index, last := |parts| - 1, parts[|parts| - 1];
      PartsQuiet(p, limit, parts[..index]);
      PartQuiet(p, limit, index, last);
    }
  }

  lemma PartQuiet(p: Platform, limit: nat, index: nat, part: Part)
    requires index <= MAX_SAFE_INTEGER && Usable(p, limit, part)
    ensures forall i :: 0 <= i < |PartMessages(index, part)| ==> Quiet(PartMessages(index, part)[i])
  {
    hide InputOf;
    match part
    case TextPart(pieces) => TextQuiet(index, pieces);
    case ToolPart(_, _, fragments) => JsonQuiet(index, fragments);
  }

  predicate QuietChunk(chunk: O.Chunk) {
    SendableChunk(chunk) && chunk.Data?
  }

  lemma {:induction false} TextChunksQuiet(pieces: seq<string>)
    ensures forall i :: 0 <= i < |TextChunks(pieces)| ==> QuietChunk(TextChunks(pieces)[i])
    decreases |pieces|
  {
    if pieces != [] {
      TextChunksQuiet(pieces[1..]);
    }
  }

  lemma {:induction false} ArgsChunksQuiet(index: nat, fragments: seq<string>)
    requires index <= MAX_SAFE_INTEGER
    ensures forall i :: 0 <= i < |ArgsChunks(index, fragments)| ==> QuietChunk(ArgsChunks(index, fragments)[i])
    decreases |fragments|
  {
    if fragments != [] {
      ArgsChunksQuiet(index, fragments[1..]);
    }
  }

  lemma {:induction false} FewerTools(parts: seq<Part>)
    ensures |ToolsOf(parts)| <= |parts|
    decreases |parts|
  {
    if parts != [] {
      FewerTools(parts[..|parts| - 1]);
    }
  }

  lemma {:induction false} PartsChunksQuiet(p: Platform, limit: nat, parts: seq<Part>)
    requires |parts| <= MAX_SAFE_INTEGER && forall i :: 0 <= i < |parts| ==> Usable(p, limit, parts[i])
    ensures forall i :: 0 <= i < |PartsChunks(parts)| ==> QuietChunk(PartsChunks(parts)[i])
    decreases |parts|
  {
    hide InputOf;
    if parts != [] {
      var init, last := parts[..|parts| - 1], parts[|parts| - 1];
      PartsChunksQuiet(p, limit, init);
      FewerTools(init);
      match last
      case TextPart(pieces) => TextChunksQuiet(pieces);
      case ToolPart(_, _, fragments) => ArgsChunksQuiet(|ToolsOf(init)|, fragments);
    }
  }

  // ----- the two wires -----

  /** The frames say, message by message, what Anthropic prints for the response, its blocks interleaved. */
  ghost predicate OnAnthropicWire(p: Platform, r: Response, firstOutput: Option<nat>, woven: seq<A.Message>, frames: seq<WireFrame>) {
    var msgs := AnthropicMessages(r, firstOutput, woven);
    && Woven(r.parts, woven)
    && Carries(frames, seq(|msgs|, i requires 0 <= i < |msgs| => MessageText(p, msgs[i])))
    && forall i :: 0 <= i < |msgs| ==> Prints(p, MessageJson(msgs[i]))
  }

  predicate OnOpenAIWire(p: Platform, r: Response, frames: seq<WireFrame>) {
    var chunks := OpenAIChunks(r);
    && Carries(frames, seq(|chunks|, i requires 0 <= i < |chunks| => ChunkText(p, chunks[i])))
    && forall i :: 0 <= i < |chunks| ==> chunks[i].Data? ==> Prints(p, ChunkJson(chunks[i]))
  }

  lemma AnthropicFrames(p: Platform, limit: nat, r: Response, firstOutput: Option<nat>, woven: seq<A.Message>, frames: seq<WireFrame>)
    requires WellFormed(p, limit, r.parts) && Countable(r) && SafeOption(firstOutput)
    requires OnAnthropicWire(p, r, firstOutput, woven, frames)
    ensures RunFrames(A.Decoder(p, limit), A.INITIAL, Meanings(frames)) == Run(EventsOf(p, r), None)
  {
    hide A.ReadFrame;
    hide MessageJson;
    hide RunFrames;
    hide RunA;
    hide AnthropicMessages;
    hide WellFormed;
    hide Sendable;
    hide Woven;
    var msgs := AnthropicMessages(r, firstOutput, woven);
    MessagesQuiet(p, limit, r, firstOutput, woven);
    CarriedMeanings(frames, seq(|msgs|, i requires 0 <= i < |msgs| => MessageText(p, msgs[i])));
    forall i | 0 <= i < |msgs|
      ensures A.ReadFrame(p, Meanings(frames)[i].data) == Some(msgs[i])
    {
      MessageTextRead(p, msgs[i]);
    }
    AnthropicDecodes(p, limit, r, firstOutput, woven);
    FramesRunA(p, limit, A.INITIAL, Meanings(frames), msgs);
  }

  lemma MessageTextRead(p: Platform, m: A.Message)
    requires Sendable(m) && Prints(p, MessageJson(m))
    ensures A.ReadFrame(p, MessageText(p, m)) == Some(m)
  {
    hide A.ReadMessage;
    hide MessageJson;
    MessageReadBack(m);
    MessageIsObject(m);
  }

  lemma MessagesQuiet(p: Platform, limit: nat, r: Response, firstOutput: Option<nat>, woven: seq<A.Message>)
    requires WellFormed(p, limit, r.parts) && Woven(r.parts, woven) && Countable(r) && SafeOption(firstOutput)
    ensures var msgs := AnthropicMessages(r, firstOutput, woven);
            && (forall i :: 0 <= i < |msgs| ==> Sendable(msgs[i]))
            && (forall i :: 0 <= i < |msgs| - 1 ==> !msgs[i].MessageStop? && !msgs[i].Failure?)
  {
    hide ToolsOf;
    hide PartsMessages;
    PartsQuiet(p, limit, r.parts);
    forall i | 0 <= i < |woven|
      ensures Quiet(woven[i])
    {
      W.SameMessages(woven, PartsMessages(r.parts), woven[i]);
    }
  }

  lemma MessageIsObject(m: A.Message)
    ensures MessageJson(m).Obj?
  {}

  lemma DoneRead(p: Platform)
    ensures O.ReadFrame(p, "[DONE]") == Some(O.DoneMarker)
  {
    assert TrimStart("[DONE]") == "[DONE]";
    assert TrimEnd("[DONE]") == "[DONE]";
  }

  lemma ChunkTextRead(p: Platform, chunk: O.Chunk)
    requires SendableChunk(chunk) && (chunk.Data? ==> Prints(p, ChunkJson(chunk)))
    ensures O.ReadFrame(p, ChunkText(p, chunk)) == Some(chunk)
  {
    hide O.ReadChunk;
    hide Trim;
    if chunk.Data? {
      ChunkReadBack(chunk);
    } else {
      DoneRead(p);
    }
  }

  lemma ChunksQuiet(p: Platform, limit: nat, r: Response)
    requires WellFormed(p, limit, r.parts) && Countable(r)
    ensures var chunks := OpenAIChunks(r);
            && (forall i :: 0 <= i < |chunks| ==> SendableChunk(chunks[i]))
            && (forall i :: 0 <= i < |chunks| - 1 ==> chunks[i].Data?)
  {
    hide ToolsOf;
    PartsChunksQuiet(p, limit, r.parts);
  }

  lemma OpenAIFrames(p: Platform, limit: nat, r: Response, frames: seq<WireFrame>)
    requires WellFormed(p, limit, r.parts) && Countable(r)
    requires OnOpenAIWire(p, r, frames)
    ensures RunFrames(O.Decoder(p, limit), O.INITIAL, Meanings(frames)) == Run(EventsOf(p, r), None)
  {
    hide O.ReadFrame;
    hide RunFrames;
    hide RunO;
    hide ChunkJson;
    hide OpenAIChunks;
    hide WellFormed;
    hide SendableChunk;
    var chunks := OpenAIChunks(r);
    ChunksQuiet(p, limit, r);
    CarriedMeanings(frames, seq(|chunks|, i requires 0 <= i < |chunks| => ChunkText(p, chunks[i])));
    forall i | 0 <= i < |chunks|
      ensures O.ReadFrame(p, Meanings(frames)[i].data) == Some(chunks[i])
    {
      ChunkTextRead(p, chunks[i]);
    }
    OpenAIDecodes(p, limit, r);
    FramesRunO(p, limit, O.INITIAL, Meanings(frames), chunks);
  }

  /** The same response, but for where the arguments of its tool calls are cut. */
  predicate SamePart(a: Part, b: Part) {
    if a.TextPart? || b.TextPart? then a == b
    else a.id == b.id && a.name == b.name && Concat(a.fragments) == Concat(b.fragments)
  }

  predicate SameResponse(r: Response, s: Response) {
    && r.inputTokens == s.inputTokens && r.outputTokens == s.outputTokens && |r.parts| == |s.parts|
    && forall i :: 0 <= i < |r.parts| ==> SamePart(r.parts[i], s.parts[i])
  }

  lemma {:induction false} SameParts(p: Platform, a: seq<Part>, b: seq<Part>)
    requires |a| == |b| && forall i :: 0 <= i < |a| ==> SamePart(a[i], b[i])
    ensures TextOf(a) == TextOf(b) && CallsOf(p, a) == CallsOf(p, b)
    decreases |a|
  {
    if a != [] {
      SameParts(p, a[..|a| - 1], b[..|b| - 1]);
      assert SamePart(a[|a| - 1], b[|b| - 1]);
    }
  }

  lemma SameEvents(p: Platform, r: Response, s: Response)
    requires SameResponse(r, s)
    ensures EventsOf(p, r) == EventsOf(p, s)
  {
    SameParts(p, r.parts, s.parts);
  }

  /**
   The same response over either wire, its Anthropic blocks in any interleaving, its
   arguments cut in any two ways, in any chunking, followed by any bytes and any end, under any cancellation: the
   same events.
   */
  lemma ProtocolsAgree<D(!new)>(
    p: Platform, limit: nat, cfg: Config<D>, codec: Codec<D>, r: Response, s: Response, firstOutput: Option<nat>, woven: seq<A.Message>,
    framesA: seq<WireFrame>, moreA: seq<Byte>, chunksA: seq<seq<Byte>>, endA: SourceEnd,
    framesO: seq<WireFrame>, moreO: seq<Byte>, chunksO: seq<seq<Byte>>, endO: SourceEnd)
    requires Faithful(cfg.decoder, codec)
    requires WellFormed(p, limit, r.parts) && WellFormed(p, limit, s.parts) && SameResponse(r, s)
    requires Countable(r) && SafeOption(firstOutput)
    requires OnAnthropicWire(p, r, firstOutput, woven, framesA) && OnOpenAIWire(p, s, framesO)
    requires forall i :: 0 <= i < |framesA| ==> |PrintFrame(codec, framesA[i])| <= cfg.maxFrameBytes
    requires forall i :: 0 <= i < |framesO| ==> |PrintFrame(codec, framesO[i])| <= cfg.maxFrameBytes
    requires Flatten(chunksA) == PrintFrames(codec, framesA) + moreA && Flatten(chunksO) == PrintFrames(codec, framesO) + moreO
    ensures FullTrace(A.Decoder(p, limit), cfg, Source(chunksA, endA)) == Trace(EventsOf(p, r), false)
    ensures FullTrace(O.Decoder(p, limit), cfg, Source(chunksO, endO)) == Trace(EventsOf(p, r), false)
    ensures forall abortAt :: Observed(FullTrace(A.Decoder(p, limit), cfg, Source(chunksA, endA)), abortAt)
                           == Observed(FullTrace(O.Decoder(p, limit), cfg, Source(chunksO, endO)), abortAt)
  {
    hide FullTrace;
    hide RunFrames;
    AnthropicFrames(p, limit, r, firstOutput, woven, framesA);
    SameEvents(p, r, s);
    OpenAIFrames(p, limit, s, framesO);
    BytesTrace(A.Decoder(p, limit), cfg, codec, framesA, moreA, chunksA, endA);
    BytesTrace(O.Decoder(p, limit), cfg, codec, framesO, moreO, chunksO, endO);
  }
}
