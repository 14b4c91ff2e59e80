/**
 The Anthropic Messages decoder.

 A frame is first read into a message, then the message is applied to the state.
 Every failure of either step throws the same protocol error and ends the
 stream, so the order in which the program asks its questions is not visible.
 */
module AnthropicStream {
  import opened Base
  import opened Events
  import opened DecodeUtils
  import opened Sse
  import opened StreamRuntime

  datatype Block =
    | TextBlock
    | ToolBlock(id: string, name: string, initial: Json, json: string, bytes: nat)

  datatype PendingCall = PendingCall(index: nat, id: string, name: string, input: Json)

  datatype AnthropicState = AnthropicState(
    started: bool,
    stopped: bool,
    terminal: bool,
    stopReason: Option<string>,
    inputTokens: Option<nat>,
    outputTokens: Option<nat>,
    blocks: map<nat, Block>,
    toolIds: set<string>,
    pending: seq<PendingCall>)

  const INITIAL := AnthropicState(false, false, false, None, None, None, map[], {}, [])

  datatype Message =
    | Ping
    | MessageStart(inputTokens: Option<nat>, outputTokens: Option<nat>)
    | OpenText(index: nat)
    | OpenTool(index: nat, id: string, name: string, initial: Json)
    | TextPiece(index: nat, text: string)
    | JsonPiece(index: nat, partial: string)
    | CloseBlock(index: nat)
    | MessageDelta(stopReason: Option<string>, outputTokens: Option<nat>)
    | MessageStop
    | Failure(code: ErrorCode)

  // ----- reading a frame -----

  function ReadIndex(payload: Fields): Option<nat> {
    if "index" in payload then SafeCount(payload["index"]) else None
  }

  function ReadStart(payload: Fields): Option<Message> {
    match Field(payload, "message")
    case Some(Obj(message)) =>
      (match Field(message, "usage")
       case None => Some(MessageStart(None, None))
       case Some(Obj(usage)) =>
         var input := ReadTokenCount(Field(usage, "input_tokens"));
         var output := ReadTokenCount(Field(usage, "output_tokens"));
         if NoCacheTokens(usage) && input.Some? && output.Some? then Some(MessageStart(input.value, output.value))
         else None
       case _ => None)
    case _ => None
  }

  function ReadOpen(payload: Fields): Option<Message> {
    var index := ReadIndex(payload);
    match Field(payload, "content_block")
    case Some(Obj(block)) =>
      if index.None? then None
      else if Field(block, "type") == Some(Str("text")) then Some(OpenText(index.value))
      else if Field(block, "type") == Some(Str("tool_use")) then
        var id, name, input := Field(block, "id"), Field(block, "name"), Field(block, "input");
        if NonEmptyString(id) && NonEmptyString(name) && input.Some? && input.value.Obj? && FiniteJson(input.value, 0)
        then Some(OpenTool(index.value, id.value.s, name.value.s, input.value))
        else None
      else None
    case _ => None
  }

  function ReadPiece(payload: Fields): Option<Message> {
    var index := ReadIndex(payload);
    match Field(payload, "delta")
    case Some(Obj(delta)) =>
      if index.None? then None
      else if Field(delta, "type") == Some(Str("text_delta")) then
        (match Field(delta, "text")
         case Some(Str(text)) => Some(TextPiece(index.value, text))
         case _ => None)
      else if Field(delta, "type") == Some(Str("input_json_delta")) then
        (match Field(delta, "partial_json")
         case Some(Str(partial)) => Some(JsonPiece(index.value, partial))
         case _ => None)
      else None
    case _ => None
  }

  function ReadStopReason(payload: Fields): Option<Option<string>> {
    match Field(payload, "delta")
    case None => Some(None)
    case Some(Obj(delta)) =>
      (match Field(delta, "stop_reason")
       case None => Some(None)
       case Some(Null) => Some(None)
       case Some(Str(reason)) => Some(Some(reason))
       case _ => None)
    case _ => None
  }

  function ReadOutput(payload: Fields): Option<Option<nat>> {
    match Field(payload, "usage")
    case None => Some(None)
    case Some(Obj(usage)) =>
      if NoCacheTokens(usage) then ReadTokenCount(Field(usage, "output_tokens")) else None
    case _ => None
  }

  function ReadDelta(payload: Fields): Option<Message> {
    var reason, output := ReadStopReason(payload), ReadOutput(payload);
    if reason.Some? && output.Some? then Some(MessageDelta(reason.value, output.value)) else None
  }

  function ReadFailure(payload: Fields): Message {
    var kind := match Field(payload, "error")
      case Some(Obj(error)) => Field(error, "type")
      case _ => None;
    Failure(MapErrorType(kind, {"rate_limit_error"}, {"overloaded_error"}))
  }

  function ReadMessage(payload: Fields): Option<Message> {
    match Field(payload, "type")
    case Some(Str(kind)) =>
      (match kind
       case "ping" => Some(Ping)
       case "message_start" => ReadStart(payload)
       case "content_block_start" => ReadOpen(payload)
       case "content_block_delta" => ReadPiece(payload)
       case "content_block_stop" => if ReadIndex(payload).Some? then Some(CloseBlock(ReadIndex(payload).value)) else None
       case "message_delta" => ReadDelta(payload)
       case "message_stop" => Some(MessageStop)
       case "error" => Some(ReadFailure(payload))
       case _ => None)
    case _ => None
  }

  function ReadFrame(p: Platform, data: string): Option<Message> {
    match p.parse(data)
    case Some(Obj(payload)) => ReadMessage(payload)
    case _ => None
  }

  // ----- applying a message -----

  type Stepped = Option<(AnthropicState, seq<ModelEvent>)>

  predicate Streaming(st: AnthropicState) {
    st.started && !st.stopped
  }

  /** Stable insertion into a list sorted by index. */
  function InsertCall(calls: seq<PendingCall>, call: PendingCall): seq<PendingCall> {
    if calls != [] && call.index < calls[|calls| - 1].index
    then InsertCall(calls[..|calls| - 1], call) + [calls[|calls| - 1]]
    else calls + [call]
  }

  /** The stable sort by index. */
  function SortCalls(calls: seq<PendingCall>): seq<PendingCall> {
    if calls == [] then [] else InsertCall(SortCalls(calls[..|calls| - 1]), calls[|calls| - 1])
  }

  function CallEvents(calls: seq<PendingCall>): seq<ModelEvent> {
    seq(|calls|, i requires 0 <= i < |calls| => ToolCall(calls[i].id, calls[i].name, calls[i].input))
  }

  function UsageEvents(st: AnthropicState): seq<ModelEvent> {
    if st.inputTokens.Some? && st.outputTokens.Some? then [Usage(st.inputTokens.value, st.outputTokens.value)] else []
  }

  function Keep<T>(update: Option<T>, current: Option<T>): Option<T> {
    if update.Some? then update else current
  }

  function ApplyMessage(p: Platform, limit: nat, st: AnthropicState, m: Message): Stepped {
    match m
    case Ping => Some((st, []))
    case MessageStart(input, output) =>
      if st.started || st.stopped then None
      else Some((st.(started := true, inputTokens := Keep(input, st.inputTokens), outputTokens := Keep(output, st.outputTokens)), []))
    case OpenText(index) =>
      if !Streaming(st) || index in st.blocks then None
      else Some((st.(blocks := st.blocks[index := TextBlock]), []))
    case OpenTool(index, id, name, initial) =>
      if !Streaming(st) || index in st.blocks || id in st.toolIds || p.utf8(p.stringify(initial)) > limit then None
      else Some((st.(blocks := st.blocks[index := ToolBlock(id, name, initial, "", 0)], toolIds := st.toolIds + {id}), []))
    case TextPiece(index, text) =>
      if !Streaming(st) || index !in st.blocks || !st.blocks[index].TextBlock? then None
      else Some((st, if text == "" then [] else [TextDelta(text)]))
    case JsonPiece(index, partial) =>
      if !Streaming(st) || index !in st.blocks || !st.blocks[index].ToolBlock? then None
      else
        var block := st.blocks[index];
        if (partial != "" && block.initial != Obj(map[])) || block.bytes + p.utf8(partial) > limit then None
        else Some((st.(blocks := st.blocks[index := block.(json := block.json + partial, bytes := block.bytes + p.utf8(partial))]), []))
    case CloseBlock(index) =>
      if !Streaming(st) || index !in st.blocks then None
      else
        var block := st.blocks[index];
        var closed := st.(blocks := st.blocks - {index});
        if block.TextBlock? then Some((closed, []))
        else
          var input := ToolInput(p, block.json, block.initial);
          if input.None? then None
          else Some((closed.(pending := st.pending + [PendingCall(index, block.id, block.name, input.value)]), []))
    case MessageDelta(reason, output) =>
      if !Streaming(st) then None
      else Some((st.(stopReason := Keep(reason, st.stopReason), outputTokens := Keep(output, st.outputTokens)), []))
    case MessageStop =>
      if !Streaming(st) || st.blocks != map[] then None
      else if st.stopReason != Some("end_turn") && st.stopReason != Some("tool_use") then None
      else Some((st.(stopped := true, terminal := true), CallEvents(SortCalls(st.pending)) + UsageEvents(st) + [Completed]))
    case Failure(code) => Some((st.(terminal := true), [StreamError(code)]))
  }

  function HandleFrame(p: Platform, limit: nat, st: AnthropicState, frame: SseEvent): Result<(AnthropicState, seq<ModelEvent>), ErrorCode> {
    match ReadFrame(p, frame.data)
    case None => Err(ProviderProtocolError)
    case Some(m) =>
      match ApplyMessage(p, limit, st, m)
      case None => Err(ProviderProtocolError)
      case Some(next) => Ok(next)
  }

  function Decoder(p: Platform, limit: nat): FrameDecoder<AnthropicState> {
    FrameDecoder(
      INITIAL,
      (st, frame) => HandleFrame(p, limit, st, frame),
      (st: AnthropicState) => st.terminal,
      st => Err(ProviderProtocolError))
  }

  lemma ApplyShape(p: Platform, limit: nat, st: AnthropicState, m: Message)
    requires !st.terminal && ApplyMessage(p, limit, st, m).Some?
    ensures var (next, events) := ApplyMessage(p, limit, st, m).value;
            if next.terminal then OneTerminalAtEnd(events) else NoTerminal(events)
  {
    if m.MessageStop? {
      var quiet := CallEvents(SortCalls(st.pending)) + UsageEvents(st);
      TerminalAfter(quiet, [Completed]);
    }
  }

  /** The decoder keeps the contract the driver relies on. */
  lemma DecoderWellBehaved(p: Platform, limit: nat)
    ensures WellBehaved(Decoder(p, limit))
  {
    hide ReadFrame;
    hide ApplyMessage;
    var dec := Decoder(p, limit);
    forall s: AnthropicState, frame: SseEvent | !dec.isTerminal(s) && dec.handle(s, frame).Ok?
      ensures var (next, events) := dec.handle(s, frame).value;
              if dec.isTerminal(next) then OneTerminalAtEnd(events) else NoTerminal(events)
    {
      ApplyShape(p, limit, s, ReadFrame(p, frame.data).value);
    }
  }

  // ----- the decoder as the program runs it -----

  class AnthropicDecoder {
    const p: Platform
    const maxToolInputBytes: nat
    var started: bool
    var stopped: bool
    var terminal: bool
    var stopReason: Option<string>
    var inputTokens: Option<nat>
    var outputTokens: Option<nat>
    var blocks: map<nat, Block>
    var toolIds: set<string>
    var pending: seq<PendingCall>

    constructor (p: Platform, limit: nat)
      ensures this.p == p && maxToolInputBytes == limit && State() == INITIAL
    {
      this.p, maxToolInputBytes := p, limit;
      started, stopped, terminal := false, false, false;
      stopReason, inputTokens, outputTokens := None, None, None;
      blocks, toolIds, pending := map[], {}, [];
    }

    function State(): AnthropicState
      reads this
    {
      AnthropicState(started, stopped, terminal, stopReason, inputTokens, outputTokens, blocks, toolIds, pending)
    }

    ghost predicate Did(before: AnthropicState, m: Message, events: Option<seq<ModelEvent>>)
      reads this
    {
      var spec := ApplyMessage(p, maxToolInputBytes, before, m);
      if events.None? then spec.None? else spec == Some((State(), events.value))
    }

    method HandleMessageStart(input: Option<nat>, output: Option<nat>) returns (events: Option<seq<ModelEvent>>)
      modifies this
      ensures Did(old(State()), MessageStart(input, output), events)
    {
      if started || stopped {
        return None;
      }
      started := true;
      if input.Some? {
        inputTokens := input;
      }
      if output.Some? {
        outputTokens := output;
      }
      return Some([]);
    }

    method HandleOpenText(index: nat) returns (events: Option<seq<ModelEvent>>)
      modifies this
      ensures Did(old(State()), OpenText(index), events)
    {
      if !started || stopped || index in blocks {
        return None;
      }
      blocks := blocks[index := TextBlock];
      return Some([]);
    }

    method HandleOpenTool(index: nat, id: string, name: string, initial: Json) returns (events: Option<seq<ModelEvent>>)
      modifies this
      ensures Did(old(State()), OpenTool(index, id, name, initial), events)
    {
      if !started || stopped || index in blocks || id in toolIds {
        return None;
      }
      toolIds := toolIds + {id};
      if p.utf8(p.stringify(initial)) > maxToolInputBytes {
        return None;
      }
      blocks := blocks[index := ToolBlock(id, name, initial, "", 0)];
      return Some([]);
    }

    method HandleTextPiece(index: nat, text: string) returns (events: Option<seq<ModelEvent>>)
      modifies this
      ensures Did(old(State()), TextPiece(index, text), events)
    {
      if !started || stopped || index !in blocks || !blocks[index].TextBlock? {
        return None;
      }
      return Some(if text == "" then [] else [TextDelta(text)]);
    }

    method HandleJsonPiece(index: nat, partial: string) returns (events: Option<seq<ModelEvent>>)
      modifies this
      ensures Did(old(State()), JsonPiece(index, partial), events)
    {
      if !started || stopped || index !in blocks || !blocks[index].ToolBlock? {
        return None;
      }
      var block := blocks[index];
      if partial != "" && block.initial != Obj(map[]) {
        return None;
      }
      var bytes := block.bytes + p.utf8(partial);
      if bytes > maxToolInputBytes {
        return None;
      }
      blocks := blocks[index := block.(json := block.json + partial, bytes := bytes)];
      return Some([]);
    }

    method HandleCloseBlock(index: nat) returns (events: Option<seq<ModelEvent>>)
      modifies this
      ensures Did(old(State()), CloseBlock(index), events)
    {
      if !started || stopped || index !in blocks {
        return None;
      }
      var block := blocks[index];
      blocks := blocks - {index};
      if block.TextBlock? {
        return Some([]);
      }
      var input := if Trim(block.json) == "" then Some(block.initial) else ParseToolInput(p, Trim(block.json));
      if input.None? {
        return None;
      }
      pending := pending + [PendingCall(index, block.id, block.name, input.value)];
      return Some([]);
    }

    method HandleMessageDelta(reason: Option<string>, output: Option<nat>) returns (events: Option<seq<ModelEvent>>)
      modifies this
      ensures Did(old(State()), MessageDelta(reason, output), events)
    {
      if !started || stopped {
        return None;
      }
      if reason.Some? {
        stopReason := reason;
      }
      if output.Some? {
        outputTokens := output;
      }
      return Some([]);
    }

    method HandleMessageStop() returns (events: Option<seq<ModelEvent>>)
      modifies this
      ensures Did(old(State()), MessageStop, events)
    {
      if !started || stopped || blocks != map[] {
        return None;
      }
      if stopReason != Some("end_turn") && stopReason != Some("tool_use") {
        return None;
      }
      stopped, terminal := true, true;
      var ordered := SortCalls(pending);
      var out := [];
      for i := 0 to |ordered|
        invariant out == CallEvents(ordered)[..i]
      {
        out := out + [ToolCall(ordered[i].id, ordered[i].name, ordered[i].input)];
      }
      assert out == CallEvents(ordered);
      if inputTokens.Some? && outputTokens.Some? {
        out := out + [Usage(inputTokens.value, outputTokens.value)];
      }
      assert out == CallEvents(SortCalls(pending)) + UsageEvents(State());
      return Some(out + [Completed]);
    }

    /** One frame; None is a thrown protocol error. */
    method Handle(frame: SseEvent) returns (events: Option<seq<ModelEvent>>)
      modifies this
      ensures var spec := HandleFrame(p, maxToolInputBytes, old(State()), frame);
              if events.None? then spec == Err(ProviderProtocolError) else spec == Ok((State(), events.value))
    {
      hide ReadFrame;
      var m := ReadFrame(p, frame.data);
      if m.None? {
        return None;
      }
      match m.value {
        case Ping => events := Some([]);
        case MessageStart(input, output) => events := HandleMessageStart(input, output);
        case OpenText(index) => events := HandleOpenText(index);
        case OpenTool(index, id, name, initial) => events := HandleOpenTool(index, id, name, initial);
        case TextPiece(index, text) => events := HandleTextPiece(index, text);
        case JsonPiece(index, partial) => events := HandleJsonPiece(index, partial);
        case CloseBlock(index) => events := HandleCloseBlock(index);
        case MessageDelta(reason, output) => events := HandleMessageDelta(reason, output);
        case MessageStop => events := HandleMessageStop();
        case Failure(code) =>
          terminal := true;
          events := Some([StreamError(code)]);
      }
    }
  }
}
