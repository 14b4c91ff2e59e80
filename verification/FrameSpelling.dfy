/**
 Which JSON is which message: what a frame must hold, path by path, to be read as
 a message of either protocol. Everything else is refused.
 */
module FrameSpelling {
  import opened Base
  import opened Events
  import opened DecodeUtils
  import A = AnthropicStream
  import O = OpenAIStream

  /** The value under a field name. */
  function At(j: Json, name: string): Option<Json> {
    if j.Obj? && name in j.fields then Some(j.fields[name]) else None
  }

  predicate Text(j: Json, name: string, text: string) {
    At(j, name) == Some(Str(text))
  }

  predicate Absent(j: Json, name: string) {
    At(j, name) in {None, Some(Null)}
  }

  predicate Number(j: Json, name: string, n: nat) {
    At(j, name) == Some(Num(Integer(n))) && n <= MAX_SAFE_INTEGER
  }

  /** A count that may be missing, but is never null or negative. */
  predicate Counted(j: Json, name: string, n: Option<nat>) {
    if n.None? then At(j, name).None? else Number(j, name, n.value)
  }

  predicate Object(j: Json, name: string) {
    At(j, name).Some? && At(j, name).value.Obj?
  }

  predicate NoCache(usage: Json) {
    && (Absent(usage, "cache_creation_input_tokens") || At(usage, "cache_creation_input_tokens") == Some(Num(Integer(0))))
    && (Absent(usage, "cache_read_input_tokens") || At(usage, "cache_read_input_tokens") == Some(Num(Integer(0))))
  }

  // ----- Anthropic -----

  /** Usage that is not there says nothing; usage that is there counts no cached tokens. */
  predicate UsageOf(j: Json, name: string, input: Option<nat>, output: Option<nat>, withInput: bool) {
    if At(j, name).None? then input.None? && output.None?
    else
      var usage := At(j, name).value;
      usage.Obj? && NoCache(usage) && (if withInput then Counted(usage, "input_tokens", input) else input.None?)
      && Counted(usage, "output_tokens", output)
  }

  predicate Spells(j: Json, m: A.Message) {
    match m
    case Ping => Text(j, "type", "ping")
    case MessageStart(input, output) =>
      Text(j, "type", "message_start") && Object(j, "message") && UsageOf(At(j, "message").value, "usage", input, output, true)
    case OpenText(index) =>
      Text(j, "type", "content_block_start") && Number(j, "index", index) && Object(j, "content_block")
      && Text(At(j, "content_block").value, "type", "text")
    case OpenTool(index, id, name, initial) =>
      Text(j, "type", "content_block_start") && Number(j, "index", index) && Object(j, "content_block")
      && var block := At(j, "content_block").value;
         && Text(block, "type", "tool_use") && Text(block, "id", id) && id != "" && Text(block, "name", name) && name != ""
         && At(block, "input") == Some(initial) && initial.Obj? && FiniteJson(initial, 0)
    case TextPiece(index, text) =>
      Text(j, "type", "content_block_delta") && Number(j, "index", index) && Object(j, "delta")
      && Text(At(j, "delta").value, "type", "text_delta") && Text(At(j, "delta").value, "text", text)
    case JsonPiece(index, partial) =>
      Text(j, "type", "content_block_delta") && Number(j, "index", index) && Object(j, "delta")
      && Text(At(j, "delta").value, "type", "input_json_delta") && Text(At(j, "delta").value, "partial_json", partial)
    case CloseBlock(index) => Text(j, "type", "content_block_stop") && Number(j, "index", index)
    case MessageDelta(reason, output) =>
      Text(j, "type", "message_delta") && UsageOf(j, "usage", None, output, false)
      && (At(j, "delta").None? ==> reason.None?)
      && (At(j, "delta").Some? ==>
            var delta := At(j, "delta").value;
            delta.Obj? && if reason.None? then Absent(delta, "stop_reason") else Text(delta, "stop_reason", reason.value))
    case MessageStop => Text(j, "type", "message_stop")
    case Failure(code) =>
      && Text(j, "type", "error")
      && code == if !Object(j, "error") then GatewayError
                 else if Text(At(j, "error").value, "type", "rate_limit_error") then RateLimited
                 else if Text(At(j, "error").value, "type", "overloaded_error") then UpstreamUnavailable
                 else GatewayError
  }

  function Kind(m: A.Message): string {
    match m
    case Ping => "ping"
    case MessageStart(_, _) => "message_start"
    case OpenText(_) => "content_block_start"
    case OpenTool(_, _, _, _) => "content_block_start"
    case TextPiece(_, _) => "content_block_delta"
    case JsonPiece(_, _) => "content_block_delta"
    case CloseBlock(_) => "content_block_stop"
    case MessageDelta(_, _) => "message_delta"
    case MessageStop => "message_stop"
    case Failure(_) => "error"
  }

  lemma SpelledKind(j: Json, m: A.Message)
    ensures Spells(j, m) ==> Text(j, "type", Kind(m))
  {}

  lemma CountRead(j: Json, name: string, n: Option<nat>)
    requires j.Obj?
    ensures ReadTokenCount(Field(j.fields, name)) == Some(n) <==> Counted(j, name, n)
  {}

  lemma IndexRead(payload: Fields, index: nat)
    ensures A.ReadIndex(payload) == Some(index) <==> Number(Obj(payload), "index", index)
  {}

  lemma StartRead(payload: Fields, m: A.Message)
    requires Text(Obj(payload), "type", "message_start")
    ensures A.ReadStart(payload) == Some(m) <==> m.MessageStart? && Spells(Obj(payload), m)
  {
    hide ReadTokenCount, Counted;
    if m.MessageStart? && Object(Obj(payload), "message") {
      var message := payload["message"];
      if At(message, "usage").Some? && At(message, "usage").value.Obj? {
        CountRead(At(message, "usage").value, "input_tokens", m.inputTokens);
        CountRead(At(message, "usage").value, "output_tokens", m.outputTokens);
      }
    }
  }

  lemma OpenRead(payload: Fields, m: A.Message)
    requires Text(Obj(payload), "type", "content_block_start")
    ensures A.ReadOpen(payload) == Some(m) <==> (m.OpenText? || m.OpenTool?) && Spells(Obj(payload), m)
  {
    hide FiniteJson, A.ReadIndex, Number;
    assert |"text"| == 4 && |"tool_use"| == 8;
    if m.OpenText? || m.OpenTool? {
      IndexRead(payload, m.index);
    }
    if A.ReadIndex(payload).Some? {
      IndexRead(payload, A.ReadIndex(payload).value);
    }
  }

  lemma PieceRead(payload: Fields, m: A.Message)
    requires Text(Obj(payload), "type", "content_block_delta")
    ensures A.ReadPiece(payload) == Some(m) <==> (m.TextPiece? || m.JsonPiece?) && Spells(Obj(payload), m)
  {
    hide A.ReadIndex, Number;
    assert |"text_delta"| == 10 && |"input_json_delta"| == 16;
    if m.TextPiece? || m.JsonPiece? {
      IndexRead(payload, m.index);
    }
    if A.ReadIndex(payload).Some? {
      IndexRead(payload, A.ReadIndex(payload).value);
    }
  }

  lemma DeltaRead(payload: Fields, m: A.Message)
    requires Text(Obj(payload), "type", "message_delta")
    ensures A.ReadDelta(payload) == Some(m) <==> m.MessageDelta? && Spells(Obj(payload), m)
  {
    hide ReadTokenCount, Counted;
    if m.MessageDelta? && Object(Obj(payload), "usage") {
      CountRead(payload["usage"], "output_tokens", m.outputTokens);
    }
  }

  lemma FailureRead(payload: Fields, m: A.Message)
    requires Text(Obj(payload), "type", "error")
    ensures A.ReadFailure(payload) == m <==> m.Failure? && Spells(Obj(payload), m)
  {}

  /** A payload is read as a message exactly when it spells that message. */
  lemma ReadExactlyWhen(payload: Fields, m: A.Message)
    ensures A.ReadMessage(payload) == Some(m) <==> Spells(Obj(payload), m)
  {
    hide Spells, A.ReadStart, A.ReadOpen, A.ReadPiece, A.ReadDelta, A.ReadFailure, A.ReadIndex;
    SpelledKind(Obj(payload), m);
    match Field(payload, "type")
    case Some(Str("ping")) => Sole(payload, m);
    case Some(Str("message_start")) => StartRead(payload, m);
    case Some(Str("content_block_start")) => OpenRead(payload, m);
    case Some(Str("content_block_delta")) => PieceRead(payload, m);
    case Some(Str("content_block_stop")) => CloseRead(payload, m);
    case Some(Str("message_delta")) => DeltaRead(payload, m);
    case Some(Str("message_stop")) => Sole(payload, m);
    case Some(Str("error")) => FailureRead(payload, m);
    case _ =>
  }

  lemma Sole(payload: Fields, m: A.Message)
    ensures m.Ping? ==> (Spells(Obj(payload), m) <==> Text(Obj(payload), "type", "ping"))
    ensures m.MessageStop? ==> (Spells(Obj(payload), m) <==> Text(Obj(payload), "type", "message_stop"))
  {}

  lemma CloseRead(payload: Fields, m: A.Message)
    requires Text(Obj(payload), "type", "content_block_stop")
    ensures m.CloseBlock? ==> (Spells(Obj(payload), m) <==> A.ReadIndex(payload) == Some(m.index))
  {}

  // ----- OpenAI -----

  predicate NameIs(j: Json, name: string, value: Option<string>) {
    if value.None? then Absent(j, name) else Text(j, name, value.value) && value.value != ""
  }

  predicate TextIs(j: Json, name: string, value: Option<string>) {
    if value.None? then Absent(j, name) else Text(j, name, value.value)
  }

  predicate SpellsFragment(j: Json, d: O.ToolDelta) {
    && j.Obj? && Number(j, "index", d.index) && NameIs(j, "id", d.id)
    && (Absent(j, "type") || Text(j, "type", "function"))
    && if Absent(j, "function") then d.name.None? && d.args.None?
       else
         var fn := At(j, "function").value;
         fn.Obj? && NameIs(fn, "name", d.name) && TextIs(fn, "arguments", d.args)
  }

  predicate SpellsFragments(items: seq<Json>, deltas: seq<O.ToolDelta>) {
    |items| == |deltas| && forall i :: 0 <= i < |items| ==> SpellsFragment(items[i], deltas[i])
  }

  /** A delta speaks for the assistant, and says nothing the decoder would have to drop. */
  predicate Plain(delta: Json) {
    && (Absent(delta, "role") || Text(delta, "role", "assistant"))
    && Absent(delta, "refusal") && Absent(delta, "function_call") && Absent(delta, "reasoning_content") && Absent(delta, "reasoning")
  }

  predicate SpellsDelta(delta: Json, c: O.Choice) {
    && delta.Obj? && Plain(delta)
    && (if Absent(delta, "content") then c.content == "" else Text(delta, "content", c.content))
    && match At(delta, "tool_calls")
       case None => c.tools.None?
       case Some(Null) => c.tools == Some([])
       case Some(Arr(items)) => c.tools.Some? && SpellsFragments(items, c.tools.value)
       case _ => false
  }

  predicate SpellsChoice(j: Json, c: O.Choice) {
    && j.Obj? && At(j, "index") in {None, Some(Num(Integer(0)))}
    && TextIs(j, "finish_reason", c.finish)
    && if Absent(j, "delta") then c.content == "" && c.tools.None? else SpellsDelta(At(j, "delta").value, c)
  }

  predicate SpellsChunk(j: Json, chunk: O.Chunk) {
    match chunk
    case DoneMarker => false
    case Failure(code) => !Absent(j, "error") && code == CodeOf(At(j, "error").value)
    case Data(choice, prompt, completion) =>
      && Absent(j, "error") && (At(j, "choices").Some? || At(j, "usage").Some?)
      && (match At(j, "choices")
          case None => choice.None?
          case Some(Arr(items)) =>
            if choice.None? then items == [] else |items| == 1 && SpellsChoice(items[0], choice.value)
          case _ => false)
      && if Absent(j, "usage") then prompt.None? && completion.None?
         else
           var usage := At(j, "usage").value;
           usage.Obj? && Counted(usage, "prompt_tokens", prompt) && Counted(usage, "completion_tokens", completion)
  }

  /** The type of an error decides; its code does when the type is unknown. */
  function CodeOf(error: Json): ErrorCode {
    var kind, code := At(error, "type"), At(error, "code");
    if Limits(kind) then RateLimited
    else if Down(kind) then UpstreamUnavailable
    else if Limits(code) then RateLimited
    else if Down(code) then UpstreamUnavailable
    else GatewayError
  }

  predicate Limits(text: Option<Json>) {
    text in {Some(Str("rate_limit_error")), Some(Str("rate_limit_exceeded"))}
  }

  predicate Down(text: Option<Json>) {
    text in {Some(Str("server_error")), Some(Str("overloaded_error"))}
  }

  lemma NameRead(j: Json, name: string, value: Option<string>)
    requires j.Obj?
    ensures O.ReadName(Field(j.fields, name)) == Some(value) <==> NameIs(j, name, value)
  {}

  lemma TextRead(j: Json, name: string, value: Option<string>)
    requires j.Obj?
    ensures O.ReadText(Field(j.fields, name)) == Some(value) <==> TextIs(j, name, value)
  {}

  lemma FragmentRead(j: Json, d: O.ToolDelta)
    ensures O.ReadToolDelta(j) == Some(d) <==> SpellsFragment(j, d)
  {
    hide O.ReadName, O.ReadText, NameIs, TextIs;
    if j.Obj? {
      NameRead(j, "id", d.id);
      if At(j, "function").Some? && At(j, "function").value.Obj? {
        NameRead(At(j, "function").value, "name", d.name);
        TextRead(At(j, "function").value, "arguments", d.args);
      }
    }
  }

  lemma {:induction false} FragmentsRead(items: seq<Json>, deltas: seq<O.ToolDelta>)
    ensures O.ReadToolDeltas(items) == Some(deltas) <==> SpellsFragments(items, deltas)
    decreases |items|
  {
    hide O.ReadToolDelta, SpellsFragment;
    if items != [] {
      if deltas != [] {
        FragmentRead(items[0], deltas[0]);
        FragmentsRead(items[1..], deltas[1..]);
        assert deltas == [deltas[0]] + deltas[1..];
        assert forall i :: 1 <= i < |items| ==> items[i] == items[1..][i - 1];
        assert forall i :: 1 <= i < |deltas| ==> deltas[i] == deltas[1..][i - 1];
        assert SpellsFragments(items, deltas) ==> SpellsFragments(items[1..], deltas[1..]);
        assert SpellsFragments(items[1..], deltas[1..]) && SpellsFragment(items[0], deltas[0]) ==> SpellsFragments(items, deltas);
      }
    }
  }

  lemma DeltaFieldsRead(delta: Json, c: O.Choice)
    requires delta.Obj? && c.finish.None?
    ensures O.ReadDelta(delta.fields) == Some(c) <==> SpellsDelta(delta, c)
  {
    hide O.ReadText, TextIs, O.ReadToolDeltas, SpellsFragments;
    TextRead(delta, "content", Some(c.content));
    TextRead(delta, "content", None);
    TextMeans(delta, "content", c.content);
    if At(delta, "tool_calls").Some? && At(delta, "tool_calls").value.Arr? && c.tools.Some? {
      FragmentsRead(At(delta, "tool_calls").value.items, c.tools.value);
    }
  }

  lemma TextMeans(j: Json, name: string, text: string)
    ensures TextIs(j, name, None) <==> Absent(j, name)
    ensures TextIs(j, name, Some(text)) <==> Text(j, name, text)
  {}

  lemma ChoiceRead(j: Json, c: O.Choice)
    ensures O.ReadChoice(j) == Some(c) <==> SpellsChoice(j, c)
  {
    hide O.ReadText, TextIs, O.ReadDelta, SpellsDelta;
    if j.Obj? {
      TextRead(j, "finish_reason", c.finish);
      if At(j, "delta").Some? && At(j, "delta").value.Obj? {
        DeltaFieldsRead(At(j, "delta").value, c.(finish := None));
        SameButFinish(At(j, "delta").value, c);
        FinishUnread(At(j, "delta").value.fields);
      }
      SpelledIsObject(j, c);
    }
  }

  lemma SpelledIsObject(j: Json, c: O.Choice)
    ensures At(j, "delta").Some? && SpellsDelta(At(j, "delta").value, c) ==> At(j, "delta").value.Obj?
  {}

  lemma SameButFinish(delta: Json, c: O.Choice)
    ensures SpellsDelta(delta, c) <==> SpellsDelta(delta, c.(finish := None))
  {}

  lemma FinishUnread(delta: Fields)
    ensures O.ReadDelta(delta).Some? ==> O.ReadDelta(delta).value.finish.None?
  {
    hide O.ReadText, O.ReadToolDeltas;
  }

  lemma CodeRead(error: Json)
    ensures O.ErrorOf(error) == CodeOf(error)
  {}

  /** A payload is read as a chunk exactly when it spells that chunk. */
  lemma ChunkReadExactlyWhen(payload: Fields, chunk: O.Chunk)
    ensures O.ReadChunk(payload) == Some(chunk) <==> SpellsChunk(Obj(payload), chunk)
  {
    hide O.ReadChoice, SpellsChoice, ReadTokenCount, Counted, O.ErrorOf, CodeOf;
    var j := Obj(payload);
    if At(j, "error").Some? {
      CodeRead(At(j, "error").value);
    }
    if chunk.Data? {
      if At(j, "choices").Some? && At(j, "choices").value.Arr? && |At(j, "choices").value.items| == 1 && chunk.choice.Some? {
        ChoiceRead(At(j, "choices").value.items[0], chunk.choice.value);
      }
      if At(j, "usage").Some? && At(j, "usage").value.Obj? {
        CountRead(At(j, "usage").value, "prompt_tokens", chunk.prompt);
        CountRead(At(j, "usage").value, "completion_tokens", chunk.completion);
      }
    }
  }
}
