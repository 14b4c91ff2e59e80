/**
 The OpenAI Chat Completions decoder: frames are read into chunks, chunks are
 applied to the state. Every failure throws the same protocol error.
 */
module OpenAIStream {
  import opened Base
  import opened Events
  import opened DecodeUtils
  import opened Sse
  import opened StreamRuntime

  /** What is known of the tool call at one index. */
  datatype Entry = Entry(id: Option<string>, name: Option<string>, args: string, bytes: nat)

  /** A JavaScript Map: its entries, and its keys in order of insertion. */
  datatype Table = Table(entries: map<nat, Entry>, order: seq<nat>)

  datatype OpenAIState = OpenAIState(
    sawFinishReason: bool,
    finishReason: Option<string>,
    toolsEmitted: bool,
    terminal: bool,
    promptTokens: Option<nat>,
    completionTokens: Option<nat>,
    toolCalls: Table)

  const INITIAL := OpenAIState(false, None, false, false, None, None, EMPTY)
  const EMPTY := Table(map[], [])
  const NO_ENTRY := Entry(None, None, "", 0)

  /** One fragment of one tool call. */
  datatype ToolDelta = ToolDelta(index: nat, id: Option<string>, name: Option<string>, args: Option<string>)

  /** `tools` is None when the delta has no tool_calls field at all; a null field is an empty list. */
  datatype Choice = Choice(content: string, tools: Option<seq<ToolDelta>>, finish: Option<string>)

  datatype Chunk =
    | DoneMarker
    | Failure(code: ErrorCode)
    | Data(choice: Option<Choice>, prompt: Option<nat>, completion: Option<nat>)

  // ----- reading a frame -----

  /** An optional string that must not be empty; the outer None is an error. */
  function ReadName(value: Option<Json>): Option<Option<string>> {
    if Nullish(value) then Some(None)
    else if NonEmptyString(value) then Some(Some(value.value.s))
    else None
  }

  function ReadText(value: Option<Json>): Option<Option<string>> {
    if Nullish(value) then Some(None)
    else if value.value.Str? then Some(Some(value.value.s))
    else None
  }

  function ReadToolDelta(raw: Json): Option<ToolDelta> {
    if !raw.Obj? || "index" !in raw.fields then None
    else
      var fields := raw.fields;
      var index, id, kind, fn := SafeCount(fields["index"]), ReadName(Field(fields, "id")), Field(fields, "type"), Field(fields, "function");
      if index.None? || id.None? || (!Nullish(kind) && kind != Some(Str("function"))) then None
      else if Nullish(fn) then Some(ToolDelta(index.value, id.value, None, None))
      else if !fn.value.Obj? then None
      else
        var name, args := ReadName(Field(fn.value.fields, "name")), ReadText(Field(fn.value.fields, "arguments"));
        if name.None? || args.None? then None
        else Some(ToolDelta(index.value, id.value, name.value, args.value))
  }

  function ReadToolDeltas(items: seq<Json>): Option<seq<ToolDelta>> {
    if items == [] then Some([])
    else
      var first, rest := ReadToolDelta(items[0]), ReadToolDeltas(items[1..]);
      if first.Some? && rest.Some? then Some([first.value] + rest.value) else None
  }

  predicate SupportedDelta(delta: Fields) {
    && (Nullish(Field(delta, "role")) || Field(delta, "role") == Some(Str("assistant")))
    && Nullish(Field(delta, "refusal"))
    && Nullish(Field(delta, "function_call"))
    && Nullish(Field(delta, "reasoning_content"))
    && Nullish(Field(delta, "reasoning"))
  }

  function ReadDelta(delta: Fields): Option<Choice> {
    var content, tools := ReadText(Field(delta, "content")), Field(delta, "tool_calls");
    if !SupportedDelta(delta) || content.None? then None
    else
      var text := if content.value.Some? then content.value.value else "";
      if tools.None? then Some(Choice(text, None, None))
      else if tools.value.Null? then Some(Choice(text, Some([]), None))
      else if !tools.value.Arr? then None
      else
        var calls := ReadToolDeltas(tools.value.items);
        if calls.None? then None else Some(Choice(text, calls, None))
  }

  function ReadChoice(choice: Json): Option<Choice> {
    if !choice.Obj? then None
    else
      var fields := choice.fields;
      var delta := Field(fields, "delta");
      var read :=
        if Nullish(delta) then Some(Choice("", None, None))
        else if delta.value.Obj? then ReadDelta(delta.value.fields)
        else None;
      var finish := ReadText(Field(fields, "finish_reason"));
      if "index" in fields && fields["index"] != Num(Integer(0)) then None
      else if read.None? || finish.None? then None
      else Some(read.value.(finish := finish.value))
  }

  /** No choice at all is the usage-only chunk; more than one is not supported. */
  function ReadChoices(choices: Option<Json>): Option<Option<Choice>> {
    match choices
    case None => Some(None)
    case Some(Arr(items)) =>
      if items == [] then Some(None)
      else if |items| > 1 then None
      else
        var choice := ReadChoice(items[0]);
        if choice.None? then None else Some(Some(choice.value))
    case _ => None
  }

  function ErrorOf(error: Json): ErrorCode {
    if !error.Obj? then GatewayError
    else
      var limited, down := {"rate_limit_error", "rate_limit_exceeded"}, {"server_error", "overloaded_error"};
      var byType := MapErrorType(Field(error.fields, "type"), limited, down);
      if byType != GatewayError then byType else MapErrorType(Field(error.fields, "code"), limited, down)
  }

  function ReadChunk(payload: Fields): Option<Chunk> {
    if !Nullish(Field(payload, "error")) then Some(Failure(ErrorOf(payload["error"])))
    else if "choices" !in payload && "usage" !in payload then None
    else
      var choice := ReadChoices(Field(payload, "choices"));
      var usage := Field(payload, "usage");
      if choice.None? then None
      else if Nullish(usage) then Some(Data(choice.value, None, None))
      else if !usage.value.Obj? then None
      else
        var prompt := ReadTokenCount(Field(usage.value.fields, "prompt_tokens"));
        var completion := ReadTokenCount(Field(usage.value.fields, "completion_tokens"));
        if prompt.Some? && completion.Some? then Some(Data(choice.value, prompt.value, completion.value)) else None
  }

  function ReadFrame(p: Platform, data: string): Option<Chunk> {
    if Trim(data) == "[DONE]" then Some(DoneMarker)
    else
      match p.parse(data)
      case Some(Obj(payload)) => ReadChunk(payload)
      case _ => None
  }

  // ----- applying a chunk -----

  type Stepped = Option<(OpenAIState, seq<ModelEvent>)>

  /** An established value is never overwritten by a conflicting one; None is a conflict. */
  function Agree(current: Option<string>, update: Option<string>): Option<Option<string>> {
    if update.None? then Some(current)
    else if current.None? || current == update then Some(update)
    else None
  }

  function ApplyDelta(p: Platform, limit: nat, calls: Table, delta: ToolDelta): Option<Table> {
    var known := delta.index in calls.entries;
    var entry := if known then calls.entries[delta.index] else NO_ENTRY;
    var order := if known then calls.order else calls.order + [delta.index];
    var id, name := Agree(entry.id, delta.id), Agree(entry.name, delta.name);
    if id.None? || name.None? then None
    else if delta.args.None? then Some(Table(calls.entries[delta.index := entry.(id := id.value, name := name.value)], order))
    else
      var bytes := entry.bytes + p.utf8(delta.args.value);
      if bytes > limit then None
      else Some(Table(calls.entries[delta.index := Entry(id.value, name.value, entry.args + delta.args.value, bytes)], order))
  }

  function ApplyDeltas(p: Platform, limit: nat, calls: Table, deltas: seq<ToolDelta>): Option<Table> {
    if deltas == [] then Some(calls)
    else
      var before := ApplyDeltas(p, limit, calls, deltas[..|deltas| - 1]);
      if before.None? then None else ApplyDelta(p, limit, before.value, deltas[|deltas| - 1])
  }

  function InsertIndex(sorted: seq<nat>, index: nat): seq<nat> {
    if sorted != [] && index < sorted[|sorted| - 1]
    then InsertIndex(sorted[..|sorted| - 1], index) + [sorted[|sorted| - 1]]
    else sorted + [index]
  }

  function SortIndices(order: seq<nat>): seq<nat> {
    if order == [] then [] else InsertIndex(SortIndices(order[..|order| - 1]), order[|order| - 1])
  }

  function Ids(events: seq<ModelEvent>): set<string> {
    set e | e in events && e.ToolCall? :: e.id
  }

  /** The calls of the given indices: all of them, or None. */
  function Batch(p: Platform, entries: map<nat, Entry>, indices: seq<nat>): Option<seq<ModelEvent>> {
    if indices == [] then Some([])
    else
      var before := Batch(p, entries, indices[..|indices| - 1]);
      var last := indices[|indices| - 1];
      if before.None? || last !in entries then None
      else
        var entry := entries[last];
        if entry.id.None? || entry.name.None? || entry.id.value in Ids(before.value) then None
        else
          var input := ToolInput(p, entry.args, Obj(map[]));
          if input.None? then None
          else Some(before.value + [ToolCall(entry.id.value, entry.name.value, input.value)])
  }

  /** `emitToolCalls`: the whole batch in index order. */
  function EmitToolCalls(p: Platform, calls: Table): Option<seq<ModelEvent>> {
    Batch(p, calls.entries, SortIndices(calls.order))
  }

  function ApplyFinish(p: Platform, st: OpenAIState, finish: Option<string>): Stepped {
    if finish.None? then Some((st, []))
    else if st.sawFinishReason then None
    else
      var seen := st.(sawFinishReason := true, finishReason := finish);
      if finish.value == "stop" then
        if st.toolCalls.entries != map[] then None else Some((seen, []))
      else if finish.value == "tool_calls" then
        var calls := EmitToolCalls(p, st.toolCalls);
        if calls.None? then None else Some((seen.(toolsEmitted := true), calls.value))
      else None
  }

  function TextEvents(content: string): seq<ModelEvent> {
    if content == "" then [] else [TextDelta(content)]
  }

  function ApplyChoice(p: Platform, limit: nat, st: OpenAIState, choice: Choice): Stepped {
    if st.sawFinishReason && (choice.content != "" || choice.tools.Some?) then None
    else
      var calls := if choice.tools.None? then Some(st.toolCalls) else ApplyDeltas(p, limit, st.toolCalls, choice.tools.value);
      if calls.None? then None
      else
        var finished := ApplyFinish(p, st.(toolCalls := calls.value), choice.finish);
        if finished.None? then None
        else Some((finished.value.0, TextEvents(choice.content) + finished.value.1))
  }

  function Keep<T>(update: Option<T>, current: Option<T>): Option<T> {
    if update.Some? then update else current
  }

  function ApplyUsage(st: OpenAIState, prompt: Option<nat>, completion: Option<nat>): (OpenAIState, seq<ModelEvent>) {
    (st.(promptTokens := Keep(prompt, st.promptTokens), completionTokens := Keep(completion, st.completionTokens)),
     if prompt.Some? && completion.Some? then [Usage(prompt.value, completion.value)] else [])
  }

  function ApplyChunk(p: Platform, limit: nat, st: OpenAIState, chunk: Chunk): Stepped {
    match chunk
    case DoneMarker =>
      if !st.sawFinishReason || (st.finishReason == Some("tool_calls") && !st.toolsEmitted) then None
      else Some((st.(terminal := true), [Completed]))
    case Failure(code) => Some((st.(terminal := true), [StreamError(code)]))
    case Data(choice, prompt, completion) =>
      var chosen := if choice.None? then Some((st, [])) else ApplyChoice(p, limit, st, choice.value);
      if chosen.None? then None
      else
        var (next, usage) := ApplyUsage(chosen.value.0, prompt, completion);
        Some((next, chosen.value.1 + usage))
  }

  function HandleFrame(p: Platform, limit: nat, st: OpenAIState, frame: SseEvent): Result<(OpenAIState, seq<ModelEvent>), ErrorCode> {
    match ReadFrame(p, frame.data)
    case None => Err(ProviderProtocolError)
    case Some(chunk) =>
      match ApplyChunk(p, limit, st, chunk)
      case None => Err(ProviderProtocolError)
      case Some(next) => Ok(next)
  }

  function Decoder(p: Platform, limit: nat): FrameDecoder<OpenAIState> {
    FrameDecoder(
      INITIAL,
      (st, frame) => HandleFrame(p, limit, st, frame),
      (st: OpenAIState) => st.terminal,
      st => Err(ProviderProtocolError))
  }

  lemma {:induction false} BatchCalls(p: Platform, entries: map<nat, Entry>, indices: seq<nat>)
    requires Batch(p, entries, indices).Some?
    ensures var calls := Batch(p, entries, indices).value;
            && |calls| == |indices|
            && (forall i :: 0 <= i < |calls| ==> calls[i].ToolCall?)
            && (forall i, j :: 0 <= i < j < |calls| ==> calls[i].id != calls[j].id)
    decreases |indices|
  {
    hide ToolInput;
    if indices != [] {
      BatchCalls(p, entries, indices[..|indices| - 1]);
      var before := Batch(p, entries, indices[..|indices| - 1]).value;
      forall i | 0 <= i < |before|
        ensures before[i].id in Ids(before)
      {
        assert before[i] in before;
      }
    }
  }

  lemma ApplyShape(p: Platform, limit: nat, st: OpenAIState, chunk: Chunk)
    requires !st.terminal && ApplyChunk(p, limit, st, chunk).Some?
    ensures var (next, events) := ApplyChunk(p, limit, st, chunk).value;
            if next.terminal then OneTerminalAtEnd(events) else NoTerminal(events)
  {
    hide Batch;
    hide ApplyDeltas;
    if chunk.Data? && chunk.choice.Some? && chunk.choice.value.finish == Some("tool_calls") {
      var calls := if chunk.choice.value.tools.None? then st.toolCalls else ApplyDeltas(p, limit, st.toolCalls, chunk.choice.value.tools.value).value;
      BatchCalls(p, calls.entries, SortIndices(calls.order));
    }
  }

  /** The decoder keeps the contract the driver relies on. */
  lemma DecoderWellBehaved(p: Platform, limit: nat)
    ensures WellBehaved(Decoder(p, limit))
  {
    hide ReadFrame;
    hide ApplyChunk;
    var dec := Decoder(p, limit);
    forall s: OpenAIState, frame: SseEvent | !dec.isTerminal(s) && dec.handle(s, frame).Ok?
      ensures var (next, events) := dec.handle(s, frame).value;
              if dec.isTerminal(next) then OneTerminalAtEnd(events) else NoTerminal(events)
    {
      ApplyShape(p, limit, s, ReadFrame(p, frame.data).value);
    }
  }

  // ----- the decoder as the program runs it -----

  class OpenAIDecoder {
    const p: Platform
    const maxToolInputBytes: nat
    var sawFinishReason: bool
    var finishReason: Option<string>
    var toolsEmitted: bool
    var terminal: bool
    var promptTokens: Option<nat>
    var completionTokens: Option<nat>
    var toolCalls: Table

    constructor (p: Platform, limit: nat)
      ensures this.p == p && maxToolInputBytes == limit && State() == INITIAL
    {
      this.p, maxToolInputBytes := p, limit;
      sawFinishReason, finishReason, toolsEmitted, terminal := false, None, false, false;
      promptTokens, completionTokens, toolCalls := None, None, EMPTY;
    }

    function State(): OpenAIState
      reads this
    {
      OpenAIState(sawFinishReason, finishReason, toolsEmitted, terminal, promptTokens, completionTokens, toolCalls)
    }

    method ApplyToolCallDelta(delta: ToolDelta) returns (ok: bool)
      modifies this`toolCalls
      ensures var spec := ApplyDelta(p, maxToolInputBytes, old(toolCalls), delta);
              if ok then spec == Some(toolCalls) else spec.None?
    {
      var entries, order := toolCalls.entries, toolCalls.order;
      var entry;
      if delta.index in entries {
        entry := entries[delta.index];
      } else {
        entry := NO_ENTRY;
        order := order + [delta.index];
      }
      if delta.id.Some? {
        if entry.id.Some? && entry.id != delta.id {
          return false;
        }
        entry := entry.(id := delta.id);
      }
      if delta.name.Some? {
        if entry.name.Some? && entry.name != delta.name {
          return false;
        }
        entry := entry.(name := delta.name);
      }
      if delta.args.Some? {
        var bytes := entry.bytes + p.utf8(delta.args.value);
        if bytes > maxToolInputBytes {
          return false;
        }
        entry := entry.(bytes := bytes, args := entry.args + delta.args.value);
      }
      toolCalls := Table(entries[delta.index := entry], order);
      return true;
    }

    /** The whole batch is built before a single call is handed over. */
    method EmitCalls() returns (calls: Option<seq<ModelEvent>>)
      modifies this`toolsEmitted
      ensures calls == EmitToolCalls(p, toolCalls)
      ensures toolsEmitted == (if calls.Some? then true else old(toolsEmitted))
    {
      var ordered := SortIndices(toolCalls.order);
      var seenIds: set<string> := {};
      var batch := [];
      for i := 0 to |ordered|
        invariant Batch(p, toolCalls.entries, ordered[..i]) == Some(batch)
        invariant seenIds == Ids(batch)
        invariant toolsEmitted == old(toolsEmitted)
      {
        assert ordered[..i + 1][..i] == ordered[..i];
        BatchGrows(p, toolCalls.entries, ordered, i);
        if ordered[i] !in toolCalls.entries {
          return None;
        }
        var entry := toolCalls.entries[ordered[i]];
        if entry.id.None? || entry.name.None? || entry.id.value in seenIds {
          return None;
        }
        seenIds := seenIds + {entry.id.value};
        var input := ToolInput(p, entry.args, Obj(map[]));
        if input.None? {
          return None;
        }
        var call := ToolCall(entry.id.value, entry.name.value, input.value);
        IdsGrow(batch, call);
        batch := batch + [call];
      }
      assert ordered[..|ordered|] == ordered;
      toolsEmitted := true;
      return Some(batch);
    }

    method HandleFinishReason(reason: string) returns (events: Option<seq<ModelEvent>>)
      requires !sawFinishReason
      modifies this
      ensures var spec := ApplyFinish(p, old(State()), Some(reason));
              if events.None? then spec.None? else spec == Some((State(), events.value))
    {
      sawFinishReason := true;
      finishReason := Some(reason);
      if reason == "stop" {
        if toolCalls.entries != map[] {
          return None;
        }
        return Some([]);
      }
      if reason == "tool_calls" {
        events := EmitCalls();
        return;
      }
      return None;
    }

    method HandleChoice(choice: Choice) returns (events: Option<seq<ModelEvent>>)
      modifies this
      ensures var spec := ApplyChoice(p, maxToolInputBytes, old(State()), choice);
              if events.None? then spec.None? else spec == Some((State(), events.value))
    {
      hide EmitToolCalls;
      if sawFinishReason && (choice.content != "" || choice.tools.Some?) {
        return None;
      }
      var out := if choice.content == "" then [] else [TextDelta(choice.content)];
      if choice.tools.Some? {
        var deltas := choice.tools.value;
        ghost var start := toolCalls;
        for i := 0 to |deltas|
          invariant State() == old(State()).(toolCalls := toolCalls)
          invariant ApplyDeltas(p, maxToolInputBytes, start, deltas[..i]) == Some(toolCalls)
        {
          assert deltas[..i + 1][..i] == deltas[..i];
          DeltasGrow(p, maxToolInputBytes, start, deltas, i);
          var ok := ApplyToolCallDelta(deltas[i]);
          if !ok {
            return None;
          }
        }
        assert deltas[..|deltas|] == deltas;
      }
      if choice.finish.Some? {
        if sawFinishReason {
          return None;
        }
        events := HandleFinishReason(choice.finish.value);
        if events.Some? {
          events := Some(out + events.value);
        }
        return;
      }
      assert out + [] == out;
      return Some(out);
    }

    /** One frame; None is a thrown protocol error. */
    method Handle(frame: SseEvent) returns (events: Option<seq<ModelEvent>>)
      modifies this
      ensures var spec := HandleFrame(p, maxToolInputBytes, old(State()), frame);
              if events.None? then spec == Err(ProviderProtocolError) else spec == Ok((State(), events.value))
    {
      hide ReadFrame;
      hide ApplyChoice;
      var chunk := ReadFrame(p, frame.data);
      if chunk.None? {
        return None;
      }
      match chunk.value {
        case DoneMarker =>
          if !sawFinishReason || (finishReason == Some("tool_calls") && !toolsEmitted) {
            return None;
          }
          terminal := true;
          return Some([Completed]);
        case Failure(code) =>
          terminal := true;
          return Some([StreamError(code)]);
        case Data(choice, prompt, completion) =>
          var out := [];
          if choice.Some? {
            var chosen := HandleChoice(choice.value);
            if chosen.None? {
              return None;
            }
            out := chosen.value;
          }
          if prompt.Some? {
            promptTokens := prompt;
          }
          if completion.Some? {
            completionTokens := completion;
          }
          if prompt.Some? && completion.Some? {
            return Some(out + [Usage(prompt.value, completion.value)]);
          }
          assert out + [] == out;
          return Some(out);
      }
    }
  }

  lemma IdsGrow(batch: seq<ModelEvent>, call: ModelEvent)
    requires call.ToolCall?
    ensures Ids(batch + [call]) == Ids(batch) + {call.id}
  {
    assert call in batch + [call];
    forall e | e in batch
      ensures e in batch + [call]
    {
    }
  }

  /** A prefix of the indices that has no batch leaves none for the whole. */
  lemma {:induction false} BatchGrows(p: Platform, entries: map<nat, Entry>, indices: seq<nat>, i: nat)
    requires i < |indices|
    ensures Batch(p, entries, indices[..i + 1]).None? ==> Batch(p, entries, indices).None?
    decreases |indices|
  {
    if i + 1 == |indices| {
      assert indices[..i + 1] == indices;
    } else {
      assert indices[..|indices| - 1][..i + 1] == indices[..i + 1];
      BatchGrows(p, entries, indices[..|indices| - 1], i);
    }
  }

  lemma {:induction false} DeltasGrow(p: Platform, limit: nat, calls: Table, deltas: seq<ToolDelta>, i: nat)
    requires i < |deltas|
    ensures ApplyDeltas(p, limit, calls, deltas[..i + 1]).None? ==> ApplyDeltas(p, limit, calls, deltas).None?
    decreases |deltas|
  {
    if i + 1 == |deltas| {
      assert deltas[..i + 1] == deltas;
    } else {
      assert deltas[..|deltas| - 1][..i + 1] == deltas[..i + 1];
      DeltasGrow(p, limit, calls, deltas[..|deltas| - 1], i);
    }
  }
}
