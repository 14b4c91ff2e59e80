/**
 One abstract response, spoken in two protocols.

 A response is printed as Anthropic messages and as OpenAI chunks, its texts and
 tool arguments cut into any pieces. Both decoders turn it into the same events.
 */
module ProtocolAgreement {
  import opened Base
  import opened Events
  import opened DecodeUtils
  import A = AnthropicStream
  import O = OpenAIStream
  import R = AnthropicReassembly
  import W = AnthropicInterleaving

  datatype Part =
    | TextPart(pieces: seq<string>)
    | ToolPart(id: string, name: string, fragments: seq<string>)

  datatype Response = Response(parts: seq<Part>, inputTokens: nat, outputTokens: nat)

  const NO_INPUT := Obj(map[])

  // ----- what a response means -----

  function PieceEvents(pieces: seq<string>): seq<ModelEvent> {
    if pieces == [] then []
    else (if pieces[0] == "" then [] else [TextDelta(pieces[0])]) + PieceEvents(pieces[1..])
  }

  function TextOf(parts: seq<Part>): seq<ModelEvent> {
    if parts == [] then []
    else
      var last := parts[|parts| - 1];
      TextOf(parts[..|parts| - 1]) + if last.TextPart? then PieceEvents(last.pieces) else []
  }

  function ToolsOf(parts: seq<Part>): seq<Part> {
    if parts == [] then []
    else
      var last := parts[|parts| - 1];
      ToolsOf(parts[..|parts| - 1]) + if last.ToolPart? then [last] else []
  }

  function InputOf(p: Platform, part: Part): Option<Json>
    requires part.ToolPart?
  {
    ToolInput(p, Concat(part.fragments), NO_INPUT)
  }

  function Utf8Total(p: Platform, pieces: seq<string>): nat {
    if pieces == [] then 0 else p.utf8(pieces[0]) + Utf8Total(p, pieces[1..])
  }

  predicate Usable(p: Platform, limit: nat, part: Part) {
    part.ToolPart? ==>
      && part.id != "" && part.name != ""
      && InputOf(p, part).Some?
      && Utf8Total(p, part.fragments) <= limit
  }

  /** Tool calls are usable and have distinct ids, and an empty object is within the limit. */
  predicate WellFormed(p: Platform, limit: nat, parts: seq<Part>) {
    && p.utf8(p.stringify(NO_INPUT)) <= limit
    && (forall i :: 0 <= i < |parts| ==> Usable(p, limit, parts[i]))
    && (forall i, j :: 0 <= i < j < |parts| && parts[i].ToolPart? && parts[j].ToolPart? ==> parts[i].id != parts[j].id)
  }

  function CallsOf(p: Platform, parts: seq<Part>): seq<ModelEvent> {
    if parts == [] then []
    else
      var last := parts[|parts| - 1];
      CallsOf(p, parts[..|parts| - 1]) +
      if last.ToolPart? && InputOf(p, last).Some? then [ToolCall(last.id, last.name, InputOf(p, last).value)] else []
  }

  /** Text first, as it arrives; then the calls; then the usage; then the end. */
  function EventsOf(p: Platform, r: Response): seq<ModelEvent> {
    TextOf(r.parts) + CallsOf(p, r.parts) + [Usage(r.inputTokens, r.outputTokens), Completed]
  }

  // ----- printed for Anthropic -----

  function TextMessages(index: nat, pieces: seq<string>): seq<A.Message> {
    if pieces == [] then [] else [A.TextPiece(index, pieces[0])] + TextMessages(index, pieces[1..])
  }

  function JsonMessages(index: nat, fragments: seq<string>): seq<A.Message> {
    if fragments == [] then [] else [A.JsonPiece(index, fragments[0])] + JsonMessages(index, fragments[1..])
  }

  function PartMessages(index: nat, part: Part): seq<A.Message> {
    match part
    case TextPart(pieces) => [A.OpenText(index)] + TextMessages(index, pieces) + [A.CloseBlock(index)]
    case ToolPart(id, name, fragments) => [A.OpenTool(index, id, name, NO_INPUT)] + JsonMessages(index, fragments) + [A.CloseBlock(index)]
  }

  function PartsMessages(parts: seq<Part>): seq<A.Message> {
    if parts == [] then []
    else PartsMessages(parts[..|parts| - 1]) + PartMessages(|parts| - 1, parts[|parts| - 1])
  }

  /** The blocks of a response in any interleaving, its text pieces in order. */
  ghost predicate Woven(parts: seq<Part>, woven: seq<A.Message>) {
    W.SameOwn(woven, PartsMessages(parts)) && R.Texts(woven) == TextOf(parts)
  }

  /** `firstOutput` is the preliminary count message_start may carry. */
  function AnthropicMessages(r: Response, firstOutput: Option<nat>, woven: seq<A.Message>): seq<A.Message> {
    [A.MessageStart(Some(r.inputTokens), firstOutput)] + woven +
    [A.MessageDelta(Some(Reason(r)), Some(r.outputTokens)), A.MessageStop]
  }

  // ----- printed for OpenAI -----

  function Speak(content: string, tools: Option<seq<O.ToolDelta>>, finish: Option<string>): O.Chunk {
    O.Data(Some(O.Choice(content, tools, finish)), None, None)
  }

  function TextChunks(pieces: seq<string>): seq<O.Chunk> {
    if pieces == [] then [] else [Speak(pieces[0], None, None)] + TextChunks(pieces[1..])
  }

  function ArgsChunks(index: nat, fragments: seq<string>): seq<O.Chunk> {
    if fragments == [] then []
    else [Speak("", Some([O.ToolDelta(index, None, None, Some(fragments[0]))]), None)] + ArgsChunks(index, fragments[1..])
  }

  /** Tool calls are numbered among themselves. */
  function PartChunks(index: nat, part: Part): seq<O.Chunk> {
    match part
    case TextPart(pieces) => TextChunks(pieces)
    case ToolPart(id, name, fragments) =>
      [Speak("", Some([O.ToolDelta(index, Some(id), Some(name), None)]), None)] + ArgsChunks(index, fragments)
  }

  function PartsChunks(parts: seq<Part>): seq<O.Chunk> {
    if parts == [] then []
    else
      var init := parts[..|parts| - 1];
      PartsChunks(init) + PartChunks(|ToolsOf(init)|, parts[|parts| - 1])
  }

  function OpenAIChunks(r: Response): seq<O.Chunk> {
    PartsChunks(r.parts) +
    [Speak("", None, Some(Finish(r))),
     O.Data(None, Some(r.inputTokens), Some(r.outputTokens)),
     O.DoneMarker]
  }

  // ----- running the Anthropic decoder -----

  function RunA(p: Platform, limit: nat, st: A.AnthropicState, msgs: seq<A.Message>): A.Stepped
    decreases |msgs|
  {
    if msgs == [] then Some((st, []))
    else
      var step := A.ApplyMessage(p, limit, st, msgs[0]);
      if step.None? then None
      else
        var rest := RunA(p, limit, step.value.0, msgs[1..]);
        if rest.None? then None else Some((rest.value.0, step.value.1 + rest.value.1))
  }

  lemma {:induction false} RunAAppend(p: Platform, limit: nat, st: A.AnthropicState, a: seq<A.Message>, b: seq<A.Message>)
    requires RunA(p, limit, st, a).Some?
    ensures RunA(p, limit, st, a + b) ==
            var (mid, first) := RunA(p, limit, st, a).value;
            var rest := RunA(p, limit, mid, b);
            if rest.None? then None else Some((rest.value.0, first + rest.value.1))
    decreases |a|
  {
    hide A.ApplyMessage;
    if a == [] {
      assert a + b == b;
      var rest := RunA(p, limit, st, b);
      assert rest.Some? ==> [] + rest.value.1 == rest.value.1;
    } else {
      assert (a + b)[1..] == a[1..] + b;
      var step := A.ApplyMessage(p, limit, st, a[0]).value;
      RunAAppend(p, limit, step.0, a[1..], b);
      var (mid, first) := RunA(p, limit, step.0, a[1..]).value;
      var rest := RunA(p, limit, mid, b);
      assert rest.Some? ==> (step.1 + first) + rest.value.1 == step.1 + (first + rest.value.1);
    }
  }

  lemma RunAOne(p: Platform, limit: nat, st: A.AnthropicState, m: A.Message)
    ensures RunA(p, limit, st, [m]) == A.ApplyMessage(p, limit, st, m)
  {
    hide A.ApplyMessage;
    assert [m][1..] == [];
    var step := A.ApplyMessage(p, limit, st, m);
    assert step.Some? ==> step.value.1 + [] == step.value.1;
  }

  lemma RunACons(p: Platform, limit: nat, st: A.AnthropicState, m: A.Message, rest: seq<A.Message>)
    requires A.ApplyMessage(p, limit, st, m).Some?
    ensures RunA(p, limit, st, [m] + rest) ==
            var (next, events) := A.ApplyMessage(p, limit, st, m).value;
            var later := RunA(p, limit, next, rest);
            if later.None? then None else Some((later.value.0, events + later.value.1))
  {
    hide A.ApplyMessage;
    assert ([m] + rest)[1..] == rest;
  }

  lemma {:induction false} RunText(p: Platform, limit: nat, st: A.AnthropicState, index: nat, pieces: seq<string>)
    requires A.Streaming(st) && index in st.blocks && st.blocks[index].TextBlock?
    ensures RunA(p, limit, st, TextMessages(index, pieces)) == Some((st, PieceEvents(pieces)))
    decreases |pieces|
  {
    if pieces != [] {
      RunText(p, limit, st, index, pieces[1..]);
    }
  }

  lemma {:induction false} RunJson(p: Platform, limit: nat, st: A.AnthropicState, index: nat, fragments: seq<string>)
    requires A.Streaming(st) && index in st.blocks && st.blocks[index].ToolBlock? && st.blocks[index].initial == NO_INPUT
    requires st.blocks[index].bytes + Utf8Total(p, fragments) <= limit
    ensures var block := st.blocks[index];
            RunA(p, limit, st, JsonMessages(index, fragments)) ==
            Some((st.(blocks := st.blocks[index := block.(json := block.json + Concat(fragments), bytes := block.bytes + Utf8Total(p, fragments))]), []))
    decreases |fragments|
  {
    var block := st.blocks[index];
    if fragments == [] {
      assert block.json + "" == block.json;
      assert st.blocks[index := block] == st.blocks;
    } else {
      var grown := block.(json := block.json + fragments[0], bytes := block.bytes + p.utf8(fragments[0]));
      var next := st.(blocks := st.blocks[index := grown]);
      assert A.ApplyMessage(p, limit, st, A.JsonPiece(index, fragments[0])) == Some((next, []));
      RunJson(p, limit, next, index, fragments[1..]);
      assert grown.json + Concat(fragments[1..]) == block.json + Concat(fragments);
      RunACons(p, limit, st, A.JsonPiece(index, fragments[0]), JsonMessages(index, fragments[1..]));
      var done := block.(json := block.json + Concat(fragments), bytes := block.bytes + Utf8Total(p, fragments));
      assert done == grown.(json := grown.json + Concat(fragments[1..]), bytes := grown.bytes + Utf8Total(p, fragments[1..]));
      assert next.blocks[index := done] == st.blocks[index := done];
      assert next.blocks[index] == grown;
      var none: seq<ModelEvent> := [];
      assert none + none == none;
      assert RunA(p, limit, next, JsonMessages(index, fragments[1..])) == Some((st.(blocks := st.blocks[index := done]), []));
    }
  }

  function PartCalls(p: Platform, index: nat, part: Part): seq<A.PendingCall> {
    if part.ToolPart? && InputOf(p, part).Some? then [A.PendingCall(index, part.id, part.name, InputOf(p, part).value)] else []
  }

  function PartIds(part: Part): set<string> {
    if part.ToolPart? then {part.id} else {}
  }

  lemma RunPart(p: Platform, limit: nat, st: A.AnthropicState, index: nat, part: Part)
    requires A.Streaming(st) && st.blocks == map[] && Usable(p, limit, part)
    requires p.utf8(p.stringify(NO_INPUT)) <= limit
    requires part.ToolPart? ==> part.id !in st.toolIds
    ensures RunA(p, limit, st, PartMessages(index, part)) ==
            Some((st.(toolIds := st.toolIds + PartIds(part), pending := st.pending + PartCalls(p, index, part)),
                  if part.TextPart? then PieceEvents(part.pieces) else []))
  {
    hide A.ApplyMessage;
    hide RunA;
    var no: map<nat, A.Block> := map[];
    match part
    case TextPart(pieces) =>
      var open := st.(blocks := st.blocks[index := A.TextBlock]);
      OpenTextStep(p, limit, st, index);
      RunText(p, limit, open, index, pieces);
      CloseTextStep(p, limit, open, index);
      assert open.blocks - {index} == no;
      assert st.toolIds + {} == st.toolIds && st.pending + [] == st.pending;
      RunBlock(p, limit, st, A.OpenText(index), TextMessages(index, pieces), A.CloseBlock(index));
    case ToolPart(id, name, fragments) =>
      var open := st.(blocks := st.blocks[index := A.ToolBlock(id, name, NO_INPUT, "", 0)], toolIds := st.toolIds + {id});
      OpenToolStep(p, limit, st, index, id, name);
      RunJson(p, limit, open, index, fragments);
      var text := Concat(fragments);
      assert "" + text == text;
      var full := open.(blocks := open.blocks[index := A.ToolBlock(id, name, NO_INPUT, text, Utf8Total(p, fragments))]);
      CloseToolStep(p, limit, full, index);
      assert full.blocks - {index} == no;
      RunBlock(p, limit, st, A.OpenTool(index, id, name, NO_INPUT), JsonMessages(index, fragments), A.CloseBlock(index));
  }

  /** One block from its start to its end, when neither emits anything. */
  lemma RunBlock(p: Platform, limit: nat, st: A.AnthropicState, open: A.Message, pieces: seq<A.Message>, close: A.Message)
    requires A.ApplyMessage(p, limit, st, open).Some? && A.ApplyMessage(p, limit, st, open).value.1 == []
    requires RunA(p, limit, A.ApplyMessage(p, limit, st, open).value.0, pieces).Some?
    requires var full := RunA(p, limit, A.ApplyMessage(p, limit, st, open).value.0, pieces).value.0;
             A.ApplyMessage(p, limit, full, close).Some? && A.ApplyMessage(p, limit, full, close).value.1 == []
    ensures var (full, events) := RunA(p, limit, A.ApplyMessage(p, limit, st, open).value.0, pieces).value;
            RunA(p, limit, st, [open] + pieces + [close]) == Some((A.ApplyMessage(p, limit, full, close).value.0, events))
  {
    hide A.ApplyMessage;
    hide RunA;
    var begun := A.ApplyMessage(p, limit, st, open).value.0;
    var (full, events) := RunA(p, limit, begun, pieces).value;
    RunACons(p, limit, st, open, pieces + [close]);
    RunAAppend(p, limit, begun, pieces, [close]);
    RunAOne(p, limit, full, close);
    assert [open] + pieces + [close] == [open] + (pieces + [close]);
    assert [] + (events + []) == events;
  }

  lemma OpenTextStep(p: Platform, limit: nat, st: A.AnthropicState, index: nat)
    requires A.Streaming(st) && index !in st.blocks
    ensures A.ApplyMessage(p, limit, st, A.OpenText(index)) == Some((st.(blocks := st.blocks[index := A.TextBlock]), []))
  {}

  lemma OpenToolStep(p: Platform, limit: nat, st: A.AnthropicState, index: nat, id: string, name: string)
    requires A.Streaming(st) && index !in st.blocks && id !in st.toolIds && p.utf8(p.stringify(NO_INPUT)) <= limit
    ensures A.ApplyMessage(p, limit, st, A.OpenTool(index, id, name, NO_INPUT)) ==
            Some((st.(blocks := st.blocks[index := A.ToolBlock(id, name, NO_INPUT, "", 0)], toolIds := st.toolIds + {id}), []))
  {}

  lemma CloseTextStep(p: Platform, limit: nat, st: A.AnthropicState, index: nat)
    requires A.Streaming(st) && index in st.blocks && st.blocks[index].TextBlock?
    ensures A.ApplyMessage(p, limit, st, A.CloseBlock(index)) == Some((st.(blocks := st.blocks - {index}), []))
  {}

  lemma CloseToolStep(p: Platform, limit: nat, st: A.AnthropicState, index: nat)
    requires A.Streaming(st) && index in st.blocks && st.blocks[index].ToolBlock?
    requires ToolInput(p, st.blocks[index].json, st.blocks[index].initial).Some?
    ensures var block := st.blocks[index];
            A.ApplyMessage(p, limit, st, A.CloseBlock(index)) ==
            Some((st.(blocks := st.blocks - {index},
                      pending := st.pending + [A.PendingCall(index, block.id, block.name, ToolInput(p, block.json, block.initial).value)]), []))
  {}

  function PartsIds(parts: seq<Part>): set<string> {
    if parts == [] then {} else PartsIds(parts[..|parts| - 1]) + PartIds(parts[|parts| - 1])
  }

  lemma {:induction false} IdFromPart(parts: seq<Part>, id: string)
    requires id in PartsIds(parts)
    ensures exists i :: 0 <= i < |parts| && parts[i].ToolPart? && parts[i].id == id
    decreases |parts|
  {
    if id !in PartIds(parts[|parts| - 1]) {
      IdFromPart(parts[..|parts| - 1], id);
      var i :| 0 <= i < |parts| - 1 && parts[..|parts| - 1][i].ToolPart? && parts[..|parts| - 1][i].id == id;
      assert parts[i].ToolPart?;
    }
  }

  function PartsCalls(p: Platform, parts: seq<Part>): seq<A.PendingCall> {
    if parts == [] then []
    else PartsCalls(p, parts[..|parts| - 1]) + PartCalls(p, |parts| - 1, parts[|parts| - 1])
  }

  lemma NewId(p: Platform, limit: nat, parts: seq<Part>)
    requires WellFormed(p, limit, parts) && parts != [] && parts[|parts| - 1].ToolPart?
    ensures parts[|parts| - 1].id !in PartsIds(parts[..|parts| - 1])
  {
    var init, id := parts[..|parts| - 1], parts[|parts| - 1].id;
    if id in PartsIds(init) {
      IdFromPart(init, id);
      assert false;
    }
  }

  lemma {:induction false} RunParts(p: Platform, limit: nat, st: A.AnthropicState, parts: seq<Part>)
    requires A.Streaming(st) && st.blocks == map[] && st.toolIds == {} && st.pending == []
    requires WellFormed(p, limit, parts)
    ensures RunA(p, limit, st, PartsMessages(parts)) ==
            Some((st.(toolIds := PartsIds(parts), pending := PartsCalls(p, parts)), TextOf(parts)))
    decreases |parts|
  {
    hide RunA;
    if parts == [] {
      RunANothing(p, limit, st);
    } else {
      var init, last := parts[..|parts| - 1], parts[|parts| - 1];
      RunParts(p, limit, st, init);
      if last.ToolPart? {
        NewId(p, limit, parts);
      }
      var mid := st.(toolIds := PartsIds(init), pending := PartsCalls(p, init));
      RunPart(p, limit, mid, |parts| - 1, last);
      RunAAppend(p, limit, st, PartsMessages(init), PartMessages(|parts| - 1, last));
    }
  }

  lemma RunANothing(p: Platform, limit: nat, st: A.AnthropicState)
    ensures RunA(p, limit, st, []) == Some((st, []))
  {}

  /** Calls collected in index order are not moved by the sort. */
  lemma {:induction false} PartsCallsSorted(p: Platform, parts: seq<Part>)
    ensures forall i :: 0 <= i < |PartsCalls(p, parts)| ==> PartsCalls(p, parts)[i].index < |parts|
    ensures A.SortCalls(PartsCalls(p, parts)) == PartsCalls(p, parts)
    ensures A.CallEvents(PartsCalls(p, parts)) == CallsOf(p, parts)
    decreases |parts|
  {
    hide InputOf;
    hide A.SortCalls;
    if parts != [] {
      var init, last := parts[..|parts| - 1], parts[|parts| - 1];
      PartsCallsSorted(p, init);
      var calls, more := PartsCalls(p, init), PartCalls(p, |parts| - 1, last);
      if more == [] {
        assert calls + more == calls;
      } else {
        LastCallSorted(calls, more[0]);
        assert more == [more[0]];
        assert A.CallEvents(calls + more) == A.CallEvents(calls) + A.CallEvents(more);
      }
    } else {
      SortNothing();
    }
  }

  /** A call whose index is not below the last one stays at the end. */
  lemma LastCallSorted(calls: seq<A.PendingCall>, last: A.PendingCall)
    requires A.SortCalls(calls) == calls
    requires forall i :: 0 <= i < |calls| ==> calls[i].index < last.index
    ensures A.SortCalls(calls + [last]) == calls + [last]
  {
    assert (calls + [last])[..|calls|] == calls;
  }

  lemma SortNothing()
    ensures A.SortCalls([]) == []
  {}

  function Reason(r: Response): string {
    if ToolsOf(r.parts) == [] then "end_turn" else "tool_use"
  }

  lemma RunClosing(p: Platform, limit: nat, st: A.AnthropicState, r: Response)
    requires A.Streaming(st) && st.blocks == map[] && A.SortCalls(st.pending) == PartsCalls(p, r.parts)
    requires st.inputTokens == Some(r.inputTokens)
    ensures var run := RunA(p, limit, st, [A.MessageDelta(Some(Reason(r)), Some(r.outputTokens)), A.MessageStop]);
            run.Some? && run.value.0.terminal &&
            run.value.1 == CallsOf(p, r.parts) + [Usage(r.inputTokens, r.outputTokens), Completed]
  {
    hide RunA, A.ApplyMessage, A.SortCalls, A.CallEvents, PartsCalls, CallsOf, ToolsOf;
    var delta := A.MessageDelta(Some(Reason(r)), Some(r.outputTokens));
    var next := st.(stopReason := Some(Reason(r)), outputTokens := Some(r.outputTokens));
    DeltaStep(p, limit, st, Reason(r), r.outputTokens);
    RunACons(p, limit, st, delta, [A.MessageStop]);
    assert [delta] + [A.MessageStop] == [delta, A.MessageStop];
    RunAOne(p, limit, next, A.MessageStop);
    StopStep(p, limit, next);
    PartsCallsSorted(p, r.parts);
    assert [] + (CallsOf(p, r.parts) + [Usage(r.inputTokens, r.outputTokens)] + [Completed])
        == CallsOf(p, r.parts) + [Usage(r.inputTokens, r.outputTokens), Completed];
  }

  lemma {:induction false} RunAIsRunFrom(p: Platform, limit: nat, st: A.AnthropicState, msgs: seq<A.Message>)
    ensures RunA(p, limit, st, msgs) == W.RunFrom(p, limit, st, msgs)
    decreases |msgs|
  {
    hide A.ApplyMessage;
    if msgs != [] {
      var first := A.ApplyMessage(p, limit, st, msgs[0]);
      W.RunFromAppend(p, limit, st, [msgs[0]], msgs[1..]);
      W.RunSnoc(p, limit, st, [], msgs[0]);
      assert [] + [msgs[0]] == [msgs[0]] && [msgs[0]] + msgs[1..] == msgs;
      if first.Some? {
        assert [] + first.value.1 == first.value.1;
        RunAIsRunFrom(p, limit, first.value.0, msgs[1..]);
      }
    }
  }

  lemma {:induction false} PartsIndexed(parts: seq<Part>)
    ensures W.AllIndexed(PartsMessages(parts))
    decreases |parts|
  {
    if parts != [] {
      var index, last := |parts| - 1, parts[|parts| - 1];
      PartsIndexed(parts[..index]);
      if last.TextPart? {
        TextIndexed(index, last.pieces);
      } else {
        JsonIndexed(index, last.fragments);
      }
    }
  }

  lemma {:induction false} TextIndexed(index: nat, pieces: seq<string>)
    ensures W.AllIndexed(TextMessages(index, pieces))
    decreases |pieces|
  {
    if pieces != [] {
      TextIndexed(index, pieces[1..]);
    }
  }

  lemma {:induction false} JsonIndexed(index: nat, fragments: seq<string>)
    ensures W.AllIndexed(JsonMessages(index, fragments))
    decreases |fragments|
  {
    if fragments != [] {
      JsonIndexed(index, fragments[1..]);
    }
  }

  /** The state behind message_start. */
  function Begun(input: nat, output: Option<nat>): A.AnthropicState {
    A.INITIAL.(started := true, inputTokens := Some(input), outputTokens := output)
  }

  lemma BegunIsStarted(input: nat, output: Option<nat>)
    ensures W.Started(A.MessageStart(Some(input), output)) == Begun(input, output)
  {}

  /** The blocks one after the other, as one run. */
  lemma PartsRun(p: Platform, limit: nat, r: Response, firstOutput: Option<nat>)
    requires WellFormed(p, limit, r.parts)
    ensures var start := A.MessageStart(Some(r.inputTokens), firstOutput);
            R.Run(p, limit, [start] + PartsMessages(r.parts)) ==
            Some((Begun(r.inputTokens, firstOutput).(toolIds := PartsIds(r.parts), pending := PartsCalls(p, r.parts)), TextOf(r.parts)))
  {
    hide RunA, R.Run, W.RunFrom, W.Started;
    var start := A.MessageStart(Some(r.inputTokens), firstOutput);
    BegunIsStarted(r.inputTokens, firstOutput);
    W.RunStarted(p, limit, start, PartsMessages(r.parts));
    RunAIsRunFrom(p, limit, Begun(r.inputTokens, firstOutput), PartsMessages(r.parts));
    RunParts(p, limit, Begun(r.inputTokens, firstOutput), r.parts);
  }

  /** Blocks one after the other are one of the interleavings. */
  lemma InOrderIsWoven(p: Platform, limit: nat, r: Response)
    requires WellFormed(p, limit, r.parts)
    ensures Woven(r.parts, PartsMessages(r.parts))
  {
    hide R.Run, R.Texts, WellFormed;
    PartsIndexed(r.parts);
    PartsRun(p, limit, r, None);
    W.TextsBehindStart(p, limit, A.MessageStart(Some(r.inputTokens), None), PartsMessages(r.parts));
  }

  /** Any interleaving is accepted and ends as the blocks in order do. */
  lemma RunWoven(p: Platform, limit: nat, r: Response, firstOutput: Option<nat>, woven: seq<A.Message>)
    requires WellFormed(p, limit, r.parts) && Woven(r.parts, woven)
    ensures var st, run := Begun(r.inputTokens, firstOutput), RunA(p, limit, Begun(r.inputTokens, firstOutput), woven);
            && run.Some?
            && run.value.0 == st.(toolIds := PartsIds(r.parts), pending := run.value.0.pending)
            && A.SortCalls(run.value.0.pending) == PartsCalls(p, r.parts)
            && run.value.1 == TextOf(r.parts)
  {
    hide RunA, R.Run, W.RunFrom, W.Started, W.SameOwn, WellFormed, A.SortCalls, R.Texts;
    var start := A.MessageStart(Some(r.inputTokens), firstOutput);
    PartsRun(p, limit, r, firstOutput);
    W.InterleavingsMeet(p, limit, start, woven, PartsMessages(r.parts)) by {
      assert W.SameOwn(woven, PartsMessages(r.parts));
    }
    BegunIsStarted(r.inputTokens, firstOutput);
    W.RunStarted(p, limit, start, woven);
    RunAIsRunFrom(p, limit, Begun(r.inputTokens, firstOutput), woven);
    PartsCallsSorted(p, r.parts);
  }

  /** The Anthropic decoder understands the response, in any interleaving of its blocks. */
  lemma AnthropicDecodes(p: Platform, limit: nat, r: Response, firstOutput: Option<nat>, woven: seq<A.Message>)
    requires WellFormed(p, limit, r.parts) && Woven(r.parts, woven)
    ensures var run := RunA(p, limit, A.INITIAL, AnthropicMessages(r, firstOutput, woven));
            run.Some? && run.value.0.terminal && run.value.1 == EventsOf(p, r)
  {
    hide RunA;
    hide A.ApplyMessage;
    hide WellFormed;
    hide Woven;
    hide TextOf;
    hide CallsOf;
    var start := A.MessageStart(Some(r.inputTokens), firstOutput);
    var closing := [A.MessageDelta(Some(Reason(r)), Some(r.outputTokens)), A.MessageStop];
    var st0 := Begun(r.inputTokens, firstOutput);
    StartStep(p, limit, r.inputTokens, firstOutput);
    RunACons(p, limit, A.INITIAL, start, woven + closing);
    RunWoven(p, limit, r, firstOutput, woven);
    RunAAppend(p, limit, st0, woven, closing);
    RunClosing(p, limit, RunA(p, limit, st0, woven).value.0, r);
    assert AnthropicMessages(r, firstOutput, woven) == [start] + (woven + closing);
    var tail := CallsOf(p, r.parts) + [Usage(r.inputTokens, r.outputTokens), Completed];
    assert [] + (TextOf(r.parts) + tail) == EventsOf(p, r);
  }

  lemma StartStep(p: Platform, limit: nat, input: nat, output: Option<nat>)
    ensures A.ApplyMessage(p, limit, A.INITIAL, A.MessageStart(Some(input), output)) ==
            Some((A.INITIAL.(started := true, inputTokens := Some(input), outputTokens := output), []))
  {}

  lemma DeltaStep(p: Platform, limit: nat, st: A.AnthropicState, reason: string, output: nat)
    requires A.Streaming(st)
    ensures A.ApplyMessage(p, limit, st, A.MessageDelta(Some(reason), Some(output))) ==
            Some((st.(stopReason := Some(reason), outputTokens := Some(output)), []))
  {}

  lemma StopStep(p: Platform, limit: nat, st: A.AnthropicState)
    requires A.Streaming(st) && st.blocks == map[]
    requires st.stopReason == Some("end_turn") || st.stopReason == Some("tool_use")
    ensures A.ApplyMessage(p, limit, st, A.MessageStop) ==
            Some((st.(stopped := true, terminal := true), A.CallEvents(A.SortCalls(st.pending)) + A.UsageEvents(st) + [Completed]))
  {}

  // ----- running the OpenAI decoder -----

  function RunO(p: Platform, limit: nat, st: O.OpenAIState, chunks: seq<O.Chunk>): O.Stepped
    decreases |chunks|
  {
    if chunks == [] then Some((st, []))
    else
      var step := O.ApplyChunk(p, limit, st, chunks[0]);
      if step.None? then None
      else
        var rest := RunO(p, limit, step.value.0, chunks[1..]);
        if rest.None? then None else Some((rest.value.0, step.value.1 + rest.value.1))
  }

  lemma {:induction false} RunOAppend(p: Platform, limit: nat, st: O.OpenAIState, a: seq<O.Chunk>, b: seq<O.Chunk>)
    requires RunO(p, limit, st, a).Some?
    ensures RunO(p, limit, st, a + b) ==
            var (mid, first) := RunO(p, limit, st, a).value;
            var rest := RunO(p, limit, mid, b);
            if rest.None? then None else Some((rest.value.0, first + rest.value.1))
    decreases |a|
  {
    hide O.ApplyChunk;
    if a == [] {
      assert a + b == b;
      var rest := RunO(p, limit, st, b);
      assert rest.Some? ==> [] + rest.value.1 == rest.value.1;
    } else {
      assert (a + b)[1..] == a[1..] + b;
      var step := O.ApplyChunk(p, limit, st, a[0]).value;
      RunOAppend(p, limit, step.0, a[1..], b);
      var (mid, first) := RunO(p, limit, step.0, a[1..]).value;
      var rest := RunO(p, limit, mid, b);
      assert rest.Some? ==> (step.1 + first) + rest.value.1 == step.1 + (first + rest.value.1);
    }
  }

  lemma RunOCons(p: Platform, limit: nat, st: O.OpenAIState, chunk: O.Chunk, rest: seq<O.Chunk>)
    requires O.ApplyChunk(p, limit, st, chunk).Some?
    ensures RunO(p, limit, st, [chunk] + rest) ==
            var (next, events) := O.ApplyChunk(p, limit, st, chunk).value;
            var later := RunO(p, limit, next, rest);
            if later.None? then None else Some((later.value.0, events + later.value.1))
  {
    hide O.ApplyChunk;
    assert ([chunk] + rest)[1..] == rest;
  }

  lemma RunONothing(p: Platform, limit: nat, st: O.OpenAIState)
    ensures RunO(p, limit, st, []) == Some((st, []))
  {}

  lemma SpeakText(p: Platform, limit: nat, st: O.OpenAIState, text: string)
    requires !st.sawFinishReason
    ensures O.ApplyChunk(p, limit, st, Speak(text, None, None)) == Some((st, O.TextEvents(text)))
  {
    assert O.TextEvents(text) + [] + [] == O.TextEvents(text);
  }

  lemma SpeakTool(p: Platform, limit: nat, st: O.OpenAIState, delta: O.ToolDelta)
    requires !st.sawFinishReason && O.ApplyDelta(p, limit, st.toolCalls, delta).Some?
    ensures O.ApplyChunk(p, limit, st, Speak("", Some([delta]), None)) ==
            Some((st.(toolCalls := O.ApplyDelta(p, limit, st.toolCalls, delta).value), []))
  {
    hide O.ApplyDelta;
    assert [delta][..0] == [];
    assert O.ApplyDeltas(p, limit, st.toolCalls, [delta]) == O.ApplyDelta(p, limit, st.toolCalls, delta);
    assert O.TextEvents("") + [] + [] == [];
  }

  lemma {:induction false} SpeakTexts(p: Platform, limit: nat, st: O.OpenAIState, pieces: seq<string>)
    requires !st.sawFinishReason
    ensures RunO(p, limit, st, TextChunks(pieces)) == Some((st, PieceEvents(pieces)))
    decreases |pieces|
  {
    hide RunO;
    hide O.ApplyChunk;
    if pieces == [] {
      RunONothing(p, limit, st);
    } else {
      SpeakText(p, limit, st, pieces[0]);
      SpeakTexts(p, limit, st, pieces[1..]);
      RunOCons(p, limit, st, Speak(pieces[0], None, None), TextChunks(pieces[1..]));
    }
  }

  lemma {:induction false} SpeakArgs(p: Platform, limit: nat, st: O.OpenAIState, index: nat, fragments: seq<string>)
    requires !st.sawFinishReason && index in st.toolCalls.entries
    requires st.toolCalls.entries[index].bytes + Utf8Total(p, fragments) <= limit
    ensures var entry := st.toolCalls.entries[index];
            RunO(p, limit, st, ArgsChunks(index, fragments)) ==
            Some((st.(toolCalls := O.Table(
                        st.toolCalls.entries[index := entry.(args := entry.args + Concat(fragments), bytes := entry.bytes + Utf8Total(p, fragments))],
                        st.toolCalls.order)), []))
    decreases |fragments|
  {
    hide RunO;
    hide O.ApplyChunk;
    var entry := st.toolCalls.entries[index];
    if fragments == [] {
      RunONothing(p, limit, st);
      assert entry.args + "" == entry.args;
      assert st.toolCalls.entries[index := entry] == st.toolCalls.entries;
    } else {
      var delta := O.ToolDelta(index, None, None, Some(fragments[0]));
      var grown := entry.(args := entry.args + fragments[0], bytes := entry.bytes + p.utf8(fragments[0]));
      var next := st.(toolCalls := O.Table(st.toolCalls.entries[index := grown], st.toolCalls.order));
      assert O.ApplyDelta(p, limit, st.toolCalls, delta) == Some(next.toolCalls);
      SpeakTool(p, limit, st, delta);
      SpeakArgs(p, limit, next, index, fragments[1..]);
      RunOCons(p, limit, st, Speak("", Some([delta]), None), ArgsChunks(index, fragments[1..]));
      assert grown.args + Concat(fragments[1..]) == entry.args + Concat(fragments);
      var done := entry.(args := entry.args + Concat(fragments), bytes := entry.bytes + Utf8Total(p, fragments));
      assert done == grown.(args := grown.args + Concat(fragments[1..]), bytes := grown.bytes + Utf8Total(p, fragments[1..]));
      assert next.toolCalls.entries[index := done] == st.toolCalls.entries[index := done];
      assert next.toolCalls.entries[index] == grown;
      var none: seq<ModelEvent> := [];
      assert none + none == none;
      assert RunO(p, limit, next, ArgsChunks(index, fragments[1..])) ==
        Some((st.(toolCalls := O.Table(st.toolCalls.entries[index := done], st.toolCalls.order)), []));
    }
  }

  function Counted(n: nat): seq<nat> {
    seq(n, i requires 0 <= i < n => i)
  }

  /** The table after the tools: numbered from zero, in order of appearance. */
  function ToolsTable(p: Platform, tools: seq<Part>): O.Table
    requires forall i :: 0 <= i < |tools| ==> tools[i].ToolPart?
  {
    O.Table(
      map i: nat | i < |tools| :: O.Entry(Some(tools[i].id), Some(tools[i].name), Concat(tools[i].fragments), Utf8Total(p, tools[i].fragments)),
      Counted(|tools|))
  }

  lemma {:induction false} ToolsAreTools(parts: seq<Part>)
    ensures forall i :: 0 <= i < |ToolsOf(parts)| ==> ToolsOf(parts)[i].ToolPart? && ToolsOf(parts)[i] in parts
    decreases |parts|
  {
    if parts != [] {
      ToolsAreTools(parts[..|parts| - 1]);
      assert parts == parts[..|parts| - 1] + [parts[|parts| - 1]];
    }
  }

  lemma SpeakPart(p: Platform, limit: nat, st: O.OpenAIState, tools: seq<Part>, part: Part)
    requires !st.sawFinishReason && Usable(p, limit, part)
    requires forall i :: 0 <= i < |tools| ==> tools[i].ToolPart?
    requires st.toolCalls == ToolsTable(p, tools)
    ensures RunO(p, limit, st, PartChunks(|tools|, part)) ==
            if part.TextPart? then Some((st, PieceEvents(part.pieces)))
            else Some((st.(toolCalls := ToolsTable(p, tools + [part])), []))
  {
    hide RunO;
    hide O.ApplyChunk;
    match part
    case TextPart(pieces) => SpeakTexts(p, limit, st, pieces);
    case ToolPart(id, name, fragments) =>
      var index := |tools|;
      var head := O.ToolDelta(index, Some(id), Some(name), None);
      var begun := O.Table(st.toolCalls.entries[index := O.Entry(Some(id), Some(name), "", 0)], st.toolCalls.order + [index]);
      HeadDelta(p, limit, st.toolCalls, tools, head);
      SpeakTool(p, limit, st, head);
      SpeakArgs(p, limit, st.(toolCalls := begun), index, fragments);
      RunOCons(p, limit, st, Speak("", Some([head]), None), ArgsChunks(index, fragments));
      assert "" + Concat(fragments) == Concat(fragments);
      var full := O.Table(begun.entries[index := O.Entry(Some(id), Some(name), Concat(fragments), Utf8Total(p, fragments))], begun.order);
      FullTable(p, tools, part, begun, full);
      var none: seq<ModelEvent> := [];
      assert none + none == none;
      assert RunO(p, limit, st.(toolCalls := begun), ArgsChunks(index, fragments)) == Some((st.(toolCalls := full), []));
  }

  /** The first fragment of a tool opens the next entry. */
  lemma HeadDelta(p: Platform, limit: nat, table: O.Table, tools: seq<Part>, head: O.ToolDelta)
    requires forall i :: 0 <= i < |tools| ==> tools[i].ToolPart?
    requires table == ToolsTable(p, tools) && head.index == |tools| && head.args.None? && head.id.Some? && head.name.Some?
    ensures O.ApplyDelta(p, limit, table, head) ==
            Some(O.Table(table.entries[head.index := O.Entry(head.id, head.name, "", 0)], table.order + [head.index]))
  {}

  lemma FullTable(p: Platform, tools: seq<Part>, part: Part, begun: O.Table, full: O.Table)
    requires part.ToolPart? && forall i :: 0 <= i < |tools| ==> tools[i].ToolPart?
    requires begun == O.Table(ToolsTable(p, tools).entries[|tools| := O.Entry(Some(part.id), Some(part.name), "", 0)], ToolsTable(p, tools).order + [|tools|])
    requires full == O.Table(begun.entries[|tools| := O.Entry(Some(part.id), Some(part.name), Concat(part.fragments), Utf8Total(p, part.fragments))], begun.order)
    ensures full == ToolsTable(p, tools + [part])
    ensures begun.entries[|tools|] == O.Entry(Some(part.id), Some(part.name), "", 0)
  {
    hide Utf8Total;
    hide Concat;
    assert full.entries == ToolsTable(p, tools + [part]).entries;
    assert full.order == ToolsTable(p, tools + [part]).order;
  }

  lemma {:induction false} SpeakParts(p: Platform, limit: nat, st: O.OpenAIState, parts: seq<Part>)
    requires !st.sawFinishReason && st.toolCalls == O.EMPTY
    requires WellFormed(p, limit, parts)
    ensures (forall i :: 0 <= i < |ToolsOf(parts)| ==> ToolsOf(parts)[i].ToolPart?) &&
            RunO(p, limit, st, PartsChunks(parts)) == Some((st.(toolCalls := ToolsTable(p, ToolsOf(parts))), TextOf(parts)))
    decreases |parts|
  {
    hide RunO;
    ToolsAreTools(parts);
    if parts == [] {
      RunONothing(p, limit, st);
      assert ToolsTable(p, []).entries == map[] && ToolsTable(p, []).order == [];
    } else {
      var init, last := parts[..|parts| - 1], parts[|parts| - 1];
      SpeakParts(p, limit, st, init);
      ToolsAreTools(init);
      var mid := st.(toolCalls := ToolsTable(p, ToolsOf(init)));
      SpeakPart(p, limit, mid, ToolsOf(init), last);
      RunOAppend(p, limit, st, PartsChunks(init), PartChunks(|ToolsOf(init)|, last));
      assert ToolsOf(init) + [] == ToolsOf(init);
      assert TextOf(init) + [] == TextOf(init);
    }
  }

  // ----- the batch of a response -----

  lemma {:induction false} SortCounted(n: nat)
    ensures O.SortIndices(Counted(n)) == Counted(n)
    decreases n
  {
    if n > 0 {
      SortCounted(n - 1);
      assert Counted(n)[..n - 1] == Counted(n - 1);
    }
  }

  lemma {:induction false} CallIds(p: Platform, parts: seq<Part>, id: string)
    requires id in O.Ids(CallsOf(p, parts))
    ensures exists i :: 0 <= i < |parts| && parts[i].ToolPart? && parts[i].id == id
    decreases |parts|
  {
    if parts != [] {
      var init, last := parts[..|parts| - 1], parts[|parts| - 1];
      if id in O.Ids(CallsOf(p, init)) {
        CallIds(p, init, id);
        var i :| 0 <= i < |init| && init[i].ToolPart? && init[i].id == id;
        assert parts[i].ToolPart?;
      }
    }
  }

  lemma BatchNothing(p: Platform, entries: map<nat, O.Entry>)
    ensures O.Batch(p, entries, Counted(0)) == Some([])
  {}

  lemma NewCallId(p: Platform, limit: nat, parts: seq<Part>)
    requires WellFormed(p, limit, parts) && parts != [] && parts[|parts| - 1].ToolPart?
    ensures parts[|parts| - 1].id !in O.Ids(CallsOf(p, parts[..|parts| - 1]))
  {
    var init, id := parts[..|parts| - 1], parts[|parts| - 1].id;
    if id in O.Ids(CallsOf(p, init)) {
      CallIds(p, init, id);
      assert false;
    }
  }

  lemma BatchOneMore(p: Platform, entries: map<nat, O.Entry>, n: nat, before: seq<ModelEvent>, last: Part)
    requires O.Batch(p, entries, Counted(n)) == Some(before)
    requires last.ToolPart? && InputOf(p, last).Some? && last.id !in O.Ids(before)
    requires n in entries && entries[n].id == Some(last.id) && entries[n].name == Some(last.name) && entries[n].args == Concat(last.fragments)
    ensures O.Batch(p, entries, Counted(n + 1)) ==
            Some(before + [ToolCall(last.id, last.name, InputOf(p, last).value)])
  {
    hide O.Ids;
    var counted := Counted(n + 1);
    assert counted[..n] == Counted(n);
  }

  /** The batch only reads the entries it is asked for. */
  lemma {:induction false} BatchOfTools(p: Platform, limit: nat, parts: seq<Part>, entries: map<nat, O.Entry>)
    requires WellFormed(p, limit, parts)
    requires forall i :: 0 <= i < |ToolsOf(parts)| ==>
               && ToolsOf(parts)[i].ToolPart?
               && i in entries
               && entries[i].id == Some(ToolsOf(parts)[i].id) && entries[i].name == Some(ToolsOf(parts)[i].name)
               && entries[i].args == Concat(ToolsOf(parts)[i].fragments)
    ensures O.Batch(p, entries, Counted(|ToolsOf(parts)|)) == Some(CallsOf(p, parts))
    decreases |parts|
  {
    hide O.Batch;
    hide O.Ids;
    hide InputOf;
    hide Counted;
    if parts == [] {
      BatchNothing(p, entries);
    } else {
      var init, last := parts[..|parts| - 1], parts[|parts| - 1];
      var n := |ToolsOf(init)|;
      assert forall i :: 0 <= i < n ==> ToolsOf(parts)[i] == ToolsOf(init)[i];
      BatchOfTools(p, limit, init, entries);
      if last.ToolPart? {
        assert ToolsOf(parts)[n] == last;
        NewCallId(p, limit, parts);
        BatchOneMore(p, entries, n, CallsOf(p, init), last);
      } else {
        assert ToolsOf(parts) == ToolsOf(init);
        assert CallsOf(p, parts) == CallsOf(p, init);
      }
    }
  }

  lemma {:induction false} NoToolsNoCalls(p: Platform, parts: seq<Part>)
    requires ToolsOf(parts) == []
    ensures CallsOf(p, parts) == []
    decreases |parts|
  {
    if parts != [] {
      NoToolsNoCalls(p, parts[..|parts| - 1]);
    }
  }

  function Finish(r: Response): string {
    if ToolsOf(r.parts) == [] then "stop" else "tool_calls"
  }

  lemma FinishEvents(calls: seq<ModelEvent>)
    ensures (O.TextEvents("") + calls) + [] == calls
  {}

  lemma EmitTools(p: Platform, limit: nat, r: Response)
    requires WellFormed(p, limit, r.parts)
    requires forall i :: 0 <= i < |ToolsOf(r.parts)| ==> ToolsOf(r.parts)[i].ToolPart?
    ensures var table := ToolsTable(p, ToolsOf(r.parts));
            && O.EmitToolCalls(p, table) == Some(CallsOf(p, r.parts))
            && (table.entries == map[] <==> ToolsOf(r.parts) == [])
            && (ToolsOf(r.parts) == [] ==> CallsOf(p, r.parts) == [])
  {
    hide O.Batch;
    hide WellFormed;
    var tools, table := ToolsOf(r.parts), ToolsTable(p, ToolsOf(r.parts));
    SortCounted(|tools|);
    assert table.order == Counted(|tools|);
    BatchOfTools(p, limit, r.parts, table.entries);
    if tools == [] {
      NoToolsNoCalls(p, r.parts);
    } else {
      assert 0 in table.entries;
    }
  }

  lemma FinishStep(p: Platform, limit: nat, st: O.OpenAIState, r: Response)
    requires WellFormed(p, limit, r.parts) && !st.sawFinishReason && !st.toolsEmitted
    requires forall i :: 0 <= i < |ToolsOf(r.parts)| ==> ToolsOf(r.parts)[i].ToolPart?
    requires st.toolCalls == ToolsTable(p, ToolsOf(r.parts))
    ensures var step := O.ApplyChunk(p, limit, st, Speak("", None, Some(Finish(r))));
            step == Some((st.(sawFinishReason := true, finishReason := Some(Finish(r)), toolsEmitted := ToolsOf(r.parts) != []), CallsOf(p, r.parts)))
  {
    hide O.EmitToolCalls;
    hide WellFormed;
    hide CallsOf;
    hide ToolsTable;
    EmitTools(p, limit, r);
    FinishEvents(CallsOf(p, r.parts));
  }

  lemma UsageStep(p: Platform, limit: nat, st: O.OpenAIState, input: nat, output: nat)
    ensures O.ApplyChunk(p, limit, st, O.Data(None, Some(input), Some(output))) ==
            Some((st.(promptTokens := Some(input), completionTokens := Some(output)), [Usage(input, output)]))
  {
    assert [] + [Usage(input, output)] == [Usage(input, output)];
  }

  lemma DoneStep(p: Platform, limit: nat, st: O.OpenAIState)
    requires st.sawFinishReason && (st.finishReason == Some("tool_calls") ==> st.toolsEmitted)
    ensures O.ApplyChunk(p, limit, st, O.DoneMarker) == Some((st.(terminal := true), [Completed]))
  {}

  lemma SpeakClosing(p: Platform, limit: nat, st: O.OpenAIState, r: Response)
    requires WellFormed(p, limit, r.parts) && !st.sawFinishReason && !st.toolsEmitted
    requires forall i :: 0 <= i < |ToolsOf(r.parts)| ==> ToolsOf(r.parts)[i].ToolPart?
    requires st.toolCalls == ToolsTable(p, ToolsOf(r.parts))
    ensures var run := RunO(p, limit, st, [Speak("", None, Some(Finish(r))), O.Data(None, Some(r.inputTokens), Some(r.outputTokens)), O.DoneMarker]);
            run.Some? && run.value.0.terminal &&
            run.value.1 == CallsOf(p, r.parts) + [Usage(r.inputTokens, r.outputTokens), Completed]
  {
    hide RunO;
    hide O.ApplyChunk;
    hide WellFormed;
    var finish, usage := Speak("", None, Some(Finish(r))), O.Data(None, Some(r.inputTokens), Some(r.outputTokens));
    FinishStep(p, limit, st, r);
    var seen := st.(sawFinishReason := true, finishReason := Some(Finish(r)), toolsEmitted := ToolsOf(r.parts) != []);
    UsageStep(p, limit, seen, r.inputTokens, r.outputTokens);
    var counted := seen.(promptTokens := Some(r.inputTokens), completionTokens := Some(r.outputTokens));
    DoneStep(p, limit, counted);
    var done := counted.(terminal := true);
    RunONothing(p, limit, done);
    RunOCons(p, limit, counted, O.DoneMarker, []);
    RunOCons(p, limit, seen, usage, [O.DoneMarker]);
    RunOCons(p, limit, st, finish, [usage, O.DoneMarker]);
    assert [O.DoneMarker] + [] == [O.DoneMarker] && [usage] + [O.DoneMarker] == [usage, O.DoneMarker];
    assert [finish] + [usage, O.DoneMarker] == [finish, usage, O.DoneMarker];
    assert [Completed] + [] == [Completed];
    assert [Usage(r.inputTokens, r.outputTokens)] + [Completed] == [Usage(r.inputTokens, r.outputTokens), Completed];
  }

  /** The OpenAI decoder understands the response. */
  lemma OpenAIDecodes(p: Platform, limit: nat, r: Response)
    requires WellFormed(p, limit, r.parts)
    ensures var run := RunO(p, limit, O.INITIAL, OpenAIChunks(r));
            run.Some? && run.value.0.terminal && run.value.1 == EventsOf(p, r)
  {
    hide RunO;
    hide WellFormed;
    hide TextOf;
    hide CallsOf;
    SpeakParts(p, limit, O.INITIAL, r.parts);
    var closing := [Speak("", None, Some(Finish(r))), O.Data(None, Some(r.inputTokens), Some(r.outputTokens)), O.DoneMarker];
    RunOAppend(p, limit, O.INITIAL, PartsChunks(r.parts), closing);
    SpeakClosing(p, limit, O.INITIAL.(toolCalls := ToolsTable(p, ToolsOf(r.parts))), r);
    assert TextOf(r.parts) + (CallsOf(p, r.parts) + [Usage(r.inputTokens, r.outputTokens), Completed]) == EventsOf(p, r);
  }
}
