/**
 Model requests: the shared contract, and the stricter subset both protocol
 adapters can express. Every history is read as a fold over its blocks.
 */
module Requests {
  import opened Base
  import opened Events

  datatype Role = System | User | Assistant | Tool

  datatype Block =
    | Text(text: string)
    | Call(id: string, name: string, input: Json)
    | Result(callId: string, content: string, isError: Option<bool>)

  datatype Message = Message(role: Role, content: seq<Block>)

  datatype ToolDefinition = ToolDefinition(name: string, description: string, inputSchema: Json)

  datatype Request = Request(
    requestId: string, routeId: string, model: string,
    messages: seq<Message>, tools: seq<ToolDefinition>, maxTokens: int)

  // ----- the shared contract -----

  /** Every number is finite, at any depth. */
  predicate IsJson(value: Json)
    decreases value
  {
    match value
    case Num(number) => !number.Infinite?
    case Arr(items) => forall i :: 0 <= i < |items| ==> IsJson(items[i])
    case Obj(fields) => forall key <- fields :: IsJson(fields[key])
    case _ => true
  }

  /** The tool-call ids seen after one block; None is a violation. */
  function CheckBlock(seen: set<string>, block: Block): Option<set<string>> {
    match block
    case Text(_) => Some(seen)
    case Call(id, name, input) =>
      if id == "" || name == "" || id in seen || !IsJson(input) then None else Some(seen + {id})
    case Result(callId, _, _) =>
      if callId == "" || callId !in seen then None else Some(seen)
  }

  function CheckBlocks(seen: set<string>, blocks: seq<Block>): Option<set<string>> {
    if blocks == [] then Some(seen)
    else
      var before := CheckBlocks(seen, blocks[..|blocks| - 1]);
      if before.None? then None else CheckBlock(before.value, blocks[|blocks| - 1])
  }

  function CheckMessages(messages: seq<Message>): Option<set<string>> {
    if messages == [] then Some({})
    else
      var before, last := CheckMessages(messages[..|messages| - 1]), messages[|messages| - 1];
      if before.None? || last.content == [] then None else CheckBlocks(before.value, last.content)
  }

  predicate ToolsOk(tools: seq<ToolDefinition>) {
    && (forall i :: 0 <= i < |tools| ==> tools[i].name != "" && IsJson(tools[i].inputSchema))
    && (forall i, j :: 0 <= i < j < |tools| ==> tools[i].name != tools[j].name)
  }

  predicate FieldsOk(r: Request) {
    r.requestId != "" && r.routeId != "" && r.model != "" && r.maxTokens > 0 && ToolsOk(r.tools)
  }

  predicate ValidRequest(r: Request) {
    FieldsOk(r) && r.messages != [] && CheckMessages(r.messages).Some?
  }

  // ----- the adapter subset -----

  predicate AllowedFor(role: Role, index: nat, block: Block) {
    match role
    case System => index == 0 && block.Text?
    case User => block.Text?
    case Assistant => block.Text? || block.Call?
    case Tool => block.Result?
  }

  predicate Shaped(messages: seq<Message>) {
    forall i, j :: 0 <= i < |messages| && 0 <= j < |messages[i].content| ==>
      AllowedFor(messages[i].role, i, messages[i].content[j])
  }

  predicate ObjectInputs(messages: seq<Message>) {
    forall i, j :: 0 <= i < |messages| && 0 <= j < |messages[i].content| && messages[i].content[j].Call? ==>
      messages[i].content[j].input.Obj?
  }

  predicate ObjectSchemas(tools: seq<ToolDefinition>) {
    forall i :: 0 <= i < |tools| ==>
      tools[i].inputSchema.Obj? && "type" in tools[i].inputSchema.fields && tools[i].inputSchema.fields["type"] == Str("object")
  }

  /** Calls without a result yet, and calls that have one. */
  datatype Book = Book(pending: set<string>, settled: set<string>)

  function CorrelateBlock(role: Role, book: Book, block: Block): Option<Book> {
    if role == Assistant && block.Call? then
      if block.id in book.pending || block.id in book.settled then None
      else Some(book.(pending := book.pending + {block.id}))
    else if role == Tool && block.Result? then
      if block.callId !in book.pending then None
      else Some(Book(book.pending - {block.callId}, book.settled + {block.callId}))
    else Some(book)
  }

  function CorrelateBlocks(role: Role, book: Book, blocks: seq<Block>): Option<Book> {
    if blocks == [] then Some(book)
    else
      var before := CorrelateBlocks(role, book, blocks[..|blocks| - 1]);
      if before.None? then None else CorrelateBlock(role, before.value, blocks[|blocks| - 1])
  }

  /** A turn may not go on while calls are unresolved. */
  function Correlate(messages: seq<Message>): Option<Book> {
    if messages == [] then Some(Book({}, {}))
    else
      var before, last := Correlate(messages[..|messages| - 1]), messages[|messages| - 1];
      if before.None? then None
      else if (last.role == User || last.role == Assistant) && before.value.pending != {} then None
      else CorrelateBlocks(last.role, before.value, last.content)
  }

  predicate Correlated(messages: seq<Message>) {
    Correlate(messages).Some? && Correlate(messages).value.pending == {}
  }

  /** `assertAdapterRequest` does not throw. */
  predicate AdapterAccepts(r: Request) {
    ValidRequest(r) && Shaped(r.messages) && ObjectInputs(r.messages) && ObjectSchemas(r.tools) && Correlated(r.messages)
  }

  // ----- the validators as the program runs them -----

  method ValidateAgentMessages(messages: seq<Message>) returns (ok: bool)
    ensures ok <==> messages != [] && CheckMessages(messages).Some?
  {
    if messages == [] {
      return false;
    }
    var seenToolCallIds: set<string> := {};
    for i := 0 to |messages|
      invariant CheckMessages(messages[..i]) == Some(seenToolCallIds)
    {
      var content := messages[i].content;
      assert messages[..i + 1][..i] == messages[..i];
      MessagesFailEarly(messages, i);
      if content == [] {
        return false;
      }
      ghost var before := seenToolCallIds;
      for j := 0 to |content|
        invariant CheckBlocks(before, content[..j]) == Some(seenToolCallIds)
      {
        assert content[..j + 1][..j] == content[..j];
        BlocksFailEarly(before, content, j);
        var next := CheckBlock(seenToolCallIds, content[j]);
        if next.None? {
          return false;
        }
        seenToolCallIds := next.value;
      }
      assert content[..|content|] == content;
    }
    assert messages[..|messages|] == messages;
    return true;
  }

  lemma {:induction false} MessagesFailEarly(messages: seq<Message>, i: nat)
    requires i < |messages|
    ensures CheckMessages(messages[..i + 1]).None? ==> CheckMessages(messages).None?
    decreases |messages|
  {
    if i + 1 == |messages| {
      assert messages[..i + 1] == messages;
    } else {
      assert messages[..|messages| - 1][..i + 1] == messages[..i + 1];
      MessagesFailEarly(messages[..|messages| - 1], i);
    }
  }

  lemma {:induction false} BlocksFailEarly(seen: set<string>, blocks: seq<Block>, j: nat)
    requires j < |blocks|
    ensures CheckBlocks(seen, blocks[..j + 1]).None? ==> CheckBlocks(seen, blocks).None?
    decreases |blocks|
  {
    if j + 1 == |blocks| {
      assert blocks[..j + 1] == blocks;
    } else {
      assert blocks[..|blocks| - 1][..j + 1] == blocks[..j + 1];
      BlocksFailEarly(seen, blocks[..|blocks| - 1], j);
    }
  }

  method AssertToolCorrelation(messages: seq<Message>) returns (ok: bool)
    ensures ok <==> Correlated(messages)
  {
    var pending: set<string>, settled: set<string> := {}, {};
    for i := 0 to |messages|
      invariant Correlate(messages[..i]) == Some(Book(pending, settled))
    {
      var message := messages[i];
      assert messages[..i + 1][..i] == messages[..i];
      CorrelateFailsEarly(messages, i);
      if (message.role == User || message.role == Assistant) && pending != {} {
        return false;
      }
      var content := message.content;
      ghost var before := Book(pending, settled);
      for j := 0 to |content|
        invariant CorrelateBlocks(message.role, before, content[..j]) == Some(Book(pending, settled))
      {
        assert content[..j + 1][..j] == content[..j];
        CorrelateBlocksFailEarly(message.role, before, content, j);
        var block := content[j];
        if message.role == Assistant && block.Call? {
          if block.id in pending || block.id in settled {
            return false;
          }
          pending := pending + {block.id};
        } else if message.role == Tool && block.Result? {
          if block.callId !in pending {
            return false;
          }
          pending, settled := pending - {block.callId}, settled + {block.callId};
        }
      }
      assert content[..|content|] == content;
    }
    assert messages[..|messages|] == messages;
    return pending == {};
  }

  lemma {:induction false} CorrelateFailsEarly(messages: seq<Message>, i: nat)
    requires i < |messages|
    ensures Correlate(messages[..i + 1]).None? ==> Correlate(messages).None?
    decreases |messages|
  {
    if i + 1 == |messages| {
      assert messages[..i + 1] == messages;
    } else {
      assert messages[..|messages| - 1][..i + 1] == messages[..i + 1];
      CorrelateFailsEarly(messages[..|messages| - 1], i);
    }
  }

  lemma {:induction false} CorrelateBlocksFailEarly(role: Role, book: Book, blocks: seq<Block>, j: nat)
    requires j < |blocks|
    ensures CorrelateBlocks(role, book, blocks[..j + 1]).None? ==> CorrelateBlocks(role, book, blocks).None?
    decreases |blocks|
  {
    if j + 1 == |blocks| {
      assert blocks[..j + 1] == blocks;
    } else {
      assert blocks[..|blocks| - 1][..j + 1] == blocks[..j + 1];
      CorrelateBlocksFailEarly(role, book, blocks[..|blocks| - 1], j);
    }
  }

  // ----- extending a history by one turn -----

  /** A call the loop has read from the model. */
  datatype ToolCallRecord = ToolCallRecord(id: string, name: string, input: Json)

  function CallBlocks(calls: seq<ToolCallRecord>): seq<Block> {
    if calls == [] then []
    else
      var last := calls[|calls| - 1];
      CallBlocks(calls[..|calls| - 1]) + [Call(last.id, last.name, last.input)]
  }

  function IdsOf(calls: seq<ToolCallRecord>): set<string> {
    set c | c in calls :: c.id
  }

  /** The ids of the calls in a list of blocks. */
  function BlockIds(blocks: seq<Block>): set<string> {
    set b | b in blocks && b.Call? :: b.id
  }

  function HistoryIds(messages: seq<Message>): set<string> {
    if messages == [] then {}
    else HistoryIds(messages[..|messages| - 1]) + BlockIds(messages[|messages| - 1].content)
  }

  /** Calls with usable fields, distinct from each other and from the history. */
  predicate NewCalls(calls: seq<ToolCallRecord>, seen: set<string>) {
    && (forall i :: 0 <= i < |calls| ==> calls[i].id != "" && calls[i].name != "" && IsJson(calls[i].input) && calls[i].id !in seen)
    && (forall i, j :: 0 <= i < j < |calls| ==> calls[i].id != calls[j].id)
  }

  /** The assistant message of a turn: its text, if any, then its calls. */
  function AssistantMessage(text: string, calls: seq<ToolCallRecord>): Message {
    Message(Assistant, (if text == "" then [] else [Text(text)]) + CallBlocks(calls))
  }

  /** One result for each call, in order. */
  predicate Answers(results: seq<Block>, calls: seq<ToolCallRecord>) {
    |results| == |calls| && forall i :: 0 <= i < |calls| ==> results[i].Result? && results[i].callId == calls[i].id
  }

  lemma LastBlockId(blocks: seq<Block>)
    requires blocks != []
    ensures var last := blocks[|blocks| - 1];
            BlockIds(blocks) == BlockIds(blocks[..|blocks| - 1]) + if last.Call? then {last.id} else {}
  {
    var init, last := blocks[..|blocks| - 1], blocks[|blocks| - 1];
    assert blocks == init + [last];
    assert forall b :: b in blocks <==> b in init || b == last;
  }

  lemma NoBlockIds()
    ensures BlockIds([]) == {}
  {}

  lemma {:induction false} BlocksSeen(seen: set<string>, blocks: seq<Block>)
    requires CheckBlocks(seen, blocks).Some?
    ensures CheckBlocks(seen, blocks).value == seen + BlockIds(blocks)
    decreases |blocks|
  {
    hide IsJson;
    hide BlockIds;
    if blocks == [] {
      NoBlockIds();
    } else {
      var init, last := blocks[..|blocks| - 1], blocks[|blocks| - 1];
      BlocksSeen(seen, init);
      LastBlockId(blocks);
    }
  }

  lemma {:induction false} MessagesSeen(messages: seq<Message>)
    requires CheckMessages(messages).Some?
    ensures CheckMessages(messages).value == HistoryIds(messages)
    decreases |messages|
  {
    hide CheckBlocks;
    hide BlockIds;
    if messages != [] {
      MessagesSeen(messages[..|messages| - 1]);
      BlocksSeen(CheckMessages(messages[..|messages| - 1]).value, messages[|messages| - 1].content);
    }
  }

  lemma LastId(calls: seq<ToolCallRecord>)
    requires calls != []
    ensures IdsOf(calls) == IdsOf(calls[..|calls| - 1]) + {calls[|calls| - 1].id}
    ensures (forall i, j :: 0 <= i < j < |calls| ==> calls[i].id != calls[j].id) ==>
              calls[|calls| - 1].id !in IdsOf(calls[..|calls| - 1])
  {
    var init, last := calls[..|calls| - 1], calls[|calls| - 1];
    assert calls == init + [last];
    assert forall c :: c in calls <==> c in init || c == last;
  }

  lemma FirstId(calls: seq<ToolCallRecord>)
    requires calls != [] && forall i, j :: 0 <= i < j < |calls| ==> calls[i].id != calls[j].id
    ensures calls[0].id in IdsOf(calls) && IdsOf(calls) - {calls[0].id} == IdsOf(calls[1..])
  {
    assert calls == [calls[0]] + calls[1..];
    assert forall c :: c in calls <==> c == calls[0] || c in calls[1..];
    assert forall c :: c in calls[1..] ==> c.id != calls[0].id;
  }

  lemma OneMoreCall(seen: set<string>, prefix: seq<Block>, calls: seq<ToolCallRecord>)
    requires calls != []
    ensures var init, last := calls[..|calls| - 1], calls[|calls| - 1];
            var before := CheckBlocks(seen, prefix + CallBlocks(init));
            CheckBlocks(seen, prefix + CallBlocks(calls)) ==
            if before.None? then None else CheckBlock(before.value, Call(last.id, last.name, last.input))
  {
    hide CheckBlock;
    var whole := prefix + CallBlocks(calls);
    assert whole[..|whole| - 1] == prefix + CallBlocks(calls[..|calls| - 1]);
  }

  lemma {:induction false} CallsChecked(seen: set<string>, prefix: seq<Block>, calls: seq<ToolCallRecord>)
    requires CheckBlocks(seen, prefix) == Some(seen) && NewCalls(calls, seen)
    ensures CheckBlocks(seen, prefix + CallBlocks(calls)) == Some(seen + IdsOf(calls))
    decreases |calls|
  {
    hide IsJson;
    hide CheckBlocks;
    hide IdsOf;
    if calls == [] {
      assert prefix + CallBlocks(calls) == prefix;
      NoIds(seen);
    } else {
      CallsChecked(seen, prefix, calls[..|calls| - 1]);
      LastId(calls);
      OneMoreCall(seen, prefix, calls);
      assert seen + IdsOf(calls) == (seen + IdsOf(calls[..|calls| - 1])) + {calls[|calls| - 1].id};
    }
  }

  lemma NoIds(seen: set<string>)
    ensures seen + IdsOf([]) == seen
  {}

  lemma {:induction false} ResultsChecked(seen: set<string>, results: seq<Block>)
    requires forall i :: 0 <= i < |results| ==> results[i].Result? && results[i].callId in seen && results[i].callId != ""
    ensures CheckBlocks(seen, results) == Some(seen)
    decreases |results|
  {
    if results != [] {
      ResultsChecked(seen, results[..|results| - 1]);
    }
  }

  /** The shared contract holds for the extended history. */
  lemma TurnChecked(messages: seq<Message>, text: string, calls: seq<ToolCallRecord>, results: seq<Block>)
    requires CheckMessages(messages).Some? && calls != []
    requires NewCalls(calls, HistoryIds(messages)) && Answers(results, calls)
    ensures CheckMessages(messages + [AssistantMessage(text, calls), Message(Tool, results)]) == Some(HistoryIds(messages) + IdsOf(calls))
  {
    hide CheckBlocks;
    hide CheckMessages;
    hide HistoryIds;
    hide IsJson;
    MessagesSeen(messages);
    var seen := HistoryIds(messages);
    var said, prefix := AssistantMessage(text, calls), if text == "" then [] else [Text(text)];
    TextChecked(seen, text);
    CallsChecked(seen, prefix, calls);
    assert said.content != [];
    forall i | 0 <= i < |results|
      ensures results[i].callId in seen + IdsOf(calls) && results[i].callId != ""
    {
      assert calls[i] in calls;
    }
    ResultsChecked(seen + IdsOf(calls), results);
    CheckMore(messages, said);
    CheckMore(messages + [said], Message(Tool, results));
    assert messages + [said, Message(Tool, results)] == messages + [said] + [Message(Tool, results)];
  }

  lemma CheckMore(messages: seq<Message>, m: Message)
    ensures CheckMessages(messages + [m]) ==
            var before := CheckMessages(messages);
            if before.None? || m.content == [] then None else CheckBlocks(before.value, m.content)
  {
    hide CheckBlocks;
    assert (messages + [m])[..|messages|] == messages;
  }

  lemma TextChecked(seen: set<string>, text: string)
    ensures CheckBlocks(seen, if text == "" then [] else [Text(text)]) == Some(seen)
  {
    assert [Text(text)][..0] == [];
  }

  // ----- correlation -----

  lemma {:induction false} CallsCorrelated(book: Book, prefix: seq<Block>, calls: seq<ToolCallRecord>)
    requires CorrelateBlocks(Assistant, book, prefix) == Some(book)
    requires forall i :: 0 <= i < |calls| ==> calls[i].id !in book.pending && calls[i].id !in book.settled
    requires forall i, j :: 0 <= i < j < |calls| ==> calls[i].id != calls[j].id
    ensures CorrelateBlocks(Assistant, book, prefix + CallBlocks(calls)) == Some(book.(pending := book.pending + IdsOf(calls)))
    decreases |calls|
  {
    hide CorrelateBlocks;
    hide IdsOf;
    if calls == [] {
      assert prefix + CallBlocks(calls) == prefix;
      NoIds(book.pending);
    } else {
      var init, last := calls[..|calls| - 1], calls[|calls| - 1];
      CallsCorrelated(book, prefix, init);
      LastId(calls);
      OneMoreBooked(book, prefix, calls);
      assert (book.pending + IdsOf(init)) + {last.id} == book.pending + IdsOf(calls);
    }
  }

  lemma OneMoreBooked(book: Book, prefix: seq<Block>, calls: seq<ToolCallRecord>)
    requires calls != []
    ensures var init, last := calls[..|calls| - 1], calls[|calls| - 1];
            var before := CorrelateBlocks(Assistant, book, prefix + CallBlocks(init));
            CorrelateBlocks(Assistant, book, prefix + CallBlocks(calls)) ==
            if before.None? then None else CorrelateBlock(Assistant, before.value, Call(last.id, last.name, last.input))
  {
    hide CorrelateBlock;
    var whole := prefix + CallBlocks(calls);
    assert whole[..|whole| - 1] == prefix + CallBlocks(calls[..|calls| - 1]);
  }

  /** Results in call order settle the calls one by one. */
  lemma {:induction false} ResultsCorrelated(settled: set<string>, results: seq<Block>, calls: seq<ToolCallRecord>, n: nat)
    requires Answers(results, calls) && n <= |calls|
    requires forall i, j :: 0 <= i < j < |calls| ==> calls[i].id != calls[j].id
    ensures CorrelateBlocks(Tool, Book(IdsOf(calls), settled), results[..n]) ==
            Some(Book(IdsOf(calls[n..]), settled + IdsOf(calls[..n])))
    decreases n
  {
    hide IdsOf;
    if n == 0 {
      assert calls[0..] == calls && calls[..0] == [];
      NoIds(settled);
    } else {
      ResultsCorrelated(settled, results, calls, n - 1);
      assert results[..n][..n - 1] == results[..n - 1];
      var here := calls[n - 1];
      assert calls[..n][..n - 1] == calls[..n - 1];
      LastId(calls[..n]);
      FirstId(calls[n - 1..]);
      assert calls[n - 1..][1..] == calls[n..];
      assert (settled + IdsOf(calls[..n - 1])) + {here.id} == settled + IdsOf(calls[..n]);
    }
  }

  /** Every id in the book is an id of the history. */
  lemma {:induction false} BookIds(role: Role, book: Book, blocks: seq<Block>)
    requires CorrelateBlocks(role, book, blocks).Some?
    ensures var after := CorrelateBlocks(role, book, blocks).value;
            after.pending + after.settled <= book.pending + book.settled + BlockIds(blocks)
    decreases |blocks|
  {
    hide BlockIds;
    if blocks == [] {
      NoBlockIds();
    } else {
      var init, last := blocks[..|blocks| - 1], blocks[|blocks| - 1];
      BookIds(role, book, init);
      LastBlockId(blocks);
    }
  }

  lemma {:induction false} BookOfHistory(messages: seq<Message>)
    requires Correlate(messages).Some?
    ensures var book := Correlate(messages).value; book.pending + book.settled <= HistoryIds(messages)
    decreases |messages|
  {
    hide CorrelateBlocks;
    hide BlockIds;
    if messages != [] {
      var init, last := messages[..|messages| - 1], messages[|messages| - 1];
      BookOfHistory(init);
      BookIds(last.role, Correlate(init).value, last.content);
    }
  }

  lemma TextCorrelated(book: Book, text: string)
    ensures CorrelateBlocks(Assistant, book, if text == "" then [] else [Text(text)]) == Some(book)
  {
    assert [Text(text)][..0] == [];
  }

  /** The extended history ends with nothing pending. */
  lemma TurnCorrelated(messages: seq<Message>, text: string, calls: seq<ToolCallRecord>, results: seq<Block>)
    requires Correlated(messages) && NewCalls(calls, HistoryIds(messages)) && Answers(results, calls)
    ensures Correlated(messages + [AssistantMessage(text, calls), Message(Tool, results)])
  {
    hide CorrelateBlocks;
    hide Correlate;
    hide IsJson;
    hide IdsOf;
    hide HistoryIds;
    BookOfHistory(messages);
    var book, prefix := Correlate(messages).value, if text == "" then [] else [Text(text)];
    var said := AssistantMessage(text, calls);
    TextCorrelated(book, text);
    CallsCorrelated(book, prefix, calls);
    assert {} + IdsOf(calls) == IdsOf(calls);
    ResultsCorrelated(book.settled, results, calls, |calls|);
    assert results[..|calls|] == results && calls[|calls|..] == [];
    CorrelateMore(messages, said);
    CorrelateMore(messages + [said], Message(Tool, results));
    assert messages + [said, Message(Tool, results)] == messages + [said] + [Message(Tool, results)];
    NoIds({});
  }

  lemma CorrelateMore(messages: seq<Message>, m: Message)
    ensures Correlate(messages + [m]) ==
            var before := Correlate(messages);
            if before.None? then None
            else if (m.role == User || m.role == Assistant) && before.value.pending != {} then None
            else CorrelateBlocks(m.role, before.value, m.content)
  {
    hide CorrelateBlocks;
    assert (messages + [m])[..|messages|] == messages;
  }

  // ----- shape -----

  lemma {:induction false} CallBlocksAre(calls: seq<ToolCallRecord>)
    ensures |CallBlocks(calls)| == |calls|
    ensures forall i :: 0 <= i < |calls| ==> CallBlocks(calls)[i] == Call(calls[i].id, calls[i].name, calls[i].input)
    decreases |calls|
  {
    if calls != [] {
      CallBlocksAre(calls[..|calls| - 1]);
    }
  }

  predicate AllObjects(calls: seq<ToolCallRecord>) {
    forall i :: 0 <= i < |calls| ==> calls[i].input.Obj?
  }

  lemma TurnShaped(messages: seq<Message>, text: string, calls: seq<ToolCallRecord>, results: seq<Block>)
    requires Shaped(messages) && ObjectInputs(messages) && Answers(results, calls) && messages != []
    ensures var all := messages + [AssistantMessage(text, calls), Message(Tool, results)];
            Shaped(all) && (ObjectInputs(all) <==> AllObjects(calls))
  {
    CallBlocksAre(calls);
    var said, n := AssistantMessage(text, calls), |messages|;
    var all := messages + [said, Message(Tool, results)];
    var k := if text == "" then 0 else 1;
    forall i, j | 0 <= i < |all| && 0 <= j < |all[i].content|
      ensures AllowedFor(all[i].role, i, all[i].content[j])
    {
      if i < n {
        assert AllowedFor(messages[i].role, i, messages[i].content[j]);
      }
    }
    if AllObjects(calls) {
      forall i, j | 0 <= i < |all| && 0 <= j < |all[i].content| && all[i].content[j].Call?
        ensures all[i].content[j].input.Obj?
      {
        if i < n {
          assert all[i] == messages[i];
        } else if i == n {
          assert said.content[j] == CallBlocks(calls)[j - k];
        }
      }
    } else {
      var i :| 0 <= i < |calls| && !calls[i].input.Obj?;
      assert all[n].content[i + k] == CallBlocks(calls)[i];
    }
  }

  /**
   The next request of the loop is accepted by both adapters exactly when every
   input the model gave is an object.
   */
  lemma NextRequestAccepted(r: Request, messages: seq<Message>, text: string, calls: seq<ToolCallRecord>, results: seq<Block>)
    requires AdapterAccepts(r.(messages := messages)) && calls != []
    requires NewCalls(calls, HistoryIds(messages)) && Answers(results, calls)
    ensures var next := messages + [AssistantMessage(text, calls), Message(Tool, results)];
            && (AdapterAccepts(r.(messages := next)) <==> AllObjects(calls))
            && ValidRequest(r.(messages := next))
            && HistoryIds(next) == HistoryIds(messages) + IdsOf(calls)
  {
    hide CheckMessages;
    hide Correlate;
    hide Shaped;
    hide ObjectInputs;
    hide NewCalls;
    hide AssistantMessage;
    hide HistoryIds;
    var next := messages + [AssistantMessage(text, calls), Message(Tool, results)];
    TurnChecked(messages, text, calls, results);
    TurnCorrelated(messages, text, calls, results);
    TurnShaped(messages, text, calls, results);
    MessagesSeen(next);
  }
}
