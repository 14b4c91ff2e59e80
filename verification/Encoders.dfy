/**
 The two request encoders, and the pairing of calls and results on the wire.

 Anthropic merges neighbouring messages of one role; OpenAI gives every result a
 message of its own. Both keep a call next to its answer.
 */
module Encoders {
  import opened Base
  import opened Events
  import opened Requests

  // ----- Anthropic -----

  datatype WireBlock =
    | WireText(text: string)
    | ToolUse(id: string, name: string, input: Json)
    | ToolResult(id: string, content: string, isError: Option<bool>)

  datatype Group = Group(isAssistant: bool, content: seq<WireBlock>)

  /** Adds a block, gluing text to text. */
  function AddBlock(out: seq<WireBlock>, block: Block): seq<WireBlock> {
    match block
    case Text(text) =>
      if out != [] && out[|out| - 1].WireText? then out[..|out| - 1] + [WireText(out[|out| - 1].text + text)]
      else out + [WireText(text)]
    case Call(id, name, input) => out + [ToolUse(id, name, input)]
    case Result(_, _, _) => out
  }

  function ContentBlocks(content: seq<Block>): seq<WireBlock> {
    if content == [] then [] else AddBlock(ContentBlocks(content[..|content| - 1]), content[|content| - 1])
  }

  function ResultBlocks(content: seq<Block>): seq<WireBlock> {
    if content == [] then []
    else
      var last := content[|content| - 1];
      ResultBlocks(content[..|content| - 1]) +
      if last.Result? then [ToolResult(last.callId, last.content, last.isError)] else []
  }

  function EncodeMessage(m: Message): seq<WireBlock> {
    if m.role == Tool then ResultBlocks(m.content) else ContentBlocks(m.content)
  }

  /** Neighbours of one role share a group. */
  function AddToGroups(groups: seq<Group>, isAssistant: bool, content: seq<WireBlock>): seq<Group> {
    if groups != [] && groups[|groups| - 1].isAssistant == isAssistant
    then groups[..|groups| - 1] + [Group(isAssistant, groups[|groups| - 1].content + content)]
    else groups + [Group(isAssistant, content)]
  }

  function Groups(messages: seq<Message>): seq<Group> {
    if messages == [] then []
    else
      var before, last := Groups(messages[..|messages| - 1]), messages[|messages| - 1];
      if last.role == System then before else AddToGroups(before, last.role == Assistant, EncodeMessage(last))
  }

  /** All text of a message. */
  function TextOf(content: seq<Block>): string {
    if content == [] then ""
    else
      var last := content[|content| - 1];
      TextOf(content[..|content| - 1]) + if last.Text? then last.text else ""
  }

  /** The system prompt travels outside the groups. */
  function SystemText(messages: seq<Message>): Option<string> {
    if messages == [] then None
    else
      var last := messages[|messages| - 1];
      if last.role == System then Some(TextOf(last.content)) else SystemText(messages[..|messages| - 1])
  }

  // ----- Anthropic as the program runs it -----

  /** Merges runs of adjacent text, flushing before every other block. */
  method EncodeContent(content: seq<Block>) returns (out: seq<WireBlock>)
    requires forall i :: 0 <= i < |content| ==> !content[i].Result?
    ensures out == ContentBlocks(content)
  {
    hide ContentBlocks;
    out := [];
    var pendingText: Option<string> := None;
    NoContent();
    for i := 0 to |content|
      invariant pendingText.None? ==> out == ContentBlocks(content[..i]) && (out == [] || !out[|out| - 1].WireText?)
      invariant pendingText.Some? ==>
                  (out == [] || !out[|out| - 1].WireText?) && ContentBlocks(content[..i]) == out + [WireText(pendingText.value)]
    {
      ContentGrows(content, i);
      var block := content[i];
      if block.Text? {
        pendingText := Some(if pendingText.Some? then pendingText.value + block.text else block.text);
      } else {
        if pendingText.Some? {
          out := out + [WireText(pendingText.value)];
          pendingText := None;
        }
        out := out + [ToolUse(block.id, block.name, block.input)];
      }
    }
    assert content[..|content|] == content;
    if pendingText.Some? {
      out := out + [WireText(pendingText.value)];
    }
  }

  lemma NoContent()
    ensures ContentBlocks([]) == []
  {}

  lemma ContentGrows(content: seq<Block>, i: nat)
    requires i < |content|
    ensures ContentBlocks(content[..i + 1]) == AddBlock(ContentBlocks(content[..i]), content[i])
  {
    assert content[..i + 1][..i] == content[..i];
  }

  method EncodeResults(content: seq<Block>) returns (out: seq<WireBlock>)
    ensures out == ResultBlocks(content)
  {
    out := [];
    for i := 0 to |content|
      invariant out == ResultBlocks(content[..i])
    {
      assert content[..i + 1][..i] == content[..i];
      if content[i].Result? {
        out := out + [ToolResult(content[i].callId, content[i].content, content[i].isError)];
      }
    }
    assert content[..|content|] == content;
  }

  method EncodeAnthropicMessages(messages: seq<Message>) returns (systemText: Option<string>, groups: seq<Group>)
    requires Shaped(messages)
    ensures systemText == SystemText(messages) && groups == Groups(messages)
  {
    systemText, groups := None, [];
    for i := 0 to |messages|
      invariant systemText == SystemText(messages[..i]) && groups == Groups(messages[..i])
    {
      assert messages[..i + 1][..i] == messages[..i];
      var message := messages[i];
      if message.role == System {
        systemText := Some(TextOf(message.content));
      } else {
        var encoded;
        if message.role == Tool {
          encoded := EncodeResults(message.content);
        } else {
          assert forall j :: 0 <= j < |message.content| ==> AllowedFor(message.role, i, message.content[j]);
          encoded := EncodeContent(message.content);
        }
        var isAssistant := message.role == Assistant;
        if groups != [] && groups[|groups| - 1].isAssistant == isAssistant {
          var last := groups[|groups| - 1];
          groups := groups[..|groups| - 1] + [Group(isAssistant, last.content + encoded)];
        } else {
          groups := groups + [Group(isAssistant, encoded)];
        }
      }
    }
    assert messages[..|messages|] == messages;
  }

  // ----- order and alternation -----

  predicate Alternating(groups: seq<Group>) {
    forall i :: 0 < i < |groups| ==> groups[i].isAssistant != groups[i - 1].isAssistant
  }

  function Contents(groups: seq<Group>): seq<WireBlock> {
    if groups == [] then [] else Contents(groups[..|groups| - 1]) + groups[|groups| - 1].content
  }

  function EncodedInOrder(messages: seq<Message>): seq<WireBlock> {
    if messages == [] then []
    else
      EncodedInOrder(messages[..|messages| - 1]) +
      if messages[|messages| - 1].role == System then [] else EncodeMessage(messages[|messages| - 1])
  }

  /** Groups strictly alternate roles, and flattening them gives the messages' blocks in order. */
  lemma {:induction false} GroupsKeepOrder(messages: seq<Message>)
    ensures Alternating(Groups(messages))
    ensures Contents(Groups(messages)) == EncodedInOrder(messages)
    decreases |messages|
  {
    hide EncodeMessage;
    hide Contents;
    hide AddToGroups;
    if messages == [] {
      NoContents();
    } else {
      var init, last := messages[..|messages| - 1], messages[|messages| - 1];
      GroupsKeepOrder(init);
      var before := Groups(init);
      if last.role != System {
        var encoded := EncodeMessage(last);
        AddKeepsOrder(before, last.role == Assistant, encoded);
      }
    }
  }

  lemma NoContents()
    ensures Contents([]) == []
  {}

  lemma AddKeepsOrder(groups: seq<Group>, isAssistant: bool, content: seq<WireBlock>)
    requires Alternating(groups)
    ensures Alternating(AddToGroups(groups, isAssistant, content))
    ensures Contents(AddToGroups(groups, isAssistant, content)) == Contents(groups) + content
  {
    var after := AddToGroups(groups, isAssistant, content);
    if groups != [] && groups[|groups| - 1].isAssistant == isAssistant {
      var init, last := groups[..|groups| - 1], groups[|groups| - 1];
      assert after[..|after| - 1] == init;
      assert Contents(init) + (last.content + content) == (Contents(init) + last.content) + content;
    } else {
      assert after[..|after| - 1] == groups;
    }
  }

  // ----- ids -----

  function UseIds(blocks: seq<WireBlock>): multiset<string> {
    if blocks == [] then multiset{}
    else
      var last := blocks[|blocks| - 1];
      UseIds(blocks[..|blocks| - 1]) + if last.ToolUse? then multiset{last.id} else multiset{}
  }

  function ResultIds(blocks: seq<WireBlock>): multiset<string> {
    if blocks == [] then multiset{}
    else
      var last := blocks[|blocks| - 1];
      ResultIds(blocks[..|blocks| - 1]) + if last.ToolResult? then multiset{last.id} else multiset{}
  }

  predicate OnlyResults(blocks: seq<WireBlock>) {
    forall i :: 0 <= i < |blocks| ==> blocks[i].ToolResult?
  }

  /** All results come before everything else. */
  predicate ResultsLead(blocks: seq<WireBlock>) {
    forall i, j :: 0 <= i < j < |blocks| && blocks[j].ToolResult? ==> blocks[i].ToolResult?
  }

  predicate NoResults(blocks: seq<WireBlock>) {
    forall i :: 0 <= i < |blocks| ==> !blocks[i].ToolResult?
  }

  lemma {:induction false} IdsAppend(a: seq<WireBlock>, b: seq<WireBlock>)
    ensures UseIds(a + b) == UseIds(a) + UseIds(b)
    ensures ResultIds(a + b) == ResultIds(a) + ResultIds(b)
    decreases |b|
  {
    if b == [] {
      assert a + b == a;
    } else {
      assert (a + b)[..|a + b| - 1] == a + b[..|b| - 1];
      IdsAppend(a, b[..|b| - 1]);
    }
  }

  lemma {:induction false} NoResultIds(blocks: seq<WireBlock>)
    requires NoResults(blocks)
    ensures ResultIds(blocks) == multiset{}
    decreases |blocks|
  {
    if blocks != [] {
      NoResultIds(blocks[..|blocks| - 1]);
    }
  }

  lemma {:induction false} OnlyResultsNoUse(blocks: seq<WireBlock>)
    requires OnlyResults(blocks)
    ensures UseIds(blocks) == multiset{}
    decreases |blocks|
  {
    if blocks != [] {
      OnlyResultsNoUse(blocks[..|blocks| - 1]);
    }
  }

  lemma {:induction false} ContentHasNoResults(content: seq<Block>)
    ensures NoResults(ContentBlocks(content))
    decreases |content|
  {
    if content != [] {
      ContentHasNoResults(content[..|content| - 1]);
    }
  }

  lemma {:induction false} ResultsOnly(content: seq<Block>)
    ensures OnlyResults(ResultBlocks(content))
    decreases |content|
  {
    if content != [] {
      ResultsOnly(content[..|content| - 1]);
    }
  }

  lemma PutOne(s: set<string>, x: string)
    requires x !in s
    ensures multiset(s + {x}) == multiset(s) + multiset{x}
  {}

  lemma TakeOne(s: set<string>, x: string)
    requires x in s
    ensures multiset(s) == multiset(s - {x}) + multiset{x}
    ensures multiset(s) - multiset{x} == multiset(s - {x})
  {}

  lemma MoveOne(all: multiset<string>, mid: multiset<string>, paid: multiset<string>, left: multiset<string>, one: multiset<string>)
    requires all == mid + paid && mid == left + one
    ensures all == left + (paid + one)
  {}

  lemma NoneLeft(s: set<string>)
    ensures multiset(s) == multiset{} <==> s == {}
  {
    if s != {} {
      var x :| x in s;
      assert x in multiset(s);
    }
  }

  function CallId(b: Block): multiset<string> {
    if b.Call? then multiset{b.id} else multiset{}
  }

  /** Gluing texts loses no call. */
  lemma AddBlockUse(out: seq<WireBlock>, b: Block)
    ensures UseIds(AddBlock(out, b)) == UseIds(out) + CallId(b)
  {
    match b
    case Call(id, name, input) =>
      IdsAppend(out, [ToolUse(id, name, input)]);
      OneUse(id, name, input);
    case Text(text) =>
      if out != [] && out[|out| - 1].WireText? {
        var init, last := out[..|out| - 1], out[|out| - 1];
        assert out == init + [last];
        IdsAppend(init, [last]);
        IdsAppend(init, [WireText(last.text + text)]);
        OneText(last.text);
        OneText(last.text + text);
      } else {
        IdsAppend(out, [WireText(text)]);
        OneText(text);
      }
    case Result(_, _, _) =>
  }

  /** Encoding an assistant message moves its calls from the message to the pending ones. */
  lemma {:induction false} CallsBecomePending(book: Book, content: seq<Block>)
    requires CorrelateBlocks(Assistant, book, content).Some?
    ensures var after := CorrelateBlocks(Assistant, book, content).value;
            multiset(after.pending) == multiset(book.pending) + UseIds(ContentBlocks(content))
    decreases |content|
  {
    hide AddBlock;
    hide UseIds;
    if content == [] {
      NoUse();
    } else {
      var init, last := content[..|content| - 1], content[|content| - 1];
      CallsBecomePending(book, init);
      AddBlockUse(ContentBlocks(init), last);
      if last.Call? {
        PutOne(CorrelateBlocks(Assistant, book, init).value.pending, last.id);
      }
    }
  }

  lemma NoUse()
    ensures UseIds([]) == multiset{} && ResultIds([]) == multiset{}
  {}

  lemma OneUse(id: string, name: string, input: Json)
    ensures UseIds([ToolUse(id, name, input)]) == multiset{id}
  {
    assert [ToolUse(id, name, input)][..0] == [];
  }

  lemma OneText(text: string)
    ensures UseIds([WireText(text)]) == multiset{}
  {
    assert [WireText(text)][..0] == [];
  }

  lemma OneResult(block: WireBlock)
    requires block.ToolResult?
    ensures ResultIds([block]) == multiset{block.id}
  {
    assert [block][..0] == [];
  }

  lemma SettleUnfolds(book: Book, content: seq<Block>)
    ensures content == [] ==> CorrelateBlocks(Tool, book, content) == Some(book) && ResultBlocks(content) == []
    ensures content != [] ==>
              var init, last := content[..|content| - 1], content[|content| - 1];
              var before := CorrelateBlocks(Tool, book, init);
              && CorrelateBlocks(Tool, book, content) == (if before.None? then None else CorrelateBlock(Tool, before.value, last))
              && ResultBlocks(content) == ResultBlocks(init) + if last.Result? then [ToolResult(last.callId, last.content, last.isError)] else []
  {}

  /** Encoding a tool message takes its results out of the pending calls. */
  lemma {:induction false} ResultsSettlePending(book: Book, content: seq<Block>)
    requires CorrelateBlocks(Tool, book, content).Some?
    ensures var after := CorrelateBlocks(Tool, book, content).value;
            multiset(book.pending) == multiset(after.pending) + ResultIds(ResultBlocks(content))
    decreases |content|
  {
    hide ResultIds;
    hide ResultBlocks;
    hide CorrelateBlocks;
    SettleUnfolds(book, content);
    if content == [] {
      NoUse();
    } else {
      var init, last := content[..|content| - 1], content[|content| - 1];
      ResultsSettlePending(book, init);
      if last.Result? {
        var block := ToolResult(last.callId, last.content, last.isError);
        var mid := CorrelateBlocks(Tool, book, init).value.pending;
        IdsAppend(ResultBlocks(init), [block]);
        OneResult(block);
        TakeOne(mid, last.callId);
        MoveOne(multiset(book.pending), multiset(mid), ResultIds(ResultBlocks(init)), multiset(mid - {last.callId}), multiset{last.callId});
      } else {
        assert ResultBlocks(init) + [] == ResultBlocks(init);
      }
    }
  }

  lemma {:induction false} OthersLeaveBook(role: Role, book: Book, content: seq<Block>)
    requires role == User || role == System
    ensures CorrelateBlocks(role, book, content) == Some(book)
    decreases |content|
  {
    if content != [] {
      OthersLeaveBook(role, book, content[..|content| - 1]);
    }
  }

  // ----- adjacency -----

  /** What the group before `k` has asked for. */
  function Asked(groups: seq<Group>, k: nat): multiset<string>
    requires k <= |groups|
  {
    if k == 0 then multiset{} else UseIds(groups[k - 1].content)
  }

  /** The results of a group answer the calls of the group before it, each once, before anything else. */
  ghost predicate AnswersBefore(groups: seq<Group>, k: nat)
    requires k < |groups|
  {
    ResultIds(groups[k].content) == Asked(groups, k) && ResultsLead(groups[k].content)
  }

  /** Assistant groups hold no results, user groups no calls. */
  predicate KindOk(g: Group) {
    if g.isAssistant then NoResults(g.content) else UseIds(g.content) == multiset{}
  }

  /** The last group against what was asked of it and what is pending after it. */
  ghost predicate LastOk(g: Group, asked: multiset<string>, pending: set<string>) {
    && KindOk(g)
    && if g.isAssistant then asked == multiset{} && UseIds(g.content) == multiset(pending)
       else
         && ResultsLead(g.content)
         && asked == ResultIds(g.content) + multiset(pending)
         && (pending != {} ==> OnlyResults(g.content))
  }

  /** All groups but the last are answered; the last one accounts for what is pending. */
  ghost predicate Ledger(groups: seq<Group>, pending: set<string>) {
    var n := |groups|;
    && Alternating(groups)
    && (forall k :: 0 <= k < n - 1 ==> AnswersBefore(groups, k) && KindOk(groups[k]))
    && if n == 0 then pending == {} else LastOk(groups[n - 1], Asked(groups, n - 1), pending)
  }

  /** What a group held before something is added to it. */
  function Existing(groups: seq<Group>, isAssistant: bool): seq<WireBlock> {
    if groups != [] && groups[|groups| - 1].isAssistant == isAssistant then groups[|groups| - 1].content else []
  }

  /** Adding to the groups keeps the earlier ones, closing the last one when the role changes. */
  lemma AddKeepsLedger(groups: seq<Group>, isAssistant: bool, encoded: seq<WireBlock>, before: set<string>, after: set<string>)
    requires Ledger(groups, before)
    requires groups != [] && groups[|groups| - 1].isAssistant != isAssistant ==> isAssistant ==> before == {}
    requires var asked := if groups == [] then multiset{}
                          else if groups[|groups| - 1].isAssistant == isAssistant then Asked(groups, |groups| - 1)
                          else UseIds(groups[|groups| - 1].content);
             LastOk(Group(isAssistant, Existing(groups, isAssistant) + encoded), asked, after)
    ensures Ledger(AddToGroups(groups, isAssistant, encoded), after)
  {
    hide LastOk;
    hide AnswersBefore;
    hide KindOk;
    assert [] + encoded == encoded;
    if groups == [] {
      assert AddToGroups(groups, isAssistant, encoded) == [Group(isAssistant, encoded)];
    } else if groups[|groups| - 1].isAssistant == isAssistant {
      GrowLast(groups, isAssistant, encoded, before, after);
    } else {
      OpenGroup(groups, isAssistant, encoded, before, after);
    }
  }

  lemma SameAnswers(a: seq<Group>, b: seq<Group>, k: nat)
    requires k < |a| && k < |b| && a[k] == b[k] && (k > 0 ==> a[k - 1] == b[k - 1])
    ensures AnswersBefore(a, k) == AnswersBefore(b, k)
  {}

  lemma GrowLast(groups: seq<Group>, isAssistant: bool, encoded: seq<WireBlock>, before: set<string>, after: set<string>)
    requires Ledger(groups, before) && groups != [] && groups[|groups| - 1].isAssistant == isAssistant
    requires LastOk(Group(isAssistant, groups[|groups| - 1].content + encoded), Asked(groups, |groups| - 1), after)
    ensures Ledger(AddToGroups(groups, isAssistant, encoded), after)
  {
    hide LastOk;
    hide AnswersBefore;
    hide KindOk;
    var all := AddToGroups(groups, isAssistant, encoded);
    forall k | 0 <= k < |all| - 1
      ensures AnswersBefore(all, k) && KindOk(all[k])
    {
      SameAnswers(groups, all, k);
    }
  }

  lemma OpenGroup(groups: seq<Group>, isAssistant: bool, encoded: seq<WireBlock>, before: set<string>, after: set<string>)
    requires Ledger(groups, before) && groups != [] && groups[|groups| - 1].isAssistant != isAssistant
    requires isAssistant ==> before == {}
    requires LastOk(Group(isAssistant, encoded), UseIds(groups[|groups| - 1].content), after)
    ensures Ledger(AddToGroups(groups, isAssistant, encoded), after)
  {
    hide LastOk;
    hide KindOk;
    hide ResultsLead;
    hide UseIds;
    hide ResultIds;
    var all := AddToGroups(groups, isAssistant, encoded);
    var n := |groups| - 1;
    CloseLast(groups[n], Asked(groups, n), before);
    forall k | 0 <= k < |all| - 1
      ensures AnswersBefore(all, k) && KindOk(all[k])
    {
      SameAnswers(groups, all, k);
    }
  }

  /** A group followed by the other role has answered everything asked of it. */
  lemma CloseLast(g: Group, asked: multiset<string>, pending: set<string>)
    requires LastOk(g, asked, pending) && (g.isAssistant || pending == {})
    ensures ResultIds(g.content) == asked && ResultsLead(g.content) && KindOk(g)
  {
    NoneLeft({});
    if g.isAssistant {
      NoResultIds(g.content);
      NoResultsLead(g.content);
    }
  }

  lemma NoResultsLead(blocks: seq<WireBlock>)
    requires NoResults(blocks)
    ensures ResultsLead(blocks)
  {}

  lemma AssistantStep(groups: seq<Group>, book: Book, content: seq<Block>)
    requires Ledger(groups, {}) && book.pending == {} && CorrelateBlocks(Assistant, book, content).Some?
    ensures Ledger(AddToGroups(groups, true, ContentBlocks(content)), CorrelateBlocks(Assistant, book, content).value.pending)
  {
    hide ContentBlocks;
    hide CorrelateBlocks;
    hide AddToGroups;
    hide Alternating;
    hide UseIds;
    hide ResultIds;
    CallsBecomePending(book, content);
    ContentHasNoResults(content);
    NoneLeft({});
    var encoded := ContentBlocks(content);
    IdsAppend(Existing(groups, true), encoded);
    NoUse();
    if groups != [] && !groups[|groups| - 1].isAssistant {
      assert KindOk(groups[|groups| - 1]);
    }
    AddKeepsLedger(groups, true, encoded, {}, CorrelateBlocks(Assistant, book, content).value.pending);
  }

  lemma ToolStep(groups: seq<Group>, book: Book, content: seq<Block>)
    requires Ledger(groups, book.pending) && CorrelateBlocks(Tool, book, content).Some?
    requires content != [] && forall i :: 0 <= i < |content| ==> content[i].Result?
    ensures Ledger(AddToGroups(groups, false, ResultBlocks(content)), CorrelateBlocks(Tool, book, content).value.pending)
  {
    hide ResultBlocks;
    hide CorrelateBlocks;
    hide AddToGroups;
    hide Alternating;
    hide UseIds;
    hide ResultIds;
    ResultsSettlePending(book, content);
    ResultsOnly(content);
    FirstResultPending(book, content);
    var encoded, after := ResultBlocks(content), CorrelateBlocks(Tool, book, content).value.pending;
    var existing := Existing(groups, false);
    OnlyResultsNoUse(existing + encoded);
    IdsAppend(existing, encoded);
    NoUse();
    AddKeepsLedger(groups, false, encoded, book.pending, after);
  }

  lemma UserStep(groups: seq<Group>, content: seq<Block>)
    requires Ledger(groups, {}) && forall i :: 0 <= i < |content| ==> content[i].Text?
    ensures Ledger(AddToGroups(groups, false, ContentBlocks(content)), {})
  {
    hide ContentBlocks;
    hide AddToGroups;
    hide Alternating;
    hide UseIds;
    hide ResultIds;
    ContentHasNoResults(content);
    TextHasNoUse(content);
    NoneLeft({});
    var encoded, existing := ContentBlocks(content), Existing(groups, false);
    NoResultIds(encoded);
    IdsAppend(existing, encoded);
    NoUse();
    AddKeepsLedger(groups, false, encoded, {}, {});
  }

  /** A result needs a pending call. */
  lemma {:induction false} FirstResultPending(book: Book, content: seq<Block>)
    requires CorrelateBlocks(Tool, book, content).Some?
    requires content != [] && forall i :: 0 <= i < |content| ==> content[i].Result?
    ensures book.pending != {}
    decreases |content|
  {
    if |content| > 1 {
      FirstResultPending(book, content[..|content| - 1]);
    } else {
      assert content[..0] == [];
    }
  }

  lemma {:induction false} TextHasNoUse(content: seq<Block>)
    requires forall i :: 0 <= i < |content| ==> content[i].Text?
    ensures UseIds(ContentBlocks(content)) == multiset{}
    decreases |content|
  {
    hide AddBlock;
    hide UseIds;
    if content == [] {
      NoUse();
    } else {
      var init := content[..|content| - 1];
      TextHasNoUse(init);
      AddBlockUse(ContentBlocks(init), content[|content| - 1]);
    }
  }

  lemma {:induction false} LedgerOf(messages: seq<Message>)
    requires Shaped(messages) && CheckMessages(messages).Some? && Correlate(messages).Some?
    ensures Ledger(Groups(messages), Correlate(messages).value.pending)
    decreases |messages|
  {
    hide Ledger;
    hide CheckBlocks;
    hide CorrelateBlocks;
    hide AddToGroups;
    hide ContentBlocks;
    hide ResultBlocks;
    if messages == [] {
      EmptyLedger();
    } else {
      var init, last := messages[..|messages| - 1], messages[|messages| - 1];
      forall i, j | 0 <= i < |init| && 0 <= j < |init[i].content|
        ensures AllowedFor(init[i].role, i, init[i].content[j])
      {
        assert AllowedFor(messages[i].role, i, messages[i].content[j]);
      }
      LedgerOf(init);
      var groups, book := Groups(init), Correlate(init).value;
      forall j | 0 <= j < |last.content|
        ensures AllowedFor(last.role, |messages| - 1, last.content[j])
      {
        assert AllowedFor(messages[|messages| - 1].role, |messages| - 1, messages[|messages| - 1].content[j]);
      }
      match last.role
      case System => OthersLeaveBook(System, book, last.content);
      case User =>
        OthersLeaveBook(User, book, last.content);
        UserStep(groups, last.content);
      case Assistant => AssistantStep(groups, book, last.content);
      case Tool => ToolStep(groups, book, last.content);
    }
  }

  lemma EmptyLedger()
    ensures Ledger([], {})
  {}

  /**
   For an accepted request: groups strictly alternate, and the results at the
   start of each group answer the calls of the group before it, each exactly
   once; the last group asks for nothing.
   */
  lemma AnthropicAdjacency(r: Request)
    requires AdapterAccepts(r)
    ensures var groups := Groups(r.messages);
            && Alternating(groups)
            && (forall k :: 0 <= k < |groups| ==> AnswersBefore(groups, k))
            && Asked(groups, |groups|) == multiset{}
            && (forall k :: 0 <= k < |groups| ==> KindOk(groups[k]))
  {
    hide Ledger;
    hide Groups;
    hide KindOk;
    hide AnswersBefore;
    LedgerOf(r.messages);
    GroupsKeepOrder(r.messages);
    LedgerClosed(Groups(r.messages));
  }

  lemma LedgerClosed(groups: seq<Group>)
    requires Ledger(groups, {})
    ensures forall k :: 0 <= k < |groups| ==> AnswersBefore(groups, k) && KindOk(groups[k])
    ensures Asked(groups, |groups|) == multiset{}
  {
    hide ResultsLead;
    hide UseIds;
    hide ResultIds;
    if groups != [] {
      var n := |groups| - 1;
      CloseLast(groups[n], Asked(groups, n), {});
      NoneLeft({});
    }
  }

  // ----- OpenAI -----

  datatype ChatCall = ChatCall(id: string, name: string, arguments: string)

  datatype ChatMessage =
    | ChatSystem(content: string)
    | ChatUser(content: string)
    | ChatAssistant(said: Option<string>, calls: seq<ChatCall>)
    | ChatTool(id: string, envelope: string)

  /** `JSON.stringify` of an input, and of the result envelope. */
  datatype Printer = Printer(json: Json -> string, envelope: (string, bool) -> string)

  function ChatCalls(p: Printer, content: seq<Block>): seq<ChatCall> {
    if content == [] then []
    else
      var last := content[|content| - 1];
      ChatCalls(p, content[..|content| - 1]) + if last.Call? then [ChatCall(last.id, last.name, p.json(last.input))] else []
  }

  function ChatTools(p: Printer, content: seq<Block>): seq<ChatMessage> {
    if content == [] then []
    else
      var last := content[|content| - 1];
      ChatTools(p, content[..|content| - 1]) +
      if last.Result? then [ChatTool(last.callId, p.envelope(last.content, last.isError == Some(true)))] else []
  }

  function ChatOf(p: Printer, m: Message): seq<ChatMessage> {
    match m.role
    case Tool => ChatTools(p, m.content)
    case Assistant =>
      [ChatAssistant(if exists b <- m.content :: b.Text? then Some(TextOf(m.content)) else None, ChatCalls(p, m.content))]
    case System => [ChatSystem(TextOf(m.content))]
    case User => [ChatUser(TextOf(m.content))]
  }

  function ChatMessages(p: Printer, messages: seq<Message>): seq<ChatMessage> {
    if messages == [] then []
    else ChatMessages(p, messages[..|messages| - 1]) + ChatOf(p, messages[|messages| - 1])
  }

  method EncodeTools(p: Printer, content: seq<Block>) returns (tools: seq<ChatMessage>)
    ensures tools == ChatTools(p, content)
  {
    tools := [];
    for j := 0 to |content|
      invariant tools == ChatTools(p, content[..j])
    {
      assert content[..j + 1][..j] == content[..j];
      if content[j].Result? {
        tools := tools + [ChatTool(content[j].callId, p.envelope(content[j].content, content[j].isError == Some(true)))];
      }
    }
    assert content[..|content|] == content;
  }

  method EncodeChatMessages(p: Printer, messages: seq<Message>) returns (out: seq<ChatMessage>)
    ensures out == ChatMessages(p, messages)
  {
    out := [];
    for i := 0 to |messages|
      invariant out == ChatMessages(p, messages[..i])
    {
      assert messages[..i + 1][..i] == messages[..i];
      var message := messages[i];
      if message.role == Tool {
        var tools := EncodeTools(p, message.content);
        out := out + tools;
      } else if message.role == Assistant {
        var hasText := exists b <- message.content :: b.Text?;
        out := out + [ChatAssistant(if hasText then Some(TextOf(message.content)) else None, ChatCalls(p, message.content))];
      } else if message.role == System {
        out := out + [ChatSystem(TextOf(message.content))];
      } else {
        out := out + [ChatUser(TextOf(message.content))];
      }
    }
    assert messages[..|messages|] == messages;
  }

  function CallIds(calls: seq<ChatCall>): multiset<string> {
    if calls == [] then multiset{} else CallIds(calls[..|calls| - 1]) + multiset{calls[|calls| - 1].id}
  }

  /**
   Reads a conversation as an API would: while calls are owed only tool messages
   may come, each for one of them; nothing else may answer a call. None is a
   violation.
   */
  function Owed(chat: seq<ChatMessage>): Option<multiset<string>> {
    if chat == [] then Some(multiset{})
    else
      var before, last := Owed(chat[..|chat| - 1]), chat[|chat| - 1];
      if before.None? then None
      else
        match last
        case ChatTool(id, _) => if id in before.value then Some(before.value - multiset{id}) else None
        case ChatAssistant(_, calls) => if before.value == multiset{} then Some(CallIds(calls)) else None
        case _ => if before.value == multiset{} then Some(before.value) else None
  }

  lemma {:induction false} ToolsPay(p: Printer, chat: seq<ChatMessage>, book: Book, content: seq<Block>)
    requires Owed(chat) == Some(multiset(book.pending)) && CorrelateBlocks(Tool, book, content).Some?
    ensures Owed(chat + ChatTools(p, content)) == Some(multiset(CorrelateBlocks(Tool, book, content).value.pending))
    decreases |content|
  {
    hide Owed;
    if content == [] {
      assert chat + [] == chat;
    } else {
      var init, last := content[..|content| - 1], content[|content| - 1];
      ToolsPay(p, chat, book, init);
      var mid := CorrelateBlocks(Tool, book, init).value;
      if last.Result? {
        var m := ChatTool(last.callId, p.envelope(last.content, last.isError == Some(true)));
        assert chat + ChatTools(p, content) == (chat + ChatTools(p, init)) + [m];
        PayOne(chat + ChatTools(p, init), m, mid.pending);
      } else {
        assert ChatTools(p, content) == ChatTools(p, init);
      }
    }
  }

  /** One tool message for a pending call. */
  lemma PayOne(chat: seq<ChatMessage>, m: ChatMessage, pending: set<string>)
    requires Owed(chat) == Some(multiset(pending)) && m.ChatTool? && m.id in pending
    ensures Owed(chat + [m]) == Some(multiset(pending - {m.id}))
  {
    assert (chat + [m])[..|chat|] == chat;
    TakeOne(pending, m.id);
  }

  lemma {:induction false} CallsOwed(p: Printer, book: Book, content: seq<Block>)
    requires CorrelateBlocks(Assistant, book, content).Some?
    ensures multiset(CorrelateBlocks(Assistant, book, content).value.pending) == multiset(book.pending) + CallIds(ChatCalls(p, content))
    decreases |content|
  {
    hide CallIds;
    if content == [] {
      NoCallIds();
    } else {
      var init, last := content[..|content| - 1], content[|content| - 1];
      CallsOwed(p, book, init);
      var mid := CorrelateBlocks(Assistant, book, init).value;
      if last.Call? {
        LastCallId(ChatCalls(p, init), ChatCall(last.id, last.name, p.json(last.input)));
        PutOne(mid.pending, last.id);
      } else {
        assert ChatCalls(p, init) + [] == ChatCalls(p, init);
      }
    }
  }

  lemma NoCallIds()
    ensures CallIds([]) == multiset{}
  {}

  lemma LastCallId(calls: seq<ChatCall>, call: ChatCall)
    ensures CallIds(calls + [call]) == CallIds(calls) + multiset{call.id}
  {
    assert (calls + [call])[..|calls|] == calls;
  }

  /** One message that is not a tool message. */
  lemma SayOne(chat: seq<ChatMessage>, m: ChatMessage)
    requires Owed(chat) == Some(multiset{}) && !m.ChatTool?
    ensures Owed(chat + [m]) == Some(if m.ChatAssistant? then CallIds(m.calls) else multiset{})
  {
    assert (chat + [m])[..|chat|] == chat;
  }

  lemma {:induction false} OwedOf(p: Printer, messages: seq<Message>)
    requires Shaped(messages) && CheckMessages(messages).Some? && Correlate(messages).Some?
    ensures Owed(ChatMessages(p, messages)) == Some(multiset(Correlate(messages).value.pending))
    decreases |messages|
  {
    hide CorrelateBlocks;
    hide ChatCalls;
    hide TextOf;
    hide ChatTools;
    hide CheckBlocks;
    hide Owed;
    if messages != [] {
      var init, last := messages[..|messages| - 1], messages[|messages| - 1];
      forall i, j | 0 <= i < |init| && 0 <= j < |init[i].content|
        ensures AllowedFor(init[i].role, i, init[i].content[j])
      {
        assert AllowedFor(messages[i].role, i, messages[i].content[j]);
      }
      OwedOf(p, init);
      var chat, book := ChatMessages(p, init), Correlate(init).value;
      if last.role == Tool {
        ToolsPay(p, chat, book, last.content);
      } else {
        if last.role == System {
          SystemFirst(messages);
        }
        assert book.pending == {};
        NoneLeft(book.pending);
        SayOne(chat, ChatOf(p, last)[0]);
        assert ChatOf(p, last) == [ChatOf(p, last)[0]];
        if last.role == Assistant {
          CallsOwed(p, book, last.content);
          assert multiset{} + CallIds(ChatCalls(p, last.content)) == CallIds(ChatCalls(p, last.content));
          assert Owed(ChatMessages(p, messages)) == Some(CallIds(ChatCalls(p, last.content)));
        } else {
          OthersLeaveBook(last.role, book, last.content);
          assert Correlate(messages).value == book;
        }
      }
    } else {
      NoneLeft({});
      NothingOwed();
    }
  }

  lemma NothingOwed()
    ensures Owed([]) == Some(multiset{})
  {}

  /** A non-empty system message can only be the first. */
  lemma SystemFirst(messages: seq<Message>)
    requires Shaped(messages) && messages != [] && messages[|messages| - 1].role == System
    ensures |messages| == 1 || messages[|messages| - 1].content == []
  {
    var n := |messages| - 1;
    if messages[n].content != [] {
      assert AllowedFor(messages[n].role, n, messages[n].content[0]);
    }
  }

  /** For an accepted request every call is answered once, right after its message, before anything else. */
  lemma OpenAIAdjacency(p: Printer, r: Request)
    requires AdapterAccepts(r)
    ensures Owed(ChatMessages(p, r.messages)) == Some(multiset{})
  {
    OwedOf(p, r.messages);
    NoneLeft({});
  }
}
