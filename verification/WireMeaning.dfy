/**
 What a history says, and that both request forms still say it.

 A transcript lists every character with its speaker, every call and every
 result, so that text may be cut into blocks in any way without changing it.
 */
module WireMeaning {
  import opened Base
  import opened Events
  import opened Requests
  import opened Encoders

  datatype Item =
    | Letter(who: Role, c: char)
    | Asked(id: string, name: string, input: Json)
    | Answered(id: string, content: string, isError: Option<bool>)

  function Letters(who: Role, text: string): seq<Item> {
    seq(|text|, i requires 0 <= i < |text| => Letter(who, text[i]))
  }

  function BlockItems(who: Role, block: Block): seq<Item> {
    match block
    case Text(text) => Letters(who, text)
    case Call(id, name, input) => [Asked(id, name, input)]
    case Result(id, content, isError) => [Answered(id, content, isError)]
  }

  function ContentItems(who: Role, content: seq<Block>): seq<Item> {
    if content == [] then []
    else ContentItems(who, content[..|content| - 1]) + BlockItems(who, content[|content| - 1])
  }

  function Transcript(messages: seq<Message>): seq<Item> {
    if messages == [] then []
    else
      var last := messages[|messages| - 1];
      Transcript(messages[..|messages| - 1]) + ContentItems(last.role, last.content)
  }

  // ----- Anthropic -----

  function Side(isAssistant: bool): Role {
    if isAssistant then Assistant else User
  }

  function WireItems(isAssistant: bool, blocks: seq<WireBlock>): seq<Item> {
    if blocks == [] then []
    else
      WireItems(isAssistant, blocks[..|blocks| - 1]) +
      match blocks[|blocks| - 1]
      case WireText(text) => Letters(Side(isAssistant), text)
      case ToolUse(id, name, input) => [Asked(id, name, input)]
      case ToolResult(id, content, isError) => [Answered(id, content, isError)]
  }

  /** What the groups and the system prompt of a request body say. */
  function GroupsItems(groups: seq<Group>): seq<Item> {
    if groups == [] then []
    else
      var last := groups[|groups| - 1];
      GroupsItems(groups[..|groups| - 1]) + WireItems(last.isAssistant, last.content)
  }

  function SystemItems(text: Option<string>): seq<Item> {
    if text.None? then [] else Letters(System, text.value)
  }

  lemma LettersAppend(who: Role, a: string, b: string)
    ensures Letters(who, a + b) == Letters(who, a) + Letters(who, b)
  {}

  lemma {:induction false} WireItemsAppend(isAssistant: bool, a: seq<WireBlock>, b: seq<WireBlock>)
    ensures WireItems(isAssistant, a + b) == WireItems(isAssistant, a) + WireItems(isAssistant, b)
    decreases |b|
  {
    hide Letters;
    if b == [] {
      assert a + b == a;
    } else {
      assert (a + b)[..|a + b| - 1] == a + b[..|b| - 1];
      WireItemsAppend(isAssistant, a, b[..|b| - 1]);
    }
  }

  /** Gluing text to text does not change what is said. */
  lemma AddBlockItems(isAssistant: bool, out: seq<WireBlock>, block: Block)
    requires !block.Result?
    ensures WireItems(isAssistant, AddBlock(out, block)) == WireItems(isAssistant, out) + BlockItems(Side(isAssistant), block)
  {
    hide Letters;
    var after := AddBlock(out, block);
    if block.Text? && out != [] && out[|out| - 1].WireText? {
      LettersAppend(Side(isAssistant), out[|out| - 1].text, block.text);
      assert after[..|after| - 1] == out[..|out| - 1];
    } else {
      assert after[..|after| - 1] == out;
    }
  }

  lemma {:induction false} ContentSays(isAssistant: bool, content: seq<Block>)
    requires forall i :: 0 <= i < |content| ==> !content[i].Result?
    ensures WireItems(isAssistant, ContentBlocks(content)) == ContentItems(Side(isAssistant), content)
    decreases |content|
  {
    hide AddBlock, BlockItems, WireItems;
    if content == [] {
      NothingSaid(isAssistant);
    } else {
      ContentSays(isAssistant, content[..|content| - 1]);
      AddBlockItems(isAssistant, ContentBlocks(content[..|content| - 1]), content[|content| - 1]);
    }
  }

  lemma NothingSaid(isAssistant: bool)
    ensures WireItems(isAssistant, []) == []
  {}

  lemma {:induction false} ResultsSay(content: seq<Block>)
    requires forall i :: 0 <= i < |content| ==> content[i].Result?
    ensures WireItems(false, ResultBlocks(content)) == ContentItems(Tool, content)
    decreases |content|
  {
    if content != [] {
      ResultsSay(content[..|content| - 1]);
      assert ResultBlocks(content)[..|ResultBlocks(content)| - 1] == ResultBlocks(content[..|content| - 1]);
    }
  }

  lemma AddToGroupsItems(groups: seq<Group>, isAssistant: bool, content: seq<WireBlock>)
    ensures GroupsItems(AddToGroups(groups, isAssistant, content)) == GroupsItems(groups) + WireItems(isAssistant, content)
  {
    hide WireItems;
    var after := AddToGroups(groups, isAssistant, content);
    if groups != [] && groups[|groups| - 1].isAssistant == isAssistant {
      WireItemsAppend(isAssistant, groups[|groups| - 1].content, content);
      assert after[..|after| - 1] == groups[..|groups| - 1];
    } else {
      assert after[..|after| - 1] == groups;
    }
  }

  lemma {:induction false} GroupsSay(messages: seq<Message>)
    requires Shaped(messages) && forall i :: 0 <= i < |messages| ==> messages[i].content != []
    ensures SystemItems(SystemText(messages)) + GroupsItems(Groups(messages)) == Transcript(messages)
    decreases |messages|
  {
    hide WireItems, ContentItems, EncodeMessage, GroupsItems, AddToGroups, Letters;
    if messages == [] {
      NoGroups();
    } else {
      var init, last := messages[..|messages| - 1], messages[|messages| - 1];
      ShapedInit(messages);
      if last.role == System {
        SystemFirst(messages);
        assert init == [];
        NoGroups();
        SystemSays(messages, |messages| - 1);
      } else {
        GroupsSay(init);
        EncodedSays(messages, |messages| - 1);
        AddToGroupsItems(Groups(init), last.role == Assistant, EncodeMessage(last));
      }
    }
  }

  lemma NoGroups()
    ensures GroupsItems([]) == []
  {}

  lemma ShapedInit(messages: seq<Message>)
    requires Shaped(messages) && messages != []
    ensures Shaped(messages[..|messages| - 1])
  {
    var init := messages[..|messages| - 1];
    forall i, j | 0 <= i < |init| && 0 <= j < |init[i].content|
      ensures AllowedFor(init[i].role, i, init[i].content[j])
    {
      assert AllowedFor(messages[i].role, i, messages[i].content[j]);
    }
  }

  lemma EncodedSays(messages: seq<Message>, i: nat)
    requires Shaped(messages) && i < |messages| && messages[i].role != System
    ensures WireItems(messages[i].role == Assistant, EncodeMessage(messages[i])) == ContentItems(messages[i].role, messages[i].content)
  {
    hide WireItems, ContentItems;
    var m := messages[i];
    assert forall j :: 0 <= j < |m.content| ==> AllowedFor(m.role, i, m.content[j]);
    if m.role == Tool {
      ResultsSay(m.content);
    } else {
      ContentSays(m.role == Assistant, m.content);
    }
  }

  lemma SystemSays(messages: seq<Message>, i: nat)
    requires Shaped(messages) && i < |messages| && messages[i].role == System
    ensures Letters(System, TextOf(messages[i].content)) == ContentItems(System, messages[i].content)
  {
    var m := messages[i];
    assert forall j :: 0 <= j < |m.content| ==> AllowedFor(m.role, i, m.content[j]);
    TextsSay(System, m.content);
    OnlyLetters(System, m.content);
  }

  /**
   For an accepted request the Anthropic body says what the history says: the
   same characters by the same speakers, calls and results, in the same order.
   */
  lemma AnthropicKeepsMeaning(r: Request)
    requires AdapterAccepts(r)
    ensures SystemItems(SystemText(r.messages)) + GroupsItems(Groups(r.messages)) == Transcript(r.messages)
  {
    CheckedHistory(r.messages);
    GroupsSay(r.messages);
  }

  lemma {:induction false} CheckedHistory(messages: seq<Message>)
    requires CheckMessages(messages).Some?
    ensures forall i :: 0 <= i < |messages| ==> messages[i].content != [] && FiniteInputs(messages[i].content)
    decreases |messages|
  {
    hide CheckBlocks, FiniteInputs;
    if messages != [] {
      var init, last := messages[..|messages| - 1], messages[|messages| - 1];
      CheckedHistory(init);
      CheckedContent(CheckMessages(init).value, last.content);
      forall i | 0 <= i < |messages|
        ensures messages[i].content != [] && FiniteInputs(messages[i].content)
      {
        if i < |init| {
          assert messages[i] == init[i];
        }
      }
    }
  }

  predicate FiniteInputs(content: seq<Block>) {
    forall j :: 0 <= j < |content| && content[j].Call? ==> IsJson(content[j].input)
  }

  lemma {:induction false} CheckedContent(seen: set<string>, content: seq<Block>)
    requires CheckBlocks(seen, content).Some?
    ensures FiniteInputs(content)
    decreases |content|
  {
    hide IsJson;
    if content != [] {
      CheckedContent(seen, content[..|content| - 1]);
      assert forall j :: 0 <= j < |content| - 1 ==> content[..|content| - 1][j] == content[j];
    }
  }

  // ----- OpenAI -----

  /** `JSON.parse` of a call's arguments and of a result envelope. */
  datatype Reader = Reader(json: string -> Option<Json>, envelope: string -> Option<(string, bool)>)

  /** The law of printing, asked of a message's own inputs and results only: they can be read back. */
  predicate ReadsBack(reader: Reader, p: Printer, content: seq<Block>) {
    forall j :: 0 <= j < |content| ==>
      match content[j]
      case Text(_) => true
      case Call(_, _, input) => IsJson(input) ==> reader.json(p.json(input)) == Some(input)
      case Result(_, text, isError) => reader.envelope(p.envelope(text, isError == Some(true))) == Some((text, isError == Some(true)))
  }

  predicate AllReadBack(reader: Reader, p: Printer, messages: seq<Message>) {
    forall i :: 0 <= i < |messages| ==> ReadsBack(reader, p, messages[i].content)
  }

  lemma ReadsInit(reader: Reader, p: Printer, content: seq<Block>)
    requires ReadsBack(reader, p, content) && content != []
    ensures ReadsBack(reader, p, content[..|content| - 1])
  {
    hide IsJson;
    assert forall j :: 0 <= j < |content| - 1 ==> content[..|content| - 1][j] == content[j];
  }

  lemma LastReads(reader: Reader, p: Printer, content: seq<Block>)
    requires ReadsBack(reader, p, content) && content != []
    ensures ReadsBack(reader, p, [content[|content| - 1]])
  {
    hide IsJson;
  }

  function CallItems(reader: Reader, calls: seq<ChatCall>): seq<Item> {
    if calls == [] then []
    else
      var last := calls[|calls| - 1];
      CallItems(reader, calls[..|calls| - 1]) +
      if reader.json(last.arguments).Some? then [Asked(last.id, last.name, reader.json(last.arguments).value)] else []
  }

  function ChatItems(reader: Reader, chat: seq<ChatMessage>): seq<Item> {
    if chat == [] then []
    else
      ChatItems(reader, chat[..|chat| - 1]) +
      match chat[|chat| - 1]
      case ChatSystem(text) => Letters(System, text)
      case ChatUser(text) => Letters(User, text)
      case ChatAssistant(said, calls) =>
        (if said.Some? then Letters(Assistant, said.value) else []) + CallItems(reader, calls)
      case ChatTool(id, envelope) =>
        if reader.envelope(envelope).Some?
        then [Answered(id, reader.envelope(envelope).value.0, Some(reader.envelope(envelope).value.1))] else []
  }

  /** Either the letters of a list, or everything else. */
  function Only(letters: bool, items: seq<Item>): seq<Item> {
    if items == [] then []
    else
      Only(letters, items[..|items| - 1]) + if items[|items| - 1].Letter? == letters then [items[|items| - 1]] else []
  }

  /** The envelope does not tell an absent error flag from a false one. */
  function Flagged(items: seq<Item>): seq<Item> {
    seq(|items|, i requires 0 <= i < |items| =>
      if items[i].Answered? then items[i].(isError := Some(items[i].isError == Some(true))) else items[i])
  }

  /** The transcript as Chat Completions can express it: in each message the text comes first. */
  function TextFirst(messages: seq<Message>): seq<Item> {
    if messages == [] then []
    else
      var last := messages[|messages| - 1];
      var items := ContentItems(last.role, last.content);
      TextFirst(messages[..|messages| - 1]) + Only(true, items) + Flagged(Only(false, items))
  }

  lemma {:induction false} OnlyAppend(letters: bool, a: seq<Item>, b: seq<Item>)
    ensures Only(letters, a + b) == Only(letters, a) + Only(letters, b)
    decreases |b|
  {
    if b == [] {
      assert a + b == a;
    } else {
      assert (a + b)[..|a + b| - 1] == a + b[..|b| - 1];
      OnlyAppend(letters, a, b[..|b| - 1]);
    }
  }

  lemma {:induction false} OnlyOfLetters(who: Role, text: string)
    ensures Only(true, Letters(who, text)) == Letters(who, text) && Only(false, Letters(who, text)) == []
    decreases |text|
  {
    if text != "" {
      assert Letters(who, text)[..|text| - 1] == Letters(who, text[..|text| - 1]);
      OnlyOfLetters(who, text[..|text| - 1]);
    }
  }

  lemma OnlyOne(letters: bool, item: Item)
    ensures Only(letters, [item]) == if item.Letter? == letters then [item] else []
  {
    assert [item][..0] == [];
  }

  lemma {:induction false} TextsSay(who: Role, content: seq<Block>)
    ensures Only(true, ContentItems(who, content)) == Letters(who, TextOf(content))
    decreases |content|
  {
    hide Letters, Only;
    if content == [] {
      OnlyOfLetters(who, "");
      NoLetters(who);
    } else {
      var init, last := content[..|content| - 1], content[|content| - 1];
      TextsSay(who, init);
      OnlyAppend(true, ContentItems(who, init), BlockItems(who, last));
      if last.Text? {
        OnlyOfLetters(who, last.text);
        LettersAppend(who, TextOf(init), last.text);
      } else {
        OnlyOne(true, BlockItems(who, last)[0]);
        assert TextOf(init) + "" == TextOf(init);
      }
    }
  }

  lemma NoLetters(who: Role)
    ensures Letters(who, "") == []
  {}

  lemma {:induction false} OnlyLetters(who: Role, content: seq<Block>)
    requires forall i :: 0 <= i < |content| ==> content[i].Text?
    ensures Only(true, ContentItems(who, content)) == ContentItems(who, content)
    ensures Only(false, ContentItems(who, content)) == []
    decreases |content|
  {
    hide Letters;
    if content != [] {
      var init, last := content[..|content| - 1], content[|content| - 1];
      OnlyLetters(who, init);
      OnlyAppend(true, ContentItems(who, init), BlockItems(who, last));
      OnlyAppend(false, ContentItems(who, init), BlockItems(who, last));
      OnlyOfLetters(who, last.text);
    }
  }

  lemma {:induction false} CallsSay(reader: Reader, p: Printer, who: Role, content: seq<Block>)
    requires ReadsBack(reader, p, content) && FiniteInputs(content)
    requires forall i :: 0 <= i < |content| ==> !content[i].Result?
    ensures CallItems(reader, ChatCalls(p, content)) == Flagged(Only(false, ContentItems(who, content)))
    decreases |content|
  {
    hide Letters, Only, IsJson;
    if content == [] {
      NoneOnly(false);
    } else {
      var init, last := content[..|content| - 1], content[|content| - 1];
      assert FiniteInputs(init) by {
        assert forall j :: 0 <= j < |init| ==> init[j] == content[j];
      }
      ReadsInit(reader, p, content);
      CallsSay(reader, p, who, init);
      OnlyAppend(false, ContentItems(who, init), BlockItems(who, last));
      if last.Text? {
        OnlyOfLetters(who, last.text);
        assert ChatCalls(p, content) == ChatCalls(p, init);
      } else {
        OnlyOne(false, BlockItems(who, last)[0]);
        assert ChatCalls(p, content)[..|ChatCalls(p, init)|] == ChatCalls(p, init);
        assert IsJson(last.input);
      }
    }
  }

  lemma NoneOnly(letters: bool)
    ensures Only(letters, []) == [] && Flagged([]) == []
  {}

  lemma {:induction false} ToolsSay(reader: Reader, p: Printer, content: seq<Block>)
    requires ReadsBack(reader, p, content) && forall i :: 0 <= i < |content| ==> content[i].Result?
    ensures ChatItems(reader, ChatTools(p, content)) == Flagged(Only(false, ContentItems(Tool, content)))
    decreases |content|
  {
    hide Letters, Only, IsJson, Flagged, ChatItems, ReadsBack;
    if content == [] {
      NoneOnly(false);
      NoChat(reader);
    } else {
      var init, last := content[..|content| - 1], content[|content| - 1];
      ReadsInit(reader, p, content);
      ToolsSay(reader, p, init);
      LastReads(reader, p, content);
      OnlyAppend(false, ContentItems(Tool, init), BlockItems(Tool, last));
      OnlyOne(false, BlockItems(Tool, last)[0]);
      ToolSays(reader, p, ChatTools(p, init), last);
      FlaggedOne(Only(false, ContentItems(Tool, init)), BlockItems(Tool, last)[0]);
    }
  }

  lemma NoChat(reader: Reader)
    ensures ChatItems(reader, []) == []
  {}

  lemma ToolSays(reader: Reader, p: Printer, chat: seq<ChatMessage>, block: Block)
    requires ReadsBack(reader, p, [block]) && block.Result?
    ensures ChatItems(reader, chat + [ChatTool(block.callId, p.envelope(block.content, block.isError == Some(true)))]) ==
            ChatItems(reader, chat) + [Answered(block.callId, block.content, Some(block.isError == Some(true)))]
  {
    hide Letters, IsJson;
    var m := ChatTool(block.callId, p.envelope(block.content, block.isError == Some(true)));
    assert (chat + [m])[..|chat|] == chat && [block][0] == block;
  }

  lemma FlaggedOne(items: seq<Item>, item: Item)
    ensures Flagged(items + [item]) ==
            Flagged(items) + [if item.Answered? then item.(isError := Some(item.isError == Some(true))) else item]
  {}

  lemma {:induction false} ChatItemsAppend(reader: Reader, a: seq<ChatMessage>, b: seq<ChatMessage>)
    ensures ChatItems(reader, a + b) == ChatItems(reader, a) + ChatItems(reader, b)
    decreases |b|
  {
    hide Letters, CallItems;
    if b == [] {
      assert a + b == a;
    } else {
      assert (a + b)[..|a + b| - 1] == a + b[..|b| - 1];
      ChatItemsAppend(reader, a, b[..|b| - 1]);
    }
  }

  lemma MessageSays(reader: Reader, p: Printer, messages: seq<Message>, i: nat)
    requires Shaped(messages) && i < |messages| && ReadsBack(reader, p, messages[i].content) && FiniteInputs(messages[i].content)
    ensures ChatItems(reader, ChatOf(p, messages[i])) ==
            var items := ContentItems(messages[i].role, messages[i].content);
            Only(true, items) + Flagged(Only(false, items))
  {
    hide Letters, Only, ContentItems, CallItems, Flagged, ReadsBack, ChatTools;
    var m := messages[i];
    assert forall j :: 0 <= j < |m.content| ==> AllowedFor(m.role, i, m.content[j]);
    if m.role == Tool {
      ToolsSay(reader, p, m.content);
      TextsSay(Tool, m.content);
      Unspoken(m.content);
      NoLetters(Tool);
    } else {
      TextsSay(m.role, m.content);
      assert ChatOf(p, m)[..0] == [];
      if m.role == Assistant {
        CallsSay(reader, p, m.role, m.content);
        if !(exists b <- m.content :: b.Text?) {
          Wordless(m.content);
          NoLetters(Assistant);
        }
      } else {
        OnlyLetters(m.role, m.content);
        NoneOnly(false);
      }
    }
  }

  lemma Unspoken(content: seq<Block>)
    requires forall i :: 0 <= i < |content| ==> content[i].Result?
    ensures TextOf(content) == ""
  {
    Wordless(content);
  }

  lemma {:induction false} Wordless(content: seq<Block>)
    requires !(exists b <- content :: b.Text?)
    ensures TextOf(content) == ""
    decreases |content|
  {
    if content != [] {
      Wordless(content[..|content| - 1]);
      assert content[|content| - 1] in content;
    }
  }

  lemma {:induction false} ChatSays(reader: Reader, p: Printer, messages: seq<Message>)
    requires AllReadBack(reader, p, messages) && Shaped(messages)
    requires forall i :: 0 <= i < |messages| ==> FiniteInputs(messages[i].content)
    ensures ChatItems(reader, ChatMessages(p, messages)) == TextFirst(messages)
    decreases |messages|
  {
    hide ReadsBack, ContentItems, ChatOf, Only, Flagged, Shaped, FiniteInputs;
    if messages != [] {
      var init, last := messages[..|messages| - 1], messages[|messages| - 1];
      ShapedInit(messages);
      ChatSays(reader, p, init);
      MessageSays(reader, p, messages, |messages| - 1);
      ChatItemsAppend(reader, ChatMessages(p, init), ChatOf(p, last));
    }
  }

  /**
   For an accepted request the OpenAI body says what the history says, but for
   what Chat Completions cannot express: the place of the text within a message
   and an error flag that was left out.
   */
  lemma OpenAIKeepsMeaning(reader: Reader, p: Printer, r: Request)
    requires AllReadBack(reader, p, r.messages) && AdapterAccepts(r)
    ensures ChatItems(reader, ChatMessages(p, r.messages)) == TextFirst(r.messages)
  {
    hide ChatMessages, ChatItems, TextFirst, AllReadBack;
    CheckedHistory(r.messages);
    ChatSays(reader, p, r.messages);
  }

  // ----- how it is cut -----

  /** No two texts stand next to each other. */
  predicate Merged(blocks: seq<WireBlock>) {
    forall i :: 0 < i < |blocks| ==> !(blocks[i - 1].WireText? && blocks[i].WireText?)
  }

  /** The Anthropic encoding of a message merges neighbouring texts. */
  lemma {:induction false} TextsAreMerged(content: seq<Block>)
    ensures Merged(ContentBlocks(content))
    decreases |content|
  {
    if content != [] {
      TextsAreMerged(content[..|content| - 1]);
    }
  }

  /** The OpenAI message of an assistant has null content exactly when the history's has no text block. */
  lemma NullContentExactlyWhen(p: Printer, m: Message)
    requires m.role == Assistant
    ensures var chat := ChatOf(p, m);
            && |chat| == 1 && chat[0].ChatAssistant?
            && (chat[0].said.None? <==> forall i :: 0 <= i < |m.content| ==> !m.content[i].Text?)
            && (chat[0].said.Some? ==> Letters(Assistant, chat[0].said.value) == Only(true, ContentItems(Assistant, m.content)))
  {
    hide Letters, Only, ContentItems, ChatCalls;
    TextsSay(Assistant, m.content);
    assert (exists b <- m.content :: b.Text?) <==> exists i :: 0 <= i < |m.content| && m.content[i].Text?;
  }
}
