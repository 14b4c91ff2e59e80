/**
 What the history checks mean, without their sets and loops: the shared check is
 a rule about positions in the list of all blocks, and the adapters' correlation
 check is a rule about the messages OpenAI is sent.
 */
module HistoryRules {
  import opened Base
  import opened Events
  import opened Requests
  import opened Encoders
  import WireMeaning

  // ----- the shared check -----

  function AllBlocks(messages: seq<Message>): seq<Block> {
    if messages == [] then [] else AllBlocks(messages[..|messages| - 1]) + messages[|messages| - 1].content
  }

  /** The block is a usable call with a new id, or refers to a call before it. */
  predicate Lawful(blocks: seq<Block>, i: nat)
    requires i < |blocks|
  {
    match blocks[i]
    case Text(_) => true
    case Call(id, name, input) =>
      id != "" && name != "" && IsJson(input) && forall j :: 0 <= j < i && blocks[j].Call? ==> blocks[j].id != id
    case Result(callId, _, _) => callId != "" && exists j :: 0 <= j < i && blocks[j].Call? && blocks[j].id == callId
  }

  predicate AllLawful(blocks: seq<Block>) {
    forall i :: 0 <= i < |blocks| ==> Lawful(blocks, i)
  }

  lemma {:induction false} CheckAppend(seen: set<string>, a: seq<Block>, b: seq<Block>)
    ensures CheckBlocks(seen, a + b) ==
            var before := CheckBlocks(seen, a); if before.None? then None else CheckBlocks(before.value, b)
    decreases |b|
  {
    hide CheckBlock;
    if b == [] {
      assert a + b == a;
    } else {
      assert (a + b)[..|a + b| - 1] == a + b[..|b| - 1];
      CheckAppend(seen, a, b[..|b| - 1]);
    }
  }

  lemma {:induction false} CheckIsFlat(messages: seq<Message>)
    ensures CheckMessages(messages) ==
            if forall i :: 0 <= i < |messages| ==> messages[i].content != [] then CheckBlocks({}, AllBlocks(messages)) else None
    decreases |messages|
  {
    hide CheckBlocks;
    if messages == [] {
      NothingChecked();
    } else {
      var init, last := messages[..|messages| - 1], messages[|messages| - 1];
      CheckIsFlat(init);
      CheckAppend({}, AllBlocks(init), last.content);
      assert (forall i :: 0 <= i < |messages| ==> messages[i].content != []) <==>
             last.content != [] && forall i :: 0 <= i < |init| ==> init[i].content != [];
    }
  }

  lemma NothingChecked()
    ensures CheckBlocks({}, []) == Some({})
  {}

  lemma {:induction false} BlocksLawful(blocks: seq<Block>)
    ensures CheckBlocks({}, blocks).Some? <==> AllLawful(blocks)
    ensures CheckBlocks({}, blocks).Some? ==> CheckBlocks({}, blocks).value == BlockIds(blocks)
    decreases |blocks|
  {
    hide IsJson;
    if blocks != [] {
      var n := |blocks| - 1;
      var init, last := blocks[..n], blocks[n];
      BlocksLawful(init);
      forall i | 0 <= i < n
        ensures Lawful(blocks, i) == Lawful(init, i)
      {
        assert forall j :: 0 <= j < i ==> blocks[j] == init[j];
      }
      assert AllLawful(blocks) <==> AllLawful(init) && Lawful(blocks, n);
      IdsBefore(blocks, n);
      if CheckBlocks({}, blocks).Some? {
        BlocksSeen({}, blocks);
      }
    }
  }

  lemma IdsBefore(blocks: seq<Block>, n: nat)
    requires n < |blocks|
    ensures forall id :: id in BlockIds(blocks[..n]) <==> exists j :: 0 <= j < n && blocks[j].Call? && blocks[j].id == id
  {
    forall id
      ensures id in BlockIds(blocks[..n]) <==> exists j :: 0 <= j < n && blocks[j].Call? && blocks[j].id == id
    {
      if id in BlockIds(blocks[..n]) {
        var b :| b in blocks[..n] && b.Call? && b.id == id;
        var j :| 0 <= j < n && blocks[..n][j] == b;
        assert blocks[j] == b;
      }
      if j :| 0 <= j < n && blocks[j].Call? && blocks[j].id == id {
        assert blocks[j] in blocks[..n];
      }
    }
  }

  /**
   A history passes the shared check exactly when no message is empty, every
   call is usable with an id no earlier call has, and every result refers to an
   earlier call.
   */
  lemma CheckedExactlyWhen(messages: seq<Message>)
    ensures CheckMessages(messages).Some? <==>
              (forall i :: 0 <= i < |messages| ==> messages[i].content != []) && AllLawful(AllBlocks(messages))
  {
    hide AllLawful;
    CheckIsFlat(messages);
    BlocksLawful(AllBlocks(messages));
  }

  // ----- the correlation check -----

  lemma ViolationStays(chat: seq<ChatMessage>, m: ChatMessage)
    ensures Owed(chat).None? ==> Owed(chat + [m]).None?
  {
    assert (chat + [m])[..|chat|] == chat;
  }

  lemma {:induction false} ViolationStaysAll(chat: seq<ChatMessage>, more: seq<ChatMessage>)
    requires Owed(chat).None?
    ensures Owed(chat + more).None?
    decreases |more|
  {
    hide Owed;
    if more == [] {
      assert chat + more == chat;
    } else {
      ViolationStaysAll(chat, more[..|more| - 1]);
      ViolationStays(chat + more[..|more| - 1], more[|more| - 1]);
      assert (chat + more[..|more| - 1]) + [more[|more| - 1]] == chat + more;
    }
  }

  lemma {:induction false} ToolsPayExactly(p: Printer, chat: seq<ChatMessage>, book: Book, content: seq<Block>)
    requires Owed(chat) == Some(multiset(book.pending))
    ensures Owed(chat + ChatTools(p, content)) ==
            var after := CorrelateBlocks(Tool, book, content);
            if after.Some? then Some(multiset(after.value.pending)) else None
    decreases |content|
  {
    if CorrelateBlocks(Tool, book, content).Some? {
      ToolsPay(p, chat, book, content);
    } else {
      var init, last := content[..|content| - 1], content[|content| - 1];
      ToolsPayExactly(p, chat, book, init);
      if last.Result? {
        var m := ChatTool(last.callId, p.envelope(last.content, last.isError == Some(true)));
        ViolationStays(chat + ChatTools(p, init), m);
        assert chat + ChatTools(p, content) == (chat + ChatTools(p, init)) + [m];
        assert (chat + ChatTools(p, content))[..|chat + ChatTools(p, init)|] == chat + ChatTools(p, init);
      } else {
        assert ChatTools(p, content) == ChatTools(p, init);
      }
    }
  }

  /** New calls are never refused by the book. */
  lemma {:induction false} NewCallsBooked(seen: set<string>, book: Book, content: seq<Block>)
    requires CheckBlocks(seen, content).Some? && book.pending + book.settled <= seen
    ensures CorrelateBlocks(Assistant, book, content).Some?
    decreases |content|
  {
    hide IsJson;
    if content != [] {
      var init := content[..|content| - 1];
      NewCallsBooked(seen, book, init);
      BookIds(Assistant, book, init);
      BlocksSeen(seen, init);
    }
  }

  lemma {:induction false} OwedExactly(p: Printer, messages: seq<Message>)
    requires Shaped(messages) && CheckMessages(messages).Some?
    ensures Owed(ChatMessages(p, messages)) ==
            var book := Correlate(messages);
            if book.Some? then Some(multiset(book.value.pending)) else None
    decreases |messages|
  {
    hide CorrelateBlocks, ChatCalls, TextOf, ChatTools, CheckBlocks, Owed;
    if Correlate(messages).Some? {
      OwedOf(p, messages);
    } else {
      var init, last := messages[..|messages| - 1], messages[|messages| - 1];
      WireMeaning.ShapedInit(messages);
      OwedExactly(p, init);
      var chat, book := ChatMessages(p, init), Correlate(init);
      if book.None? {
        ViolationStaysAll(chat, ChatOf(p, last));
      } else if last.role == Tool {
        ToolsPayExactly(p, chat, book.value, last.content);
      } else if last.role == Assistant || last.role == User {
        if book.value.pending == {} {
          if last.role == Assistant {
            MessagesSeen(init);
            BookOfHistory(init);
            NewCallsBooked(CheckMessages(init).value, book.value, last.content);
          } else {
            OthersLeaveBook(last.role, book.value, last.content);
          }
          assert false;
        }
        NoneLeft(book.value.pending);
        SpokenTooEarly(chat, ChatOf(p, last)[0]);
        assert ChatOf(p, last) == [ChatOf(p, last)[0]];
      } else {
        OthersLeaveBook(last.role, book.value, last.content);
        assert false;
      }
    }
  }

  lemma SpokenTooEarly(chat: seq<ChatMessage>, m: ChatMessage)
    requires Owed(chat).Some? && Owed(chat).value != multiset{} && !m.ChatTool?
    ensures Owed(chat + [m]).None?
  {
    assert (chat + [m])[..|chat|] == chat;
  }

  /**
   Among valid histories of the right shape the correlation check accepts exactly
   those whose Chat Completions form answers every call once, by a tool message,
   before anything else is said.
   */
  lemma CorrelatedExactlyWhen(p: Printer, messages: seq<Message>)
    requires Shaped(messages) && CheckMessages(messages).Some?
    ensures Correlated(messages) <==> Owed(ChatMessages(p, messages)) == Some(multiset{})
  {
    hide Owed, Correlate, ChatMessages;
    OwedExactly(p, messages);
    if Correlate(messages).Some? {
      NoneLeft(Correlate(messages).value.pending);
    }
  }

  // ----- repeated ids -----

  /** The ids an assistant calls with, in order. */
  function AskedIn(role: Role, content: seq<Block>): seq<string> {
    if content == [] then []
    else
      var last := content[|content| - 1];
      AskedIn(role, content[..|content| - 1]) + if role == Assistant && last.Call? then [last.id] else []
  }

  function AskedIds(messages: seq<Message>): seq<string> {
    if messages == [] then []
    else AskedIds(messages[..|messages| - 1]) + AskedIn(messages[|messages| - 1].role, messages[|messages| - 1].content)
  }

  /** The book holds every id asked with, once: pending or settled. */
  ghost predicate Booked(ids: seq<string>, book: Book) {
    && (forall i, j :: 0 <= i < j < |ids| ==> ids[i] != ids[j])
    && (forall id :: id in ids <==> id in book.pending + book.settled)
    && book.pending !! book.settled
  }

  lemma {:induction false} BlocksBooked(role: Role, ids: seq<string>, book: Book, content: seq<Block>)
    requires Booked(ids, book) && CorrelateBlocks(role, book, content).Some?
    ensures Booked(ids + AskedIn(role, content), CorrelateBlocks(role, book, content).value)
    decreases |content|
  {
    if content == [] {
      assert ids + [] == ids;
    } else {
      var init, last := content[..|content| - 1], content[|content| - 1];
      BlocksBooked(role, ids, book, init);
      var before := ids + AskedIn(role, init);
      if role == Assistant && last.Call? {
        assert ids + AskedIn(role, content) == before + [last.id];
        assert last.id !in before && forall i :: 0 <= i < |before| ==> before[i] in before;
      } else {
        assert ids + AskedIn(role, content) == before;
      }
    }
  }

  /** Whatever else a history holds: if its calls correlate, no id is asked with twice. */
  lemma {:induction false} CorrelatedAsksOnce(messages: seq<Message>)
    requires Correlate(messages).Some?
    ensures Booked(AskedIds(messages), Correlate(messages).value)
    decreases |messages|
  {
    hide CorrelateBlocks, AskedIn, Booked;
    if messages == [] {
      NothingBooked();
    } else {
      var init, last := messages[..|messages| - 1], messages[|messages| - 1];
      CorrelatedAsksOnce(init);
      BlocksBooked(last.role, AskedIds(init), Correlate(init).value, last.content);
    }
  }

  lemma NothingBooked()
    ensures Booked([], Book({}, {}))
  {}
}
