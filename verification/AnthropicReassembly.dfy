/**
 Reassembling tool calls from interleaved fragments.

 The messages of one block index, taken out of the stream, say everything about
 the calls of that index: how the blocks are interleaved, and how their
 arguments are cut, does not matter.
 */
module AnthropicReassembly {
  import opened Base
  import opened Events
  import opened DecodeUtils
  import opened AnthropicStream

  /** A run from the initial state; None when the stream fails. */
  function Run(p: Platform, limit: nat, msgs: seq<Message>): Stepped {
    if msgs == [] then Some((INITIAL, []))
    else
      var before := Run(p, limit, msgs[..|msgs| - 1]);
      if before.None? then None
      else
        var step := ApplyMessage(p, limit, before.value.0, msgs[|msgs| - 1]);
        if step.None? then None else Some((step.value.0, before.value.1 + step.value.1))
  }

  // ----- one index, seen alone -----

  predicate At(m: Message, index: nat) {
    match m
    case OpenText(i) => i == index
    case OpenTool(i, _, _, _) => i == index
    case TextPiece(i, _) => i == index
    case JsonPiece(i, _) => i == index
    case CloseBlock(i) => i == index
    case _ => false
  }

  /** The messages of one index, in order of arrival. */
  function Own(msgs: seq<Message>, index: nat): seq<Message> {
    if msgs == [] then []
    else
      var last := msgs[|msgs| - 1];
      Own(msgs[..|msgs| - 1], index) + if At(last, index) then [last] else []
  }

  /** The block that is still open at the end. */
  function OpenPart(own: seq<Message>): seq<Message> {
    if own == [] then []
    else
      var last := own[|own| - 1];
      if last.CloseBlock? then [] else OpenPart(own[..|own| - 1]) + [last]
  }

  /** The argument fragments of a block, glued together. */
  function Fragments(block: seq<Message>): string {
    if block == [] then ""
    else
      var last := block[|block| - 1];
      Fragments(block[..|block| - 1]) + if last.JsonPiece? then last.partial else ""
  }

  /** The call a closed block stands for; a text block stands for none. */
  function BlockCall(p: Platform, block: seq<Message>): seq<PendingCall> {
    if block == [] || !block[0].OpenTool? then []
    else
      var tool := block[0];
      var input := ToolInput(p, Fragments(block), tool.initial);
      if input.None? then [] else [PendingCall(tool.index, tool.id, tool.name, input.value)]
  }

  /** The calls of one index, from its own messages alone. */
  function OwnCalls(p: Platform, own: seq<Message>): seq<PendingCall> {
    if own == [] then []
    else
      var init, last := own[..|own| - 1], own[|own| - 1];
      OwnCalls(p, init) + if last.CloseBlock? then BlockCall(p, OpenPart(init)) else []
  }

  function ToolsOpened(own: seq<Message>): nat {
    if own == [] then 0
    else ToolsOpened(own[..|own| - 1]) + if own[|own| - 1].OpenTool? then 1 else 0
  }

  function CallsAt(calls: seq<PendingCall>, index: nat): seq<PendingCall> {
    if calls == [] then []
    else (if calls[0].index == index then [calls[0]] else []) + CallsAt(calls[1..], index)
  }

  lemma {:induction false} CallsAtAppend(a: seq<PendingCall>, b: seq<PendingCall>, index: nat)
    ensures CallsAt(a + b, index) == CallsAt(a, index) + CallsAt(b, index)
  {
    if a == [] {
      assert a + b == b;
    } else {
      assert (a + b)[1..] == a[1..] + b;
      CallsAtAppend(a[1..], b, index);
      var first := if a[0].index == index then [a[0]] else [];
      assert (first + CallsAt(a[1..], index)) + CallsAt(b, index) == first + (CallsAt(a[1..], index) + CallsAt(b, index));
    }
  }

  // ----- the state after some messages, one index at a time -----

  /** The open block and the finished calls of an index are those of its own messages. */
  ghost predicate Linked(p: Platform, st: AnthropicState, own: seq<Message>, index: nat) {
    var open := OpenPart(own);
    && CallsAt(st.pending, index) == OwnCalls(p, own)
    && (index in st.blocks <==> open != [])
    && (index in st.blocks ==>
          match st.blocks[index]
          case TextBlock => open[0].OpenText?
          case ToolBlock(id, name, initial, json, bytes) =>
            open[0] == OpenTool(index, id, name, initial) && json == Fragments(open))
    && |OwnCalls(p, own)| + (if index in st.blocks && st.blocks[index].ToolBlock? then 1 else 0) == ToolsOpened(own)
  }

  /** A message of another index, or of none, leaves the link alone. */
  lemma OtherMessage(p: Platform, limit: nat, st: AnthropicState, m: Message, own: seq<Message>, index: nat)
    requires Linked(p, st, own, index) && !At(m, index) && ApplyMessage(p, limit, st, m).Some?
    ensures Linked(p, ApplyMessage(p, limit, st, m).value.0, own, index)
  {
    hide OpenPart, OwnCalls, ToolsOpened, Fragments, ToolInput, CallsAt;
    var next := ApplyMessage(p, limit, st, m).value.0;
    if next.pending != st.pending {
      var call := next.pending[|st.pending|];
      CallsAtAppend(st.pending, [call], index);
      OneCallAt(call, index);
    }
  }

  /** A message of this index moves its link on. */
  lemma OwnMessage(p: Platform, limit: nat, st: AnthropicState, m: Message, own: seq<Message>, index: nat)
    requires Linked(p, st, own, index) && At(m, index) && ApplyMessage(p, limit, st, m).Some?
    ensures Linked(p, ApplyMessage(p, limit, st, m).value.0, own + [m], index)
  {
    hide OpenPart, OwnCalls, ToolsOpened, Fragments, ToolInput, CallsAt;
    var next := ApplyMessage(p, limit, st, m).value.0;
    OneMoreOwn(p, own, m);
    NothingOpened();
    if next.pending != st.pending {
      var call := next.pending[|st.pending|];
      CallsAtAppend(st.pending, [call], index);
      OneCallAt(call, index);
    }
  }

  lemma OneMoreOwn(p: Platform, own: seq<Message>, m: Message)
    ensures OpenPart(own + [m]) == if m.CloseBlock? then [] else OpenPart(own) + [m]
    ensures OwnCalls(p, own + [m]) == OwnCalls(p, own) + if m.CloseBlock? then BlockCall(p, OpenPart(own)) else []
    ensures ToolsOpened(own + [m]) == ToolsOpened(own) + if m.OpenTool? then 1 else 0
    ensures Fragments(OpenPart(own) + [m]) == Fragments(OpenPart(own)) + if m.JsonPiece? then m.partial else ""
  {
    hide BlockCall;
    assert (own + [m])[..|own|] == own;
    assert (OpenPart(own) + [m])[..|OpenPart(own)|] == OpenPart(own);
  }

  lemma NothingOpened()
    ensures Fragments([]) == ""
  {}

  lemma OneCallAt(call: PendingCall, index: nat)
    ensures CallsAt([call], index) == if call.index == index then [call] else []
  {
    assert [call][1..] == [];
  }

  /** Any run keeps every index linked to its own messages. */
  lemma {:induction false} RunLinked(p: Platform, limit: nat, msgs: seq<Message>, index: nat)
    requires Run(p, limit, msgs).Some?
    ensures Linked(p, Run(p, limit, msgs).value.0, Own(msgs, index), index)
    decreases |msgs|
  {
    hide Linked;
    if msgs == [] {
      LinkedAtStart(p, index);
    } else {
      var init, last := msgs[..|msgs| - 1], msgs[|msgs| - 1];
      RunLinked(p, limit, init, index);
      var st := Run(p, limit, init).value.0;
      if At(last, index) {
        OwnMessage(p, limit, st, last, Own(init, index), index);
      } else {
        OtherMessage(p, limit, st, last, Own(init, index), index);
        assert Own(init, index) + [] == Own(init, index);
      }
    }
  }

  lemma LinkedAtStart(p: Platform, index: nat)
    ensures Linked(p, INITIAL, [], index)
  {}

  // ----- distinct ids -----

  predicate DistinctIds(calls: seq<PendingCall>) {
    forall i, j :: 0 <= i < j < |calls| ==> calls[i].id != calls[j].id
  }

  /** An id belongs to one finished call or to one open block, and is remembered. */
  ghost predicate IdsOnce(st: AnthropicState) {
    && DistinctIds(st.pending)
    && (forall i :: 0 <= i < |st.pending| ==> st.pending[i].id in st.toolIds)
    && (forall k :: k in st.blocks && st.blocks[k].ToolBlock? ==> st.blocks[k].id in st.toolIds)
    && (forall k, i :: k in st.blocks && st.blocks[k].ToolBlock? && 0 <= i < |st.pending| ==> st.blocks[k].id != st.pending[i].id)
    && (forall k, l :: k in st.blocks && l in st.blocks && k != l && st.blocks[k].ToolBlock? && st.blocks[l].ToolBlock? ==>
          st.blocks[k].id != st.blocks[l].id)
  }

  lemma IdsStep(p: Platform, limit: nat, st: AnthropicState, m: Message)
    requires IdsOnce(st) && ApplyMessage(p, limit, st, m).Some?
    ensures IdsOnce(ApplyMessage(p, limit, st, m).value.0)
  {
    hide ToolInput;
  }

  lemma {:induction false} RunIds(p: Platform, limit: nat, msgs: seq<Message>)
    requires Run(p, limit, msgs).Some?
    ensures IdsOnce(Run(p, limit, msgs).value.0)
    decreases |msgs|
  {
    hide ApplyMessage;
    if msgs != [] {
      RunIds(p, limit, msgs[..|msgs| - 1]);
      IdsStep(p, limit, Run(p, limit, msgs[..|msgs| - 1]).value.0, msgs[|msgs| - 1]);
    }
  }

  // ----- the sort -----

  predicate SortedByIndex(calls: seq<PendingCall>) {
    forall i, j :: 0 <= i < j < |calls| ==> calls[i].index <= calls[j].index
  }

  lemma {:induction false} InsertKeeps(calls: seq<PendingCall>, call: PendingCall)
    ensures multiset(InsertCall(calls, call)) == multiset(calls) + multiset{call}
    decreases |calls|
  {
    if calls != [] && call.index < calls[|calls| - 1].index {
      InsertKeeps(calls[..|calls| - 1], call);
      assert calls == calls[..|calls| - 1] + [calls[|calls| - 1]];
    }
  }

  lemma AppendSorted(calls: seq<PendingCall>, last: PendingCall)
    requires SortedByIndex(calls) && forall i :: 0 <= i < |calls| ==> calls[i].index <= last.index
    ensures SortedByIndex(calls + [last])
  {}

  lemma {:induction false} InsertSorted(calls: seq<PendingCall>, call: PendingCall)
    requires SortedByIndex(calls)
    ensures SortedByIndex(InsertCall(calls, call))
    decreases |calls|
  {
    if calls != [] && call.index < calls[|calls| - 1].index {
      var init, last := calls[..|calls| - 1], calls[|calls| - 1];
      InsertSorted(init, call);
      InsertKeeps(init, call);
      var mid := InsertCall(init, call);
      forall i | 0 <= i < |mid|
        ensures mid[i].index <= last.index
      {
        assert mid[i] in multiset(mid);
        assert mid[i] in init || mid[i] == call;
      }
      AppendSorted(mid, last);
    } else {
      AppendSorted(calls, call);
    }
  }

  /** The sort orders by index and keeps every call. */
  lemma {:induction false} SortSorted(calls: seq<PendingCall>)
    ensures SortedByIndex(SortCalls(calls))
    ensures multiset(SortCalls(calls)) == multiset(calls)
    decreases |calls|
  {
    if calls != [] {
      SortSorted(calls[..|calls| - 1]);
      InsertSorted(SortCalls(calls[..|calls| - 1]), calls[|calls| - 1]);
      InsertKeeps(SortCalls(calls[..|calls| - 1]), calls[|calls| - 1]);
      assert calls == calls[..|calls| - 1] + [calls[|calls| - 1]];
    }
  }

  lemma {:induction false} InsertStable(calls: seq<PendingCall>, call: PendingCall, index: nat)
    ensures CallsAt(InsertCall(calls, call), index) == CallsAt(calls + [call], index)
    decreases |calls|
  {
    if calls != [] && call.index < calls[|calls| - 1].index {
      var init, last := calls[..|calls| - 1], calls[|calls| - 1];
      InsertStable(init, call, index);
      CallsAtAppend(InsertCall(init, call), [last], index);
      CallsAtAppend(init, [call], index);
      CallsAtAppend(init, [last], index);
      assert calls == init + [last];
      CallsAtAppend(calls, [call], index);
    }
  }

  /** The sort is stable: the calls of one index stay in order. */
  lemma {:induction false} SortStable(calls: seq<PendingCall>, index: nat)
    ensures CallsAt(SortCalls(calls), index) == CallsAt(calls, index)
    decreases |calls|
  {
    if calls != [] {
      var init, last := calls[..|calls| - 1], calls[|calls| - 1];
      SortStable(init, index);
      InsertStable(SortCalls(init), last, index);
      CallsAtAppend(SortCalls(init), [last], index);
      CallsAtAppend(init, [last], index);
      assert calls == init + [last];
    }
  }

  lemma {:induction false} CallsAtFirst(calls: seq<PendingCall>, index: nat, i: nat)
    requires i < |calls| && calls[i].index == index
    ensures CallsAt(calls, index) != []
    decreases i
  {
    if i > 0 {
      CallsAtFirst(calls[1..], index, i - 1);
    }
  }

  lemma {:induction false} CallsAtHas(calls: seq<PendingCall>, index: nat)
    requires CallsAt(calls, index) != []
    ensures exists i :: 0 <= i < |calls| && calls[i].index == index
    decreases |calls|
  {
    if calls[0].index != index {
      CallsAtHas(calls[1..], index);
      var i :| 0 <= i < |calls[1..]| && calls[1..][i].index == index;
      assert calls[i + 1].index == index;
    }
  }

  /** Two sorted lists with the same calls at every index are the same list. */
  lemma {:induction false} SortedUnique(a: seq<PendingCall>, b: seq<PendingCall>)
    requires SortedByIndex(a) && SortedByIndex(b)
    requires forall index: nat :: CallsAt(a, index) == CallsAt(b, index)
    ensures a == b
    decreases |a|
  {
    if a == [] || b == [] {
      if b != [] {
        CallsAtFirst(b, b[0].index, 0);
      }
      if a != [] {
        CallsAtFirst(a, a[0].index, 0);
      }
    } else {
      CallsAtFirst(a, a[0].index, 0);
      CallsAtHas(b, a[0].index);
      CallsAtFirst(b, b[0].index, 0);
      CallsAtHas(a, b[0].index);
      assert a[0].index == b[0].index;
      assert CallsAt(a, a[0].index)[0] == CallsAt(b, a[0].index)[0];
      forall index: nat
        ensures CallsAt(a[1..], index) == CallsAt(b[1..], index)
      {
        assert CallsAt(a, index) == CallsAt(b, index);
        var head := if a[0].index == index then [a[0]] else [];
        assert CallsAt(a[1..], index) == CallsAt(a, index)[|head|..];
        assert CallsAt(b[1..], index) == CallsAt(b, index)[|head|..];
      }
      SortedUnique(a[1..], b[1..]);
      assert a == [a[0]] + a[1..] && b == [b[0]] + b[1..];
    }
  }

  // ----- what message_stop emits -----

  /** The tool calls emitted when the stream stops after `msgs`. */
  function EmittedCalls(p: Platform, limit: nat, msgs: seq<Message>): seq<PendingCall>
    requires Run(p, limit, msgs).Some?
  {
    SortCalls(Run(p, limit, msgs).value.0.pending)
  }

  lemma DistinctByMultiset(a: seq<PendingCall>, b: seq<PendingCall>)
    requires DistinctIds(a) && multiset(a) == multiset(b)
    ensures DistinctIds(b)
  {
    forall i, j | 0 <= i < j < |b|
      ensures b[i].id != b[j].id
    {
      assert b[i] in multiset(b) && b[j] in multiset(b);
      var k :| 0 <= k < |a| && a[k] == b[i];
      var l :| 0 <= l < |a| && a[l] == b[j];
      if k == l {
        TwiceInMultiset(b, i, j);
        OnceInMultiset(a, k);
        assert false;
      }
    }
  }

  lemma TwiceInMultiset<T>(s: seq<T>, i: nat, j: nat)
    requires i < j < |s| && s[i] == s[j]
    ensures multiset(s)[s[i]] >= 2
  {
    assert s == s[..i] + [s[i]] + s[i + 1..j] + [s[j]] + s[j + 1..];
  }

  lemma OnceInMultiset(a: seq<PendingCall>, k: nat)
    requires k < |a| && DistinctIds(a)
    ensures multiset(a)[a[k]] == 1
  {
    assert a == a[..k] + [a[k]] + a[k + 1..];
    assert a[k] !in a[..k] && a[k] !in a[k + 1..];
  }

  lemma RunStop(p: Platform, limit: nat, msgs: seq<Message>)
    requires Run(p, limit, msgs + [MessageStop]).Some?
    ensures Run(p, limit, msgs).Some? && Run(p, limit, msgs).value.0.blocks == map[]
    ensures Run(p, limit, msgs + [MessageStop]).value.1 ==
            Run(p, limit, msgs).value.1 +
            (CallEvents(EmittedCalls(p, limit, msgs)) + UsageEvents(Run(p, limit, msgs).value.0) + [Completed])
  {
    hide CallEvents;
    hide SortCalls;
    hide UsageEvents;
    var all := msgs + [MessageStop];
    assert all[..|all| - 1] == msgs;
  }

  /**
   At message_stop every tool_use block that was opened is answered by one call,
   and every call comes from one block: index by index, the calls are those of
   the index's own messages, each input glued from the block's own fragments.
   */
  lemma StopReassembles(p: Platform, limit: nat, msgs: seq<Message>)
    requires Run(p, limit, msgs + [MessageStop]).Some?
    ensures Run(p, limit, msgs).Some?
    ensures var calls := EmittedCalls(p, limit, msgs);
            && Run(p, limit, msgs + [MessageStop]).value.1 ==
               Run(p, limit, msgs).value.1 + (CallEvents(calls) + UsageEvents(Run(p, limit, msgs).value.0) + [Completed])
            && SortedByIndex(calls)
            && DistinctIds(calls)
            && (forall index: nat :: CallsAt(calls, index) == OwnCalls(p, Own(msgs, index)))
            && (forall index: nat :: |CallsAt(calls, index)| == ToolsOpened(Own(msgs, index)))
  {
    hide CallEvents;
    hide SortCalls;
    hide Run;
    hide CallsAt;
    hide Own;
    hide OwnCalls;
    RunStop(p, limit, msgs);
    var st := Run(p, limit, msgs).value.0;
    SortSorted(st.pending);
    RunIds(p, limit, msgs);
    DistinctByMultiset(st.pending, SortCalls(st.pending));
    forall index: nat
      ensures CallsAt(EmittedCalls(p, limit, msgs), index) == OwnCalls(p, Own(msgs, index))
      ensures |CallsAt(EmittedCalls(p, limit, msgs), index)| == ToolsOpened(Own(msgs, index))
    {
      SortStable(st.pending, index);
      RunLinked(p, limit, msgs, index);
      assert index !in st.blocks;
    }
  }

  /** Two interleavings of the same blocks emit the same calls in the same order. */
  lemma InterleavingInvariance(p: Platform, limit: nat, a: seq<Message>, b: seq<Message>)
    requires Run(p, limit, a + [MessageStop]).Some? && Run(p, limit, b + [MessageStop]).Some?
    requires forall index: nat :: Own(a, index) == Own(b, index)
    ensures Run(p, limit, a).Some? && Run(p, limit, b).Some?
    ensures EmittedCalls(p, limit, a) == EmittedCalls(p, limit, b)
  {
    StopReassembles(p, limit, a);
    StopReassembles(p, limit, b);
    SortedUnique(EmittedCalls(p, limit, a), EmittedCalls(p, limit, b));
  }

  // ----- cuts -----

  /** The messages of one index with neighbouring argument fragments glued. */
  function Glued(own: seq<Message>): seq<Message> {
    if own == [] then [] else Glue(Glued(own[..|own| - 1]), own[|own| - 1])
  }

  function Glue(glued: seq<Message>, m: Message): seq<Message> {
    if !m.JsonPiece? then glued + [m]
    else if glued != [] && glued[|glued| - 1].JsonPiece? then
      glued[..|glued| - 1] + [JsonPiece(m.index, glued[|glued| - 1].partial + m.partial)]
    else glued + [m]
  }

  /** A block and its glued form: the same fragments in all, the same first message unless it is a fragment. */
  predicate SameBlock(a: seq<Message>, b: seq<Message>) {
    && Fragments(a) == Fragments(b)
    && (a != [] && !a[0].JsonPiece? ==> b != [] && b[0] == a[0])
    && (b != [] && !b[0].JsonPiece? ==> a != [] && b[0] == a[0])
    && (a == [] <==> b == [])
  }

  lemma GlueFragments(block: seq<Message>, m: Message)
    ensures Fragments(Glue(block, m)) == Fragments(block) + if m.JsonPiece? then m.partial else ""
  {
    assert (block + [m])[..|block|] == block;
    if m.JsonPiece? && block != [] && block[|block| - 1].JsonPiece? {
      var init, last := block[..|block| - 1], JsonPiece(m.index, block[|block| - 1].partial + m.partial);
      assert (init + [last])[..|init|] == init;
      assert Fragments(init) + (block[|block| - 1].partial + m.partial) == (Fragments(init) + block[|block| - 1].partial) + m.partial;
    }
  }

  lemma SameGlue(a: seq<Message>, b: seq<Message>, m: Message)
    requires SameBlock(a, b)
    ensures SameBlock(a + [m], Glue(b, m))
  {
    hide Fragments;
    GlueFragments(b, m);
    GlueFragments(a, m);
    OneFragment(a, m);
    assert a != [] ==> (a + [m])[0] == a[0];
    assert b != [] ==> (b + [m])[0] == b[0];
    var glued := Glue(b, m);
    if b != [] {
      assert glued != [] && (b[0].JsonPiece? <==> glued[0].JsonPiece?) && (!b[0].JsonPiece? ==> glued[0] == b[0]);
    }
  }

  lemma OneFragment(block: seq<Message>, m: Message)
    ensures Fragments(block + [m]) == Fragments(block) + if m.JsonPiece? then m.partial else ""
  {
    assert (block + [m])[..|block|] == block;
  }

  /** Gluing touches the open block only. */
  lemma GlueOpen(p: Platform, glued: seq<Message>, m: Message)
    requires !m.CloseBlock?
    ensures OpenPart(Glue(glued, m)) == Glue(OpenPart(glued), m)
    ensures OwnCalls(p, Glue(glued, m)) == OwnCalls(p, glued)
  {
    hide ToolInput;
    assert (glued + [m])[..|glued|] == glued;
    if m.JsonPiece? && glued != [] && glued[|glued| - 1].JsonPiece? {
      var init, last := glued[..|glued| - 1], glued[|glued| - 1];
      var more := init + [JsonPiece(m.index, last.partial + m.partial)];
      assert more[..|more| - 1] == init;
      assert OpenPart(glued)[..|OpenPart(glued)| - 1] == OpenPart(init);
    } else if glued != [] {
      assert OpenPart(glued) != [] ==> OpenPart(glued)[|OpenPart(glued)| - 1] == glued[|glued| - 1];
    }
  }

  lemma {:induction false} GluedSays(p: Platform, own: seq<Message>)
    ensures OwnCalls(p, Glued(own)) == OwnCalls(p, own)
    ensures SameBlock(OpenPart(own), OpenPart(Glued(own)))
    decreases |own|
  {
    hide Fragments, BlockCall;
    if own == [] {
      NothingOpened();
    } else {
      var init, m := own[..|own| - 1], own[|own| - 1];
      GluedSays(p, init);
      assert own == init + [m];
      OneMoreOwn(p, init, m);
      if m.CloseBlock? {
        OneMoreOwn(p, Glued(init), m);
        SameCall(p, OpenPart(init), OpenPart(Glued(init)));
        NothingOpened();
      } else {
        GlueOpen(p, Glued(init), m);
        SameGlue(OpenPart(init), OpenPart(Glued(init)), m);
      }
    }
  }

  lemma SameCall(p: Platform, a: seq<Message>, b: seq<Message>)
    requires SameBlock(a, b)
    ensures BlockCall(p, a) == BlockCall(p, b)
  {
    hide Fragments, ToolInput;
  }

  /**
   How the arguments are cut into fragments does not matter: two streams that stop,
   and whose messages agree at every index once fragments are glued, emit the
   same calls.
   */
  lemma CutInvariance(p: Platform, limit: nat, a: seq<Message>, b: seq<Message>)
    requires Run(p, limit, a + [MessageStop]).Some? && Run(p, limit, b + [MessageStop]).Some?
    requires forall index: nat :: Glued(Own(a, index)) == Glued(Own(b, index))
    ensures Run(p, limit, a).Some? && Run(p, limit, b).Some?
    ensures EmittedCalls(p, limit, a) == EmittedCalls(p, limit, b)
  {
    hide Run, Own, Glued, OwnCalls, CallsAt;
    StopReassembles(p, limit, a);
    StopReassembles(p, limit, b);
    forall index: nat
      ensures CallsAt(EmittedCalls(p, limit, a), index) == CallsAt(EmittedCalls(p, limit, b), index)
    {
      GluedSays(p, Own(a, index));
      GluedSays(p, Own(b, index));
    }
    SortedUnique(EmittedCalls(p, limit, a), EmittedCalls(p, limit, b));
  }

  // ----- text -----

  /** The non-empty text pieces, as events. */
  function Texts(msgs: seq<Message>): seq<ModelEvent> {
    if msgs == [] then []
    else
      var last := msgs[|msgs| - 1];
      Texts(msgs[..|msgs| - 1]) + if last.TextPiece? && last.text != "" then [TextDelta(last.text)] else []
  }

  /** Until the stream stops or fails it emits its text, piece by piece, and nothing else. */
  lemma {:induction false} RunEmitsTexts(p: Platform, limit: nat, msgs: seq<Message>)
    requires Run(p, limit, msgs).Some?
    requires forall i :: 0 <= i < |msgs| ==> !msgs[i].MessageStop? && !msgs[i].Failure?
    ensures Run(p, limit, msgs).value.1 == Texts(msgs)
    decreases |msgs|
  {
    if msgs != [] {
      RunEmitsTexts(p, limit, msgs[..|msgs| - 1]);
    }
  }
}
