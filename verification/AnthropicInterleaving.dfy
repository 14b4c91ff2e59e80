/**
 Which interleavings of blocks the decoder accepts: those whose blocks it accepts
 one index at a time, if no id is used at two indices. So one interleaving is
 accepted when any other is.
 */
module AnthropicInterleaving {
  import opened Base
  import opened Events
  import opened DecodeUtils
  import opened AnthropicStream
  import opened AnthropicReassembly

  /** A message that belongs to one block. */
  predicate Indexed(m: Message) {
    m.OpenText? || m.OpenTool? || m.TextPiece? || m.JsonPiece? || m.CloseBlock?
  }

  predicate AllIndexed(msgs: seq<Message>) {
    forall i :: 0 <= i < |msgs| ==> Indexed(msgs[i])
  }

  function Ids(msgs: seq<Message>): set<string> {
    if msgs == [] then {}
    else Ids(msgs[..|msgs| - 1]) + if msgs[|msgs| - 1].OpenTool? then {msgs[|msgs| - 1].id} else {}
  }

  /** A run from a given state. */
  function RunFrom(p: Platform, limit: nat, st: AnthropicState, msgs: seq<Message>): Stepped {
    if msgs == [] then Some((st, []))
    else
      var before := RunFrom(p, limit, st, msgs[..|msgs| - 1]);
      if before.None? then None
      else
        var step := ApplyMessage(p, limit, before.value.0, msgs[|msgs| - 1]);
        if step.None? then None else Some((step.value.0, before.value.1 + step.value.1))
  }

  /** Between two messages of the blocks: everything but blocks, ids and finished calls is as it was. */
  predicate Within(st: AnthropicState, now: AnthropicState) {
    now == st.(blocks := now.blocks, toolIds := now.toolIds, pending := now.pending)
  }

  predicate Fresh(st: AnthropicState) {
    Streaming(st) && st.blocks == map[] && st.toolIds == {} && st.pending == []
  }

  // ----- one step -----

  /** Two states that agree on one index and on one id treat its next message alike. */
  lemma StepIsLocal(p: Platform, limit: nat, a: AnthropicState, b: AnthropicState, m: Message)
    requires Indexed(m) && Streaming(a) && Streaming(b)
    requires m.index in a.blocks <==> m.index in b.blocks
    requires m.index in a.blocks ==> a.blocks[m.index] == b.blocks[m.index]
    requires m.OpenTool? ==> (m.id in a.toolIds <==> m.id in b.toolIds)
    ensures ApplyMessage(p, limit, a, m).Some? <==> ApplyMessage(p, limit, b, m).Some?
    ensures ApplyMessage(p, limit, a, m).Some? ==>
              var na, nb := ApplyMessage(p, limit, a, m).value.0, ApplyMessage(p, limit, b, m).value.0;
              && (m.index in na.blocks <==> m.index in nb.blocks)
              && (m.index in na.blocks ==> na.blocks[m.index] == nb.blocks[m.index])
  {
    hide ToolInput;
  }

  lemma StepElsewhere(p: Platform, limit: nat, st: AnthropicState, m: Message, k: nat)
    requires Indexed(m) && ApplyMessage(p, limit, st, m).Some?
    ensures var next := ApplyMessage(p, limit, st, m).value.0;
            && Within(st, next)
            && next.toolIds == st.toolIds + (if m.OpenTool? then {m.id} else {})
            && (m.OpenTool? ==> m.id !in st.toolIds)
            && (k != m.index ==> (k in next.blocks <==> k in st.blocks) && (k in st.blocks ==> next.blocks[k] == st.blocks[k]))
  {
    hide ToolInput;
  }

  lemma {:induction false} RunKeeps(p: Platform, limit: nat, st: AnthropicState, msgs: seq<Message>)
    requires Fresh(st) && AllIndexed(msgs) && RunFrom(p, limit, st, msgs).Some?
    ensures Within(st, RunFrom(p, limit, st, msgs).value.0) && RunFrom(p, limit, st, msgs).value.0.toolIds == Ids(msgs)
    decreases |msgs|
  {
    hide ApplyMessage;
    if msgs != [] {
      var init, last := msgs[..|msgs| - 1], msgs[|msgs| - 1];
      RunKeeps(p, limit, st, init);
      StepElsewhere(p, limit, RunFrom(p, limit, st, init).value.0, last, 0);
    }
  }

  // ----- indices apart -----

  lemma {:induction false} OwnIndexed(msgs: seq<Message>, k: nat)
    requires AllIndexed(msgs)
    ensures AllIndexed(Own(msgs, k))
    decreases |msgs|
  {
    if msgs != [] {
      OwnIndexed(msgs[..|msgs| - 1], k);
    }
  }

  lemma OwnSnoc(msgs: seq<Message>, m: Message, k: nat)
    requires Indexed(m)
    ensures Own(msgs + [m], k) == if m.index == k then Own(msgs, k) + [m] else Own(msgs, k)
  {
    assert (msgs + [m])[..|msgs|] == msgs;
    assert Own(msgs, k) + [] == Own(msgs, k);
  }

  lemma IdsSnoc(msgs: seq<Message>, m: Message)
    ensures Ids(msgs + [m]) == Ids(msgs) + if m.OpenTool? then {m.id} else {}
  {
    assert (msgs + [m])[..|msgs|] == msgs;
  }

  lemma RunSnoc(p: Platform, limit: nat, st: AnthropicState, msgs: seq<Message>, m: Message)
    ensures RunFrom(p, limit, st, msgs + [m]) ==
            var before := RunFrom(p, limit, st, msgs);
            if before.None? then None
            else
              var step := ApplyMessage(p, limit, before.value.0, m);
              if step.None? then None else Some((step.value.0, before.value.1 + step.value.1))
  {
    hide ApplyMessage;
    assert (msgs + [m])[..|msgs|] == msgs;
  }

  lemma OwnIdsSnoc(init: seq<Message>, m: Message, k: nat)
    requires Indexed(m)
    ensures Ids(Own(init + [m], k)) == Ids(Own(init, k)) + if m.index == k && m.OpenTool? then {m.id} else {}
  {
    hide Own, Ids;
    OwnSnoc(init, m, k);
    IdsSnoc(Own(init, k), m);
  }

  lemma {:induction false} OwnIdsIn(msgs: seq<Message>, k: nat, id: string)
    requires AllIndexed(msgs) && id in Ids(Own(msgs, k))
    ensures id in Ids(msgs)
    decreases |msgs|
  {
    if msgs != [] {
      var init, last := msgs[..|msgs| - 1], msgs[|msgs| - 1];
      assert msgs == init + [last];
      OwnIdsSnoc(init, last, k);
      if id in Ids(Own(init, k)) {
        OwnIdsIn(init, k, id);
      }
    }
  }

  lemma {:induction false} IdHasIndex(msgs: seq<Message>, id: string) returns (k: nat)
    requires AllIndexed(msgs) && id in Ids(msgs)
    ensures id in Ids(Own(msgs, k))
    decreases |msgs|
  {
    var init, last := msgs[..|msgs| - 1], msgs[|msgs| - 1];
    assert msgs == init + [last];
    if id in Ids(init) {
      k := IdHasIndex(init, id);
    } else {
      k := last.index;
    }
    OwnIdsSnoc(init, last, k);
  }

  /** The ids of all messages are those of the indices together. */
  lemma IdsByIndex(msgs: seq<Message>, id: string)
    requires AllIndexed(msgs)
    ensures id in Ids(msgs) <==> exists k: nat :: id in Ids(Own(msgs, k))
  {
    hide Own, Ids;
    if id in Ids(msgs) {
      var k := IdHasIndex(msgs, id);
    }
    forall k: nat | id in Ids(Own(msgs, k))
      ensures id in Ids(msgs)
    {
      OwnIdsIn(msgs, k, id);
    }
  }

  /** No id is used at two indices. */
  ghost predicate IdsApart(msgs: seq<Message>) {
    forall k: nat, l: nat, id :: id in Ids(Own(msgs, k)) && id in Ids(Own(msgs, l)) ==> k == l
  }

  ghost predicate EachAccepted(p: Platform, limit: nat, st: AnthropicState, msgs: seq<Message>) {
    forall k: nat :: RunFrom(p, limit, st, Own(msgs, k)).Some?
  }

  /** The blocks after all messages are those of the indices alone. */
  ghost predicate SameBlocks(p: Platform, limit: nat, st: AnthropicState, msgs: seq<Message>)
    requires RunFrom(p, limit, st, msgs).Some? && EachAccepted(p, limit, st, msgs)
  {
    forall k: nat ::
      var all, own := RunFrom(p, limit, st, msgs).value.0.blocks, RunFrom(p, limit, st, Own(msgs, k)).value.0.blocks;
      (k in all <==> k in own) && (k in all ==> all[k] == own[k])
  }

  /** One more message, given the messages before it one index at a time. */
  lemma OneMore(p: Platform, limit: nat, st: AnthropicState, init: seq<Message>, m: Message)
    requires Fresh(st) && AllIndexed(init) && Indexed(m)
    requires RunFrom(p, limit, st, init).Some? && EachAccepted(p, limit, st, init) && IdsApart(init) && SameBlocks(p, limit, st, init)
    ensures RunFrom(p, limit, st, init + [m]).Some? <==>
              RunFrom(p, limit, st, Own(init, m.index) + [m]).Some?
              && (m.OpenTool? ==> forall k: nat :: k != m.index ==> m.id !in Ids(Own(init, k)))
  {
    hide ApplyMessage, Own, RunFrom, Ids;
    var i := m.index;
    var all, own := RunFrom(p, limit, st, init).value.0, RunFrom(p, limit, st, Own(init, i)).value.0;
    OwnIndexed(init, i);
    RunKeeps(p, limit, st, init);
    RunKeeps(p, limit, st, Own(init, i));
    RunSnoc(p, limit, st, init, m);
    RunSnoc(p, limit, st, Own(init, i), m);
    if m.OpenTool? {
      IdsByIndex(init, m.id);
      if m.id in Ids(Own(init, i)) {
        OwnIdsIn(init, i, m.id);
        OpenRefused(p, limit, all, m);
        OpenRefused(p, limit, own, m);
      } else if m.id in Ids(init) {
        OpenRefused(p, limit, all, m);
      } else {
        StepIsLocal(p, limit, all, own, m);
      }
    } else {
      StepIsLocal(p, limit, all, own, m);
    }
  }

  lemma OpenRefused(p: Platform, limit: nat, st: AnthropicState, m: Message)
    requires m.OpenTool? && m.id in st.toolIds
    ensures ApplyMessage(p, limit, st, m).None?
  {}

  lemma KeepsBlocks(p: Platform, limit: nat, st: AnthropicState, init: seq<Message>, m: Message)
    requires Fresh(st) && AllIndexed(init) && Indexed(m)
    requires RunFrom(p, limit, st, init).Some? && EachAccepted(p, limit, st, init) && SameBlocks(p, limit, st, init)
    requires RunFrom(p, limit, st, init + [m]).Some? && EachAccepted(p, limit, st, init + [m])
    ensures SameBlocks(p, limit, st, init + [m])
  {
    hide ApplyMessage, Own, RunFrom, Ids;
    var all := RunFrom(p, limit, st, init).value.0;
    RunSnoc(p, limit, st, init, m);
    RunKeeps(p, limit, st, init);
    forall k: nat
      ensures var after, own := RunFrom(p, limit, st, init + [m]).value.0.blocks, RunFrom(p, limit, st, Own(init + [m], k)).value.0.blocks;
              (k in after <==> k in own) && (k in after ==> after[k] == own[k])
    {
      OwnSnoc(init, m, k);
      OwnIndexed(init, k);
      if k == m.index {
        RunSnoc(p, limit, st, Own(init, k), m);
        RunKeeps(p, limit, st, Own(init, k));
        var own := RunFrom(p, limit, st, Own(init, k)).value.0;
        StepElsewhere(p, limit, all, m, k);
        StepElsewhere(p, limit, own, m, k);
        StepIsLocal(p, limit, all, own, m);
      } else {
        StepElsewhere(p, limit, all, m, k);
      }
    }
  }

  /** Accepted together exactly when accepted one index at a time, with no id at two indices. */
  lemma {:induction false} AcceptedByIndex(p: Platform, limit: nat, st: AnthropicState, msgs: seq<Message>)
    requires Fresh(st) && AllIndexed(msgs)
    ensures RunFrom(p, limit, st, msgs).Some? <==> EachAccepted(p, limit, st, msgs) && IdsApart(msgs)
    ensures RunFrom(p, limit, st, msgs).Some? ==> SameBlocks(p, limit, st, msgs)
    decreases |msgs|
  {
    hide ApplyMessage, Own, RunFrom, Ids, SameBlocks;
    if msgs == [] {
      NothingRun(p, limit, st);
    } else {
      var init, m := msgs[..|msgs| - 1], msgs[|msgs| - 1];
      assert msgs == init + [m];
      AcceptedByIndex(p, limit, st, init);
      forall k: nat
        ensures Own(msgs, k) == if m.index == k then Own(init, k) + [m] else Own(init, k)
        ensures Ids(Own(msgs, k)) == Ids(Own(init, k)) + if m.index == k && m.OpenTool? then {m.id} else {}
        ensures RunFrom(p, limit, st, Own(msgs, k)).Some? ==> RunFrom(p, limit, st, Own(init, k)).Some?
      {
        OwnSnoc(init, m, k);
        IdsSnoc(Own(init, k), m);
        RunSnoc(p, limit, st, Own(init, k), m);
      }
      RunSnoc(p, limit, st, init, m);
      if RunFrom(p, limit, st, init).Some? {
        OneMore(p, limit, st, init, m);
        if RunFrom(p, limit, st, msgs).Some? {
          assert EachAccepted(p, limit, st, msgs);
          KeepsBlocks(p, limit, st, init, m);
          StaysApart(init, m);
        } else if m.OpenTool? {
          assert m.id in Ids(Own(msgs, m.index));
          assert forall k: nat :: m.id in Ids(Own(init, k)) ==> m.id in Ids(Own(msgs, k));
        }
      } else {
        FewerApart(init, m);
      }
    }
  }

  lemma NothingRun(p: Platform, limit: nat, st: AnthropicState)
    requires Fresh(st)
    ensures RunFrom(p, limit, st, []) == Some((st, []))
    ensures EachAccepted(p, limit, st, []) && IdsApart([]) && SameBlocks(p, limit, st, [])
  {
    forall k: nat
      ensures Own([], k) == []
    {
    }
    assert Ids([]) == {};
  }

  lemma StaysApart(init: seq<Message>, m: Message)
    requires Indexed(m) && IdsApart(init) && (m.OpenTool? ==> forall k: nat :: k != m.index ==> m.id !in Ids(Own(init, k)))
    ensures IdsApart(init + [m])
  {
    hide Own, Ids;
    forall k: nat
      ensures Ids(Own(init + [m], k)) == Ids(Own(init, k)) + if m.index == k && m.OpenTool? then {m.id} else {}
    {
      OwnSnoc(init, m, k);
      IdsSnoc(Own(init, k), m);
    }
  }

  lemma FewerApart(init: seq<Message>, m: Message)
    requires Indexed(m)
    ensures IdsApart(init + [m]) ==> IdsApart(init)
  {
    hide Own, Ids;
    forall k: nat
      ensures Ids(Own(init, k)) <= Ids(Own(init + [m], k))
    {
      OwnIdsSnoc(init, m, k);
    }
  }

  // ----- two interleavings -----

  lemma {:induction false} RunFromAppend(p: Platform, limit: nat, st: AnthropicState, a: seq<Message>, b: seq<Message>)
    ensures RunFrom(p, limit, st, a + b) ==
            var first := RunFrom(p, limit, st, a);
            if first.None? then None
            else
              var rest := RunFrom(p, limit, first.value.0, b);
              if rest.None? then None else Some((rest.value.0, first.value.1 + rest.value.1))
    decreases |b|
  {
    hide ApplyMessage;
    var first := RunFrom(p, limit, st, a);
    if b == [] {
      assert a + b == a;
      assert first.Some? ==> first.value.1 + [] == first.value.1;
    } else {
      var init, last := b[..|b| - 1], b[|b| - 1];
      assert (a + b)[..|a + b| - 1] == a + init;
      RunFromAppend(p, limit, st, a, init);
      if first.Some? && RunFrom(p, limit, first.value.0, init).Some? {
        var mid := RunFrom(p, limit, first.value.0, init).value;
        var step := ApplyMessage(p, limit, mid.0, last);
        assert step.Some? ==> (first.value.1 + mid.1) + step.value.1 == first.value.1 + (mid.1 + step.value.1);
      }
    }
  }

  lemma {:induction false} RunIsRunFrom(p: Platform, limit: nat, msgs: seq<Message>)
    ensures Run(p, limit, msgs) == RunFrom(p, limit, INITIAL, msgs)
    decreases |msgs|
  {
    hide ApplyMessage;
    if msgs != [] {
      RunIsRunFrom(p, limit, msgs[..|msgs| - 1]);
    }
  }

  lemma {:induction false} OwnBehindStart(start: Message, msgs: seq<Message>, k: nat)
    requires start.MessageStart?
    ensures Own([start] + msgs, k) == Own(msgs, k)
    decreases |msgs|
  {
    if msgs == [] {
      assert [start] + msgs == [start] && [start][..0] == [];
    } else {
      assert ([start] + msgs)[..|msgs|] == [start] + msgs[..|msgs| - 1];
      OwnBehindStart(start, msgs[..|msgs| - 1], k);
    }
  }

  function Started(start: Message): AnthropicState
    requires start.MessageStart?
  {
    INITIAL.(started := true, inputTokens := Keep(start.inputTokens, None), outputTokens := Keep(start.outputTokens, None))
  }

  lemma RunStarted(p: Platform, limit: nat, start: Message, msgs: seq<Message>)
    requires start.MessageStart?
    ensures Fresh(Started(start))
    ensures Run(p, limit, [start] + msgs) == RunFrom(p, limit, Started(start), msgs)
  {
    RunIsRunFrom(p, limit, [start] + msgs);
    RunFromAppend(p, limit, INITIAL, [start], msgs);
    RunSnoc(p, limit, INITIAL, [], start);
    assert [] + [start] == [start];
    assert RunFrom(p, limit, INITIAL, [start]) == Some((Started(start), []));
    var rest := RunFrom(p, limit, Started(start), msgs);
    assert rest.Some? ==> [] + rest.value.1 == rest.value.1;
  }

  /** The same messages at every index. */
  ghost predicate SameOwn(a: seq<Message>, b: seq<Message>) {
    AllIndexed(a) && AllIndexed(b) && forall k: nat :: Own(a, k) == Own(b, k)
  }

  lemma SameIds(a: seq<Message>, b: seq<Message>)
    requires SameOwn(a, b)
    ensures Ids(a) <= Ids(b)
  {
    hide Own, Ids;
    forall id | id in Ids(a)
      ensures id in Ids(b)
    {
      var k := IdHasIndex(a, id);
      assert Own(a, k) == Own(b, k);
      OwnIdsIn(b, k, id);
    }
  }

  /** Either interleaving is accepted when the other is. */
  lemma AcceptedTogether(p: Platform, limit: nat, st: AnthropicState, a: seq<Message>, b: seq<Message>)
    requires Fresh(st) && SameOwn(a, b) && RunFrom(p, limit, st, a).Some?
    ensures RunFrom(p, limit, st, b).Some?
    ensures RunFrom(p, limit, st, a).value.0.blocks == RunFrom(p, limit, st, b).value.0.blocks
    ensures RunFrom(p, limit, st, a).value.0.toolIds == RunFrom(p, limit, st, b).value.0.toolIds
  {
    hide RunFrom, Own, Ids;
    AcceptedByIndex(p, limit, st, a);
    AcceptedByIndex(p, limit, st, b);
    RunKeeps(p, limit, st, a);
    RunKeeps(p, limit, st, b);
    SameIds(a, b);
    SameIds(b, a);
    var all, other := RunFrom(p, limit, st, a).value.0.blocks, RunFrom(p, limit, st, b).value.0.blocks;
    forall k: nat
      ensures k in all <==> k in other
      ensures k in all ==> all[k] == other[k]
    {
      assert Own(a, k) == Own(b, k);
    }
  }

  /**
   Behind a message_start: two interleavings of the same messages are accepted
   together, and lead to the same state, but for the order in which finished calls
   wait to be sorted; the text comes out in the order of arrival.
   */
  lemma InterleavingsMeet(p: Platform, limit: nat, start: Message, a: seq<Message>, b: seq<Message>)
    requires start.MessageStart? && SameOwn(a, b)
    ensures Run(p, limit, [start] + a).Some? <==> Run(p, limit, [start] + b).Some?
    ensures Run(p, limit, [start] + a).Some? ==>
              var (s, first), (t, second) := Run(p, limit, [start] + a).value, Run(p, limit, [start] + b).value;
              && s == t.(pending := s.pending) && SortCalls(s.pending) == SortCalls(t.pending)
              && first == Texts(a) && second == Texts(b)
  {
    hide Run, Own, Texts, ApplyMessage, OwnCalls, CallsAt, SortCalls;
    RunStarted(p, limit, start, a);
    RunStarted(p, limit, start, b);
    var st := Started(start);
    if RunFrom(p, limit, st, a).Some? || RunFrom(p, limit, st, b).Some? {
      if RunFrom(p, limit, st, a).Some? {
        AcceptedTogether(p, limit, st, a, b);
      } else {
        AcceptedTogether(p, limit, st, b, a);
      }
      RunKeeps(p, limit, st, a);
      RunKeeps(p, limit, st, b);
      SamePending(p, limit, start, a, b);
      TextsBehindStart(p, limit, start, a);
      TextsBehindStart(p, limit, start, b);
    }
  }

  lemma SamePending(p: Platform, limit: nat, start: Message, a: seq<Message>, b: seq<Message>)
    requires start.MessageStart? && SameOwn(a, b)
    requires Run(p, limit, [start] + a).Some? && Run(p, limit, [start] + b).Some?
    ensures SortCalls(Run(p, limit, [start] + a).value.0.pending) == SortCalls(Run(p, limit, [start] + b).value.0.pending)
  {
    hide Run, Own, OwnCalls, CallsAt, SortCalls;
    var s, t := Run(p, limit, [start] + a).value.0, Run(p, limit, [start] + b).value.0;
    forall k: nat
      ensures CallsAt(SortCalls(s.pending), k) == CallsAt(SortCalls(t.pending), k)
    {
      OwnBehindStart(start, a, k);
      OwnBehindStart(start, b, k);
      RunLinked(p, limit, [start] + a, k);
      RunLinked(p, limit, [start] + b, k);
      SortStable(s.pending, k);
      SortStable(t.pending, k);
    }
    SortSorted(s.pending);
    SortSorted(t.pending);
    SortedUnique(SortCalls(s.pending), SortCalls(t.pending));
  }

  lemma {:induction false} TextsOfRest(start: Message, msgs: seq<Message>)
    requires start.MessageStart?
    ensures Texts([start] + msgs) == Texts(msgs)
    decreases |msgs|
  {
    if msgs == [] {
      assert [start] + msgs == [start] && [start][..0] == [];
    } else {
      assert ([start] + msgs)[..|msgs|] == [start] + msgs[..|msgs| - 1];
      TextsOfRest(start, msgs[..|msgs| - 1]);
    }
  }

  lemma TextsBehindStart(p: Platform, limit: nat, start: Message, msgs: seq<Message>)
    requires start.MessageStart? && AllIndexed(msgs) && Run(p, limit, [start] + msgs).Some?
    ensures Run(p, limit, [start] + msgs).value.1 == Texts(msgs)
  {
    hide Run, Texts;
    RunEmitsTexts(p, limit, [start] + msgs);
    TextsOfRest(start, msgs);
  }

  lemma {:induction false} MessageInOwn(msgs: seq<Message>, m: Message)
    requires m in msgs && Indexed(m)
    ensures m in Own(msgs, m.index)
    decreases |msgs|
  {
    if m != msgs[|msgs| - 1] {
      assert msgs == msgs[..|msgs| - 1] + [msgs[|msgs| - 1]];
      MessageInOwn(msgs[..|msgs| - 1], m);
    }
  }

  lemma {:induction false} OwnInMessages(msgs: seq<Message>, k: nat, m: Message)
    requires m in Own(msgs, k)
    ensures m in msgs
    decreases |msgs|
  {
    if m in Own(msgs[..|msgs| - 1], k) {
      OwnInMessages(msgs[..|msgs| - 1], k, m);
    }
  }

  /** Interleavings have the same messages. */
  lemma SameMessages(a: seq<Message>, b: seq<Message>, m: Message)
    requires SameOwn(a, b) && m in a
    ensures m in b
  {
    hide Own;
    MessageInOwn(a, m);
    OwnInMessages(b, m.index, m);
  }
}
