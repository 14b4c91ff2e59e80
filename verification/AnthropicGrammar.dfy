/**
 Which streams the Anthropic decoder accepts, message by message and told from the
 messages before it alone; and which of them it reports as completed.
 */
module AnthropicGrammar {
  import opened Base
  import opened Events
  import opened DecodeUtils
  import opened Sse
  import StreamRuntime
  import opened AnthropicStream
  import opened AnthropicReassembly

  predicate Begun(pre: seq<Message>) {
    exists i :: 0 <= i < |pre| && pre[i].MessageStart?
  }

  predicate Opened(pre: seq<Message>, id: string) {
    exists i :: 0 <= i < |pre| && pre[i].OpenTool? && pre[i].id == id
  }

  /** The last stop reason given. */
  function LastReason(pre: seq<Message>): Option<string> {
    if pre == [] then None
    else
      var last := pre[|pre| - 1];
      if last.MessageDelta? && last.stopReason.Some? then last.stopReason else LastReason(pre[..|pre| - 1])
  }

  function InputTokens(pre: seq<Message>): Option<nat> {
    if pre == [] then None
    else
      var last := pre[|pre| - 1];
      if last.MessageStart? && last.inputTokens.Some? then last.inputTokens else InputTokens(pre[..|pre| - 1])
  }

  /** The last output count given: counts are cumulative. */
  function OutputTokens(pre: seq<Message>): Option<nat> {
    if pre == [] then None
    else
      var last := pre[|pre| - 1];
      if (last.MessageStart? || last.MessageDelta?) && last.outputTokens.Some? then last.outputTokens else OutputTokens(pre[..|pre| - 1])
  }

  /** The block that is open at an index. */
  function OpenAt(pre: seq<Message>, index: nat): seq<Message> {
    OpenPart(Own(pre, index))
  }

  function FragmentBytes(p: Platform, block: seq<Message>): nat {
    if block == [] then 0
    else
      var last := block[|block| - 1];
      FragmentBytes(p, block[..|block| - 1]) + if last.JsonPiece? then p.utf8(last.partial) else 0
  }

  ghost predicate Fits(p: Platform, limit: nat, pre: seq<Message>, m: Message) {
    match m
    case Ping => true
    case Failure(_) => true
    case MessageStart(_, _) => !Begun(pre)
    case OpenText(index) => Begun(pre) && OpenAt(pre, index) == []
    case OpenTool(index, id, _, initial) =>
      Begun(pre) && OpenAt(pre, index) == [] && !Opened(pre, id) && p.utf8(p.stringify(initial)) <= limit
    case TextPiece(index, _) => Begun(pre) && OpenAt(pre, index) != [] && OpenAt(pre, index)[0].OpenText?
    case JsonPiece(index, partial) =>
      var block := OpenAt(pre, index);
      && Begun(pre) && block != [] && block[0].OpenTool?
      && (partial != "" ==> block[0].initial == Obj(map[]))
      && FragmentBytes(p, block) + p.utf8(partial) <= limit
    case CloseBlock(index) =>
      var block := OpenAt(pre, index);
      Begun(pre) && block != [] && (block[0].OpenTool? ==> ToolInput(p, Fragments(block), block[0].initial).Some?)
    case MessageDelta(_, _) => Begun(pre)
    case MessageStop =>
      && Begun(pre) && (forall index: nat :: OpenAt(pre, index) == [])
      && LastReason(pre) in {Some("end_turn"), Some("tool_use")}
  }

  /** Nothing that ends the decoding. */
  predicate Ongoing(pre: seq<Message>) {
    forall i :: 0 <= i < |pre| ==> !pre[i].MessageStop? && !pre[i].Failure?
  }

  // ----- the state, told from the messages -----

  /** What the state keeps apart from its blocks and calls. */
  ghost predicate Tallied(p: Platform, pre: seq<Message>, st: AnthropicState) {
    && (st.started <==> Begun(pre)) && !st.stopped && !st.terminal
    && st.stopReason == LastReason(pre)
    && st.inputTokens == InputTokens(pre) && st.outputTokens == OutputTokens(pre)
    && (forall id :: id in st.toolIds <==> Opened(pre, id))
    && (forall index: nat :: index in st.blocks && st.blocks[index].ToolBlock? ==> st.blocks[index].bytes == FragmentBytes(p, OpenAt(pre, index)))
  }

  lemma OneMore(pre: seq<Message>, m: Message)
    ensures Begun(pre + [m]) <==> Begun(pre) || m.MessageStart?
    ensures forall id :: Opened(pre + [m], id) <==> Opened(pre, id) || (m.OpenTool? && m.id == id)
    ensures LastReason(pre + [m]) == if m.MessageDelta? && m.stopReason.Some? then m.stopReason else LastReason(pre)
    ensures InputTokens(pre + [m]) == if m.MessageStart? && m.inputTokens.Some? then m.inputTokens else InputTokens(pre)
    ensures OutputTokens(pre + [m]) == if (m.MessageStart? || m.MessageDelta?) && m.outputTokens.Some? then m.outputTokens else OutputTokens(pre)
  {
    var all := pre + [m];
    assert all[..|pre|] == pre && all[|pre|] == m;
    assert forall i :: 0 <= i < |pre| ==> all[i] == pre[i];
  }

  lemma OneMoreAt(p: Platform, pre: seq<Message>, m: Message, index: nat)
    ensures OpenAt(pre + [m], index) ==
            if !At(m, index) then OpenAt(pre, index) else if m.CloseBlock? then [] else OpenAt(pre, index) + [m]
    ensures FragmentBytes(p, OpenAt(pre, index) + [m]) == FragmentBytes(p, OpenAt(pre, index)) + if m.JsonPiece? then p.utf8(m.partial) else 0
  {
    var own := Own(pre, index);
    assert (pre + [m])[..|pre|] == pre;
    assert own + [] == own;
    assert (own + [m])[..|own|] == own;
    var block := OpenAt(pre, index);
    assert (block + [m])[..|block|] == block;
  }

  /** One message, field by field. */
  lemma FieldStep(p: Platform, limit: nat, st: AnthropicState, m: Message)
    requires !m.MessageStop? && !m.Failure? && ApplyMessage(p, limit, st, m).Some?
    ensures var next := ApplyMessage(p, limit, st, m).value.0;
            && next.started == (st.started || m.MessageStart?) && next.stopped == st.stopped && next.terminal == st.terminal
            && next.stopReason == (if m.MessageDelta? && m.stopReason.Some? then m.stopReason else st.stopReason)
            && next.inputTokens == (if m.MessageStart? && m.inputTokens.Some? then m.inputTokens else st.inputTokens)
            && next.outputTokens == (if (m.MessageStart? || m.MessageDelta?) && m.outputTokens.Some? then m.outputTokens else st.outputTokens)
            && next.toolIds == st.toolIds + if m.OpenTool? then {m.id} else {}
  {
    hide ToolInput;
  }

  /** One message, and the byte count of a block it leaves open. */
  lemma BytesStep(p: Platform, limit: nat, st: AnthropicState, m: Message, index: nat)
    requires ApplyMessage(p, limit, st, m).Some?
    requires var next := ApplyMessage(p, limit, st, m).value.0; index in next.blocks && next.blocks[index].ToolBlock?
    ensures var next := ApplyMessage(p, limit, st, m).value.0;
            if At(m, index) && m.OpenTool? then index !in st.blocks && next.blocks[index].bytes == 0
            else
              && index in st.blocks && st.blocks[index].ToolBlock?
              && !(At(m, index) && m.CloseBlock?)
              && next.blocks[index].bytes == st.blocks[index].bytes + if At(m, index) && m.JsonPiece? then p.utf8(m.partial) else 0
  {
    hide ToolInput;
  }

  lemma TallyStep(p: Platform, limit: nat, pre: seq<Message>, st: AnthropicState, m: Message)
    requires Tallied(p, pre, st) && !m.MessageStop? && !m.Failure? && ApplyMessage(p, limit, st, m).Some?
    requires forall index: nat :: Linked(p, st, Own(pre, index), index)
    ensures Tallied(p, pre + [m], ApplyMessage(p, limit, st, m).value.0)
  {
    hide Begun, Opened, LastReason, InputTokens, OutputTokens, OpenAt, ApplyMessage, Linked, Own, FragmentBytes;
    var next := ApplyMessage(p, limit, st, m).value.0;
    OneMore(pre, m);
    FieldStep(p, limit, st, m);
    forall index: nat | index in next.blocks && next.blocks[index].ToolBlock?
      ensures next.blocks[index].bytes == FragmentBytes(p, OpenAt(pre + [m], index))
    {
      OneMoreAt(p, pre, m, index);
      BytesStep(p, limit, st, m, index);
      BlockOpen(p, st, pre, index);
    }
  }

  lemma BlockOpen(p: Platform, st: AnthropicState, pre: seq<Message>, index: nat)
    requires Linked(p, st, Own(pre, index), index)
    ensures index in st.blocks <==> OpenAt(pre, index) != []
    ensures index in st.blocks ==>
              match st.blocks[index]
              case TextBlock => OpenAt(pre, index)[0].OpenText?
              case ToolBlock(id, name, initial, json, _) =>
                OpenAt(pre, index)[0] == OpenTool(index, id, name, initial) && json == Fragments(OpenAt(pre, index))
    ensures OpenAt(pre, index) == [] ==> FragmentBytes(p, OpenAt(pre, index)) == 0
  {
    hide OwnCalls, CallsAt, ToolsOpened, OpenPart, Own;
  }

  lemma {:induction false} RunTallied(p: Platform, limit: nat, pre: seq<Message>)
    requires Ongoing(pre) && Run(p, limit, pre).Some?
    ensures Tallied(p, pre, Run(p, limit, pre).value.0)
    ensures forall index: nat :: Linked(p, Run(p, limit, pre).value.0, Own(pre, index), index)
    decreases |pre|
  {
    hide ApplyMessage, Tallied, Linked, Own;
    forall index: nat
      ensures Linked(p, Run(p, limit, pre).value.0, Own(pre, index), index)
    {
      RunLinked(p, limit, pre, index);
    }
    if pre == [] {
      NothingTallied(p);
    } else {
      var init, last := pre[..|pre| - 1], pre[|pre| - 1];
      RunTallied(p, limit, init);
      TallyStep(p, limit, init, Run(p, limit, init).value.0, last);
      assert init + [last] == pre;
    }
  }

  lemma NothingTallied(p: Platform)
    ensures Tallied(p, [], INITIAL)
  {}

  // ----- acceptance -----

  /** The next message is accepted exactly when it fits the messages before it. */
  lemma StepFits(p: Platform, limit: nat, pre: seq<Message>, m: Message)
    requires Ongoing(pre) && Run(p, limit, pre).Some?
    ensures ApplyMessage(p, limit, Run(p, limit, pre).value.0, m).Some? <==> Fits(p, limit, pre, m)
  {
    hide Run, Begun, Opened, LastReason, OpenAt, ToolInput, Linked, Own;
    RunTallied(p, limit, pre);
    var st := Run(p, limit, pre).value.0;
    forall index: nat
      ensures index in st.blocks <==> OpenAt(pre, index) != []
    {
      BlockOpen(p, st, pre, index);
    }
    if m.OpenText? || m.OpenTool? || m.TextPiece? || m.JsonPiece? || m.CloseBlock? {
      BlockOpen(p, st, pre, m.index);
    }
    assert st.blocks == map[] <==> forall index: nat :: index !in st.blocks;
  }

  lemma RunOneMore(p: Platform, limit: nat, pre: seq<Message>, m: Message)
    ensures Run(p, limit, pre + [m]).Some? <==>
            Run(p, limit, pre).Some? && ApplyMessage(p, limit, Run(p, limit, pre).value.0, m).Some?
    ensures Run(p, limit, pre + [m]).Some? ==>
            var (next, events) := ApplyMessage(p, limit, Run(p, limit, pre).value.0, m).value;
            Run(p, limit, pre + [m]).value == (next, Run(p, limit, pre).value.1 + events)
  {
    hide ApplyMessage;
    assert (pre + [m])[..|pre|] == pre;
  }

  /** A stream is accepted exactly when every message of it fits those before it. */
  lemma {:induction false} AcceptedExactlyWhen(p: Platform, limit: nat, msgs: seq<Message>)
    requires msgs != [] ==> Ongoing(msgs[..|msgs| - 1])
    ensures Run(p, limit, msgs).Some? <==> forall i :: 0 <= i < |msgs| ==> Fits(p, limit, msgs[..i], msgs[i])
    decreases |msgs|
  {
    hide Run, Fits, ApplyMessage;
    if msgs == [] {
      RunNothing(p, limit);
    } else {
      var init, last := msgs[..|msgs| - 1], msgs[|msgs| - 1];
      assert init != [] ==> init[..|init| - 1] == msgs[..|msgs| - 1][..|init| - 1] && Ongoing(init[..|init| - 1]);
      AcceptedExactlyWhen(p, limit, init);
      assert init + [last] == msgs;
      RunOneMore(p, limit, init, last);
      if Run(p, limit, init).Some? {
        StepFits(p, limit, init, last);
      }
      assert forall i :: 0 <= i < |init| ==> msgs[..i] == init[..i] && msgs[i] == init[i];
    }
  }

  lemma RunNothing(p: Platform, limit: nat)
    ensures Run(p, limit, []) == Some((INITIAL, []))
  {}

  // ----- completion -----

  /** Read in order, every frame fits what came before it, up to a `message_stop`. */
  ghost predicate Completes(p: Platform, limit: nat, pre: seq<Message>, frames: seq<SseEvent>)
    decreases |frames|
  {
    && frames != []
    && ReadFrame(p, frames[0].data).Some?
    && var m := ReadFrame(p, frames[0].data).value;
       && Fits(p, limit, pre, m)
       && (m.MessageStop? || (!m.Failure? && Completes(p, limit, pre + [m], frames[1..])))
  }

  lemma QuietStep(p: Platform, limit: nat, st: AnthropicState, m: Message)
    requires ApplyMessage(p, limit, st, m).Some? && !st.terminal
    ensures var (next, events) := ApplyMessage(p, limit, st, m).value;
            && (Completed in events <==> m.MessageStop?)
            && (next.terminal <==> m.MessageStop? || m.Failure?)
  {
    hide SortCalls, ToolInput;
  }

  lemma {:induction false} CompletesFrom(p: Platform, limit: nat, pre: seq<Message>, frames: seq<SseEvent>)
    requires Ongoing(pre) && Run(p, limit, pre).Some?
    ensures Completed in StreamRuntime.RunFrames(Decoder(p, limit), Run(p, limit, pre).value.0, frames).events <==> Completes(p, limit, pre, frames)
    decreases |frames|
  {
    hide Run, ApplyMessage, Fits, Tallied, Linked, ReadFrame;
    RunTallied(p, limit, pre);
    var st := Run(p, limit, pre).value.0;
    StillOpen(p, pre, st);
    if frames != [] && ReadFrame(p, frames[0].data).Some? {
      var m := ReadFrame(p, frames[0].data).value;
      StepFits(p, limit, pre, m);
      RunOneMore(p, limit, pre, m);
      if Fits(p, limit, pre, m) {
        QuietStep(p, limit, st, m);
        if !m.MessageStop? && !m.Failure? {
          CompletesFrom(p, limit, pre + [m], frames[1..]);
        }
      }
    }
  }

  lemma StillOpen(p: Platform, pre: seq<Message>, st: AnthropicState)
    requires Tallied(p, pre, st)
    ensures !st.terminal
  {}

  /**
   A stream is reported as completed exactly when all its messages fit up to a
   `message_stop`, which wants a message begun, all blocks closed, and as the last
   stop reason given "end_turn" or "tool_use".
   */
  lemma CompletedExactlyWhen(p: Platform, limit: nat, frames: seq<SseEvent>)
    ensures Completed in StreamRuntime.RunFrames(Decoder(p, limit), INITIAL, frames).events <==> Completes(p, limit, [], frames)
  {
    RunNothing(p, limit);
    CompletesFrom(p, limit, [], frames);
  }

  /** What a stop emits behind the calls: the usage, if both counts were given, from the last of each. */
  lemma StopCounts(p: Platform, limit: nat, pre: seq<Message>)
    requires Ongoing(pre) && Run(p, limit, pre + [MessageStop]).Some?
    ensures Run(p, limit, pre).Some?
    ensures Run(p, limit, pre + [MessageStop]).value.1 ==
            Run(p, limit, pre).value.1 + (CallEvents(EmittedCalls(p, limit, pre)) +
            (if InputTokens(pre).Some? && OutputTokens(pre).Some? then [Usage(InputTokens(pre).value, OutputTokens(pre).value)] else []) + [Completed])
  {
    hide Run, SortCalls, CallEvents, InputTokens, OutputTokens, LastReason, Opened, Begun, OpenAt;
    RunStop(p, limit, pre);
    RunTallied(p, limit, pre);
  }
}
