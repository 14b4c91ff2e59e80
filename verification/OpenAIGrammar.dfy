/**
 Which streams the OpenAI decoder accepts, chunk by chunk and told from the chunks
 before it alone; and which of them it reports as completed.
 */
module OpenAIGrammar {
  import opened Base
  import opened Events
  import opened DecodeUtils
  import opened Sse
  import StreamRuntime
  import opened OpenAIStream
  import opened OpenAIBatch

  // ----- fragments -----

  function ArgBytes(p: Platform, own: seq<ToolDelta>): nat {
    if own == [] then 0
    else
      var last := own[|own| - 1];
      ArgBytes(p, own[..|own| - 1]) + if last.args.Some? then p.utf8(last.args.value) else 0
  }

  /** Whatever ids and names the fragments of a call give, they are the same. */
  predicate OneId(own: seq<ToolDelta>) {
    forall i, j :: 0 <= i < |own| && 0 <= j < |own| && own[i].id.Some? && own[j].id.Some? ==> own[i].id == own[j].id
  }

  predicate OneName(own: seq<ToolDelta>) {
    forall i, j :: 0 <= i < |own| && 0 <= j < |own| && own[i].name.Some? && own[j].name.Some? ==> own[i].name == own[j].name
  }

  /** The fragments of one call: one id, one name, and arguments within the limit. */
  predicate Consistent(p: Platform, limit: nat, own: seq<ToolDelta>) {
    OneId(own) && OneName(own) && ArgBytes(p, own) <= limit
  }

  ghost predicate AllConsistent(p: Platform, limit: nat, deltas: seq<ToolDelta>) {
    forall index: nat :: Consistent(p, limit, DeltasAt(deltas, index))
  }

  /** The fragments of all calls make a batch: ids that differ, names, and readable arguments. */
  ghost predicate Callable(p: Platform, deltas: seq<ToolDelta>) {
    && (forall index: nat :: DeltasAt(deltas, index) != [] ==>
          var own := DeltasAt(deltas, index);
          OwnId(own).Some? && OwnName(own).Some? && ToolInput(p, OwnArgs(own), Obj(map[])).Some?)
    && (forall k: nat, l: nat :: k != l && DeltasAt(deltas, k) != [] && DeltasAt(deltas, l) != [] ==>
          OwnId(DeltasAt(deltas, k)) != OwnId(DeltasAt(deltas, l)))
  }

  lemma {:induction false} IdIsFirst(own: seq<ToolDelta>)
    ensures OwnId(own).None? <==> forall i :: 0 <= i < |own| ==> own[i].id.None?
    ensures OwnId(own).Some? ==> exists i :: 0 <= i < |own| && own[i].id == OwnId(own)
    decreases |own|
  {
    if own != [] {
      var init := own[..|own| - 1];
      IdIsFirst(init);
      assert forall i :: 0 <= i < |init| ==> init[i] == own[i];
    }
  }

  lemma {:induction false} NameIsFirst(own: seq<ToolDelta>)
    ensures OwnName(own).None? <==> forall i :: 0 <= i < |own| ==> own[i].name.None?
    ensures OwnName(own).Some? ==> exists i :: 0 <= i < |own| && own[i].name == OwnName(own)
    decreases |own|
  {
    if own != [] {
      var init := own[..|own| - 1];
      NameIsFirst(init);
      assert forall i :: 0 <= i < |init| ==> init[i] == own[i];
    }
  }

  lemma OneIdMore(own: seq<ToolDelta>, delta: ToolDelta)
    ensures OneId(own + [delta]) <==> OneId(own) && (delta.id.Some? ==> OwnId(own) in {None, delta.id})
  {
    hide OwnId;
    var all := own + [delta];
    IdIsFirst(own);
    assert forall i :: 0 <= i < |own| ==> all[i] == own[i];
    assert all[|own|] == delta;
  }

  lemma OneNameMore(own: seq<ToolDelta>, delta: ToolDelta)
    ensures OneName(own + [delta]) <==> OneName(own) && (delta.name.Some? ==> OwnName(own) in {None, delta.name})
  {
    hide OwnName;
    var all := own + [delta];
    NameIsFirst(own);
    assert forall i :: 0 <= i < |own| ==> all[i] == own[i];
    assert all[|own|] == delta;
  }

  lemma BytesMore(p: Platform, own: seq<ToolDelta>, delta: ToolDelta)
    ensures ArgBytes(p, own + [delta]) == ArgBytes(p, own) + if delta.args.Some? then p.utf8(delta.args.value) else 0
  {
    assert (own + [delta])[..|own|] == own;
  }

  /** One more fragment of a call. */
  lemma ConsistentMore(p: Platform, limit: nat, own: seq<ToolDelta>, delta: ToolDelta)
    ensures Consistent(p, limit, own + [delta]) <==>
            && Consistent(p, limit, own)
            && (delta.id.Some? ==> OwnId(own) in {None, delta.id})
            && (delta.name.Some? ==> OwnName(own) in {None, delta.name})
            && ArgBytes(p, own) + (if delta.args.Some? then p.utf8(delta.args.value) else 0) <= limit
  {
    hide OneId, OneName, OwnId, OwnName, ArgBytes;
    OneIdMore(own, delta);
    OneNameMore(own, delta);
    BytesMore(p, own, delta);
  }

  lemma OwnMore(own: seq<ToolDelta>, delta: ToolDelta)
    ensures OwnId(own + [delta]) == if OwnId(own).Some? then OwnId(own) else delta.id
    ensures OwnName(own + [delta]) == if OwnName(own).Some? then OwnName(own) else delta.name
  {
    assert (own + [delta])[..|own|] == own;
  }

  /** The entry of an index and its own fragments. */
  ghost predicate Kept(p: Platform, table: Table, own: seq<ToolDelta>, index: nat) {
    && (index in table.entries <==> own != [])
    && (index in table.entries ==>
          table.entries[index].id == OwnId(own) && table.entries[index].name == OwnName(own) && table.entries[index].bytes == ArgBytes(p, own))
  }

  lemma NextKept(p: Platform, limit: nat, table: Table, own: seq<ToolDelta>, delta: ToolDelta)
    requires Kept(p, table, own, delta.index) && Consistent(p, limit, own)
    ensures ApplyDelta(p, limit, table, delta).Some? <==> Consistent(p, limit, own + [delta])
    ensures ApplyDelta(p, limit, table, delta).Some? ==> Kept(p, ApplyDelta(p, limit, table, delta).value, own + [delta], delta.index)
  {
    hide Consistent, OwnId, OwnName, ArgBytes;
    WithinLimit(p, limit, own);
    ConsistentMore(p, limit, own, delta);
    BytesMore(p, own, delta);
    OwnMore(own, delta);
    if own == [] {
      NothingOwn(p);
    }
  }

  lemma NothingOwn(p: Platform)
    ensures OwnId([]) == None && OwnName([]) == None && ArgBytes(p, []) == 0
  {}

  lemma WithinLimit(p: Platform, limit: nat, own: seq<ToolDelta>)
    ensures Consistent(p, limit, own) ==> ArgBytes(p, own) <= limit
  {}

  /** The fragments of a single index are accepted exactly when they are consistent. */
  lemma {:induction false} OwnAccepted(p: Platform, limit: nat, own: seq<ToolDelta>, index: nat)
    requires forall i :: 0 <= i < |own| ==> own[i].index == index
    ensures ApplyDeltas(p, limit, EMPTY, own).Some? <==> Consistent(p, limit, own)
    ensures ApplyDeltas(p, limit, EMPTY, own).Some? ==> Kept(p, ApplyDeltas(p, limit, EMPTY, own).value, own, index)
    decreases |own|
  {
    hide ApplyDelta, Consistent, Kept;
    if own == [] {
      NothingKept(p, limit, index);
    } else {
      var init, last := own[..|own| - 1], own[|own| - 1];
      OwnAccepted(p, limit, init, index);
      assert init + [last] == own;
      ConsistentMore(p, limit, init, last);
      if Consistent(p, limit, init) {
        NextKept(p, limit, ApplyDeltas(p, limit, EMPTY, init).value, init, last);
      }
    }
  }

  lemma NothingKept(p: Platform, limit: nat, index: nat)
    ensures Consistent(p, limit, []) && Kept(p, EMPTY, [], index)
  {}

  lemma {:induction false} OneIndex(deltas: seq<ToolDelta>, index: nat)
    ensures forall i :: 0 <= i < |DeltasAt(deltas, index)| ==> DeltasAt(deltas, index)[i].index == index
    decreases |deltas|
  {
    if deltas != [] {
      OneIndex(deltas[..|deltas| - 1], index);
    }
  }

  /** Fragments are accepted exactly when those of every index are consistent. */
  lemma FragmentsAccepted(p: Platform, limit: nat, deltas: seq<ToolDelta>)
    ensures ApplyDeltas(p, limit, EMPTY, deltas).Some? <==> AllConsistent(p, limit, deltas)
  {
    hide ApplyDeltas, DeltasAt, Consistent;
    AcceptedByIndex(p, limit, deltas);
    forall index: nat
      ensures ApplyDeltas(p, limit, EMPTY, DeltasAt(deltas, index)).Some? <==> Consistent(p, limit, DeltasAt(deltas, index))
    {
      OneIndex(deltas, index);
      OwnAccepted(p, limit, DeltasAt(deltas, index), index);
    }
  }

  // ----- batches -----

  /** Every entry can be called, and no two have the same id. */
  predicate Ready(p: Platform, entries: map<nat, Entry>, indices: seq<nat>) {
    && (forall i :: 0 <= i < |indices| ==>
          && indices[i] in entries
          && entries[indices[i]].id.Some? && entries[indices[i]].name.Some?
          && ToolInput(p, entries[indices[i]].args, Obj(map[])).Some?)
    && (forall i, j :: 0 <= i < j < |indices| ==> entries[indices[i]].id != entries[indices[j]].id)
  }

  /** A batch is made exactly when all its entries are ready. */
  lemma {:induction false} BatchExactlyWhen(p: Platform, entries: map<nat, Entry>, indices: seq<nat>)
    ensures Batch(p, entries, indices).Some? <==> Ready(p, entries, indices)
    decreases |indices|
  {
    hide ToolInput;
    if indices != [] {
      var init, last := indices[..|indices| - 1], indices[|indices| - 1];
      BatchExactlyWhen(p, entries, init);
      assert forall i :: 0 <= i < |init| ==> init[i] == indices[i];
      if Batch(p, entries, init).Some? {
        BatchEntries(p, entries, init);
        var before := Batch(p, entries, init).value;
        if last in entries && entries[last].id.Some? {
          assert entries[last].id.value in Ids(before) <==> exists i :: 0 <= i < |init| && entries[init[i]].id == entries[last].id by {
            if entries[last].id.value in Ids(before) {
              var e :| e in before && e.ToolCall? && e.id == entries[last].id.value;
              var i :| 0 <= i < |before| && before[i] == e;
              assert entries[init[i]].id == entries[last].id;
            }
            if i :| 0 <= i < |init| && entries[init[i]].id == entries[last].id {
              assert before[i] in before;
            }
          }
        }
      }
    }
  }

  /** The batch of accepted fragments is made exactly when they are callable. */
  lemma CallableExactlyWhen(p: Platform, limit: nat, deltas: seq<ToolDelta>)
    requires ApplyDeltas(p, limit, EMPTY, deltas).Some?
    ensures EmitToolCalls(p, ApplyDeltas(p, limit, EMPTY, deltas).value).Some? <==> Callable(p, deltas)
  {
    hide ApplyDeltas, DeltasAt, ToolInput, Batch, OwnId, OwnName, OwnArgs;
    var table := ApplyDeltas(p, limit, EMPTY, deltas).value;
    var indices := SortIndices(table.order);
    DeltasKeys(p, limit, deltas);
    SortIndicesKeeps(table.order);
    BatchExactlyWhen(p, table.entries, indices);
    forall k: nat
      ensures k in table.entries <==> DeltasAt(deltas, k) != []
      ensures k in table.entries ==> FromOwn(table.entries[k], DeltasAt(deltas, k))
    {
      DeltasFromOwn(p, limit, deltas, k);
    }
    ReadyIsCallable(p, table.entries, indices, deltas);
  }

  lemma ReadyIsCallable(p: Platform, entries: map<nat, Entry>, indices: seq<nat>, deltas: seq<ToolDelta>)
    requires Increasing(indices) && forall k: nat :: k in indices <==> DeltasAt(deltas, k) != []
    requires forall k: nat :: k in entries <==> DeltasAt(deltas, k) != []
    requires forall k: nat :: k in entries ==> FromOwn(entries[k], DeltasAt(deltas, k))
    ensures Ready(p, entries, indices) <==> Callable(p, deltas)
  {
    hide DeltasAt, ToolInput, OwnId, OwnName, OwnArgs;
    if Ready(p, entries, indices) {
      forall k: nat, l: nat | k != l && DeltasAt(deltas, k) != [] && DeltasAt(deltas, l) != []
        ensures OwnId(DeltasAt(deltas, k)) != OwnId(DeltasAt(deltas, l))
      {
        var i :| 0 <= i < |indices| && indices[i] == k;
        var j :| 0 <= j < |indices| && indices[j] == l;
        assert i < j || j < i;
        assert entries[indices[i]].id != entries[indices[j]].id;
      }
    }
    if Callable(p, deltas) {
      forall i | 0 <= i < |indices|
        ensures indices[i] in entries && entries[indices[i]].id.Some? && entries[indices[i]].name.Some?
        ensures ToolInput(p, entries[indices[i]].args, Obj(map[])).Some?
      {
        assert indices[i] in indices;
      }
    }
  }

  // ----- chunks -----

  /** Some chunk gave a finish reason. */
  predicate Finished(pre: seq<Chunk>) {
    exists i :: 0 <= i < |pre| && Finishes(pre[i])
  }

  ghost predicate Fits(p: Platform, limit: nat, pre: seq<Chunk>, chunk: Chunk) {
    match chunk
    case DoneMarker => Finished(pre)
    case Failure(_) => true
    case Data(None, _, _) => true
    case Data(Some(choice), _, _) =>
      var deltas := AllDeltas(pre) + ChunkDeltas(chunk);
      && (Finished(pre) ==> choice.content == "" && choice.tools.None? && choice.finish.None?)
      && AllConsistent(p, limit, deltas)
      && match choice.finish
         case None => true
         case Some(reason) => (reason == "stop" && deltas == []) || (reason == "tool_calls" && Callable(p, deltas))
  }

  predicate Ongoing(pre: seq<Chunk>) {
    forall i :: 0 <= i < |pre| ==> pre[i].Data?
  }

  /** The state, told from the chunks. */
  ghost predicate Tallied(p: Platform, limit: nat, pre: seq<Chunk>, st: OpenAIState) {
    && ApplyDeltas(p, limit, EMPTY, AllDeltas(pre)) == Some(st.toolCalls)
    && (st.sawFinishReason <==> Finished(pre)) && !st.terminal
    && (st.finishReason == Some("tool_calls") ==> st.toolsEmitted)
  }

  lemma FinishedMore(pre: seq<Chunk>, chunk: Chunk)
    ensures Finished(pre + [chunk]) <==> Finished(pre) || Finishes(chunk)
    ensures AllDeltas(pre + [chunk]) == AllDeltas(pre) + ChunkDeltas(chunk)
  {
    var all := pre + [chunk];
    assert all[..|pre|] == pre && all[|pre|] == chunk;
    assert forall i :: 0 <= i < |pre| ==> all[i] == pre[i];
  }

  lemma FieldStep(p: Platform, limit: nat, st: OpenAIState, chunk: Chunk)
    requires chunk.Data? && ApplyChunk(p, limit, st, chunk).Some?
    ensures var next := ApplyChunk(p, limit, st, chunk).value.0;
            && next.terminal == st.terminal
            && (next.sawFinishReason <==> st.sawFinishReason || Finishes(chunk))
            && (Finishes(chunk) ==> (next.finishReason == Some("tool_calls") ==> next.toolsEmitted))
            && (!Finishes(chunk) ==> next.finishReason == st.finishReason && next.toolsEmitted == st.toolsEmitted)
  {
    hide ApplyDeltas, EmitToolCalls;
  }

  lemma {:induction false} RunTallied(p: Platform, limit: nat, pre: seq<Chunk>)
    requires Ongoing(pre) && Run(p, limit, pre).Some?
    ensures Tallied(p, limit, pre, Run(p, limit, pre).value.0)
    decreases |pre|
  {
    hide ApplyChunk, Finished, ApplyDeltas, AllDeltas;
    if pre == [] {
      NothingTallied(p, limit);
    } else {
      var init, last := pre[..|pre| - 1], pre[|pre| - 1];
      RunTallied(p, limit, init);
      var st := Run(p, limit, init).value.0;
      FieldStep(p, limit, st, last);
      StepTable(p, limit, st, last);
      DeltasAppend(p, limit, EMPTY, AllDeltas(init), ChunkDeltas(last));
      FinishedMore(init, last);
      assert init + [last] == pre;
    }
  }

  lemma NothingTallied(p: Platform, limit: nat)
    ensures Tallied(p, limit, [], INITIAL)
  {}

  /** A chunk with a choice, by what its fragments and its finish reason come to. */
  lemma ChoiceAccepted(p: Platform, limit: nat, st: OpenAIState, chunk: Chunk)
    requires chunk.Data? && chunk.choice.Some?
    ensures var choice := chunk.choice.value;
            var table := ApplyDeltas(p, limit, st.toolCalls, ChunkDeltas(chunk));
            ApplyChunk(p, limit, st, chunk).Some? <==>
              && (st.sawFinishReason ==> choice.content == "" && choice.tools.None? && choice.finish.None?)
              && table.Some?
              && match choice.finish
                 case None => true
                 case Some(reason) =>
                   (reason == "stop" && table.value.entries == map[]) || (reason == "tool_calls" && EmitToolCalls(p, table.value).Some?)
  {
    hide ApplyDeltas, EmitToolCalls;
    NoDeltas(p, limit, st.toolCalls);
  }

  lemma NoFragments(p: Platform, limit: nat, deltas: seq<ToolDelta>)
    requires ApplyDeltas(p, limit, EMPTY, deltas).Some?
    ensures ApplyDeltas(p, limit, EMPTY, deltas).value.entries == map[] <==> deltas == []
  {
    hide ApplyDelta;
    if deltas != [] {
      DeltasFromOwn(p, limit, deltas, deltas[|deltas| - 1].index);
    }
  }

  /** The next chunk is accepted exactly when it fits the chunks before it. */
  lemma StepFits(p: Platform, limit: nat, pre: seq<Chunk>, chunk: Chunk)
    requires Ongoing(pre) && Run(p, limit, pre).Some?
    ensures ApplyChunk(p, limit, Run(p, limit, pre).value.0, chunk).Some? <==> Fits(p, limit, pre, chunk)
  {
    hide Run, Finished, AllConsistent, Callable, AllDeltas, ApplyDeltas, EmitToolCalls;
    RunTallied(p, limit, pre);
    var st := Run(p, limit, pre).value.0;
    if chunk.Data? && chunk.choice.Some? {
      hide ApplyChunk;
      var deltas := AllDeltas(pre) + ChunkDeltas(chunk);
      ChoiceAccepted(p, limit, st, chunk);
      DeltasAppend(p, limit, EMPTY, AllDeltas(pre), ChunkDeltas(chunk));
      FragmentsAccepted(p, limit, deltas);
      if AllConsistent(p, limit, deltas) {
        CallableExactlyWhen(p, limit, deltas);
        NoFragments(p, limit, deltas);
      }
    }
  }

  lemma RunOneMore(p: Platform, limit: nat, pre: seq<Chunk>, chunk: Chunk)
    ensures Run(p, limit, pre + [chunk]).Some? <==>
            Run(p, limit, pre).Some? && ApplyChunk(p, limit, Run(p, limit, pre).value.0, chunk).Some?
  {
    hide ApplyChunk;
    assert (pre + [chunk])[..|pre|] == pre;
  }

  lemma RunNothing(p: Platform, limit: nat)
    ensures Run(p, limit, []) == Some((INITIAL, []))
  {}

  /** A stream is accepted exactly when every chunk of it fits those before it. */
  lemma {:induction false} AcceptedExactlyWhen(p: Platform, limit: nat, chunks: seq<Chunk>)
    requires chunks != [] ==> Ongoing(chunks[..|chunks| - 1])
    ensures Run(p, limit, chunks).Some? <==> forall i :: 0 <= i < |chunks| ==> Fits(p, limit, chunks[..i], chunks[i])
    decreases |chunks|
  {
    hide Run, Fits, ApplyChunk;
    if chunks == [] {
      RunNothing(p, limit);
    } else {
      var init, last := chunks[..|chunks| - 1], chunks[|chunks| - 1];
      assert init != [] ==> Ongoing(init[..|init| - 1]);
      AcceptedExactlyWhen(p, limit, init);
      assert init + [last] == chunks;
      RunOneMore(p, limit, init, last);
      if Run(p, limit, init).Some? {
        StepFits(p, limit, init, last);
      }
      assert forall i :: 0 <= i < |init| ==> chunks[..i] == init[..i] && chunks[i] == init[i];
    }
  }

  // ----- what is said besides the calls -----

  /** The events that are no calls. */
  function Plain(events: seq<ModelEvent>): seq<ModelEvent> {
    if events == [] then []
    else
      var last := events[|events| - 1];
      Plain(events[..|events| - 1]) + if last.ToolCall? then [] else [last]
  }

  /** The texts of the chunks, and the counts that came in pairs. */
  function Said(chunks: seq<Chunk>): seq<ModelEvent> {
    if chunks == [] then []
    else
      var last := chunks[|chunks| - 1];
      Said(chunks[..|chunks| - 1]) +
      (if last.Data? && last.choice.Some? && last.choice.value.content != "" then [TextDelta(last.choice.value.content)] else []) +
      (if last.Data? && last.prompt.Some? && last.completion.Some? then [Usage(last.prompt.value, last.completion.value)] else [])
  }

  lemma {:induction false} PlainAppend(a: seq<ModelEvent>, b: seq<ModelEvent>)
    ensures Plain(a + b) == Plain(a) + Plain(b)
    decreases |b|
  {
    if b == [] {
      assert a + b == a;
    } else {
      assert (a + b)[..|a + b| - 1] == a + b[..|b| - 1];
      PlainAppend(a, b[..|b| - 1]);
    }
  }

  lemma {:induction false} PlainAll(events: seq<ModelEvent>, calls: bool)
    requires forall i :: 0 <= i < |events| ==> (events[i].ToolCall? <==> calls)
    ensures Plain(events) == if calls then [] else events
    decreases |events|
  {
    if events != [] {
      var init := events[..|events| - 1];
      assert forall i :: 0 <= i < |init| ==> init[i] == events[i];
      PlainAll(init, calls);
      assert init + [events[|events| - 1]] == events;
    }
  }

  lemma StepSays(p: Platform, limit: nat, st: OpenAIState, chunk: Chunk)
    requires chunk.Data? && ApplyChunk(p, limit, st, chunk).Some?
    ensures Plain(ApplyChunk(p, limit, st, chunk).value.1) ==
            (if chunk.choice.Some? && chunk.choice.value.content != "" then [TextDelta(chunk.choice.value.content)] else []) +
            (if chunk.prompt.Some? && chunk.completion.Some? then [Usage(chunk.prompt.value, chunk.completion.value)] else [])
  {
    hide ApplyDeltas, EmitToolCalls, Plain;
    var events := ApplyChunk(p, limit, st, chunk).value.1;
    var text := if chunk.choice.Some? && chunk.choice.value.content != "" then [TextDelta(chunk.choice.value.content)] else [];
    var usage := if chunk.prompt.Some? && chunk.completion.Some? then [Usage(chunk.prompt.value, chunk.completion.value)] else [];
    var calls := if FinishesWithCalls(chunk) then EmitToolCalls(p, ApplyChunk(p, limit, st, chunk).value.0.toolCalls).value else [];
    if FinishesWithCalls(chunk) {
      EmitIsCalls(p, ApplyChunk(p, limit, st, chunk).value.0.toolCalls);
    }
    assert events == text + calls + usage;
    PlainAppend(text + calls, usage);
    PlainAppend(text, calls);
    PlainAll(text, false);
    PlainAll(calls, true);
    PlainAll(usage, false);
    assert text + [] + usage == text + usage;
  }

  /** Besides the calls, exactly the texts and the counts of the chunks are emitted, in order. */
  lemma {:induction false} RunSays(p: Platform, limit: nat, chunks: seq<Chunk>)
    requires Ongoing(chunks) && Run(p, limit, chunks).Some?
    ensures Plain(Run(p, limit, chunks).value.1) == Said(chunks)
    decreases |chunks|
  {
    hide ApplyChunk, Plain;
    if chunks == [] {
      PlainAll([], false);
    } else {
      var init, last := chunks[..|chunks| - 1], chunks[|chunks| - 1];
      RunSays(p, limit, init);
      var before := Run(p, limit, init).value;
      StepSays(p, limit, before.0, last);
      PlainAppend(before.1, ApplyChunk(p, limit, before.0, last).value.1);
    }
  }

  // ----- completion -----

  /** Read in order, every frame fits what came before it, up to `[DONE]`. */
  ghost predicate Completes(p: Platform, limit: nat, pre: seq<Chunk>, frames: seq<SseEvent>)
    decreases |frames|
  {
    && frames != []
    && ReadFrame(p, frames[0].data).Some?
    && var chunk := ReadFrame(p, frames[0].data).value;
       && Fits(p, limit, pre, chunk)
       && (chunk.DoneMarker? || (chunk.Data? && Completes(p, limit, pre + [chunk], frames[1..])))
  }

  lemma QuietStep(p: Platform, limit: nat, st: OpenAIState, chunk: Chunk)
    requires ApplyChunk(p, limit, st, chunk).Some? && !st.terminal
    ensures var (next, events) := ApplyChunk(p, limit, st, chunk).value;
            && (Completed in events <==> chunk.DoneMarker?)
            && (next.terminal <==> !chunk.Data?)
  {
    hide ApplyDeltas, EmitToolCalls;
    if chunk.Data? && FinishesWithCalls(chunk) {
      var table := ApplyDeltas(p, limit, st.toolCalls, ChunkDeltas(chunk));
      NoDeltas(p, limit, st.toolCalls);
      EmitIsCalls(p, table.value);
    }
  }

  lemma {:induction false} CompletesFrom(p: Platform, limit: nat, pre: seq<Chunk>, frames: seq<SseEvent>)
    requires Ongoing(pre) && Run(p, limit, pre).Some?
    ensures Completed in StreamRuntime.RunFrames(Decoder(p, limit), Run(p, limit, pre).value.0, frames).events <==> Completes(p, limit, pre, frames)
    decreases |frames|
  {
    hide Run, ApplyChunk, Fits, ReadFrame, ApplyDeltas, Finished;
    RunTallied(p, limit, pre);
    var st := Run(p, limit, pre).value.0;
    if frames != [] && ReadFrame(p, frames[0].data).Some? {
      var chunk := ReadFrame(p, frames[0].data).value;
      StepFits(p, limit, pre, chunk);
      RunOneMore(p, limit, pre, chunk);
      if Fits(p, limit, pre, chunk) {
        QuietStep(p, limit, st, chunk);
        OneMoreChunk(p, limit, pre, chunk);
        if chunk.Data? {
          CompletesFrom(p, limit, pre + [chunk], frames[1..]);
        }
      }
    }
  }

  /**
   A stream is reported as completed exactly when all its chunks fit up to `[DONE]`,
   and one of them gave a finish reason: "stop" without any fragment of a call, or
   "tool_calls" with fragments that make a batch.
   */
  lemma CompletedExactlyWhen(p: Platform, limit: nat, frames: seq<SseEvent>)
    ensures Completed in StreamRuntime.RunFrames(Decoder(p, limit), INITIAL, frames).events <==> Completes(p, limit, [], frames)
  {
    RunNothing(p, limit);
    CompletesFrom(p, limit, [], frames);
  }
}
