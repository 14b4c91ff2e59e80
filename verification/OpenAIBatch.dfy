/**
 The tool batch of a Chat Completions stream: emitted at most once, all calls or
 none, in strictly increasing index, each from the fragments of its own index.
 */
module OpenAIBatch {
  import opened Base
  import opened Events
  import opened DecodeUtils
  import opened OpenAIStream
  import opened Sse
  import opened StreamRuntime

  /** A run from the initial state; None when the stream fails. */
  function Run(p: Platform, limit: nat, chunks: seq<Chunk>): Stepped {
    if chunks == [] then Some((INITIAL, []))
    else
      var before := Run(p, limit, chunks[..|chunks| - 1]);
      if before.None? then None
      else
        var step := ApplyChunk(p, limit, before.value.0, chunks[|chunks| - 1]);
        if step.None? then None else Some((step.value.0, before.value.1 + step.value.1))
  }

  // ----- one index, seen alone -----

  function DeltasAt(deltas: seq<ToolDelta>, index: nat): seq<ToolDelta> {
    if deltas == [] then []
    else
      var last := deltas[|deltas| - 1];
      DeltasAt(deltas[..|deltas| - 1], index) + if last.index == index then [last] else []
  }

  /** The first id any fragment announces. */
  function OwnId(own: seq<ToolDelta>): Option<string> {
    if own == [] then None
    else
      var before := OwnId(own[..|own| - 1]);
      if before.Some? then before else own[|own| - 1].id
  }

  function OwnName(own: seq<ToolDelta>): Option<string> {
    if own == [] then None
    else
      var before := OwnName(own[..|own| - 1]);
      if before.Some? then before else own[|own| - 1].name
  }

  /** The argument fragments, glued in order of arrival. */
  function OwnArgs(own: seq<ToolDelta>): string {
    if own == [] then ""
    else
      var args := own[|own| - 1].args;
      OwnArgs(own[..|own| - 1]) + if args.Some? then args.value else ""
  }

  /** An entry that says what its own fragments say, and contradicts none of them. */
  ghost predicate FromOwn(entry: Entry, own: seq<ToolDelta>) {
    && entry.id == OwnId(own) && entry.name == OwnName(own) && entry.args == OwnArgs(own)
    && (forall i :: 0 <= i < |own| && own[i].id.Some? ==> own[i].id == entry.id)
    && (forall i :: 0 <= i < |own| && own[i].name.Some? ==> own[i].name == entry.name)
  }

  lemma DeltaFromOwn(p: Platform, limit: nat, calls: Table, delta: ToolDelta, own: seq<ToolDelta>)
    requires ApplyDelta(p, limit, calls, delta).Some?
    requires delta.index in calls.entries <==> own != []
    requires own != [] ==> FromOwn(calls.entries[delta.index], own)
    ensures FromOwn(ApplyDelta(p, limit, calls, delta).value.entries[delta.index], own + [delta])
  {
    assert (own + [delta])[..|own + [delta]| - 1] == own;
    assert OwnArgs(own + [delta]) == OwnArgs(own) + if delta.args.Some? then delta.args.value else "";
    if own == [] {
      assert own + [delta] == [delta];
    }
  }

  /** Whatever the interleaving, an index knows exactly its own fragments. */
  lemma {:induction false} DeltasFromOwn(p: Platform, limit: nat, deltas: seq<ToolDelta>, index: nat)
    requires ApplyDeltas(p, limit, EMPTY, deltas).Some?
    ensures var t := ApplyDeltas(p, limit, EMPTY, deltas).value;
            && (index in t.entries <==> DeltasAt(deltas, index) != [])
            && (index in t.entries ==> FromOwn(t.entries[index], DeltasAt(deltas, index)))
    decreases |deltas|
  {
    hide FromOwn;
    if deltas != [] {
      var init, last := deltas[..|deltas| - 1], deltas[|deltas| - 1];
      DeltasFromOwn(p, limit, init, index);
      if last.index == index {
        DeltaFromOwn(p, limit, ApplyDeltas(p, limit, EMPTY, init).value, last, DeltasAt(init, index));
      } else {
        assert DeltasAt(deltas, index) == DeltasAt(init, index);
      }
    }
  }

  // ----- the order of emission -----

  predicate Increasing(s: seq<nat>) {
    forall i, j :: 0 <= i < j < |s| ==> s[i] < s[j]
  }

  ghost predicate Keys(t: Table) {
    && (forall i, j :: 0 <= i < j < |t.order| ==> t.order[i] != t.order[j])
    && (forall k :: k in t.order <==> k in t.entries)
  }

  lemma {:induction false} DeltasKeys(p: Platform, limit: nat, deltas: seq<ToolDelta>)
    requires ApplyDeltas(p, limit, EMPTY, deltas).Some?
    ensures Keys(ApplyDeltas(p, limit, EMPTY, deltas).value)
    decreases |deltas|
  {
    if deltas != [] {
      DeltasKeys(p, limit, deltas[..|deltas| - 1]);
    }
  }

  lemma {:induction false} InsertIndexKeeps(sorted: seq<nat>, index: nat)
    requires Increasing(sorted) && index !in sorted
    ensures Increasing(InsertIndex(sorted, index))
    ensures forall k :: k in InsertIndex(sorted, index) <==> k in sorted || k == index
    decreases |sorted|
  {
    if sorted != [] {
      var init, last := sorted[..|sorted| - 1], sorted[|sorted| - 1];
      assert sorted == init + [last];
      if index < last {
        InsertIndexKeeps(init, index);
        var mid := InsertIndex(init, index);
        forall i | 0 <= i < |mid|
          ensures mid[i] < last
        {
          assert mid[i] in mid;
        }
      }
    }
  }

  lemma {:induction false} SortIndicesKeeps(order: seq<nat>)
    requires forall i, j :: 0 <= i < j < |order| ==> order[i] != order[j]
    ensures Increasing(SortIndices(order))
    ensures forall k :: k in SortIndices(order) <==> k in order
    decreases |order|
  {
    if order != [] {
      var init, last := order[..|order| - 1], order[|order| - 1];
      SortIndicesKeeps(init);
      assert order == init + [last];
      assert last !in init;
      InsertIndexKeeps(SortIndices(init), last);
    }
  }

  /** An increasing list is determined by its elements. */
  lemma {:induction false} IncreasingUnique(a: seq<nat>, b: seq<nat>)
    requires Increasing(a) && Increasing(b)
    requires forall k :: k in a <==> k in b
    ensures a == b
    decreases |a|
  {
    if a == [] {
      assert forall i :: 0 <= i < |b| ==> b[i] in b;
    } else {
      assert a[0] in a;
      assert b[0] in b;
      var i :| 0 <= i < |b| && b[i] == a[0];
      var j :| 0 <= j < |a| && a[j] == b[0];
      assert a[0] == b[0];
      assert a == [a[0]] + a[1..] && b == [b[0]] + b[1..];
      forall k
        ensures k in a[1..] <==> k in b[1..]
      {
        assert k in a <==> k in b;
      }
      IncreasingUnique(a[1..], b[1..]);
    }
  }

  /** A batch looks at ids, names and arguments only. */
  lemma {:induction false} BatchSame(p: Platform, a: map<nat, Entry>, b: map<nat, Entry>, indices: seq<nat>)
    requires forall k :: k in indices ==> k in a && k in b && a[k].id == b[k].id && a[k].name == b[k].name && a[k].args == b[k].args
    ensures Batch(p, a, indices) == Batch(p, b, indices)
    decreases |indices|
  {
    if indices != [] {
      assert forall k :: k in indices[..|indices| - 1] ==> k in indices;
      assert indices[|indices| - 1] in indices;
      BatchSame(p, a, b, indices[..|indices| - 1]);
    }
  }

  /** Every call of a batch, by its index. */
  lemma {:induction false} BatchEntries(p: Platform, entries: map<nat, Entry>, indices: seq<nat>)
    requires Batch(p, entries, indices).Some?
    ensures |Batch(p, entries, indices).value| == |indices|
    ensures forall i :: 0 <= i < |indices| ==>
              && indices[i] in entries
              && Batch(p, entries, indices).value[i].ToolCall?
              && var call := Batch(p, entries, indices).value[i];
                 && entries[indices[i]].id == Some(call.id)
                 && entries[indices[i]].name == Some(call.name)
                 && ToolInput(p, entries[indices[i]].args, Obj(map[])) == Some(call.input)
    decreases |indices|
  {
    hide ToolInput;
    if indices != [] {
      BatchEntries(p, entries, indices[..|indices| - 1]);
    }
  }

  // ----- whole streams -----

  function ChunkDeltas(chunk: Chunk): seq<ToolDelta> {
    if chunk.Data? && chunk.choice.Some? && chunk.choice.value.tools.Some? then chunk.choice.value.tools.value else []
  }

  function AllDeltas(chunks: seq<Chunk>): seq<ToolDelta> {
    if chunks == [] then [] else AllDeltas(chunks[..|chunks| - 1]) + ChunkDeltas(chunks[|chunks| - 1])
  }

  function CallsIn(events: seq<ModelEvent>): seq<ModelEvent> {
    if events == [] then []
    else CallsIn(events[..|events| - 1]) + if events[|events| - 1].ToolCall? then [events[|events| - 1]] else []
  }

  lemma {:induction false} CallsInAppend(a: seq<ModelEvent>, b: seq<ModelEvent>)
    ensures CallsIn(a + b) == CallsIn(a) + CallsIn(b)
    decreases |b|
  {
    if b == [] {
      assert a + b == a;
    } else {
      assert (a + b)[..|a + b| - 1] == a + b[..|b| - 1];
      CallsInAppend(a, b[..|b| - 1]);
    }
  }

  lemma {:induction false} CallsInQuiet(events: seq<ModelEvent>)
    requires forall i :: 0 <= i < |events| ==> !events[i].ToolCall?
    ensures CallsIn(events) == []
    decreases |events|
  {
    if events != [] {
      CallsInQuiet(events[..|events| - 1]);
    }
  }

  lemma {:induction false} CallsInAll(events: seq<ModelEvent>)
    requires forall i :: 0 <= i < |events| ==> events[i].ToolCall?
    ensures CallsIn(events) == events
    decreases |events|
  {
    if events != [] {
      CallsInAll(events[..|events| - 1]);
    }
  }

  lemma {:induction false} DeltasAppend(p: Platform, limit: nat, calls: Table, a: seq<ToolDelta>, b: seq<ToolDelta>)
    ensures ApplyDeltas(p, limit, calls, a + b) ==
            var mid := ApplyDeltas(p, limit, calls, a);
            if mid.None? then None else ApplyDeltas(p, limit, mid.value, b)
    decreases |b|
  {
    if b == [] {
      assert a + b == a;
    } else {
      assert (a + b)[..|a + b| - 1] == a + b[..|b| - 1];
      DeltasAppend(p, limit, calls, a, b[..|b| - 1]);
    }
  }

  // ----- after the finish marker -----

  predicate Finishes(chunk: Chunk) {
    chunk.Data? && chunk.choice.Some? && chunk.choice.value.finish.Some?
  }

  /** A chunk that says nothing but usage. */
  predicate Wordless(chunk: Chunk) {
    && chunk.Data?
    && (chunk.choice.Some? ==> chunk.choice.value.content == "" && chunk.choice.value.tools.None? && chunk.choice.value.finish.None?)
  }

  predicate UsageThenEnd(events: seq<ModelEvent>) {
    forall i :: 0 <= i < |events| ==> events[i].Usage? || (events[i].Terminal() && i == |events| - 1)
  }

  /** One chunk after the marker. */
  lemma ChunkAfterFinish(p: Platform, limit: nat, st: OpenAIState, chunk: Chunk)
    requires st.sawFinishReason && !st.terminal && ApplyChunk(p, limit, st, chunk).Some?
    ensures var (next, events) := ApplyChunk(p, limit, st, chunk).value;
            && next.sawFinishReason
            && UsageThenEnd(events)
            && (!next.terminal ==> Wordless(chunk) && forall i :: 0 <= i < |events| ==> events[i].Usage?)
  {
    hide ApplyDeltas;
    hide Batch;
  }

  lemma FinishIsSeen(p: Platform, limit: nat, st: OpenAIState, chunk: Chunk)
    requires Finishes(chunk) && ApplyChunk(p, limit, st, chunk).Some?
    ensures ApplyChunk(p, limit, st, chunk).value.0.sawFinishReason
  {
    hide ApplyDeltas;
    hide Batch;
  }

  /** Any frames at all, once the marker was seen. */
  lemma {:induction false} FramesAfterFinish(p: Platform, limit: nat, st: OpenAIState, frames: seq<SseEvent>)
    requires st.sawFinishReason && !st.terminal
    ensures var run := RunFrames(Decoder(p, limit), st, frames);
            && UsageThenEnd(run.events)
            && (run.state.Some? ==>
                  && (forall i :: 0 <= i < |run.events| ==> run.events[i].Usage?)
                  && (forall i :: 0 <= i < |frames| ==> ReadFrame(p, frames[i].data).Some? && Wordless(ReadFrame(p, frames[i].data).value)))
    decreases |frames|
  {
    hide ReadFrame;
    hide ApplyChunk;
    hide Wordless;
    if frames != [] && HandleFrame(p, limit, st, frames[0]).Ok? {
      var (next, events) := HandleFrame(p, limit, st, frames[0]).value;
      ChunkAfterFinish(p, limit, st, ReadFrame(p, frames[0].data).value);
      if !next.terminal {
        FramesAfterFinish(p, limit, next, frames[1..]);
        assert forall i :: 1 <= i < |frames| ==> frames[i] == frames[1..][i - 1];
      }
    }
  }

  /**
   Any stream, accepted or not: behind the chunk that sets the finish reason come
   only usage events and at most one terminal event, which is the last; and
   while the stream goes on, no text, call or second finish is accepted.
   */
  lemma AfterFinish(p: Platform, limit: nat, before: seq<SseEvent>, finish: SseEvent, after: seq<SseEvent>)
    requires RunFrames(Decoder(p, limit), INITIAL, before + [finish]).state.Some?
    requires ReadFrame(p, finish.data).Some? && Finishes(ReadFrame(p, finish.data).value)
    ensures var head := RunFrames(Decoder(p, limit), INITIAL, before + [finish]);
            var all := RunFrames(Decoder(p, limit), INITIAL, before + [finish] + after);
            && head.events <= all.events
            && UsageThenEnd(all.events[|head.events|..])
            && (all.state.Some? ==>
                  forall i :: 0 <= i < |after| ==> ReadFrame(p, after[i].data).Some? && Wordless(ReadFrame(p, after[i].data).value))
  {
    hide ReadFrame;
    hide ApplyChunk;
    hide RunFrames;
    hide Wordless;
    var dec := Decoder(p, limit);
    var head := RunFrames(dec, INITIAL, before + [finish]);
    RunFramesAppend(dec, INITIAL, before + [finish], after);
    RunFramesAppend(dec, INITIAL, before, [finish]);
    var mid := RunFrames(dec, INITIAL, before).state.value;
    OneFrame(p, limit, mid, finish);
    FinishIsSeen(p, limit, mid, ReadFrame(p, finish.data).value);
    FramesAfterFinish(p, limit, head.state.value, after);
    var tail := RunFrames(dec, head.state.value, after).events;
    assert (head.events + tail)[|head.events|..] == tail;
  }

  lemma OneFrame(p: Platform, limit: nat, st: OpenAIState, frame: SseEvent)
    requires RunFrames(Decoder(p, limit), st, [frame]).state.Some?
    ensures ReadFrame(p, frame.data).Some? && ApplyChunk(p, limit, st, ReadFrame(p, frame.data).value).Some?
    ensures var next := RunFrames(Decoder(p, limit), st, [frame]).state.value;
            next == ApplyChunk(p, limit, st, ReadFrame(p, frame.data).value).value.0 && !next.terminal
  {
    hide ReadFrame;
    hide ApplyChunk;
    assert [frame][1..] == [];
  }

  /** What has been emitted, told from the state. */
  ghost predicate Shape(p: Platform, limit: nat, chunks: seq<Chunk>, st: OpenAIState, events: seq<ModelEvent>) {
    && ApplyDeltas(p, limit, EMPTY, AllDeltas(chunks)) == Some(st.toolCalls)
    && (st.sawFinishReason <==> st.finishReason.Some?)
    && (st.toolsEmitted <==> st.finishReason == Some("tool_calls"))
    && (st.toolsEmitted ==> EmitToolCalls(p, st.toolCalls) == Some(CallsIn(events)))
    && (!st.toolsEmitted ==> CallsIn(events) == [])
  }

  predicate FinishesWithCalls(chunk: Chunk) {
    chunk.Data? && chunk.choice.Some? && chunk.choice.value.finish == Some("tool_calls")
  }

  lemma CallsInSandwich(a: seq<ModelEvent>, calls: seq<ModelEvent>, b: seq<ModelEvent>)
    requires forall i :: 0 <= i < |a| ==> !a[i].ToolCall?
    requires forall i :: 0 <= i < |b| ==> !b[i].ToolCall?
    requires forall i :: 0 <= i < |calls| ==> calls[i].ToolCall?
    ensures CallsIn(a + calls + b) == calls
  {
    CallsInAppend(a + calls, b);
    CallsInAppend(a, calls);
    CallsInQuiet(a);
    CallsInQuiet(b);
    CallsInAll(calls);
  }

  lemma StepTable(p: Platform, limit: nat, st: OpenAIState, chunk: Chunk)
    requires ApplyChunk(p, limit, st, chunk).Some?
    ensures ApplyDeltas(p, limit, st.toolCalls, ChunkDeltas(chunk)) == Some(ApplyChunk(p, limit, st, chunk).value.0.toolCalls)
  {
    hide ApplyDeltas;
    hide EmitToolCalls;
    NoDeltas(p, limit, st.toolCalls);
  }

  lemma StepCalls(p: Platform, limit: nat, st: OpenAIState, chunk: Chunk)
    requires ApplyChunk(p, limit, st, chunk).Some?
    ensures var (next, more) := ApplyChunk(p, limit, st, chunk).value;
            if FinishesWithCalls(chunk) then
              && !st.sawFinishReason && next.sawFinishReason && next.toolsEmitted && next.finishReason == Some("tool_calls")
              && EmitToolCalls(p, next.toolCalls) == Some(CallsIn(more))
            else
              && CallsIn(more) == []
              && next.toolsEmitted == st.toolsEmitted
              && (st.sawFinishReason ==> next.sawFinishReason && next.finishReason == st.finishReason && next.toolCalls == st.toolCalls)
              && (!st.sawFinishReason ==> if next.sawFinishReason then next.finishReason == Some("stop") else next.finishReason == st.finishReason)
  {
    hide ApplyDeltas;
    hide EmitToolCalls;
    hide CallsIn;
    var (next, more) := ApplyChunk(p, limit, st, chunk).value;
    if FinishesWithCalls(chunk) {
      var calls, usage := EmitToolCalls(p, next.toolCalls).value, ApplyUsage(st, chunk.prompt, chunk.completion).1;
      EmitIsCalls(p, next.toolCalls);
      CallsInSandwich(TextEvents(chunk.choice.value.content), calls, usage);
    } else {
      CallsInQuiet(more);
    }
  }

  lemma StepShape(p: Platform, limit: nat, chunks: seq<Chunk>, st: OpenAIState, events: seq<ModelEvent>, chunk: Chunk)
    requires Shape(p, limit, chunks, st, events) && ApplyChunk(p, limit, st, chunk).Some?
    ensures var (next, more) := ApplyChunk(p, limit, st, chunk).value;
            Shape(p, limit, chunks + [chunk], next, events + more)
  {
    hide ApplyDeltas;
    hide EmitToolCalls;
    hide CallsIn;
    hide ApplyChunk;
    assert (chunks + [chunk])[..|chunks + [chunk]| - 1] == chunks;
    var (next, more) := ApplyChunk(p, limit, st, chunk).value;
    CallsInAppend(events, more);
    DeltasAppend(p, limit, EMPTY, AllDeltas(chunks), ChunkDeltas(chunk));
    StepTable(p, limit, st, chunk);
    StepCalls(p, limit, st, chunk);
    assert CallsIn(events) == [] ==> CallsIn(events) + CallsIn(more) == CallsIn(more);
    assert CallsIn(more) == [] ==> CallsIn(events) + CallsIn(more) == CallsIn(events);
  }

  lemma NoDeltas(p: Platform, limit: nat, calls: Table)
    ensures ApplyDeltas(p, limit, calls, []) == Some(calls)
  {}

  lemma EmitIsCalls(p: Platform, calls: Table)
    requires EmitToolCalls(p, calls).Some?
    ensures forall i :: 0 <= i < |EmitToolCalls(p, calls).value| ==> EmitToolCalls(p, calls).value[i].ToolCall?
  {
    BatchCalls(p, calls.entries, SortIndices(calls.order));
  }

  lemma {:induction false} RunShape(p: Platform, limit: nat, chunks: seq<Chunk>)
    requires Run(p, limit, chunks).Some?
    ensures Shape(p, limit, chunks, Run(p, limit, chunks).value.0, Run(p, limit, chunks).value.1)
    decreases |chunks|
  {
    hide ApplyChunk;
    hide Shape;
    if chunks == [] {
      ShapeAtStart(p, limit);
    } else {
      var init, last := chunks[..|chunks| - 1], chunks[|chunks| - 1];
      RunShape(p, limit, init);
      var before := Run(p, limit, init).value;
      StepShape(p, limit, init, before.0, before.1, last);
      assert chunks == init + [last];
    }
  }

  lemma ShapeAtStart(p: Platform, limit: nat)
    ensures Shape(p, limit, [], INITIAL, [])
  {}

  /**
   Calls made from fragments: one for every index mentioned, in strictly increasing
   index, with distinct ids, each carrying the id, the name and the glued arguments
   of its own fragments.
   */
  ghost predicate IsBatch(p: Platform, deltas: seq<ToolDelta>, calls: seq<ModelEvent>) {
    exists indices: seq<nat> ::
      && Increasing(indices) && |indices| == |calls|
      && (forall k: nat :: k in indices <==> DeltasAt(deltas, k) != [])
      && (forall i, j :: 0 <= i < j < |calls| ==> calls[i].ToolCall? && calls[j].ToolCall? && calls[i].id != calls[j].id)
      && (forall i :: 0 <= i < |calls| ==>
            && calls[i].ToolCall?
            && var own := DeltasAt(deltas, indices[i]);
               && OwnId(own) == Some(calls[i].id)
               && OwnName(own) == Some(calls[i].name)
               && ToolInput(p, OwnArgs(own), Obj(map[])) == Some(calls[i].input))
  }

  predicate Called(chunks: seq<Chunk>) {
    exists i :: 0 <= i < |chunks| && FinishesWithCalls(chunks[i])
  }

  /** The finish reason is `tool_calls` exactly when some chunk said so. */
  lemma {:induction false} RunCalled(p: Platform, limit: nat, chunks: seq<Chunk>)
    requires Run(p, limit, chunks).Some?
    ensures Run(p, limit, chunks).value.0.finishReason == Some("tool_calls") <==> Called(chunks)
    decreases |chunks|
  {
    hide ApplyChunk;
    if chunks != [] {
      var init, last := chunks[..|chunks| - 1], chunks[|chunks| - 1];
      RunCalled(p, limit, init);
      RunShape(p, limit, init);
      var st := Run(p, limit, init).value.0;
      StepCalls(p, limit, st, last);
      assert Called(chunks) <==> Called(init) || FinishesWithCalls(last) by {
        if Called(init) {
          var i :| 0 <= i < |init| && FinishesWithCalls(init[i]);
          assert FinishesWithCalls(chunks[i]);
        }
      }
    }
  }

  /** The calls of an accepted run: none unless a chunk finished with `tool_calls`, and then one batch. */
  lemma RunBatch(p: Platform, limit: nat, chunks: seq<Chunk>)
    requires Run(p, limit, chunks).Some?
    ensures var calls := CallsIn(Run(p, limit, chunks).value.1);
            if Called(chunks) then IsBatch(p, AllDeltas(chunks), calls) else calls == []
  {
    hide Run;
    hide ApplyDeltas;
    hide DeltasAt;
    hide CallsIn;
    hide ToolInput;
    hide Batch;
    hide Called;
    RunShape(p, limit, chunks);
    RunCalled(p, limit, chunks);
    var (st, events) := Run(p, limit, chunks).value;
    if Called(chunks) {
      var deltas, indices := AllDeltas(chunks), SortIndices(st.toolCalls.order);
      DeltasKeys(p, limit, deltas);
      SortIndicesKeeps(st.toolCalls.order);
      BatchCalls(p, st.toolCalls.entries, indices);
      BatchEntries(p, st.toolCalls.entries, indices);
      forall k: nat
        ensures k in st.toolCalls.entries <==> DeltasAt(deltas, k) != []
        ensures k in st.toolCalls.entries ==> FromOwn(st.toolCalls.entries[k], DeltasAt(deltas, k))
      {
        DeltasFromOwn(p, limit, deltas, k);
      }
    }
  }

  /** The chunks the decoder accepts before the stream ends or fails. */
  function Heard(p: Platform, limit: nat, st: OpenAIState, frames: seq<SseEvent>): seq<Chunk>
    decreases |frames|
  {
    if frames == [] || HandleFrame(p, limit, st, frames[0]).Err? then []
    else
      var next := HandleFrame(p, limit, st, frames[0]).value.0;
      [ReadFrame(p, frames[0].data).value] + if next.terminal then [] else Heard(p, limit, next, frames[1..])
  }

  lemma OneMoreChunk(p: Platform, limit: nat, chunks: seq<Chunk>, chunk: Chunk)
    requires Run(p, limit, chunks).Some? && ApplyChunk(p, limit, Run(p, limit, chunks).value.0, chunk).Some?
    ensures var step := ApplyChunk(p, limit, Run(p, limit, chunks).value.0, chunk).value;
            Run(p, limit, chunks + [chunk]) == Some((step.0, Run(p, limit, chunks).value.1 + step.1))
  {
    hide ApplyChunk;
    assert (chunks + [chunk])[..|chunks|] == chunks;
  }

  /** One accepted frame, and what is heard behind it. */
  lemma HeardFirst(p: Platform, limit: nat, st: OpenAIState, frames: seq<SseEvent>)
    requires frames != [] && HandleFrame(p, limit, st, frames[0]).Ok?
    ensures ReadFrame(p, frames[0].data).Some?
    ensures var chunk := ReadFrame(p, frames[0].data).value;
            var later := if HandleFrame(p, limit, st, frames[0]).value.0.terminal then [] else frames[1..];
            && ApplyChunk(p, limit, st, chunk).Some?
            && var (next, more) := ApplyChunk(p, limit, st, chunk).value;
               && Heard(p, limit, st, frames) == [chunk] + Heard(p, limit, next, later)
               && RunFrames(Decoder(p, limit), st, frames).events == more + RunFrames(Decoder(p, limit), next, later).events
  {
    hide ReadFrame, ApplyChunk;
    assert [ReadFrame(p, frames[0].data).value] + [] == [ReadFrame(p, frames[0].data).value];
    var more := HandleFrame(p, limit, st, frames[0]).value.1;
    assert more + [] == more;
  }

  /** Any frames: the events are those of the chunks heard, and one error if a frame is refused. */
  lemma {:induction false} HeardRuns(p: Platform, limit: nat, before: seq<Chunk>, frames: seq<SseEvent>)
    requires Run(p, limit, before).Some?
    ensures var (st, events) := Run(p, limit, before).value;
            var all := Run(p, limit, before + Heard(p, limit, st, frames));
            && all.Some?
            && (events + RunFrames(Decoder(p, limit), st, frames).events == all.value.1
                || events + RunFrames(Decoder(p, limit), st, frames).events == all.value.1 + [StreamError(ProviderProtocolError)])
    decreases |frames|
  {
    hide ReadFrame, ApplyChunk, Run;
    var (st, events) := Run(p, limit, before).value;
    if frames == [] || HandleFrame(p, limit, st, frames[0]).Err? {
      assert before + [] == before && events + [] == events;
    } else {
      hide RunFrames, Heard;
      HeardFirst(p, limit, st, frames);
      var chunk := ReadFrame(p, frames[0].data).value;
      var (next, more) := ApplyChunk(p, limit, st, chunk).value;
      var behind := if next.terminal then [] else frames[1..];
      OneMoreChunk(p, limit, before, chunk);
      HeardRuns(p, limit, before + [chunk], behind);
      var later := RunFrames(Decoder(p, limit), next, behind).events;
      assert events + (more + later) == (events + more) + later;
      assert before + ([chunk] + Heard(p, limit, next, behind)) == (before + [chunk]) + Heard(p, limit, next, behind);
    }
  }

  /**
   Any stream, accepted or not: no call is emitted before a chunk finished with
   `tool_calls` is accepted, and from then on exactly one batch, made from all the
   fragments heard.
   */
  lemma ToolBatch(p: Platform, limit: nat, frames: seq<SseEvent>)
    ensures var heard := Heard(p, limit, INITIAL, frames);
            var calls := CallsIn(RunFrames(Decoder(p, limit), INITIAL, frames).events);
            if Called(heard) then IsBatch(p, AllDeltas(heard), calls) else calls == []
  {
    hide Heard, Called, IsBatch, CallsIn, RunFrames, AllDeltas;
    var heard := Heard(p, limit, INITIAL, frames);
    HeardRuns(p, limit, [], frames);
    assert [] + heard == heard;
    var emitted, events := RunFrames(Decoder(p, limit), INITIAL, frames).events, Run(p, limit, heard).value.1;
    assert [] + emitted == emitted;
    RunBatch(p, limit, heard);
    var failed := [StreamError(ProviderProtocolError)];
    CallsInAppend(events, failed);
    CallsInQuiet(failed);
    assert CallsIn(events) + [] == CallsIn(events);
  }

  // ----- interleavings -----

  /** Whether a fragment is accepted, and what its entry becomes, depends on that entry alone. */
  lemma DeltaIsLocal(p: Platform, limit: nat, a: Table, b: Table, delta: ToolDelta)
    requires delta.index in a.entries <==> delta.index in b.entries
    requires delta.index in a.entries ==> a.entries[delta.index] == b.entries[delta.index]
    ensures ApplyDelta(p, limit, a, delta).Some? <==> ApplyDelta(p, limit, b, delta).Some?
    ensures ApplyDelta(p, limit, a, delta).Some? ==>
              delta.index in ApplyDelta(p, limit, a, delta).value.entries && delta.index in ApplyDelta(p, limit, b, delta).value.entries &&
              ApplyDelta(p, limit, a, delta).value.entries[delta.index] == ApplyDelta(p, limit, b, delta).value.entries[delta.index]
  {}

  lemma OtherEntries(p: Platform, limit: nat, table: Table, delta: ToolDelta, k: nat)
    requires ApplyDelta(p, limit, table, delta).Some? && k != delta.index
    ensures var next := ApplyDelta(p, limit, table, delta).value;
            (k in next.entries <==> k in table.entries) && (k in table.entries ==> next.entries[k] == table.entries[k])
  {}

  ghost predicate AcceptsEach(p: Platform, limit: nat, deltas: seq<ToolDelta>) {
    forall k: nat :: ApplyDeltas(p, limit, EMPTY, DeltasAt(deltas, k)).Some?
  }

  /** Fragments are accepted exactly when each index accepts its own, and then its entry is the one they make. */
  lemma {:induction false} AcceptedByIndex(p: Platform, limit: nat, deltas: seq<ToolDelta>)
    ensures ApplyDeltas(p, limit, EMPTY, deltas).Some? <==> AcceptsEach(p, limit, deltas)
    ensures ApplyDeltas(p, limit, EMPTY, deltas).Some? ==> forall k: nat ::
              var whole, own := ApplyDeltas(p, limit, EMPTY, deltas).value.entries, ApplyDeltas(p, limit, EMPTY, DeltasAt(deltas, k)).value.entries;
              (k in whole <==> k in own) && (k in whole ==> whole[k] == own[k])
    decreases |deltas|
  {
    hide ApplyDelta;
    if deltas != [] {
      var init, last := deltas[..|deltas| - 1], deltas[|deltas| - 1];
      AcceptedByIndex(p, limit, init);
      forall k: nat
        ensures DeltasAt(deltas, k) == DeltasAt(init, k) + if last.index == k then [last] else []
        ensures last.index != k ==> DeltasAt(deltas, k) == DeltasAt(init, k)
      {
        assert DeltasAt(init, k) + [] == DeltasAt(init, k);
      }
      OwnDelta(p, limit, init, last);
      if ApplyDeltas(p, limit, EMPTY, init).Some? {
        var table, own := ApplyDeltas(p, limit, EMPTY, init).value, ApplyDeltas(p, limit, EMPTY, DeltasAt(init, last.index)).value;
        DeltaIsLocal(p, limit, table, own, last);
        if ApplyDelta(p, limit, table, last).Some? {
          forall k: nat | k != last.index
            ensures var next := ApplyDelta(p, limit, table, last).value;
                    (k in next.entries <==> k in table.entries) && (k in table.entries ==> next.entries[k] == table.entries[k])
          {
            OtherEntries(p, limit, table, last, k);
          }
        }
      } else {
        var k: nat :| ApplyDeltas(p, limit, EMPTY, DeltasAt(init, k)).None?;
        if k == last.index {
          assert DeltasAt(deltas, k) == DeltasAt(init, k) + [last];
        }
        assert ApplyDeltas(p, limit, EMPTY, DeltasAt(deltas, k)).None?;
        assert ApplyDeltas(p, limit, EMPTY, deltas).None?;
      }
    }
  }

  lemma OwnDelta(p: Platform, limit: nat, init: seq<ToolDelta>, last: ToolDelta)
    ensures ApplyDeltas(p, limit, EMPTY, DeltasAt(init, last.index) + [last]) ==
            var own := ApplyDeltas(p, limit, EMPTY, DeltasAt(init, last.index));
            if own.None? then None else ApplyDelta(p, limit, own.value, last)
  {
    hide ApplyDelta;
    var own := DeltasAt(init, last.index);
    assert (own + [last])[..|own|] == own;
  }

  /** Two interleavings of the same fragments are both refused, or emit the same calls. */
  lemma InterleavingInvariance(p: Platform, limit: nat, a: seq<ToolDelta>, b: seq<ToolDelta>)
    requires forall index: nat :: DeltasAt(a, index) == DeltasAt(b, index)
    ensures ApplyDeltas(p, limit, EMPTY, a).Some? <==> ApplyDeltas(p, limit, EMPTY, b).Some?
    ensures ApplyDeltas(p, limit, EMPTY, a).Some? ==>
              EmitToolCalls(p, ApplyDeltas(p, limit, EMPTY, a).value) == EmitToolCalls(p, ApplyDeltas(p, limit, EMPTY, b).value)
  {
    hide ApplyDeltas;
    hide DeltasAt;
    hide EmitToolCalls;
    AcceptedByIndex(p, limit, a);
    AcceptedByIndex(p, limit, b);
    assert AcceptsEach(p, limit, a) <==> AcceptsEach(p, limit, b);
    if ApplyDeltas(p, limit, EMPTY, a).Some? {
      SameCalls(p, limit, a, b);
    }
  }

  lemma SameCalls(p: Platform, limit: nat, a: seq<ToolDelta>, b: seq<ToolDelta>)
    requires ApplyDeltas(p, limit, EMPTY, a).Some? && ApplyDeltas(p, limit, EMPTY, b).Some?
    requires forall index: nat :: DeltasAt(a, index) == DeltasAt(b, index)
    ensures EmitToolCalls(p, ApplyDeltas(p, limit, EMPTY, a).value) == EmitToolCalls(p, ApplyDeltas(p, limit, EMPTY, b).value)
  {
    hide ApplyDeltas;
    hide DeltasAt;
    hide Batch;
    var s, t := ApplyDeltas(p, limit, EMPTY, a).value, ApplyDeltas(p, limit, EMPTY, b).value;
    DeltasKeys(p, limit, a);
    DeltasKeys(p, limit, b);
    SortIndicesKeeps(s.order);
    SortIndicesKeeps(t.order);
    forall k: nat
      ensures k in s.entries <==> k in t.entries
      ensures k in s.entries ==> FromOwn(s.entries[k], DeltasAt(a, k)) && FromOwn(t.entries[k], DeltasAt(a, k))
    {
      DeltasFromOwn(p, limit, a, k);
      DeltasFromOwn(p, limit, b, k);
    }
    IncreasingUnique(SortIndices(s.order), SortIndices(t.order));
    BatchSame(p, s.entries, t.entries, SortIndices(s.order));
  }
}
