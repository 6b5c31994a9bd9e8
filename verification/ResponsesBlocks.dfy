/**
 * What the Responses adapter gets assembled: in an accepted turn every output item that said or called
 * something has one block of its own with all of it, and there are no other blocks.
 */
module ResponsesBlocks {
  import opened Prelude
  import opened StreamChunks
  import opened BlockAssembly
  import opened BlockContract
  import opened ResponsesAdapter
  import opened ResponsesContract

  // ---------------------------------------------------------------------------
  // One block, built from the chunks addressed to it
  // ---------------------------------------------------------------------------

  function Touched(b: Option<OpenBlock>, c: Chunk, i: int): Option<OpenBlock>
  {
    match c
    case BlockStart(x, blockType) => if x == i then Some(Fresh(blockType)) else b
    case TextDelta(x, text) => if x == i && b.Some? then Some(AddText(b.value, text)) else b
    case ReasoningDelta(x, text) => if x == i && b.Some? then Some(AddText(b.value, text)) else b
    case ToolCallDelta(x, id, name, arguments) => if x == i && b.Some? then Some(AddTool(b.value, id, name, arguments)) else b
    case _ => b
  }

  function Built(cs: seq<Chunk>, i: int): Option<OpenBlock>
  {
    if cs == [] then None else Touched(Built(cs[..|cs| - 1], i), cs[|cs| - 1], i)
  }

  lemma BuiltSnoc(cs: seq<Chunk>, c: Chunk, i: int)
    ensures Built(cs + [c], i) == Touched(Built(cs, i), c, i)
  {
    assert (cs + [c])[..|cs|] == cs;
  }

  /** The block `i` that the assembler holds, open or finished, is the one built from its own chunks. */
  ghost predicate HoldsAt(p: Progress, b: Option<OpenBlock>, i: int)
  {
    && (b.Some? <==> i in p.open || i in p.blocks)
    && (i in p.open ==> b == Some(p.open[i]))
    && (i in p.blocks ==> p.blocks[i] == Finalize(b.value))
  }

  lemma {:induction false} FeedHolds(p: Progress, c: Chunk, b: Option<OpenBlock>, i: int)
    requires Feed(p, c).Ok? && HoldsAt(p, b, i) && p.open.Keys !! p.blocks.Keys
    requires p.next !in p.open && p.next !in p.blocks
    ensures HoldsAt(Feed(p, c).value, Touched(b, c, i), i)
  {
  }

  /** For every chunk sequence the assembler takes, each block is what the chunks addressed to it make. */
  lemma {:induction false} BuiltAsFed(cs: seq<Chunk>, i: int)
    requires FeedAll(cs).Ok?
    ensures HoldsAt(FeedAll(cs).value, Built(cs, i), i)
  {
    hide Feed, HoldsAt, Touched;
    if cs == [] {
      NothingHeld(i);
    } else {
      var init := cs[..|cs| - 1];
      BuiltAsFed(init, i);
      IndicesPartitioned(init);
      assert FeedAll(init).value.next !in FeedAll(init).value.open.Keys;
      FeedHolds(FeedAll(init).value, cs[|cs| - 1], Built(init, i), i);
    }
  }

  lemma NothingHeld(i: int)
    ensures HoldsAt(EMPTY, None, i)
  {
  }

  // ---------------------------------------------------------------------------
  // One item, built from its own events
  // ---------------------------------------------------------------------------

  /** The call id and name last announced for an item. */
  function Added(es: seq<ResponseEvent>, x: string): (string, string)
  {
    if es == [] then ("", "")
    else
      var e := es[|es| - 1];
      if e.ItemAddedEvent? && e.isFunction && e.item == x then (e.callId, e.name) else Added(es[..|es| - 1], x)
  }

  function OrFresh(b: Option<OpenBlock>, blockType: BlockType): OpenBlock
  {
    if b.Some? then b.value else Fresh(blockType)
  }

  /** What an item's next event does to its block, when `added` was announced for it. */
  function ItemStep(b: Option<OpenBlock>, added: (string, string), e: ResponseEvent, x: string): Option<OpenBlock>
  {
    match e
    case TextDeltaEvent(y, delta) => if y == x && delta != "" then Some(AddText(OrFresh(b, Text), delta)) else b
    case ReasoningDeltaEvent(y, delta) => if y == x && delta != "" then Some(AddText(OrFresh(b, Reasoning), delta)) else b
    case ArgumentsDeltaEvent(y, delta) =>
      if y == x && delta != "" then Some(AddTool(OrFresh(b, ToolCall), added.0, added.1, delta)) else b
    case ItemDoneEvent(y, isFunction, _, _, _) => if y == x && isFunction then Some(OrFresh(b, ToolCall)) else b
    case _ => b
  }

  function ItemBlock(es: seq<ResponseEvent>, x: string): Option<OpenBlock>
  {
    if es == [] then None
    else ItemStep(ItemBlock(es[..|es| - 1], x), Added(es[..|es| - 1], x), es[|es| - 1], x)
  }

  lemma ItemSnoc(es: seq<ResponseEvent>, e: ResponseEvent, x: string)
    ensures ItemBlock(es + [e], x) == ItemStep(ItemBlock(es, x), Added(es, x), e, x)
    ensures Added(es + [e], x) == if e.ItemAddedEvent? && e.isFunction && e.item == x then (e.callId, e.name) else Added(es, x)
  {
    assert (es + [e])[..|es|] == es;
  }

  // ---------------------------------------------------------------------------
  // The adapter sends each item's events to a block of its own
  // ---------------------------------------------------------------------------

  function IndexAt(s: Stage, x: string): Option<int> { if x in s.items then s.items[x].index else None }

  function NamesAt(s: Stage, x: string): (string, string)
  {
    if x in s.items then (s.items[x].callId, s.items[x].name) else ("", "")
  }

  ghost predicate Builds(s: Stage, es: seq<ResponseEvent>)
  {
    && (forall x :: NamesAt(s, x) == Added(es, x))
    && (forall x :: IndexAt(s, x).Some? <==> ItemBlock(es, x).Some?)
    && (forall x :: IndexAt(s, x).Some? ==> IndexAt(s, x).value < s.next && Built(s.out, IndexAt(s, x).value) == ItemBlock(es, x))
    && (forall x, y :: IndexAt(s, x).Some? && IndexAt(s, x) == IndexAt(s, y) ==> x == y)
    && (forall i :: Built(s.out, i).Some? ==> exists x :: IndexAt(s, x) == Some(i))
  }

  /** An event without a chunk and without a block. */
  lemma {:induction false} QuietBuilds(s: Stage, t: Stage, es: seq<ResponseEvent>, e: ResponseEvent)
    requires Builds(s, es) && t.out == s.out && t.next == s.next
    requires forall x :: IndexAt(t, x) == IndexAt(s, x) && NamesAt(t, x) == Added(es + [e], x) && ItemBlock(es + [e], x) == ItemBlock(es, x)
    ensures Builds(t, es + [e])
  {
    hide Built, ItemBlock, Added, IndexAt, NamesAt;
  }

  /** One more chunk for the block of `x`, which is started if it was not. */
  lemma {:induction false} TouchBuilds(s: Stage, t: Stage, es: seq<ResponseEvent>, e: ResponseEvent, x: string, kind: ItemKind, c: Chunk)
    requires Builds(s, es)
    requires var b := Begun(Known(s, x, kind), x, kind);
      && t.out == b.out + [c] && t.next == b.next
      && (forall y :: IndexAt(t, y) == IndexAt(b, y) && NamesAt(t, y) == NamesAt(s, y))
      && !c.BlockStart? && (forall i, o: Option<OpenBlock> :: Some(i) != IndexAt(b, x) ==> Touched(o, c, i) == o)
      && (forall o: Option<OpenBlock> :: o.Some? ==> Touched(o, c, IndexAt(b, x).value).Some?)
      && ItemBlock(es + [e], x) == Touched(Some(OrFresh(ItemBlock(es, x), TypeOf(kind))), c, IndexAt(b, x).value)
    requires forall y :: Added(es + [e], y) == Added(es, y)
    requires forall y :: y != x ==> ItemBlock(es + [e], y) == ItemBlock(es, y)
    ensures Builds(t, es + [e])
  {
    hide Built, ItemBlock, Added, Touched, NamesAt;
    var b := Begun(Known(s, x, kind), x, kind);
    var i := IndexAt(b, x).value;
    assert forall y :: y != x ==> IndexAt(b, y) == IndexAt(s, y);
    var begun := IndexAt(s, x).Some?;
    assert b.out == if begun then s.out else s.out + [BlockStart(s.next, TypeOf(kind))];
    assert begun ==> IndexAt(s, x) == Some(i);
    assert !begun ==> i == s.next;
    forall j
      ensures Built(t.out, j) == if j == i then Touched(Some(OrFresh(ItemBlock(es, x), TypeOf(kind))), c, i) else Built(s.out, j)
    {
      BuiltSnoc(b.out, c, j);
      BuiltSnoc(s.out, BlockStart(s.next, TypeOf(kind)), j);
      StartTouches(Built(s.out, j), s.next, TypeOf(kind), j);
    }
    forall y | IndexAt(t, y).Some?
      ensures IndexAt(t, y).value < t.next && Built(t.out, IndexAt(t, y).value) == ItemBlock(es + [e], y)
    {
      assert y != x ==> IndexAt(s, y) == IndexAt(t, y) && IndexAt(s, y) != Some(i);
    }
    forall j | Built(t.out, j).Some?
      ensures exists y :: IndexAt(t, y) == Some(j)
    {
      if j == i {
        assert IndexAt(t, x) == Some(j);
      } else {
        var y :| IndexAt(s, y) == Some(j);
        assert IndexAt(t, y) == Some(j);
      }
    }
  }

  lemma StartTouches(o: Option<OpenBlock>, index: int, blockType: BlockType, i: int)
    ensures Touched(o, BlockStart(index, blockType), i) == if index == i then Some(Fresh(blockType)) else o
  {
  }

  lemma {:induction false} SpeechBuilds(s: Stage, es: seq<ResponseEvent>, e: ResponseEvent, x: string, kind: ItemKind, delta: string)
    requires Builds(s, es) && delta != "" && kind != ToolItem && !OnDelta(s, x, kind, delta).raised
    requires e == if kind == TextItem then TextDeltaEvent(x, delta) else ReasoningDeltaEvent(x, delta)
    ensures Builds(OnDelta(s, x, kind, delta), es + [e])
  {
    hide Builds, ItemBlock, Added;
    var b := Begun(Known(s, x, kind), x, kind);
    var i := b.items[x].index.value;
    var c := if kind == TextItem then TextDelta(i, delta) else ReasoningDelta(i, delta);
    forall y
      ensures ItemBlock(es + [e], y) == ItemStep(ItemBlock(es, y), Added(es, y), e, y) && Added(es + [e], y) == Added(es, y)
    {
      ItemSnoc(es, e, y);
    }
    TouchBuilds(s, OnDelta(s, x, kind, delta), es, e, x, kind, c);
  }

  lemma {:induction false} ArgumentsBuild(s: Stage, es: seq<ResponseEvent>, x: string, delta: string)
    requires Builds(s, es) && delta != ""
    ensures Builds(OnArguments(s, x, delta), es + [ArgumentsDeltaEvent(x, delta)])
  {
    var e := ArgumentsDeltaEvent(x, delta);
    assert NamesAt(s, x) == Added(es, x);
    hide Builds, ItemBlock, Added;
    var b := Begun(Known(s, x, ToolItem), x, ToolItem);
    var c := ToolCallDelta(b.items[x].index.value, b.items[x].callId, b.items[x].name, delta);
    forall y
      ensures ItemBlock(es + [e], y) == ItemStep(ItemBlock(es, y), Added(es, y), e, y) && Added(es + [e], y) == Added(es, y)
    {
      ItemSnoc(es, e, y);
    }
    TouchBuilds(s, OnArguments(s, x, delta), es, e, x, ToolItem, c);
  }

  lemma {:induction false} DoneBuilds(s: Stage, es: seq<ResponseEvent>, e: ResponseEvent)
    requires Builds(s, es) && e.ItemDoneEvent? && e.isFunction
    ensures Builds(OnDone(s, e.item, e.callId, e.name, e.arguments), es + [e])
  {
    hide Builds, ItemBlock, Added;
    var x := e.item;
    var b := Begun(Known(s, x, ToolItem), x, ToolItem);
    var c := BlockEnd(b.items[x].index.value, ToolBlockWire(e.callId, e.name, e.arguments));
    forall y
      ensures ItemBlock(es + [e], y) == ItemStep(ItemBlock(es, y), Added(es, y), e, y) && Added(es + [e], y) == Added(es, y)
    {
      ItemSnoc(es, e, y);
    }
    TouchBuilds(s, OnDone(s, x, e.callId, e.name, e.arguments), es, e, x, ToolItem, c);
  }

  lemma {:induction false} EventBuilds(s: Stage, es: seq<ResponseEvent>, e: ResponseEvent)
    requires Builds(s, es) && !OnEvent(s, e).raised
    ensures Builds(OnEvent(s, e), es + [e])
  {
    assert forall y :: NamesAt(s, y) == Added(es, y);
    hide Builds, ItemBlock, Added, OnDelta, OnArguments, OnDone;
    forall y
      ensures ItemBlock(es + [e], y) == ItemStep(ItemBlock(es, y), Added(es, y), e, y)
      ensures Added(es + [e], y) == if e.ItemAddedEvent? && e.isFunction && e.item == y then (e.callId, e.name) else Added(es, y)
    {
      ItemSnoc(es, e, y);
    }
    if e.TextDeltaEvent? && e.delta != "" {
      SpeechBuilds(s, es, e, e.item, TextItem, e.delta);
    } else if e.ReasoningDeltaEvent? && e.delta != "" {
      SpeechBuilds(s, es, e, e.item, ReasoningItem, e.delta);
    } else if e.ArgumentsDeltaEvent? && e.delta != "" {
      ArgumentsBuild(s, es, e.item, e.delta);
    } else if e.ItemDoneEvent? && e.isFunction {
      DoneBuilds(s, es, e);
    } else {
      Emptied(s, e);
      QuietBuilds(s, OnEvent(s, e), es, e);
    }
  }

  /** Empty deltas, announcements, completions and the events that are not read. */
  lemma Emptied(s: Stage, e: ResponseEvent)
    requires !OnEvent(s, e).raised
    requires (e.TextDeltaEvent? || e.ReasoningDeltaEvent? || e.ArgumentsDeltaEvent?) ==> e.delta == ""
    requires !(e.ItemDoneEvent? && e.isFunction)
    ensures var t := OnEvent(s, e);
      && t.out == s.out && t.next == s.next
      && forall x :: IndexAt(t, x) == IndexAt(s, x)
                     && NamesAt(t, x) == if e.ItemAddedEvent? && e.isFunction && e.item == x then (e.callId, e.name) else NamesAt(s, x)
  {
  }

  lemma {:induction false} ConsumedBuilds(es: seq<ResponseEvent>)
    requires !Consumed(es).raised
    ensures Builds(Consumed(es), es)
  {
    hide OnEvent, Builds;
    if es == [] {
      StartBuilds();
    } else {
      var init, e := es[..|es| - 1], es[|es| - 1];
      RaisedStays(Consumed(init), e);
      ConsumedBuilds(init);
      EventBuilds(Consumed(init), init, e);
      assert init + [e] == es;
    }
  }

  lemma StartBuilds()
    ensures Builds(START, [])
  {
  }

  lemma RaisedStays(s: Stage, e: ResponseEvent)
    ensures s.raised ==> OnEvent(s, e).raised
  {
  }

  // ---------------------------------------------------------------------------
  // What an item's block holds, read off the provider's events
  // ---------------------------------------------------------------------------

  function ArgumentsOf(e: ResponseEvent, x: string): string
  {
    if e.ArgumentsDeltaEvent? && e.item == x then e.delta else ""
  }

  /** The argument deltas of an item, one after the other. */
  function ArgumentDeltas(es: seq<ResponseEvent>, x: string): string
  {
    if es == [] then "" else ArgumentDeltas(es[..|es| - 1], x) + ArgumentsOf(es[|es| - 1], x)
  }

  /** The call id and name an item's argument deltas carry: the last ones announced in time that are not empty. */
  function CallSent(es: seq<ResponseEvent>, x: string): (string, string)
  {
    if es == [] then ("", "")
    else
      var before, added := CallSent(es[..|es| - 1], x), Added(es[..|es| - 1], x);
      if ArgumentsOf(es[|es| - 1], x) == "" then before
      else (if added.0 != "" then added.0 else before.0, if added.1 != "" then added.1 else before.1)
  }

  /** The item's call was closed. */
  predicate CallEnded(es: seq<ResponseEvent>, x: string)
  {
    es != [] && (CallEnded(es[..|es| - 1], x) || (es[|es| - 1].ItemDoneEvent? && es[|es| - 1].isFunction && es[|es| - 1].item == x))
  }

  /** What an item came to: all its text, all its reasoning, or its call with all its arguments. */
  function PartFor(es: seq<ResponseEvent>, x: string): Option<AssembledBlock>
  {
    if Deltas(es, x, false) != "" then Some(TextPart(Deltas(es, x, false)))
    else if Deltas(es, x, true) != "" then Some(ThinkingPart(Deltas(es, x, true)))
    else if ArgumentDeltas(es, x) != "" || CallEnded(es, x) then
      Some(ToolCallPart(CallSent(es, x).0, CallSent(es, x).1, ArgumentDeltas(es, x)))
    else None
  }

  /** An item's block against its story. */
  ghost predicate TellsItem(story: Story, b: Option<OpenBlock>, text: string, thought: string, arguments: string, call: (string, string), ended: bool)
  {
    match story
    case Speaking(reasoning, said) =>
      && b == Some(OpenBlock(if reasoning then Reasoning else Text, said, "", "", "")) && said != ""
      && text == (if reasoning then "" else said) && thought == (if reasoning then said else "") && arguments == "" && !ended
    case Calling =>
      && b == Some(OpenBlock(ToolCall, "", call.0, call.1, arguments))
      && text == "" && thought == "" && arguments != "" && !ended
    case CallDone =>
      && b == Some(OpenBlock(ToolCall, "", call.0, call.1, arguments))
      && text == "" && thought == "" && ended
    case _ => b == None && text == "" && thought == "" && arguments == "" && !ended && call == ("", "")
  }

  ghost predicate TellsAt(es: seq<ResponseEvent>, x: string)
  {
    TellsItem(StoryOf(Told(es), x), ItemBlock(es, x), Deltas(es, x, false), Deltas(es, x, true), ArgumentDeltas(es, x), CallSent(es, x), CallEnded(es, x))
  }

  lemma {:induction false} ItemTells(es: seq<ResponseEvent>, x: string)
    requires !Told(es).spoilt && !Told(es).raised
    ensures TellsAt(es, x)
  {
    hide Tell;
    if es != [] {
      var init, e := es[..|es| - 1], es[|es| - 1];
      TroubleStays(Told(init), e);
      ItemTells(init, x);
      hide Told, ItemBlock, Deltas, ArgumentDeltas, CallSent, CallEnded, Added;
      LastEvent(es, x);
      StepTells(Told(init), e, x, ItemBlock(init, x), Deltas(init, x, false), Deltas(init, x, true), ArgumentDeltas(init, x),
                CallSent(init, x), CallEnded(init, x), Added(init, x));
    }
  }

  lemma LastEvent(es: seq<ResponseEvent>, x: string)
    requires es != []
    ensures var init, e := es[..|es| - 1], es[|es| - 1]; var a, before := Added(init, x), CallSent(init, x);
      && Told(es) == Tell(Told(init), e)
      && ItemBlock(es, x) == ItemStep(ItemBlock(init, x), a, e, x)
      && Deltas(es, x, false) == Deltas(init, x, false) + DeltaOf(e, x, false)
      && Deltas(es, x, true) == Deltas(init, x, true) + DeltaOf(e, x, true)
      && ArgumentDeltas(es, x) == ArgumentDeltas(init, x) + ArgumentsOf(e, x)
      && CallSent(es, x) == (if ArgumentsOf(e, x) == "" then before
                             else (if a.0 != "" then a.0 else before.0, if a.1 != "" then a.1 else before.1))
      && (CallEnded(es, x) <==> CallEnded(init, x) || (e.ItemDoneEvent? && e.isFunction && e.item == x))
  {
  }

  lemma {:induction false} StepTells(t: Telling, e: ResponseEvent, x: string, b: Option<OpenBlock>, text: string, thought: string,
                                     arguments: string, call: (string, string), ended: bool, added: (string, string))
    requires !Tell(t, e).spoilt && !Tell(t, e).raised
    requires TellsItem(StoryOf(t, x), b, text, thought, arguments, call, ended)
    ensures TellsItem(StoryOf(Tell(t, e), x), ItemStep(b, added, e, x), text + DeltaOf(e, x, false), thought + DeltaOf(e, x, true),
                      arguments + ArgumentsOf(e, x),
                      if ArgumentsOf(e, x) == "" then call
                      else (if added.0 != "" then added.0 else call.0, if added.1 != "" then added.1 else call.1),
                      ended || (e.ItemDoneEvent? && e.isFunction && e.item == x))
  {
    assert text + "" == text && thought + "" == thought && arguments + "" == arguments;
    assert "" + DeltaOf(e, x, false) == DeltaOf(e, x, false) && "" + DeltaOf(e, x, true) == DeltaOf(e, x, true);
    assert "" + ArgumentsOf(e, x) == ArgumentsOf(e, x);
  }

  lemma {:induction false} PartIsBlock(es: seq<ResponseEvent>, x: string)
    requires !Told(es).spoilt && !Told(es).raised
    ensures PartFor(es, x) == if ItemBlock(es, x).Some? then Some(Finalize(ItemBlock(es, x).value)) else None
  {
    hide Told, ItemBlock, Deltas, ArgumentDeltas, CallSent, CallEnded;
    ItemTells(es, x);
  }

  // ---------------------------------------------------------------------------
  // Main result
  // ---------------------------------------------------------------------------

  /** Ends of blocks, usage and finishes build nothing. */
  lemma {:induction false} TailBuildsNothing(cs: seq<Chunk>, tail: seq<Chunk>, i: int)
    requires forall k :: 0 <= k < |tail| ==> tail[k].BlockEnd? || tail[k].UsageChunk? || tail[k].Finish?
    ensures Built(cs + tail, i) == Built(cs, i)
  {
    if tail == [] {
      assert cs + tail == cs;
    } else {
      var init, c := tail[..|tail| - 1], tail[|tail| - 1];
      assert cs + tail == (cs + init) + [c];
      BuiltSnoc(cs + init, c, i);
      assert c == tail[|tail| - 1];
      TailBuildsNothing(cs, init, i);
    }
  }

  lemma {:induction false} TailEndsAreEnds(items: map<string, Item>, order: seq<string>)
    ensures forall k :: 0 <= k < |TailEnds(items, order)| ==> TailEnds(items, order)[k].BlockEnd?
  {
    if order != [] { TailEndsAreEnds(items, order[..|order| - 1]); }
  }

  lemma {:induction false} OutputBuilds(es: seq<ResponseEvent>, ending: Ending, i: int)
    ensures Built(StreamOutput(es, ending), i) == Built(Consumed(es).out, i)
  {
    hide Consumed, TailEnds, Built;
    var s := Consumed(es);
    TailEndsAreEnds(s.items, s.order);
    var tail :=
      if s.raised then [ErrorFinish(MISSING_TEXT)]
      else if ending.Failed? then [ErrorFinish(ending.error)]
      else TailEnds(s.items, s.order) + (if s.usage.Some? then [UsageChunk(s.usage.value)] else []) + [ClosingFinish(s)];
    assert StreamOutput(es, ending) == s.out + tail;
    TailBuildsNothing(s.out, tail, i);
  }

  lemma NothingLeftOpen(cs: seq<Chunk>)
    requires Accepts(cs)
    ensures FeedAll(cs).Ok? && FeedAll(cs).value.open.Keys == {}
  {
    IndicesPartitioned(cs);
  }

  function PlaceOf(at: map<string, int>, x: string): int { if x in at then at[x] else 0 }

  /** Each item that came to something has a block of its own, with what it came to, and there are no other blocks. */
  ghost predicate ItemByItem(p: Progress, es: seq<ResponseEvent>, at: map<string, int>)
  {
    && (forall x :: x in at <==> PartFor(es, x).Some?)
    && (forall x, y :: x in at && y in at && PlaceOf(at, x) == PlaceOf(at, y) ==> x == y)
    && (forall i :: i in p.blocks <==> exists x :: x in at && PlaceOf(at, x) == i)
    && (forall x :: x in at ==> PlaceOf(at, x) in p.blocks && Some(p.blocks[PlaceOf(at, x)]) == PartFor(es, x))
  }

  /**
   * Every accepted turn in which no text came for a call, however it ends: the assembled blocks are,
   * one by one, the output items: each text and each reasoning whole, each call with all its arguments
   * and the id and name its deltas carried.
   */
  lemma {:induction false} ItemsAreAssembled(es: seq<ResponseEvent>, ending: Ending) returns (final: Progress, at: map<string, int>)
    requires Accepts(StreamOutput(es, ending)) && !Told(es).raised
    ensures FeedAll(StreamOutput(es, ending)) == Ok(final) && ItemByItem(final, es, at)
  {
    hide Consumed, StreamOutput, Accepts, FeedAll, Told, PartFor, ItemBlock, Built, Added, InStep;
    var s, out := Consumed(es), StreamOutput(es, ending);
    AcceptedExactly(es, ending);
    var p, owner := ConsumedAfter(es);
    Basics(s, p, Told(es), owner);
    ConsumedBuilds(es);
    NothingLeftOpen(out);
    final := FeedAll(out).value;
    at := map x | x in s.items && s.items[x].index.Some? :: s.items[x].index.value;
    forall i
      ensures i in final.blocks <==> Built(s.out, i).Some?
      ensures i in final.blocks ==> final.blocks[i] == Finalize(Built(s.out, i).value)
    {
      OutputBuilds(es, ending, i);
      BuiltAsFed(out, i);
      assert i !in final.open.Keys;
    }
    forall x
      ensures PartFor(es, x) == if ItemBlock(es, x).Some? then Some(Finalize(ItemBlock(es, x).value)) else None
      ensures x in at <==> IndexAt(s, x).Some?
      ensures x in at ==> IndexAt(s, x) == Some(PlaceOf(at, x))
    {
      PartIsBlock(es, x);
    }
  }
}
