/**
 * The stream contract, stated on chunk positions only, and the proof that the assembler
 * recognises exactly the sequences that meet it.
 */
module BlockContract {
  import opened Prelude
  import opened StreamChunks
  import opened BlockAssembly

  ghost predicate Ends(c: Chunk, i: int) { c.BlockEnd? && c.index == i }

  function StartCount(h: seq<Chunk>): nat
  {
    if h == [] then 0
    else StartCount(h[..|h| - 1]) + (if h[|h| - 1].BlockStart? then 1 else 0)
  }

  /** Block `i` was started at position `q` with type `t` and not ended since. */
  ghost predicate OpenSince(h: seq<Chunk>, q: int, i: int, t: BlockType)
  {
    0 <= q < |h| && h[q] == BlockStart(i, t) && forall r :: q < r < |h| ==> !Ends(h[r], i)
  }

  ghost predicate IsOpen(h: seq<Chunk>, i: int, t: BlockType)
  {
    exists q :: OpenSince(h, q, i, t)
  }

  /** What the contract demands of a chunk that follows the history `h`. */
  ghost predicate Allowed(h: seq<Chunk>, c: Chunk)
  {
    && (forall q :: 0 <= q < |h| ==> !h[q].Finish?)
    && match c
       case BlockStart(i, t) => i == StartCount(h) && t.Legal()
       case TextDelta(i, _) => IsOpen(h, i, Text)
       case ReasoningDelta(i, _) => IsOpen(h, i, Reasoning)
       case ToolCallDelta(i, _, _, _) => IsOpen(h, i, ToolCall)
       case BlockEnd(i, wire) => exists t :: IsOpen(h, i, t) && (wire.wireType == Untyped || wire.wireType == ToWire(t))
       case UsageChunk(_) => true
       case Finish(_) => true
       case Unknown => false
  }

  ghost predicate EndedLater(cs: seq<Chunk>, q: int)
    requires 0 <= q < |cs| && cs[q].BlockStart?
  {
    exists r :: q < r < |cs| && Ends(cs[r], cs[q].index)
  }

  /** The declared contract of a complete stream. */
  ghost predicate MeetsContract(cs: seq<Chunk>)
  {
    && (forall p :: 0 <= p < |cs| ==> Allowed(cs[..p], cs[p]))
    && (forall q :: 0 <= q < |cs| && cs[q].BlockStart? ==> EndedLater(cs, q))
    && cs != [] && cs[|cs| - 1].Finish?
  }

  // ---------------------------------------------------------------------------
  // Per-block view of a history
  // ---------------------------------------------------------------------------

  predicate Touches(c: Chunk, i: int)
  {
    (c.BlockStart? || c.TextDelta? || c.ReasoningDelta? || c.ToolCallDelta? || c.BlockEnd?) && c.index == i
  }

  /** The chunks that belong to block `i`, in order. */
  function Own(h: seq<Chunk>, i: int): seq<Chunk>
  {
    if h == [] then []
    else Own(h[..|h| - 1], i) + (if Touches(h[|h| - 1], i) then [h[|h| - 1]] else [])
  }

  function Extended(before: OpenBlock, c: Chunk): OpenBlock
  {
    match c
    case BlockStart(_, t) => Fresh(t)
    case TextDelta(_, text) => AddText(before, text)
    case ReasoningDelta(_, text) => AddText(before, text)
    case ToolCallDelta(_, id, name, arguments) => AddTool(before, id, name, arguments)
    case _ => before
  }

  /** The content that one block's own chunks accumulate. */
  function Accumulated(own: seq<Chunk>): OpenBlock
  {
    if own == [] then Fresh(Text) else Extended(Accumulated(own[..|own| - 1]), own[|own| - 1])
  }

  function FinishOf(h: seq<Chunk>): Option<FinishReason>
  {
    if h == [] then None
    else if h[|h| - 1].Finish? then Some(h[|h| - 1].reason) else FinishOf(h[..|h| - 1])
  }

  /** The indices: open and finished ones partition `0..next`, and each has chunks of its own. */
  ghost predicate IndicesMirror(h: seq<Chunk>, p: Progress)
  {
    && p.next == StartCount(h)
    && p.pending == p.open.Keys
    && p.open.Keys !! p.blocks.Keys
    && (forall i :: 0 <= i < p.next <==> i in p.open || i in p.blocks)
    && (forall i :: Own(h, i) != [] <==> 0 <= i < p.next)
  }

  /** The open blocks are the started and unended ones, with their types. */
  ghost predicate OpenMirrors(h: seq<Chunk>, p: Progress)
  {
    && (forall i :: i in p.open ==> IsOpen(h, i, p.open[i].blockType))
    && (forall i, t :: IsOpen(h, i, t) ==> i in p.open && p.open[i].blockType == t)
  }

  /** The contents are what each block's own chunks accumulate. */
  ghost predicate ContentMirrors(h: seq<Chunk>, p: Progress)
  {
    && (forall i :: i in p.open ==> p.open[i] == Accumulated(Own(h, i)))
    && (forall i :: i in p.blocks ==> p.blocks[i] == Finalize(Accumulated(Own(h, i))))
  }

  ghost predicate FinishMirrors(h: seq<Chunk>, p: Progress)
  {
    && p.finish == FinishOf(h)
    && (p.Finished() <==> exists q :: 0 <= q < |h| && h[q].Finish?)
  }

  /** How an assembler value mirrors the history it was fed. */
  ghost predicate Mirrors(h: seq<Chunk>, p: Progress)
  {
    IndicesMirror(h, p) && OpenMirrors(h, p) && ContentMirrors(h, p) && FinishMirrors(h, p)
  }

  lemma {:induction false} SnocFacts(h: seq<Chunk>, c: Chunk)
    ensures (h + [c])[..|h|] == h && (h + [c])[|h|] == c
    ensures StartCount(h + [c]) == StartCount(h) + if c.BlockStart? then 1 else 0
    ensures forall i :: Own(h + [c], i) == if Touches(c, i) then Own(h, i) + [c] else Own(h, i)
    ensures FinishOf(h + [c]) == if c.Finish? then Some(c.reason) else FinishOf(h)
    ensures FeedAll(h + [c]) == if FeedAll(h).Ok? then Feed(FeedAll(h).value, c) else FeedAll(h)
  {
    assert (h + [c])[..|h|] == h;
  }

  lemma {:induction false} OpenSnoc(h: seq<Chunk>, c: Chunk, i: int, t: BlockType)
    ensures IsOpen(h + [c], i, t) <==> (c == BlockStart(i, t) || (IsOpen(h, i, t) && !Ends(c, i)))
  {
    var g := h + [c];
    if c == BlockStart(i, t) {
      assert OpenSince(g, |h|, i, t);
    }
    if IsOpen(h, i, t) && !Ends(c, i) {
      var q :| OpenSince(h, q, i, t);
      assert OpenSince(g, q, i, t);
    }
    if IsOpen(g, i, t) && c != BlockStart(i, t) {
      var q :| OpenSince(g, q, i, t);
      assert q < |h|;
      assert forall r :: q < r < |h| ==> h[r] == g[r];
      assert OpenSince(h, q, i, t);
      assert g[|h|] == c;
    }
  }

  lemma {:induction false} FinishSnoc(h: seq<Chunk>, c: Chunk)
    ensures (exists q :: 0 <= q < |h + [c]| && (h + [c])[q].Finish?)
       <==> c.Finish? || (exists q :: 0 <= q < |h| && h[q].Finish?)
  {
    var g := h + [c];
    if c.Finish? { assert g[|h|].Finish?; }
    if q :| 0 <= q < |h| && h[q].Finish? { assert g[q].Finish?; }
  }

  /** `feed` takes a chunk exactly when the contract allows it. */
  lemma {:induction false} FeedIffAllowed(h: seq<Chunk>, p: Progress, c: Chunk)
    requires Mirrors(h, p)
    ensures Feed(p, c).Ok? <==> Allowed(h, c)
  {
  }

  lemma {:induction false} AccumulatedSnoc(own: seq<Chunk>, c: Chunk)
    ensures Accumulated(own + [c]) == Extended(Accumulated(own), c)
  {
    assert (own + [c])[..|own|] == own;
  }

  lemma {:induction false} IndicesStep(h: seq<Chunk>, p: Progress, c: Chunk)
    requires Mirrors(h, p) && Feed(p, c).Ok?
    ensures IndicesMirror(h + [c], Feed(p, c).value)
  {
    hide IsOpen, OpenSince, Accumulated, Finalize, FeedAll, FinishOf, FinishMirrors, ContentMirrors, OpenMirrors;
    SnocFacts(h, c);
  }

  lemma {:induction false} OpenStep(h: seq<Chunk>, p: Progress, c: Chunk)
    requires Mirrors(h, p) && Feed(p, c).Ok?
    ensures OpenMirrors(h + [c], Feed(p, c).value)
  {
    hide Own, Accumulated, Finalize, FeedAll, FinishOf, ContentMirrors, OpenSince;
    var p' := Feed(p, c).value;
    forall i | i in p'.open
      ensures IsOpen(h + [c], i, p'.open[i].blockType)
    {
      OpenSnoc(h, c, i, p'.open[i].blockType);
    }
    forall i, t | IsOpen(h + [c], i, t)
      ensures i in p'.open && p'.open[i].blockType == t
    {
      OpenSnoc(h, c, i, t);
    }
  }

  /** The content of one block after one more chunk. */
  lemma {:induction false} ContentStepAt(h: seq<Chunk>, p: Progress, c: Chunk, i: int)
    requires ContentMirrors(h, p) && Feed(p, c).Ok?
    requires (i in p.open ==> i !in p.blocks) && (i in p.blocks ==> i < p.next)
    ensures var p' := Feed(p, c).value;
      && (i in p'.open ==> p'.open[i] == Accumulated(Own(h + [c], i)))
      && (i in p'.blocks ==> p'.blocks[i] == Finalize(Accumulated(Own(h + [c], i))))
  {
    hide FeedAll, FinishOf, StartCount;
    OwnSnoc(h, c, i);
    AccumulatedSnoc(Own(h, i), c);
    hide Accumulated, Own, Finalize;
  }

  lemma {:induction false} OwnSnoc(h: seq<Chunk>, c: Chunk, i: int)
    ensures Own(h + [c], i) == if Touches(c, i) then Own(h, i) + [c] else Own(h, i)
  {
    assert (h + [c])[..|h|] == h;
  }

  lemma {:induction false} ContentStep(h: seq<Chunk>, p: Progress, c: Chunk)
    requires Mirrors(h, p) && Feed(p, c).Ok?
    ensures ContentMirrors(h + [c], Feed(p, c).value)
  {
    hide Accumulated, Own, Finalize, Feed, OpenMirrors, FinishMirrors, FeedAll;
    forall i
      ensures i in Feed(p, c).value.open ==> Feed(p, c).value.open[i] == Accumulated(Own(h + [c], i))
      ensures i in Feed(p, c).value.blocks ==> Feed(p, c).value.blocks[i] == Finalize(Accumulated(Own(h + [c], i)))
    {
      ContentStepAt(h, p, c, i);
    }
  }

  lemma {:induction false} FinishStep(h: seq<Chunk>, p: Progress, c: Chunk)
    requires Mirrors(h, p) && Feed(p, c).Ok?
    ensures FinishMirrors(h + [c], Feed(p, c).value)
  {
    SnocFacts(h, c);
    FinishSnoc(h, c);
  }

  lemma {:induction false} MirrorsStep(h: seq<Chunk>, p: Progress, c: Chunk)
    requires Mirrors(h, p) && Feed(p, c).Ok?
    ensures Mirrors(h + [c], Feed(p, c).value)
  {
    IndicesStep(h, p, c);
    OpenStep(h, p, c);
    ContentStep(h, p, c);
    FinishStep(h, p, c);
  }

  /** Over a whole history: it is taken chunk by chunk exactly when every chunk is allowed. */
  lemma {:induction false} FeedAllIffAllowed(h: seq<Chunk>)
    ensures FeedAll(h).Ok? <==> forall p :: 0 <= p < |h| ==> Allowed(h[..p], h[p])
    ensures FeedAll(h).Ok? ==> Mirrors(h, FeedAll(h).value)
  {
    if h != [] {
      var init, c := h[..|h| - 1], h[|h| - 1];
      FeedAllIffAllowed(init);
      assert forall p :: 0 <= p < |init| ==> h[..p] == init[..p] && h[p] == init[p];
      assert h == init + [c];
      if FeedAll(init).Ok? {
        FeedIffAllowed(init, FeedAll(init).value, c);
        if Feed(FeedAll(init).value, c).Ok? {
          MirrorsStep(init, FeedAll(init).value, c);
        }
      }
    }
  }

  /** Open and finished indices partition `0..next` after every accepted prefix. */
  lemma {:induction false} IndicesPartitioned(h: seq<Chunk>)
    requires FeedAll(h).Ok?
    ensures var p := FeedAll(h).value;
      && p.next == StartCount(h)
      && p.pending == p.open.Keys
      && p.open.Keys !! p.blocks.Keys
      && (forall i :: 0 <= i < p.next <==> i in p.open.Keys || i in p.blocks.Keys)
  {
    FeedAllIffAllowed(h);
  }

  lemma {:induction false} NothingOpenIffAllEnded(cs: seq<Chunk>)
    requires FeedAll(cs).Ok?
    ensures (forall i :: i !in FeedAll(cs).value.open) <==> forall q :: 0 <= q < |cs| && cs[q].BlockStart? ==> EndedLater(cs, q)
  {
    assert OpenMirrors(cs, FeedAll(cs).value) by { FeedAllIffAllowed(cs); }
    var p := FeedAll(cs).value;
    if i :| i in p.open {
      var q :| OpenSince(cs, q, i, p.open[i].blockType);
      assert cs[q].BlockStart? && !EndedLater(cs, q);
    } else {
      forall q | 0 <= q < |cs| && cs[q].BlockStart?
        ensures EndedLater(cs, q)
      {
        if !EndedLater(cs, q) {
          assert OpenSince(cs, q, cs[q].index, cs[q].blockType);
          assert IsOpen(cs, cs[q].index, cs[q].blockType);
          assert false;
        }
      }
    }
  }

  /** In a sequence taken chunk by chunk, a finish is seen exactly when the last chunk is one. */
  lemma {:induction false} FinishedIffLast(cs: seq<Chunk>)
    requires FeedAll(cs).Ok?
    ensures FeedAll(cs).value.Finished() <==> cs != [] && cs[|cs| - 1].Finish?
  {
    if cs != [] {
      var init, c := cs[..|cs| - 1], cs[|cs| - 1];
      assert !FeedAll(init).value.Finished();
    }
  }

  lemma {:induction false} NoneIn(m: map<int, OpenBlock>)
    ensures m.Keys == {} <==> forall i :: i !in m
  {
    if forall i :: i !in m {
      assert m.Keys <= {};
    }
  }

  /** The recogniser accepts exactly the declared contract. */
  lemma {:induction false} ExactRecogniser(cs: seq<Chunk>)
    ensures Accepts(cs) <==> MeetsContract(cs)
  {
    assert FeedAll(cs).Ok? <==> forall p :: 0 <= p < |cs| ==> Allowed(cs[..p], cs[p]) by {
      FeedAllIffAllowed(cs);
    }
    if FeedAll(cs).Ok? {
      var p := FeedAll(cs).value;
      IndicesPartitioned(cs);
      NoneIn(p.open);
      NothingOpenIffAllEnded(cs);
      FinishedIffLast(cs);
    }
  }

  // ---------------------------------------------------------------------------
  // Interleaving independence
  // ---------------------------------------------------------------------------

  lemma {:induction false} BlocksFromAgree(p1: Progress, p2: Progress, from: int)
    requires p1.next == p2.next && p1.blocks == p2.blocks
    ensures BlocksFrom(p1, from) == BlocksFrom(p2, from)
    decreases p1.next - from
  {
    if from < p1.next {
      BlocksFromAgree(p1, p2, from + 1);
    }
  }

  /**
   * Two accepted streams that agree on the finish and, block by block, on that block's
   * own chunks assemble the same blocks, however the blocks' chunks interleave.
   */
  lemma {:induction false} InterleavingIndependent(c1: seq<Chunk>, c2: seq<Chunk>)
    requires Accepts(c1) && Accepts(c2)
    requires forall i :: Own(c1, i) == Own(c2, i)
    requires FinishOf(c1) == FinishOf(c2)
    ensures Blocks(FeedAll(c1).value) == Blocks(FeedAll(c2).value)
  {
    hide Own, FeedAll, BlocksFrom, Accumulated, Finalize, OpenMirrors;
    FeedAllIffAllowed(c1);
    FeedAllIffAllowed(c2);
    var p1, p2 := FeedAll(c1).value, FeedAll(c2).value;
    assert p1.next == p2.next by {
      assert Own(c1, p1.next) == Own(c2, p1.next) && Own(c1, p2.next) == Own(c2, p2.next);
    }
    assert forall i :: i in p1.blocks <==> 0 <= i < p1.next;
    assert forall i :: i in p2.blocks <==> 0 <= i < p2.next;
    assert p1.blocks.Keys == p2.blocks.Keys;
    BlocksFromAgree(p1, p2, 0);
  }
}
