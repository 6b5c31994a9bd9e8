/**
 * What the provider will see of an assistant message, as a value that grows block by block. Two
 * messages with the same view flatten to the same provider messages, and go on doing so.
 */
module Views {
  import opened Prelude
  import opened Messages
  import opened Events
  import opened Flatten

  /** Finished provider messages, and what the next one holds so far. */
  datatype View = View(out: seq<Message>, next: Said)

  datatype Said = Said(parts: seq<Part>, thoughts: seq<string>, calls: seq<CallDict>, any: bool)

  const NOTHING: Said := Said([], [], [], false)

  function SaidIn(bs: seq<Block>): Said { Said(ContentParts(bs), Thoughts(bs), CallsOf(bs), bs != []) }

  function Both(a: Said, b: Said): Said
  {
    Said(a.parts + b.parts, a.thoughts + b.thoughts, a.calls + b.calls, a.any || b.any)
  }

  function ViewOf(bs: seq<Block>): View
  {
    var p := AddBlocks(bs, Assistant);
    View(p.out, SaidIn(p.waiting))
  }

  function Sealed(v: View): seq<Message>
  {
    if v.next.any then v.out + [CombinedMessage(Assistant, v.next.parts, v.next.thoughts, v.next.calls)] else v.out
  }

  /** The provider messages of a message depend on its view alone. */
  lemma FlatIsSealed(bs: seq<Block>)
    ensures Flat(bs, Assistant) ==
      if Sealed(ViewOf(bs)) == [] then [CombinedMessage(Assistant, [], [], [])] else Sealed(ViewOf(bs))
  {
    assert ToMessage([], Assistant) == CombinedMessage(Assistant, [], [], []);
  }

  lemma {:induction false} SaidAppend(a: seq<Block>, b: seq<Block>)
    ensures SaidIn(a + b) == Both(SaidIn(a), SaidIn(b))
  {
    if b == [] {
      assert a + b == a;
      assert Both(SaidIn(a), SaidIn([])) == SaidIn(a);
    } else {
      var init, last := b[..|b| - 1], b[|b| - 1];
      assert (a + b)[..|a + b| - 1] == a + init;
      SaidAppend(a, init);
    }
  }

  predicate Breaks(b: Block) { b.HintBlock? || b.ToolResultBlock? }

  /** The message a hint or a result becomes. */
  function BreakMessage(b: Block): Message
    requires Breaks(b)
  {
    if b.HintBlock? then HintMessage(b.hint) else ToolMessage(b.resultId, OutputText(b.output))
  }

  /** Blocks that all go into one provider message. */
  ghost predicate OneRun(bs: seq<Block>)
  {
    forall i :: 0 <= i < |bs| ==> !Breaks(bs[i])
  }

  lemma {:induction false} AddRun(a: seq<Block>, run: seq<Block>)
    requires OneRun(run)
    ensures AddBlocks(a + run, Assistant) == Partial(AddBlocks(a, Assistant).out, AddBlocks(a, Assistant).waiting + run)
  {
    if run == [] {
      assert a + run == a;
    } else {
      var init, last := run[..|run| - 1], run[|run| - 1];
      assert (a + run)[..|a + run| - 1] == a + init;
      AddRun(a, init);
      var w := AddBlocks(a, Assistant).waiting;
      assert w + init + [last] == w + run;
    }
  }

  lemma {:induction false} ViewAfterRun(a: seq<Block>, run: seq<Block>)
    requires OneRun(run)
    ensures ViewOf(a + run) == View(ViewOf(a).out, Both(ViewOf(a).next, SaidIn(run)))
  {
    AddRun(a, run);
    SaidAppend(AddBlocks(a, Assistant).waiting, run);
  }

  lemma {:induction false} ViewAfterBreak(a: seq<Block>, b: Block)
    requires Breaks(b)
    ensures ViewOf(a + [b]) == View(Sealed(ViewOf(a)) + [BreakMessage(b)], NOTHING)
  {
    assert (a + [b])[..|a|] == a;
  }

  // ---------------------------------------------------------------------------
  // States do not show
  // ---------------------------------------------------------------------------

  function Bare(b: Block): Block
  {
    match b
    case ToolCallBlock(_, _, _, _) => b.(state := Pending)
    case ToolResultBlock(_, _, _, _) => b.(resultState := Running)
    case _ => b
  }

  ghost predicate SameBare(a: seq<Block>, b: seq<Block>)
  {
    |a| == |b| && forall i :: 0 <= i < |a| ==> Bare(a[i]) == Bare(b[i])
  }

  lemma {:induction false} SaidBare(a: seq<Block>, b: seq<Block>)
    requires SameBare(a, b)
    ensures SaidIn(a) == SaidIn(b)
  {
    if a != [] {
      var n := |a| - 1;
      SaidBare(a[..n], b[..n]);
      assert Bare(a[n]) == Bare(b[n]);
    }
  }

  lemma {:induction false} AddBare(a: seq<Block>, b: seq<Block>)
    requires SameBare(a, b)
    ensures AddBlocks(a, Assistant).out == AddBlocks(b, Assistant).out
    ensures SameBare(AddBlocks(a, Assistant).waiting, AddBlocks(b, Assistant).waiting)
  {
    if a != [] {
      var n := |a| - 1;
      AddBare(a[..n], b[..n]);
      SaidBare(AddBlocks(a[..n], Assistant).waiting, AddBlocks(b[..n], Assistant).waiting);
      assert Bare(a[n]) == Bare(b[n]);
    }
  }

  lemma {:induction false} ViewBare(a: seq<Block>, b: seq<Block>)
    requires SameBare(a, b)
    ensures ViewOf(a) == ViewOf(b)
  {
    AddBare(a, b);
    SaidBare(AddBlocks(a, Assistant).waiting, AddBlocks(b, Assistant).waiting);
  }

  lemma {:induction false} SetStateBare(bs: seq<Block>, id: string, state: CallState)
    ensures SameBare(bs, WithCallState(bs, id, state))
  {
  }
}
