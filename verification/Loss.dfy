/**
 * Balance is exact: a request made from a context loses a call or a result if and only if the context
 * is not balanced. A reader of the provider messages shows it: it mirrors the reader of the blocks.
 */
module Loss {
  import opened Prelude
  import opened Messages
  import opened Flatten
  import opened Normalize
  import opened ToolGrammar
  import opened Balance

  // ---------------------------------------------------------------------------
  // Reading provider messages
  // ---------------------------------------------------------------------------

  function GivenIds(calls: seq<CallDict>): seq<string>
  {
    if calls == [] then []
    else GivenIds(calls[..|calls| - 1]) + [if calls[|calls| - 1].id.Some? then calls[|calls| - 1].id.value else ""]
  }

  /** Where a reader of provider messages stands after one more. */
  ghost function Heard(s: Standing, m: Message): Standing
  {
    if s.Broken? then Broken
    else if m.role == Tool then
      if !Settled(s) && m.toolCallId.Some? && m.toolCallId.value in s.called && m.toolCallId.value !in s.answered then
        Standing(s.called, s.answered + [m.toolCallId.value])
      else Broken
    else if !Settled(s) then Broken
    else if m.role == Assistant && Calls(m) != [] then
      if DistinctGiven(GivenIds(Calls(m))) then Standing(GivenIds(Calls(m)), []) else Broken
    else LEVEL
  }

  ghost function HeardAll(s: Standing, ms: seq<Message>): Standing
  {
    if ms == [] then s else Heard(HeardAll(s, ms[..|ms| - 1]), ms[|ms| - 1])
  }

  lemma {:induction false} HeardAppend(s: Standing, a: seq<Message>, b: seq<Message>)
    ensures HeardAll(s, a + b) == HeardAll(HeardAll(s, a), b)
  {
    hide Heard;
    if b == [] {
      assert a + b == a;
    } else {
      assert (a + b)[..|a + b| - 1] == a + b[..|b| - 1] && (a + b)[|a + b| - 1] == b[|b| - 1];
      HeardAppend(s, a, b[..|b| - 1]);
    }
  }

  lemma HeardOne(s: Standing, m: Message)
    ensures HeardAll(s, [m]) == Heard(s, m)
  {
    assert [m][..0] == [];
  }

  lemma HeardNone(s: Standing)
    ensures HeardAll(s, []) == s
  {
  }

  lemma {:induction false} BrokenForGood(ms: seq<Message>)
    ensures HeardAll(Broken, ms) == Broken
  {
    if ms != [] { BrokenForGood(ms[..|ms| - 1]); }
  }

  // ---------------------------------------------------------------------------
  // Paired units are heard out
  // ---------------------------------------------------------------------------

  lemma {:induction false} GivenIdsAt(calls: seq<CallDict>)
    ensures |GivenIds(calls)| == |calls|
    ensures forall i :: 0 <= i < |calls| ==> GivenIds(calls)[i] == if calls[i].id.Some? then calls[i].id.value else ""
  {
    if calls != [] { GivenIdsAt(calls[..|calls| - 1]); }
  }

  /** The results of a group, heard one by one. */
  lemma {:induction false} ResultsHeard(calls: seq<CallDict>, results: seq<Message>, n: nat)
    requires PairsOff(calls, results) && AllTool(results) && n <= |results|
    ensures var s := HeardAll(Standing(GivenIds(calls), []), results[..n]);
      && s.Standing? && s.called == GivenIds(calls) && |s.answered| == n
      && forall i :: 0 <= i < n ==> results[i].toolCallId == Some(s.answered[i])
  {
    hide GivenIds;
    GivenIdsAt(calls);
    if n > 0 {
      ResultsHeard(calls, results, n - 1);
      assert results[..n][..n - 1] == results[..n - 1];
      ResultIsGiven(calls, results, n - 1);
    }
  }

  lemma {:induction false} ResultIsGiven(calls: seq<CallDict>, results: seq<Message>, j: nat)
    requires PairsOff(calls, results) && j < |results|
    ensures results[j].toolCallId.Some? && results[j].toolCallId.value in GivenIds(calls)
  {
    GivenIdsAt(calls);
    CallIdsAt(calls);
    ResultIdsAt(results);
    PairsOffElements(calls, results);
    ElementsAre(ResultIds(results), ResultIds(results)[j]);
    ElementsAre(CallIds(calls), ResultIds(results)[j]);
    var i :| 0 <= i < |CallIds(calls)| && CallIds(calls)[i] == ResultIds(results)[j];
    assert GivenIds(calls)[i] == results[j].toolCallId.value;
  }

  lemma {:induction false} UnitHeard(s: Standing, u: Unit)
    requires Settled(s) && Paired(u)
    ensures Settled(HeardAll(s, RenderUnit(u)))
  {
    HeardOne(s, u.m);
    if u.Group? {
      GivenIdsAt(Calls(u.m));
      HeardAppend(s, [u.m], u.results);
      ResultsHeard(Calls(u.m), u.results, |u.results|);
      assert u.results[..|u.results|] == u.results;
    }
  }

  lemma {:induction false} UnitsHeard(s: Standing, us: seq<Unit>)
    requires Settled(s) && AllPaired(us)
    ensures Settled(HeardAll(s, Render(us)))
    decreases |us|
  {
    if us != [] {
      UnitHeard(s, us[0]);
      UnitsHeard(HeardAll(s, RenderUnit(us[0])), us[1..]);
      HeardAppend(s, RenderUnit(us[0]), Render(us[1..]));
    }
  }

  // ---------------------------------------------------------------------------
  // The reader of messages mirrors the reader of blocks
  // ---------------------------------------------------------------------------

  lemma {:induction false} CallsGiven(bs: seq<Block>)
    ensures GivenIds(CallsOf(bs)) == IdsOfCalls(bs)
  {
    if bs != [] {
      var init, b := CallsOf(bs[..|bs| - 1]), bs[|bs| - 1];
      CallsGiven(bs[..|bs| - 1]);
      if b.ToolCallBlock? {
        assert CallsOf(bs)[..|CallsOf(bs)| - 1] == init;
      } else {
        assert CallsOf(bs) == init;
      }
    }
  }

  /** The reader will break as soon as what waits is flushed, if it has not broken yet. */
  ghost predicate Doomed(heard: Standing, waiting: seq<Block>)
  {
    || heard.Broken?
    || (waiting != [] && (!Settled(heard) || !DistinctGiven(IdsOfCalls(waiting))))
  }

  /** The reader of the messages flushed so far, against the reader of the blocks. */
  ghost predicate Mirrors(heard: Standing, waiting: seq<Block>, s: Standing)
  {
    if s.Broken? then Doomed(heard, waiting)
    else
      && DistinctGiven(s.called) && |s.answered| <= |s.called|
      && (forall i :: 0 <= i < |s.answered| ==> s.answered[i] in s.called)
      && (forall i, j :: 0 <= i < j < |s.answered| ==> s.answered[i] != s.answered[j])
      && (s.answered == [] ==> Settled(heard) && IdsOfCalls(waiting) == s.called)
      && (s.answered != [] ==> waiting == [] && heard == s)
  }

  /** What flushing does to the reader. */
  ghost function Flushed(heard: Standing, waiting: seq<Block>): Standing
  {
    if waiting == [] || heard.Broken? then heard
    else if !Settled(heard) then Broken
    else if IdsOfCalls(waiting) == [] then LEVEL
    else if DistinctGiven(IdsOfCalls(waiting)) then Standing(IdsOfCalls(waiting), [])
    else Broken
  }

  lemma {:induction false} FlushHeard(s0: Standing, p: Partial)
    ensures HeardAll(s0, Flush(p, Assistant)) == Flushed(HeardAll(s0, p.out), p.waiting)
  {
    if p.waiting != [] {
      var m := ToMessage(p.waiting, Assistant);
      HeardAppend(s0, p.out, [m]);
      HeardOne(HeardAll(s0, p.out), m);
      CallsGiven(p.waiting);
      NoIdsNoCalls(p.waiting);
      MessageCalls(p.waiting);
    }
  }

  lemma MessageCalls(bs: seq<Block>)
    ensures Calls(ToMessage(bs, Assistant)) == CallsOf(bs) && ToMessage(bs, Assistant).role == Assistant
  {
  }

  lemma {:induction false} MirrorsHint(heard: Standing, waiting: seq<Block>, s: Standing, b: Block, m: Message)
    requires Mirrors(heard, waiting, s) && b.HintBlock? && m.role == User && NothingWaiting(waiting, s)
    ensures Mirrors(Heard(Flushed(heard, waiting), m), [], AfterBlock(s, b))
  {
    assert IdsOfCalls([]) == [];
  }

  /** When no call waits and none is answered, nothing is called. */
  ghost predicate NothingWaiting(waiting: seq<Block>, s: Standing)
  {
    waiting == [] ==> IdsOfCalls(waiting) == []
  }

  lemma {:induction false} MirrorsResult(heard: Standing, waiting: seq<Block>, s: Standing, b: Block, m: Message)
    requires Mirrors(heard, waiting, s) && b.ToolResultBlock? && m.role == Tool && m.toolCallId == Some(b.resultId) && NothingWaiting(waiting, s)
    ensures Mirrors(Heard(Flushed(heard, waiting), m), [], AfterBlock(s, b))
  {
    assert IdsOfCalls([]) == [];
    if !s.Broken? && |s.answered| == |s.called| { AllAnswered(s.called, s.answered); }
    if !s.Broken? && b.resultId in s.called && b.resultId !in s.answered {
      AnsweredFit(s.called, s.answered + [b.resultId]);
    }
  }

  lemma {:induction false} MirrorsOther(heard: Standing, waiting: seq<Block>, s: Standing, b: Block)
    requires Mirrors(heard, waiting, s) && !b.HintBlock? && !b.ToolResultBlock? && NothingWaiting(waiting, s)
    ensures Mirrors(heard, waiting + [b], AfterBlock(s, b))
  {
    IdsSnoc(waiting, b);
    GrownIds(IdsOfCalls(waiting), if b.ToolCallBlock? then b.callId else "");
    assert IdsOfCalls(waiting) + [] == IdsOfCalls(waiting);
  }

  lemma GrownIds(ids: seq<string>, id: string)
    ensures DistinctGiven(ids + [id]) <==> DistinctGiven(ids) && id != "" && id !in ids
  {
    var all := ids + [id];
    assert all[|ids|] == id;
    if DistinctGiven(all) {
      forall i | 0 <= i < |ids|
        ensures ids[i] != id
      {
        assert all[i] == ids[i];
      }
      assert forall i :: 0 <= i < |ids| ==> ids[i] == all[i];
    }
  }

  lemma {:induction false} MirrorsBreak(s0: Standing, p: Partial, s: Standing, b: Block, m: Message)
    requires b.HintBlock? || b.ToolResultBlock?
    requires m == if b.HintBlock? then HintMessage(b.hint) else ToolMessage(b.resultId, OutputText(b.output))
    requires Mirrors(HeardAll(s0, p.out), p.waiting, s)
    ensures Mirrors(HeardAll(s0, Flush(p, Assistant) + [m]), [], AfterBlock(s, b))
  {
    hide Mirrors, Flushed, Heard, AfterBlock, OutputText, HeardAll, Flush;
    var heard := HeardAll(s0, p.out);
    NoIds();
    FlushHeard(s0, p);
    HeardAppend(s0, Flush(p, Assistant), [m]);
    HeardOne(Flushed(heard, p.waiting), m);
    if b.HintBlock? {
      MirrorsHint(heard, p.waiting, s, b, m);
    } else {
      MirrorsResult(heard, p.waiting, s, b, m);
    }
  }

  lemma {:induction false} MirrorsStep(s0: Standing, p: Partial, s: Standing, b: Block)
    requires Mirrors(HeardAll(s0, p.out), p.waiting, s)
    ensures var q := AddBlock(p, b, Assistant); Mirrors(HeardAll(s0, q.out), q.waiting, AfterBlock(s, b))
  {
    hide Mirrors, AfterBlock, HeardAll, Flush, HintMessage, ToolMessage, OutputText;
    if b.HintBlock? {
      MirrorsBreak(s0, p, s, b, HintMessage(b.hint));
    } else if b.ToolResultBlock? {
      MirrorsBreak(s0, p, s, b, ToolMessage(b.resultId, OutputText(b.output)));
    } else {
      NoIds();
      MirrorsOther(HeardAll(s0, p.out), p.waiting, s, b);
    }
  }

  lemma {:induction false} MirrorsAll(s0: Standing, bs: seq<Block>)
    requires Settled(s0)
    ensures var p := AddBlocks(bs, Assistant); Mirrors(HeardAll(s0, p.out), p.waiting, After(LEVEL, bs))
  {
    hide Mirrors, AfterBlock, AddBlock, HeardAll;
    if bs == [] {
      MirrorsStart(s0);
      HeardNone(s0);
    } else {
      MirrorsAll(s0, bs[..|bs| - 1]);
      MirrorsStep(s0, AddBlocks(bs[..|bs| - 1], Assistant), After(LEVEL, bs[..|bs| - 1]), bs[|bs| - 1]);
    }
  }

  lemma NoIds()
    ensures IdsOfCalls([]) == []
  {
  }

  lemma MirrorsStart(s0: Standing)
    requires Settled(s0)
    ensures Mirrors(s0, [], LEVEL) && After(LEVEL, []) == LEVEL && AddBlocks([], Assistant) == Partial([], [])
  {
  }

  /** A message that is heard out from a settled start is balanced. */
  lemma {:induction false} HeardOutIsBalanced(s0: Standing, bs: seq<Block>)
    requires Settled(s0) && Settled(HeardAll(s0, Flat(bs, Assistant)))
    ensures Balanced(bs)
  {
    hide AddBlocks, ToMessage, HeardAll, After;
    var p := AddBlocks(bs, Assistant);
    MirrorsAll(s0, bs);
    FlushHeard(s0, p);
    NoIds();
    HeardNone(s0);
    if Flush(p, Assistant) == [] { assert p.waiting == [] && p.out == []; }
  }

  // ---------------------------------------------------------------------------
  // Whole contexts
  // ---------------------------------------------------------------------------

  /** Only assistant messages call tools and carry results, and none begins with a result. */
  predicate ShapedMsg(m: Msg)
  {
    if m.role == Assistant then m.content == [] || !m.content[0].ToolResultBlock?
    else m.role != Tool && Toolless(m.content)
  }

  predicate Shaped(context: seq<Msg>)
  {
    forall i :: 0 <= i < |context| ==> ShapedMsg(context[i])
  }

  lemma {:induction false} OutStarts(bs: seq<Block>, role: Role)
    requires bs != [] && !bs[0].ToolResultBlock? && role != Tool
    ensures var p := AddBlocks(bs, role); (p.out != [] || p.waiting != []) && (p.out != [] ==> p.out[0].role != Tool)
  {
    if |bs| > 1 {
      OutStarts(bs[..|bs| - 1], role);
    } else {
      assert AddBlocks(bs[..0], role) == Partial([], []);
    }
  }

  /** The provider messages of a shaped message do not begin with a result. */
  lemma {:induction false} FlatStarts(m: Msg)
    requires ShapedMsg(m)
    ensures Flat(m.content, m.role) != [] && Flat(m.content, m.role)[0].role != Tool
  {
    if m.content == [] {
      assert AddBlocks(m.content, m.role) == Partial([], []);
    } else {
      if m.role != Assistant { ToollessFirst(m.content); }
      OutStarts(m.content, m.role);
    }
  }

  lemma {:induction false} ToollessFirst(bs: seq<Block>)
    requires Toolless(bs) && bs != []
    ensures !bs[0].ToolResultBlock?
  {
    if |bs| > 1 { ToollessFirst(bs[..|bs| - 1]); }
  }

  /** Only a settled reader can go on to a message that does not begin with a result. */
  lemma {:induction false} SettledBetween(s: Standing, ms: seq<Message>)
    requires ms != [] && ms[0].role != Tool && !HeardAll(s, ms).Broken?
    ensures Settled(s)
  {
    assert ms == [ms[0]] + ms[1..];
    HeardAppend(s, [ms[0]], ms[1..]);
    HeardOne(s, ms[0]);
    BrokenForGood(ms[1..]);
  }

  lemma {:induction false} ContextHeardOut(s: Standing, context: seq<Msg>)
    requires Shaped(context) && Settled(s) && Settled(HeardAll(s, FlatAll(context)))
    ensures BalancedContext(context)
    decreases |context|
  {
    hide Flat, Balanced, ShapedMsg, Toolless, HeardAll;
    if context != [] {
      var m, rest := context[0], context[1..];
      var after := HeardAll(s, Flat(m.content, m.role));
      HeardAppend(s, Flat(m.content, m.role), FlatAll(rest));
      HeardNone(after);
      if rest != [] {
        FlatStarts(rest[0]);
        HeardAppend(after, Flat(rest[0].content, rest[0].role), FlatAll(rest[1..]));
        BrokenForGood(FlatAll(rest[1..]));
        SettledBetween(after, Flat(rest[0].content, rest[0].role));
      } else {
        assert FlatAll(rest) == [];
      }
      ContextHeardOut(after, rest);
      MessageFit(s, m);
      assert forall i :: 0 < i < |context| ==> context[i] == rest[i - 1];
    }
  }

  lemma MessageFit(s: Standing, m: Msg)
    requires ShapedMsg(m) && Settled(s) && Settled(HeardAll(s, Flat(m.content, m.role)))
    ensures Fit(m)
  {
    hide Balanced, Flat, HeardAll, Toolless;
    if m.role == Assistant { HeardOutIsBalanced(s, m.content); }
  }

  /** What a request made from the context loses on its way to the provider. */
  function Lost(prompt: string, context: seq<Msg>, keepReasoning: bool): nat
  {
    var request := Request(prompt, context);
    DroppedFrom(request, 0, keepReasoning) + StrippedFrom(request, 0, keepReasoning)
  }

  /**
   * Balance is exact: when only assistant messages call and answer and none begins with a result, a
   * request loses nothing if and only if the context it is made from is balanced.
   */
  lemma {:induction false} LosesNothingIffBalanced(prompt: string, context: seq<Msg>, keepReasoning: bool)
    requires Shaped(context)
    ensures Lost(prompt, context, keepReasoning) == 0 <==> BalancedContext(context)
  {
    hide Shaped, BalancedContext, FlatAll, DroppedFrom, StrippedFrom, AllPaired, Heard;
    if BalancedContext(context) {
      var us := BalancedLosesNothing(prompt, context, keepReasoning);
    } else if Lost(prompt, context, keepReasoning) == 0 {
      LosesNothingIffPaired(Request(prompt, context), keepReasoning);
      var us :| AllPaired(us) && Render(us) == Request(prompt, context);
      UnitsHeard(LEVEL, us);
      PromptHeard(prompt, FlatAll(context));
      ContextHeardOut(LEVEL, context);
    }
  }

  lemma {:induction false} PromptHeard(prompt: string, ms: seq<Message>)
    ensures HeardAll(LEVEL, [Message(System, Str(prompt), None, None, None, [])] + ms) == HeardAll(LEVEL, ms)
  {
    var head := Message(System, Str(prompt), None, None, None, []);
    HeardAppend(LEVEL, [head], ms);
    HeardOne(LEVEL, head);
  }
}
