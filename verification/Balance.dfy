/**
 * Balanced histories: in every stored message each run of calls is followed by results that
 * permute them before the next other block. Flattening and normalising such a history loses
 * no call and no result.
 */
module Balance {
  import opened Prelude
  import opened Messages
  import opened Flatten
  import opened Normalize
  import opened ToolGrammar

  /**
   * Where a left-to-right reader of the blocks stands: the ids called in the current run,
   * and the ids answered since. `Broken` is final.
   */
  datatype Standing = Broken | Standing(called: seq<string>, answered: seq<string>)

  const LEVEL: Standing := Standing([], [])

  function AfterBlock(s: Standing, b: Block): Standing
  {
    if s.Broken? then Broken else
    var settled := |s.answered| == |s.called|;
    match b
    case ToolCallBlock(id, _, _, _) =>
      if id == "" then Broken
      else if s.answered == [] then (if id in s.called then Broken else Standing(s.called + [id], []))
      else if settled then Standing([id], []) else Broken
    case ToolResultBlock(id, _, _, _) =>
      if id in s.called && id !in s.answered then Standing(s.called, s.answered + [id]) else Broken
    case HintBlock(_, _) => if settled then LEVEL else Broken
    case _ => if s.answered == [] then s else if settled then LEVEL else Broken
  }

  function After(s: Standing, bs: seq<Block>): Standing
  {
    if bs == [] then s else AfterBlock(After(s, bs[..|bs| - 1]), bs[|bs| - 1])
  }

  predicate Settled(s: Standing) { s.Standing? && |s.answered| == |s.called| }

  /** Every run of calls has been answered, each call once. */
  predicate Balanced(bs: seq<Block>) { Settled(After(LEVEL, bs)) }

  lemma {:induction false} AfterAppend(s: Standing, a: seq<Block>, b: seq<Block>)
    ensures After(s, a + b) == After(After(s, a), b)
  {
    if b == [] {
      assert a + b == a;
    } else {
      assert (a + b)[..|a + b| - 1] == a + b[..|b| - 1];
      AfterAppend(s, a, b[..|b| - 1]);
    }
  }

  // ---------------------------------------------------------------------------
  // Flattening balanced blocks gives paired units
  // ---------------------------------------------------------------------------

  function Somes(ids: seq<string>): seq<Option<string>>
  {
    if ids == [] then [] else Somes(ids[..|ids| - 1]) + [Some(ids[|ids| - 1])]
  }

  ghost predicate DistinctGiven(ids: seq<string>)
  {
    && (forall i :: 0 <= i < |ids| ==> ids[i] != "")
    && (forall i, j :: 0 <= i < j < |ids| ==> ids[i] != ids[j])
  }

  function IdsOfCalls(bs: seq<Block>): seq<string>
  {
    if bs == [] then []
    else IdsOfCalls(bs[..|bs| - 1]) + (if bs[|bs| - 1].ToolCallBlock? then [bs[|bs| - 1].callId] else [])
  }

  ghost predicate CallsNamed(calls: seq<CallDict>, ids: seq<string>)
  {
    |calls| == |ids| && forall i :: 0 <= i < |ids| ==> calls[i].id == Some(ids[i])
  }

  ghost predicate ResultsNamed(results: seq<Message>, ids: seq<string>)
  {
    && |results| == |ids| && AllTool(results)
    && forall i :: 0 <= i < |ids| ==> results[i].toolCallId == Some(ids[i])
  }

  lemma {:induction false} CallsOfNamed(bs: seq<Block>)
    ensures CallsNamed(CallsOf(bs), IdsOfCalls(bs))
  {
    if bs != [] {
      CallsOfNamed(bs[..|bs| - 1]);
    }
  }

  /** The flattener in the middle of an assistant message, read against the standing. */
  ghost predicate Follows(p: Partial, s: Standing, us: seq<Unit>, head: Message, results: seq<Message>)
  {
    && s.Standing? && AllPaired(us)
    && DistinctGiven(s.called) && |s.answered| <= |s.called|
    && (forall i :: 0 <= i < |s.answered| ==> s.answered[i] in s.called)
    && (forall i, j :: 0 <= i < j < |s.answered| ==> s.answered[i] != s.answered[j])
    && (s.answered == [] ==> p.out == Render(us) && IdsOfCalls(p.waiting) == s.called)
    && (s.answered != [] ==>
          && p.waiting == []
          && p.out == Render(us) + [head] + results
          && head.role == Assistant && CallsNamed(Calls(head), s.called) && ResultsNamed(results, s.answered))
  }

  /** A fully answered group pairs off. */
  lemma {:induction false} AnsweredPairsOff(head: Message, results: seq<Message>, called: seq<string>, answered: seq<string>)
    requires DistinctGiven(called) && |answered| == |called|
    requires forall i :: 0 <= i < |answered| ==> answered[i] in called
    requires forall i, j :: 0 <= i < j < |answered| ==> answered[i] != answered[j]
    requires CallsNamed(Calls(head), called) && ResultsNamed(results, answered)
    ensures PairsOff(Calls(head), results)
  {
    AllAnswered(called, answered);
    forall i | 0 <= i < |Calls(head)|
      ensures Answers(results, Calls(head)[i].id)
    {
      assert called[i] in answered;
      var j :| 0 <= j < |answered| && answered[j] == called[i];
      assert results[j].toolCallId == Calls(head)[i].id;
    }
  }

  function SetOf(ids: seq<string>): set<string>
  {
    if ids == [] then {} else SetOf(ids[..|ids| - 1]) + {ids[|ids| - 1]}
  }

  lemma {:induction false} SetOfDistinct(ids: seq<string>)
    requires forall i, j :: 0 <= i < j < |ids| ==> ids[i] != ids[j]
    ensures |SetOf(ids)| == |ids|
    ensures forall x :: x in SetOf(ids) <==> x in ids
  {
    if ids != [] {
      var n := |ids| - 1;
      SetOfDistinct(ids[..n]);
      assert ids == ids[..n] + [ids[n]];
      assert ids[n] !in ids[..n];
    }
  }

  /** Pigeonhole: as many distinct answers as calls, all of them called, answer every call. */
  lemma {:induction false} AllAnswered(called: seq<string>, answered: seq<string>)
    requires DistinctGiven(called) && |answered| == |called|
    requires forall i :: 0 <= i < |answered| ==> answered[i] in called
    requires forall i, j :: 0 <= i < j < |answered| ==> answered[i] != answered[j]
    ensures forall x :: x in called ==> x in answered
  {
    SetOfDistinct(called);
    SetOfDistinct(answered);
    SubsetSameSize(SetOf(answered), SetOf(called));
  }

  lemma {:induction false} NoIdsNoCalls(bs: seq<Block>)
    ensures IdsOfCalls(bs) == [] <==> CallsOf(bs) == []
  {
    CallsOfNamed(bs);
  }

  lemma {:induction false} IdsSnoc(bs: seq<Block>, b: Block)
    ensures IdsOfCalls(bs + [b]) == IdsOfCalls(bs) + if b.ToolCallBlock? then [b.callId] else []
  {
    assert (bs + [b])[..|bs|] == bs;
  }

  lemma {:induction false} RenderSnoc(us: seq<Unit>, u: Unit)
    ensures Render(us + [u]) == Render(us) + RenderUnit(u)
    ensures AllPaired(us) && Paired(u) ==> AllPaired(us + [u])
  {
    RenderAppend(us, [u]);
    RenderCons(u, []);
    if AllPaired(us) && Paired(u) { AllPairedAppend(us, [u]); }
  }

  /** Flushing a run without calls adds at most one plain assistant message. */
  lemma {:induction false} FlushPlain(p: Partial, us: seq<Unit>) returns (us': seq<Unit>)
    requires AllPaired(us) && p.out == Render(us) && IdsOfCalls(p.waiting) == []
    ensures AllPaired(us') && Flush(p, Assistant) == Render(us')
  {
    us' := us;
    if p.waiting != [] {
      NoIdsNoCalls(p.waiting);
      RenderSnoc(us, Saying(ToMessage(p.waiting, Assistant)));
      us' := us + [Saying(ToMessage(p.waiting, Assistant))];
    }
  }

  /** A settled group becomes a unit. */
  lemma {:induction false} CloseGroup(p: Partial, s: Standing, us: seq<Unit>, head: Message, results: seq<Message>) returns (us': seq<Unit>)
    requires Follows(p, s, us, head, results) && s.answered != [] && |s.answered| == |s.called|
    ensures AllPaired(us') && p.out == Render(us')
  {
    AnsweredPairsOff(head, results, s.called, s.answered);
    RenderSnoc(us, Group(head, results));
    us' := us + [Group(head, results)];
    Regroup(Render(us), [head], results);
  }

  lemma {:induction false} SettledFlush(p: Partial, s: Standing, us: seq<Unit>, head: Message, results: seq<Message>) returns (us': seq<Unit>)
    requires Follows(p, s, us, head, results) && |s.answered| == |s.called|
    ensures AllPaired(us') && Flush(p, Assistant) == Render(us')
  {
    if s.answered == [] {
      us' := FlushPlain(p, us);
    } else {
      us' := CloseGroup(p, s, us, head, results);
    }
  }

  lemma {:induction false} FollowsHint(p: Partial, s: Standing, us: seq<Unit>, head: Message, results: seq<Message>, b: Block) returns (us': seq<Unit>)
    requires Follows(p, s, us, head, results) && b.HintBlock? && !AfterBlock(s, b).Broken?
    ensures Follows(AddBlock(p, b, Assistant), AfterBlock(s, b), us', head, [])
  {
    us' := SettledFlush(p, s, us, head, results);
    RenderSnoc(us', Bystander(HintMessage(b.hint)));
    us' := us' + [Bystander(HintMessage(b.hint))];
  }

  lemma {:induction false} FollowsFirstResult(p: Partial, s: Standing, us: seq<Unit>, head: Message, results: seq<Message>, b: Block)
    requires Follows(p, s, us, head, results) && b.ToolResultBlock? && s.answered == [] && !AfterBlock(s, b).Broken?
    ensures Follows(AddBlock(p, b, Assistant), AfterBlock(s, b), us, ToMessage(p.waiting, Assistant), [ToolMessage(b.resultId, OutputText(b.output))])
  {
    hide IdsOfCalls, CallsOf, ContentParts, Thoughts, AllPaired, Render, OutputText;
    NoIdsNoCalls(p.waiting);
    NothingWaits(p.waiting);
    CallsOfNamed(p.waiting);
  }

  lemma NothingWaits(bs: seq<Block>)
    ensures bs == [] ==> IdsOfCalls(bs) == []
  {
  }

  lemma {:induction false} FollowsNextResult(p: Partial, s: Standing, us: seq<Unit>, head: Message, results: seq<Message>, b: Block)
    requires Follows(p, s, us, head, results) && b.ToolResultBlock? && s.answered != [] && !AfterBlock(s, b).Broken?
    ensures Follows(AddBlock(p, b, Assistant), AfterBlock(s, b), us, head, results + [ToolMessage(b.resultId, OutputText(b.output))])
  {
    var answered := s.answered + [b.resultId];
    AnsweredFit(s.called, answered);
    Regroup(Render(us) + [head], results, [ToolMessage(b.resultId, OutputText(b.output))]);
  }

  /** Distinct answers, all called, are no more than the calls. */
  lemma {:induction false} AnsweredFit(called: seq<string>, answered: seq<string>)
    requires DistinctGiven(called)
    requires forall i :: 0 <= i < |answered| ==> answered[i] in called
    requires forall i, j :: 0 <= i < j < |answered| ==> answered[i] != answered[j]
    ensures |answered| <= |called|
  {
    SetOfDistinct(called);
    SetOfDistinct(answered);
    SubsetSize(SetOf(answered), SetOf(called));
  }

  lemma SubsetSize(a: set<string>, b: set<string>)
    requires a <= b
    ensures |a| <= |b|
  {
    assert |b - a| == |b| - |a|;
  }

  lemma {:induction false} FollowsWaiting(p: Partial, s: Standing, us: seq<Unit>, head: Message, results: seq<Message>, b: Block) returns (us': seq<Unit>)
    requires Follows(p, s, us, head, results) && !b.HintBlock? && !b.ToolResultBlock? && !AfterBlock(s, b).Broken?
    ensures Follows(AddBlock(p, b, Assistant), AfterBlock(s, b), us', head, results)
  {
    IdsSnoc(p.waiting, b);
    us' := us;
    if s.answered != [] {
      us' := CloseGroup(p, s, us, head, results);
    }
  }

  lemma {:induction false} FollowsAll(bs: seq<Block>) returns (us: seq<Unit>, head: Message, results: seq<Message>)
    requires !After(LEVEL, bs).Broken?
    ensures Follows(AddBlocks(bs, Assistant), After(LEVEL, bs), us, head, results)
  {
    us, head, results := [], HintMessage(""), [];
    if bs != [] {
      var init, b := bs[..|bs| - 1], bs[|bs| - 1];
      us, head, results := FollowsAll(init);
      var p, s := AddBlocks(init, Assistant), After(LEVEL, init);
      if b.HintBlock? {
        us := FollowsHint(p, s, us, head, results, b);
        results := [];
      } else if b.ToolResultBlock? {
        if s.answered == [] {
          FollowsFirstResult(p, s, us, head, results, b);
          head, results := ToMessage(p.waiting, Assistant), [ToolMessage(b.resultId, OutputText(b.output))];
        } else {
          FollowsNextResult(p, s, us, head, results, b);
          results := results + [ToolMessage(b.resultId, OutputText(b.output))];
        }
      } else {
        us := FollowsWaiting(p, s, us, head, results, b);
      }
    }
  }

  /** A balanced assistant message flattens into paired units. */
  lemma {:induction false} BalancedIsPaired(bs: seq<Block>) returns (us: seq<Unit>)
    requires Balanced(bs)
    ensures AllPaired(us) && Flat(bs, Assistant) == Render(us)
  {
    var head: Message, results: seq<Message>;
    us, head, results := FollowsAll(bs);
    us := SettledFlush(AddBlocks(bs, Assistant), After(LEVEL, bs), us, head, results);
    if Render(us) == [] {
      var empty := ToMessage([], Assistant);
      RenderCons(Saying(empty), []);
      us := [Saying(empty)];
    }
  }

  // ---------------------------------------------------------------------------
  // Whole contexts
  // ---------------------------------------------------------------------------

  /** The message neither calls tools nor carries results. */
  predicate Toolless(bs: seq<Block>)
  {
    bs == [] || (!bs[|bs| - 1].ToolCallBlock? && !bs[|bs| - 1].ToolResultBlock? && Toolless(bs[..|bs| - 1]))
  }

  /** A stored message of a balanced history. */
  predicate Fit(m: Msg)
  {
    if m.role == Assistant then Balanced(m.content) else m.role != Tool && Toolless(m.content)
  }

  predicate BalancedContext(context: seq<Msg>)
  {
    forall i :: 0 <= i < |context| ==> Fit(context[i])
  }

  lemma {:induction false} ToollessIsPaired(bs: seq<Block>, role: Role) returns (us: seq<Unit>)
    requires role != Tool && role != Assistant && Toolless(bs)
    ensures AllPaired(us) && AddBlocks(bs, role).out == Render(us)
  {
    us := [];
    if bs != [] {
      var init, b := bs[..|bs| - 1], bs[|bs| - 1];
      us := ToollessIsPaired(init, role);
      if b.HintBlock? {
        var p := AddBlocks(init, role);
        if p.waiting != [] {
          RenderSnoc(us, Bystander(ToMessage(p.waiting, role)));
          us := us + [Bystander(ToMessage(p.waiting, role))];
        }
        RenderSnoc(us, Bystander(HintMessage(b.hint)));
        us := us + [Bystander(HintMessage(b.hint))];
      }
    }
  }

  lemma {:induction false} FitIsPaired(m: Msg) returns (us: seq<Unit>)
    requires Fit(m)
    ensures AllPaired(us) && Flat(m.content, m.role) == Render(us)
  {
    if m.role == Assistant {
      us := BalancedIsPaired(m.content);
    } else {
      us := ToollessIsPaired(m.content, m.role);
      var p := AddBlocks(m.content, m.role);
      if p.waiting != [] || p.out == [] {
        RenderSnoc(us, Bystander(ToMessage(p.waiting, m.role)));
        us := us + [Bystander(ToMessage(p.waiting, m.role))];
      }
    }
  }

  lemma {:induction false} ContextIsPaired(context: seq<Msg>) returns (us: seq<Unit>)
    requires BalancedContext(context)
    ensures AllPaired(us) && FlatAll(context) == Render(us)
  {
    us := [];
    if context != [] {
      us := FitIsPaired(context[0]);
      var rest := ContextIsPaired(context[1..]);
      RenderAppend(us, rest);
      AllPairedAppend(us, rest);
      us := us + rest;
    }
  }

  /** The request built from a context: the system prompt, then the flattened messages. */
  function Request(prompt: string, context: seq<Msg>): seq<Message>
  {
    [Message(System, Str(prompt), None, None, None, [])] + FlatAll(context)
  }

  /**
   * Flatten then normalise loses nothing on balanced histories: no result is dropped, no call is
   * stripped, and the request comes out unit by unit, only tidied.
   */
  lemma {:induction false} BalancedLosesNothing(prompt: string, context: seq<Msg>, keepReasoning: bool) returns (us: seq<Unit>)
    requires BalancedContext(context)
    ensures AllPaired(us) && Request(prompt, context) == Render(us)
    ensures DroppedFrom(Request(prompt, context), 0, keepReasoning) == 0
    ensures StrippedFrom(Request(prompt, context), 0, keepReasoning) == 0
    ensures Norm(Request(prompt, context), keepReasoning) == Render(Tidy(us, keepReasoning))
  {
    us := ContextIsPaired(context);
    var head := Bystander(Message(System, Str(prompt), None, None, None, []));
    RenderCons(head, us);
    assert ([head] + us)[1..] == us;
    us := [head] + us;
    PairedLosesNothing(us, keepReasoning);
  }
}
