/**
 * What acting and resuming write: every call of a batch gets the result of its own tool, in the order
 * of the calls, then come the hints; on a resume the refused calls are answered with a denial.
 */
module Settlement {
  import opened Prelude
  import opened Messages
  import opened Events
  import opened Context
  import opened Reasoning
  import opened Runner
  import opened Projection

  datatype Reply = Reply(callId: string, name: string, text: string, state: ResultState)

  /** The results in a message, in order. */
  function AnswersIn(bs: seq<Block>): seq<Reply>
  {
    if bs == [] then []
    else
      var b := bs[|bs| - 1];
      AnswersIn(bs[..|bs| - 1])
      + (if b.ToolResultBlock? then [Reply(b.resultId, b.resultName, OutputText(b.output), b.resultState)] else [])
  }

  function HintsIn(bs: seq<Block>): seq<string>
  {
    if bs == [] then []
    else HintsIn(bs[..|bs| - 1]) + (if bs[|bs| - 1].HintBlock? then [bs[|bs| - 1].hint] else [])
  }

  /** What a call is answered with when its tool comes back with `outcome`. */
  function AnswerTo(c: Call, outcome: ToolOutcome): Reply
  {
    match outcome
    case Raised => Reply(c.id, c.name, "[INTERRUPTED] Tool execution was interrupted.", Success)
    case Returned(text, failed, _, _) =>
      Reply(c.id, c.name, if text == "" then "[" + c.name + "] 已完成" else text, if failed then ResultState.Failed else Success)
  }

  function AnswersTo(calls: seq<Call>, outcomes: string -> ToolOutcome): seq<Reply>
  {
    if calls == [] then []
    else AnswersTo(calls[..|calls| - 1], outcomes) + [AnswerTo(calls[|calls| - 1], outcomes(calls[|calls| - 1].id))]
  }

  function HintsGiven(calls: seq<Call>, outcomes: string -> ToolOutcome): seq<string>
  {
    if calls == [] then []
    else
      var outcome := outcomes(calls[|calls| - 1].id);
      HintsGiven(calls[..|calls| - 1], outcomes)
      + (if outcome.Returned? && outcome.hint.Some? then [outcome.hint.value] else [])
  }

  function Denials(calls: seq<Call>): seq<Reply>
  {
    if calls == [] then []
    else
      var c := calls[|calls| - 1];
      Denials(calls[..|calls| - 1]) + [Reply(c.id, c.name, "[USER_DENIED] 用户拒绝了工具 [" + c.name + "] 的执行", Denied)]
  }

  /** From `r` to `s` the current reply gained these results and hints, and no other message any. */
  ghost predicate Gained(r: Run, s: Run, answers: seq<Reply>, hints: seq<string>)
  {
    && s.messageId == r.messageId
    && AnswersIn(Live(s.context, r.messageId)) == AnswersIn(Live(r.context, r.messageId)) + answers
    && HintsIn(Live(s.context, r.messageId)) == HintsIn(Live(r.context, r.messageId)) + hints
    && forall id :: id != r.messageId ==>
         && AnswersIn(Live(s.context, id)) == AnswersIn(Live(r.context, id))
         && HintsIn(Live(s.context, id)) == HintsIn(Live(r.context, id))
  }

  lemma {:induction false} AnswersAppend(a: seq<Block>, b: seq<Block>)
    ensures AnswersIn(a + b) == AnswersIn(a) + AnswersIn(b)
    ensures HintsIn(a + b) == HintsIn(a) + HintsIn(b)
  {
    hide OutputText;
    if b == [] {
      assert a + b == a;
    } else {
      var init, last := b[..|b| - 1], b[|b| - 1];
      assert (a + b)[..|a + b| - 1] == a + init && (a + b)[|a + b| - 1] == last;
      AnswersAppend(a, init);
    }
  }

  lemma {:induction false} AnswersOne(b: Block)
    ensures AnswersIn([b]) == if b.ToolResultBlock? then [Reply(b.resultId, b.resultName, OutputText(b.output), b.resultState)] else []
    ensures HintsIn([b]) == if b.HintBlock? then [b.hint] else []
  {
    assert [b][..0] == [];
  }

  /** A call's state is not a result or a hint. */
  lemma {:induction false} StateAnswersNothing(a: seq<Block>, b: seq<Block>)
    requires |a| == |b| && forall i :: 0 <= i < |a| ==> a[i] == b[i] || (a[i].ToolCallBlock? && b[i].ToolCallBlock?)
    ensures AnswersIn(a) == AnswersIn(b) && HintsIn(a) == HintsIn(b)
  {
    if a != [] { StateAnswersNothing(a[..|a| - 1], b[..|b| - 1]); }
  }

  lemma {:induction false} MarkedAnswers(context: seq<Msg>, callId: string, state: CallState, id: MsgId)
    ensures AnswersIn(Live(SetState(context, callId, state), id)) == AnswersIn(Live(context, id))
    ensures HintsIn(Live(SetState(context, callId, state), id)) == HintsIn(Live(context, id))
  {
    hide FindReply, Owner, AnswersIn, HintsIn;
    SetStateAt(context, callId, state);
    var i := Owner(context, callId);
    if i < |context| {
      FindReplyLike(context, SetState(context, callId, state), id);
      StateAnswersNothing(context[i].content, WithCallState(context[i].content, callId, state));
    }
  }

  lemma {:induction false} MarkGains(r: Run, callId: string, state: CallState)
    ensures Gained(r, Mark(r, callId, state), [], [])
  {
    hide AnswersIn, HintsIn, Live, SetState;
    forall id
      ensures AnswersIn(Live(SetState(r.context, callId, state), id)) == AnswersIn(Live(r.context, id))
      ensures HintsIn(Live(SetState(r.context, callId, state), id)) == HintsIn(Live(r.context, id))
    {
      MarkedAnswers(r.context, callId, state, id);
    }
    Nothing(AnswersIn(Live(r.context, r.messageId)));
    Nothing(HintsIn(Live(r.context, r.messageId)));
  }

  lemma Nothing<T>(xs: seq<T>)
    ensures xs + [] == xs
  {
  }

  lemma {:induction false} WriteGains(r: Run, b: Block)
    ensures Gained(r, Write(r, [b]), AnswersIn([b]), HintsIn([b]))
  {
    hide AnswersIn, HintsIn, Live, AppendReply;
    forall id
      ensures Live(AppendReply(r.context, r.messageId, [b]), id) == if id == r.messageId then Live(r.context, id) + [b] else Live(r.context, id)
    {
      LiveAppend(r.context, r.messageId, [b], id);
    }
    AnswersAppend(Live(r.context, r.messageId), [b]);
  }

  lemma {:induction false} GainedTrans(r: Run, s: Run, t: Run, a1: seq<Reply>, h1: seq<string>, a2: seq<Reply>, h2: seq<string>)
    requires Gained(r, s, a1, h1) && Gained(s, t, a2, h2)
    ensures Gained(r, t, a1 + a2, h1 + h2)
  {
    hide AnswersIn, HintsIn, Live;
    Regroup(AnswersIn(Live(r.context, r.messageId)), a1, a2);
    Regroup(HintsIn(Live(r.context, r.messageId)), h1, h2);
  }

  lemma Regroup<T>(a: seq<T>, b: seq<T>, c: seq<T>)
    ensures (a + b) + c == a + (b + c)
  {
  }

  lemma {:induction false} SameGains(r: Run, s: Run)
    requires s.context == r.context && s.messageId == r.messageId
    ensures Gained(r, s, [], [])
  {
    hide AnswersIn, HintsIn, Live;
    Nothing(AnswersIn(Live(r.context, r.messageId)));
    Nothing(HintsIn(Live(r.context, r.messageId)));
  }

  // ---------------------------------------------------------------------------
  // Executing a batch
  // ---------------------------------------------------------------------------

  lemma {:induction false} PutResultGains(r: Run, c: Call, outcome: ToolOutcome, cancelled: bool)
    ensures Gained(r, PutResult(r, c, Gathered(c.id, outcome, cancelled)), [AnswerTo(c, outcome)], [])
  {
    hide AnswersIn, HintsIn, Live, AppendReply, SetState, Gained;
    var answer := AnswerTo(c, outcome);
    var b := ToolResultBlock(c.id, c.name, Plain(answer.text), answer.state);
    var s := Mark(r, c.id, CallState.Finished);
    MarkGains(r, c.id, CallState.Finished);
    WriteGains(s, b);
    AnswersOne(b);
    GainedTrans(r, s, Write(s, [b]), [], [], [answer], []);
    var t := PutResult(r, c, Gathered(c.id, outcome, cancelled));
    assert t.context == Write(s, [b]).context && t.messageId == r.messageId;
    SameGains(Write(s, [b]), t);
    GainedTrans(r, Write(s, [b]), t, [] + [answer], [] + [], [], []);
    assert [] + [answer] + [] == [answer];
    Nothing<string>([]);
    Nothing<string>([] + []);
  }

  lemma {:induction false} PutResultsGain(r: Run, calls: seq<Call>, outcomes: string -> ToolOutcome, cancelled: bool)
    ensures |GatherAll(calls, outcomes, cancelled)| == |calls|
    ensures Gained(r, PutResults(r, calls, GatherAll(calls, outcomes, cancelled)), AnswersTo(calls, outcomes), [])
    ensures HintsOf(GatherAll(calls, outcomes, cancelled)) == HintsGiven(calls, outcomes)
  {
    hide Gained, PutResult, AnswerTo;
    if calls == [] {
      SameGains(r, r);
    } else {
      var init, c := calls[..|calls| - 1], calls[|calls| - 1];
      PutResultsGain(r, init, outcomes, cancelled);
      var results := GatherAll(calls, outcomes, cancelled);
      assert results[..|init|] == GatherAll(init, outcomes, cancelled);
      var s := PutResults(r, init, GatherAll(init, outcomes, cancelled));
      PutResultGains(s, c, outcomes(c.id), cancelled);
      GainedTrans(r, s, PutResults(r, calls, results), AnswersTo(init, outcomes), [], [AnswerTo(c, outcomes(c.id))], []);
      Nothing<string>([]);
    }
  }

  lemma {:induction false} PutHintsGain(r: Run, hints: seq<string>)
    ensures Gained(r, PutHints(r, hints), [], hints)
  {
    hide Gained, AppendReply, AnswersIn, HintsIn;
    if hints == [] {
      SameGains(r, r);
    } else {
      var init, hint := hints[..|hints| - 1], hints[|hints| - 1];
      PutHintsGain(r, init);
      var s := PutHints(r, init);
      var b := HintBlock(s.nextId, hint);
      var drawn := s.(nextId := s.nextId + 1);
      SameGains(s, drawn);
      WriteGains(drawn, b);
      AnswersOne(b);
      GainedTrans(s, drawn, Write(drawn, [b]), [], [], [], [hint]);
      SameGains(Write(drawn, [b]), PutHint(s, hint));
      GainedTrans(s, Write(drawn, [b]), PutHint(s, hint), [] + [], [] + [hint], [], []);
      GainedTrans(r, s, PutHint(s, hint), [], init, [] + [] + [], [] + [hint] + []);
      assert init + ([] + [hint] + []) == hints;
      Nothing<Reply>([]);
    }
  }

  lemma {:induction false} SpawnKeeps(r: Run, calls: seq<Call>)
    ensures Spawn(r, calls).context == r.context && Spawn(r, calls).messageId == r.messageId
  {
    if calls != [] { SpawnKeeps(r, calls[..|calls| - 1]); }
  }

  /** Each call gets the result of its own tool, in the order of the calls; then come the hints, in that order too. */
  lemma {:induction false} ExecuteAnswers(r: Run, calls: seq<Call>, env: Env)
    ensures Gained(r, Execute(r, calls, env).0, AnswersTo(calls, env.outcomes), HintsGiven(calls, env.outcomes))
  {
    hide Gained, Spawn, PutResults, PutHints, GatherAll, HintsOf, AnswersTo, HintsGiven;
    var s := Spawn(r, calls);
    SpawnKeeps(r, calls);
    SameGains(r, s);
    PutResultsGain(s, calls, env.outcomes, env.toolsCancelled);
    var results := GatherAll(calls, env.outcomes, env.toolsCancelled);
    var t := PutResults(s, calls, results);
    PutHintsGain(t, HintsOf(results));
    var answers, hints := AnswersTo(calls, env.outcomes), HintsGiven(calls, env.outcomes);
    GainedTrans(r, s, t, [], [], answers, []);
    GainedTrans(r, t, PutHints(t, hints), [] + answers, [] + [], [], hints);
    assert [] + answers + [] == answers && [] + [] + hints == hints;
  }

  // ---------------------------------------------------------------------------
  // Main results
  // ---------------------------------------------------------------------------

  lemma {:induction false} HoldGainsNothing(r: Run, asOf: seq<Msg>, decide: Call -> Behavior, calls: seq<Call>)
    ensures Gained(r, HoldAsked(r, asOf, decide, calls), [], [])
  {
    hide Gained, SetState, Classify;
    if calls == [] {
      SameGains(r, r);
    } else {
      var c := calls[|calls| - 1];
      HoldGainsNothing(r, asOf, decide, calls[..|calls| - 1]);
      var before := HoldAsked(r, asOf, decide, calls[..|calls| - 1]);
      if Classify(asOf, decide, c) == Ask {
        var after := HoldAsked(r, asOf, decide, calls);
        MarkGains(before, c.id, Asking);
        SameGains(Mark(before, c.id, Asking), after);
        GainedTrans(before, Mark(before, c.id, Asking), after, [], [], [], []);
        GainedTrans(r, before, after, [], [], [] + [], [] + []);
        Nothing<Reply>([]);
        Nothing<string>([]);
        Nothing<Reply>([] + []);
        Nothing<string>([] + []);
      }
    }
  }

  /** An allowed batch is answered call by call; a batch that is held or dropped is not answered at all. */
  lemma {:induction false} ActAnswers(r: Run, calls: seq<Call>, env: Env)
    ensures if AllAllowed(r.context, env.decide, calls)
      then Gained(r, Act(r, calls, env).0, AnswersTo(calls, env.outcomes), HintsGiven(calls, env.outcomes))
      else Gained(r, Act(r, calls, env).0, [], [])
  {
    hide Gained, Execute, HoldAsked, AnswersTo, HintsGiven;
    if AllAllowed(r.context, env.decide, calls) {
      ExecuteAnswers(r, calls, env);
    } else {
      HoldGainsNothing(r, r.context, env.decide, calls);
    }
  }

  lemma {:induction false} DeniedGains(r: Run, calls: seq<Call>)
    ensures Gained(r, PutAllDenied(r, calls), Denials(calls), [])
  {
    hide Gained, AppendReply, SetState, AnswersIn, HintsIn;
    if calls == [] {
      SameGains(r, r);
    } else {
      var init, c := calls[..|calls| - 1], calls[|calls| - 1];
      DeniedGains(r, init);
      var s := PutAllDenied(r, init);
      var b := ToolResultBlock(c.id, c.name, Plain(DeniedText(c.name)), Denied);
      var denial := Reply(c.id, c.name, DeniedText(c.name), Denied);
      var w := Write(s, [b]);
      WriteGains(s, b);
      AnswersOne(b);
      MarkGains(w, c.id, CallState.Finished);
      SameGains(Mark(w, c.id, CallState.Finished), PutDenied(s, c));
      GainedTrans(s, w, Mark(w, c.id, CallState.Finished), [denial], [], [], []);
      GainedTrans(s, Mark(w, c.id, CallState.Finished), PutDenied(s, c), [denial] + [], [] + [], [], []);
      GainedTrans(r, s, PutDenied(s, c), Denials(init), [], [denial] + [] + [], [] + [] + []);
      assert Denials(init) + ([denial] + [] + []) == Denials(calls);
      Nothing<string>([]);
    }
  }

  /**
   * A resume answers the pending calls: the approved ones with the results of their own tools, then
   * come their hints, then every other one is denied, unless the approved part was cancelled.
   */
  lemma {:induction false} ResumeAnswers(r: Run, env: Env)
    ensures var pending := PendingCalls(r.context);
      var allowed, denied := Split(pending, true), Split(pending, false);
      var (after, cancelled) := Resume(r, env);
      Gained(r, after, AnswersTo(allowed, env.outcomes) + (if cancelled then [] else Denials(denied)), HintsGiven(allowed, env.outcomes))
  {
    hide Gained, Execute, PutAllDenied, PendingCalls, Split;
    var pending := PendingCalls(r.context);
    var allowed, denied := Split(pending, true), Split(pending, false);
    var (done, cancelled) := if allowed == [] then (r, false) else Execute(r, allowed, env);
    var answers, hints := AnswersTo(allowed, env.outcomes), HintsGiven(allowed, env.outcomes);
    if allowed == [] { SameGains(r, r); } else { ExecuteAnswers(r, allowed, env); }
    Nothing(answers);
    Nothing(hints);
    if !cancelled {
      DeniedGains(done, denied);
      GainedTrans(r, done, PutAllDenied(done, denied), answers, hints, Denials(denied), []);
    }
  }
}
