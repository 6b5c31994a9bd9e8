/**
 * Runs keep the context balanced: whenever the model is asked, every call in the context has exactly
 * its result behind it, so the request loses nothing on its way through flattening and normalising.
 */
module RunBalance {
  import opened Prelude
  import opened Messages
  import opened Events
  import opened Context
  import opened Flatten
  import Normalize
  import opened Balance
  import opened Ledger
  import opened Reasoning
  import opened Runner
  import opened Safety
  import opened Views
  import opened Projection

  // ---------------------------------------------------------------------------
  // Standings
  // ---------------------------------------------------------------------------

  ghost predicate Proper(s: Standing)
  {
    && s.Standing? && DistinctGiven(s.called) && |s.answered| <= |s.called|
    && (forall i :: 0 <= i < |s.answered| ==> s.answered[i] in s.called)
    && (forall i, j :: 0 <= i < j < |s.answered| ==> s.answered[i] != s.answered[j])
  }

  lemma {:induction false} ProperStep(s: Standing, b: Block)
    requires Proper(s) && AfterBlock(s, b).Standing?
    ensures Proper(AfterBlock(s, b))
  {
    if b.ToolResultBlock? {
      AnsweredFit(s.called, s.answered + [b.resultId]);
    }
  }

  /** Every call is answered, or open in the current run. */
  ghost predicate Covers(s: Standing, calls: set<string>, results: set<string>)
  {
    && s.Standing?
    && (forall x :: x in calls ==> x in results || (x in s.called && x !in s.answered))
    && (forall x :: x in s.called ==> x in calls)
    && (forall x :: x in s.answered ==> x in results)
  }

  lemma {:induction false} SettledAnswers(s: Standing, calls: set<string>, results: set<string>)
    requires Proper(s) && Balance.Settled(s) && Covers(s, calls, results)
    ensures forall x :: x in calls ==> x in results
  {
    AllAnswered(s.called, s.answered);
  }

  lemma {:induction false} CoversStep(s: Standing, b: Block, calls: set<string>, results: set<string>)
    requires Proper(s) && Covers(s, calls, results) && AfterBlock(s, b).Standing?
    ensures Covers(AfterBlock(s, b), calls + (if b.ToolCallBlock? then {b.callId} else {}), results + (if b.ToolResultBlock? then {b.resultId} else {}))
  {
    if Balance.Settled(s) { SettledAnswers(s, calls, results); }
  }

  lemma {:induction false} StatesKeysSnoc(bs: seq<Block>, b: Block)
    ensures States(bs + [b]).Keys == States(bs).Keys + if b.ToolCallBlock? then {b.callId} else {}
    ensures ResultIds(bs + [b]) == ResultIds(bs) + if b.ToolResultBlock? then {b.resultId} else {}
  {
    StatesSnoc(bs, b);
  }

  /** Reading a message to its end: what stands open is exactly what has no result. */
  lemma {:induction false} StandingFacts(bs: seq<Block>)
    requires After(LEVEL, bs).Standing?
    ensures Proper(After(LEVEL, bs)) && Covers(After(LEVEL, bs), States(bs).Keys, ResultIds(bs))
  {
    hide States, ResultIds, Proper, Covers, AfterBlock;
    if bs == [] {
      NoCalls();
      assert States(bs).Keys == {};
      LevelIsProper();
    } else {
      var init, b := bs[..|bs| - 1], bs[|bs| - 1];
      assert bs == init + [b];
      BrokenStays(After(LEVEL, init), b);
      StandingFacts(init);
      ProperStep(After(LEVEL, init), b);
      CoversStep(After(LEVEL, init), b, States(init).Keys, ResultIds(init));
      StatesKeysSnoc(init, b);
    }
  }

  lemma BrokenStays(s: Standing, b: Block)
    ensures s.Broken? ==> AfterBlock(s, b).Broken?
  {
  }

  lemma LevelIsProper()
    ensures Proper(LEVEL) && Covers(LEVEL, {}, {})
  {
  }

  lemma {:induction false} AfterBare(s: Standing, a: seq<Block>, b: seq<Block>)
    requires SameBare(a, b)
    ensures After(s, a) == After(s, b)
  {
    if a != [] {
      var n := |a| - 1;
      AfterBare(s, a[..n], b[..n]);
      assert Bare(a[n]) == Bare(b[n]);
    }
  }

  lemma {:induction false} ToollessLevels(s: Standing, bs: seq<Block>)
    requires Balance.Settled(s) && Toolless(bs)
    ensures Balance.Settled(After(s, bs))
  {
    if bs != [] { ToollessLevels(s, bs[..|bs| - 1]); }
  }

  function CallIds(calls: seq<Call>): seq<string>
  {
    if calls == [] then [] else CallIds(calls[..|calls| - 1]) + [calls[|calls| - 1].id]
  }

  lemma {:induction false} CallIdsAt(calls: seq<Call>)
    ensures |CallIds(calls)| == |calls|
    ensures forall i :: 0 <= i < |calls| ==> CallIds(calls)[i] == calls[i].id
    ensures forall x :: x in CallIds(calls) <==> x in IdSet(calls)
  {
    if calls != [] {
      var init := calls[..|calls| - 1];
      CallIdsAt(init);
      assert CallIds(calls) == CallIds(init) + [calls[|calls| - 1].id];
    }
  }

  /** A new turn's calls open a new run. */
  lemma {:induction false} CallsOpen(s: Standing, calls: seq<Call>)
    requires Balance.Settled(s) && DistinctIds(calls) && calls != []
    requires forall i :: 0 <= i < |calls| ==> calls[i].id != ""
    ensures After(s, CallBlocksOf(calls)) == Standing(CallIds(calls), [])
  {
    var n := |calls| - 1;
    var init, c := calls[..n], calls[n];
    CallIdsAt(init);
    InIdSet(init, c.id);
    if init == [] {
      assert CallIds(init) == [];
      NoCallBlocks();
      assert CallBlocksOf(calls) == [ToolCallBlock(c.id, c.name, Arguments(c), Pending)];
      assert CallIds(calls) == [c.id];
    } else {
      CallsOpen(s, init);
    }
  }

  // ---------------------------------------------------------------------------
  // The current message and the others
  // ---------------------------------------------------------------------------

  ghost predicate OthersFit(context: seq<Msg>, id: MsgId)
  {
    forall i :: 0 <= i < |context| && i != FindReply(context, id) ==> Fit(context[i])
  }

  function StandingAt(context: seq<Msg>, id: MsgId): Standing { After(LEVEL, Live(context, id)) }

  lemma {:induction false} BalancedIff(context: seq<Msg>, id: MsgId)
    ensures BalancedContext(context) <==> OthersFit(context, id) && Balance.Settled(StandingAt(context, id))
  {
    hide FindReply, After;
    var i := FindReply(context, id);
    if i < |context| {
      assert Fit(context[i]) <==> Balance.Settled(StandingAt(context, id));
    } else {
      assert After(LEVEL, []) == LEVEL by { NoBlocks(); }
    }
  }

  lemma NoBlocks()
    ensures After(LEVEL, []) == LEVEL
  {
  }

  lemma {:induction false} StandingAppend(context: seq<Msg>, id: MsgId, bs: seq<Block>)
    requires OthersFit(context, id)
    ensures OthersFit(AppendReply(context, id, bs), id)
    ensures StandingAt(AppendReply(context, id, bs), id) == After(StandingAt(context, id), bs)
  {
    hide Fit, After;
    LiveAppend(context, id, bs, id);
    AfterAppend(LEVEL, Live(context, id), bs);
    var after := AppendReply(context, id, bs);
    if bs != [] {
      var i := FindReply(context, id);
      if i < |context| {
        FindReplyLike(context, after, id);
      } else {
        FindReplySnoc(context, Msg(id, Assistant, bs), id);
      }
    }
  }

  lemma {:induction false} FitLike(a: Msg, b: Msg)
    requires MsgLike(a, b) && Fit(a)
    ensures Fit(b)
  {
    AfterBare(LEVEL, a.content, b.content);
    if a.role != Assistant { ToollessBare(a.content, b.content); }
  }

  lemma {:induction false} StandingLike(a: seq<Msg>, b: seq<Msg>, id: MsgId)
    requires CtxLike(a, b) && OthersFit(a, id)
    ensures OthersFit(b, id) && StandingAt(b, id) == StandingAt(a, id)
  {
    hide Fit, After, SameBare, FindReply, Live;
    assert forall i :: 0 <= i < |a| ==> MsgLike(a[i], b[i]);
    FindReplyLike(a, b, id);
    LiveLike(a, b, id);
    AfterBare(LEVEL, Live(a, id), Live(b, id));
    forall i | 0 <= i < |b| && i != FindReply(b, id)
      ensures Fit(b[i])
    {
      FitLike(a[i], b[i]);
    }
  }

  lemma {:induction false} BalancedLike(a: seq<Msg>, b: seq<Msg>)
    requires CtxLike(a, b) && BalancedContext(a)
    ensures BalancedContext(b)
  {
    hide Fit, SameBare;
    forall i | 0 <= i < |b|
      ensures Fit(b[i])
    {
      assert MsgLike(a[i], b[i]);
      FitLike(a[i], b[i]);
    }
  }

  /** Where the current message stands, the others being balanced. */
  ghost predicate Stands(r: Run, s: Standing)
  {
    OthersFit(r.context, r.messageId) && StandingAt(r.context, r.messageId) == s
  }

  lemma {:induction false} ResultStands(r: Run, c: Call, result: ToolResult, called: seq<string>, answered: seq<string>)
    requires Stands(r, Standing(called, answered)) && c.id in called && c.id !in answered
    ensures Stands(PutResult(r, c, result), Standing(called, answered + [c.id]))
  {
    hide OthersFit, StandingAt, AppendReply, SetState, CtxLike;
    var text := if result.text == "" then Placeholder(c.name) else result.text;
    var b := ToolResultBlock(c.id, c.name, Plain(text), StateFor(result.failed));
    SetStateLike(r.context, c.id, CallState.Finished);
    StandingLike(r.context, SetState(r.context, c.id, CallState.Finished), r.messageId);
    StandingAppend(SetState(r.context, c.id, CallState.Finished), r.messageId, [b]);
    AfterOne(Standing(called, answered), b);
  }

  lemma AfterOne(s: Standing, b: Block)
    ensures After(s, [b]) == AfterBlock(s, b)
  {
    assert [b][..0] == [];
  }

  lemma {:induction false} DeniedStands(r: Run, c: Call, called: seq<string>, answered: seq<string>)
    requires Stands(r, Standing(called, answered)) && c.id in called && c.id !in answered
    ensures Stands(PutDenied(r, c), Standing(called, answered + [c.id]))
  {
    hide OthersFit, StandingAt, AppendReply, SetState, CtxLike;
    var b := ToolResultBlock(c.id, c.name, Plain(DeniedText(c.name)), Denied);
    StandingAppend(r.context, r.messageId, [b]);
    var w := AppendReply(r.context, r.messageId, [b]);
    SetStateLike(w, c.id, CallState.Finished);
    StandingLike(w, SetState(w, c.id, CallState.Finished), r.messageId);
    AfterOne(Standing(called, answered), b);
  }

  lemma {:induction false} HintStands(r: Run, hint: string, s: Standing)
    requires Stands(r, s)
    ensures Stands(PutHint(r, hint), if Balance.Settled(s) then LEVEL else Broken)
  {
    hide OthersFit, StandingAt, AppendReply;
    StandingAppend(r.context, r.messageId, [HintBlock(r.nextId, hint)]);
    AfterOne(s, HintBlock(r.nextId, hint));
  }

  lemma {:induction false} HintsStand(r: Run, hints: seq<string>, s: Standing)
    requires Stands(r, s)
    ensures Stands(PutHints(r, hints), if hints == [] then s else if Balance.Settled(s) then LEVEL else Broken)
  {
    hide Stands, PutHint;
    if hints != [] {
      var init := hints[..|hints| - 1];
      HintsStand(r, init, s);
      HintStands(PutHints(r, init), hints[|hints| - 1], if init == [] then s else if Balance.Settled(s) then LEVEL else Broken);
    }
  }

  lemma {:induction false} ResultsStand(r: Run, calls: seq<Call>, results: seq<ToolResult>, called: seq<string>)
    requires Stands(r, Standing(called, [])) && |calls| == |results| && DistinctIds(calls)
    requires forall i :: 0 <= i < |calls| ==> calls[i].id in called
    ensures Stands(PutResults(r, calls, results), Standing(called, CallIds(calls)))
    ensures PutResults(r, calls, results).messageId == r.messageId
  {
    hide Stands, PutResult;
    if calls != [] {
      var n := |calls| - 1;
      ResultsStand(r, calls[..n], results[..n], called);
      CallIdsAt(calls[..n]);
      var before := PutResults(r, calls[..n], results[..n]);
      ResultStands(before, calls[n], results[n], called, CallIds(calls[..n]));
      PutResultId(before, calls[n], results[n]);
    }
  }

  lemma PutResultId(r: Run, c: Call, result: ToolResult)
    ensures PutResult(r, c, result).messageId == r.messageId
  {
  }

  lemma {:induction false} AllDeniedStand(r: Run, calls: seq<Call>, called: seq<string>, answered: seq<string>)
    requires Stands(r, Standing(called, answered)) && DistinctIds(calls)
    requires forall i :: 0 <= i < |calls| ==> calls[i].id in called && calls[i].id !in answered
    ensures Stands(PutAllDenied(r, calls), Standing(called, answered + CallIds(calls)))
  {
    hide Stands, PutDenied;
    if calls == [] {
      assert answered + [] == answered;
    } else {
      var n := |calls| - 1;
      AllDeniedStand(r, calls[..n], called, answered);
      CallIdsAt(calls[..n]);
      var c := calls[n];
      DeniedStands(PutAllDenied(r, calls[..n]), c, called, answered + CallIds(calls[..n]));
      assert answered + CallIds(calls[..n]) + [c.id] == answered + CallIds(calls);
    }
  }

  // ---------------------------------------------------------------------------
  // A turn with calls, and its batch
  // ---------------------------------------------------------------------------

  /** All messages are balanced but the reply `id`, which ends with the open calls `called`. */
  ghost predicate Owes(context: seq<Msg>, id: MsgId, called: seq<string>)
  {
    && OthersFit(context, id) && StandingAt(context, id) == Standing(called, []) && called != []
    && (forall x :: x in called ==> x !in AnsweredIds(context))
    && (forall x :: x in CallStates(context) ==> x in AnsweredIds(context) || x in called)
  }

  lemma {:induction false} FitAnswers(m: Msg)
    requires Fit(m)
    ensures forall x :: x in States(m.content) ==> x in ResultIds(m.content)
  {
    hide States, ResultIds, Proper, Covers;
    if m.role == Assistant {
      StandingFacts(m.content);
      SettledAnswers(After(LEVEL, m.content), States(m.content).Keys, ResultIds(m.content));
    } else {
      ToollessLedger(m.content);
    }
  }

  /** In a balanced context every call is answered. */
  lemma {:induction false} BalancedAnswers(context: seq<Msg>)
    requires BalancedContext(context)
    ensures forall x :: x in CallStates(context) ==> x in AnsweredIds(context)
  {
    hide Fit, States, ResultIds;
    if context == [] {
      NoCalls();
      assert AllBlocks([]) == [];
    } else {
      var m, rest := context[0], context[1..];
      assert context == [m] + rest;
      assert forall i :: 0 <= i < |rest| ==> rest[i] == context[i + 1];
      BalancedAnswers(rest);
      FitAnswers(m);
      SplitLedger(m, rest);
    }
  }

  ghost predicate NamedCalls(calls: seq<Call>) { forall i :: 0 <= i < |calls| ==> calls[i].id != "" }

  /** Writing a turn on a balanced context leaves it balanced, or owing exactly the turn's calls. */
  lemma {:induction false} TurnOwes(r: Run, blocks: seq<Block>, calls: seq<Call>)
    requires UniqueCalls(r.context) && BalancedContext(r.context)
    requires Wrote(blocks, calls) && FreshCalls(calls, UsedIds(r.context)) && NamedCalls(calls)
    ensures var after := AppendReply(r.context, r.messageId, blocks);
      if calls == [] then BalancedContext(after) else Owes(after, r.messageId, CallIds(calls))
  {
    var speech: seq<Block> :| Toolless(speech) && blocks == speech + CallBlocksOf(calls);
    hide BalancedContext, OthersFit, StandingAt, AppendReply, Toolless, Opened, Unique, States, ResultIds, After;
    var after := AppendReply(r.context, r.messageId, blocks);
    var s := StandingAt(r.context, r.messageId);
    BalancedIff(r.context, r.messageId);
    BalancedIff(after, r.messageId);
    StandingAppend(r.context, r.messageId, blocks);
    ToollessLevels(s, speech);
    AfterAppend(s, speech, CallBlocksOf(calls));
    if calls == [] {
      NoCallBlocks();
      NoBlocksAfter(After(s, speech));
    } else {
      CallsOpen(After(s, speech), calls);
      CallIdsAt(calls);
      BalancedAnswers(r.context);
      WroteLedger(blocks, calls);
      OpenedIs(calls);
      AppendLedger(r.context, r.messageId, blocks);
      assert CallIds(calls)[0] == calls[0].id;
    }
  }

  lemma NoBlocksAfter(s: Standing)
    ensures After(s, []) == s
  {
  }

  lemma {:induction false} PutHintsId(r: Run, hints: seq<string>)
    ensures PutHints(r, hints).messageId == r.messageId
  {
    if hints != [] { PutHintsId(r, hints[..|hints| - 1]); }
  }

  /** Where the current message stands after some of its open calls have run. */
  function Ran(called: seq<string>, calls: seq<Call>, hints: seq<string>): Standing
  {
    if hints == [] then Standing(called, CallIds(calls))
    else if |calls| == |called| then LEVEL else Broken
  }

  function HintsFrom(calls: seq<Call>, env: Env): seq<string>
  {
    HintsOf(GatherAll(calls, env.outcomes, env.toolsCancelled))
  }

  lemma {:induction false} ExecuteStands(r: Run, calls: seq<Call>, env: Env, called: seq<string>)
    requires Stands(r, Standing(called, [])) && DistinctIds(calls)
    requires forall i :: 0 <= i < |calls| ==> calls[i].id in called
    ensures var done := Execute(r, calls, env).0;
      done.messageId == r.messageId && Stands(done, Ran(called, calls, HintsFrom(calls, env)))
  {
    hide PutResults, PutHints, CallsInState, GatherAll, DistinctIds, OthersFit, StandingAt;
    SpawnLogs(r, calls);
    GatherLength(calls, env.outcomes, env.toolsCancelled);
    var results := GatherAll(calls, env.outcomes, env.toolsCancelled);
    var spawned := Spawn(r, calls);
    ResultsStand(spawned, calls, results, called);
    CallIdsAt(calls);
    var written := PutResults(spawned, calls, results);
    HintsStand(written, HintsOf(results), Standing(called, CallIds(calls)));
    PutHintsId(written, HintsOf(results));
  }

  lemma {:induction false} HoldStands(r: Run, asOf: seq<Msg>, decide: Call -> Behavior, calls: seq<Call>, s: Standing)
    requires Stands(r, s)
    ensures var after := HoldAsked(r, asOf, decide, calls); after.messageId == r.messageId && Stands(after, s)
  {
    hide Classify, OthersFit, StandingAt, SetState, CtxLike;
    if calls != [] {
      var c := calls[|calls| - 1];
      var before := HoldAsked(r, asOf, decide, calls[..|calls| - 1]);
      HoldStands(r, asOf, decide, calls[..|calls| - 1], s);
      SetStateLike(before.context, c.id, Asking);
      StandingLike(before.context, SetState(before.context, c.id, Asking), r.messageId);
    }
  }

  /** A batch with a call to ask about leaves a call waiting. */
  lemma {:induction false} HoldAsks(r: Run, asOf: seq<Msg>, decide: Call -> Behavior, calls: seq<Call>)
    requires forall i :: 0 <= i < |calls| ==> calls[i].id in CallStates(r.context)
    ensures var after := HoldAsked(r, asOf, decide, calls);
      && CallStates(after.context).Keys == CallStates(r.context).Keys
      && (AnyAsk(asOf, decide, calls) ==> !NoneIs(CallStates(after.context), Asking))
  {
    hide Classify, CallStates, SetState;
    if calls != [] {
      var c := calls[|calls| - 1];
      var before := HoldAsked(r, asOf, decide, calls[..|calls| - 1]);
      HoldAsks(r, asOf, decide, calls[..|calls| - 1]);
      if Classify(asOf, decide, c) == Ask {
        MarkLedger(before.context, c.id, Asking);
        assert c.id in CallStates(r.context);
        var marked := SetState(before.context, c.id, Asking);
        assert c.id in CallStates(marked) && CallStates(marked)[c.id] == Asking;
      }
    }
  }

  // ---------------------------------------------------------------------------
  // Resuming
  // ---------------------------------------------------------------------------

  lemma {:induction false} IdSetSize(calls: seq<Call>)
    requires DistinctIds(calls)
    ensures |IdSet(calls)| == |calls|
  {
    if calls != [] {
      IdSetSize(calls[..|calls| - 1]);
      InIdSet(calls[..|calls| - 1], calls[|calls| - 1].id);
    }
  }

  /** The parts of a batch, counted. */
  lemma {:induction false} PartsFill(called: seq<string>, allowed: seq<Call>, denied: seq<Call>)
    requires DistinctGiven(called) && DistinctIds(allowed) && DistinctIds(denied)
    requires IdSet(allowed) !! IdSet(denied)
    requires forall x :: x in called <==> x in IdSet(allowed) || x in IdSet(denied)
    ensures |called| == |allowed| + |denied|
  {
    hide IdSet, DistinctIds;
    SetOfDistinct(called);
    IdSetSize(allowed);
    IdSetSize(denied);
    assert SetOf(called) == IdSet(allowed) + IdSet(denied);
    assert |IdSet(allowed) + IdSet(denied)| == |IdSet(allowed)| + |IdSet(denied)|;
  }

  lemma {:induction false} BrokenDenied(r: Run, calls: seq<Call>)
    requires Stands(r, Broken)
    ensures Stands(PutAllDenied(r, calls), Broken) && PutAllDenied(r, calls).messageId == r.messageId
  {
    hide OthersFit, StandingAt, SetState, AppendReply, CtxLike;
    if calls != [] {
      var c := calls[|calls| - 1];
      BrokenDenied(r, calls[..|calls| - 1]);
      var before := PutAllDenied(r, calls[..|calls| - 1]);
      var b := ToolResultBlock(c.id, c.name, Plain(DeniedText(c.name)), Denied);
      StandingAppend(before.context, before.messageId, [b]);
      AfterOne(Broken, b);
      var w := AppendReply(before.context, before.messageId, [b]);
      SetStateLike(w, c.id, CallState.Finished);
      StandingLike(w, SetState(w, c.id, CallState.Finished), before.messageId);
    }
  }

  lemma {:induction false} DeniedId(r: Run, calls: seq<Call>)
    ensures PutAllDenied(r, calls).messageId == r.messageId
  {
    if calls != [] { DeniedId(r, calls[..|calls| - 1]); }
  }

  /** A batch that is partly allowed and partly denied is resumed without a hint and without a cancellation. */
  ghost predicate QuietWhenMixed(r: Run, env: Env)
  {
    var allowed, denied := Split(PendingCalls(r.context), true), Split(PendingCalls(r.context), false);
    allowed != [] && denied != [] ==> !Execute(r, allowed, env).1 && HintsFrom(allowed, env) == []
  }

  lemma {:induction false} SettledParts(r: Run, called: seq<string>, allowed: seq<Call>, denied: seq<Call>, env: Env) returns (s: Standing)
    requires Stands(r, Standing(called, [])) && |called| == |allowed| + |denied|
    requires DistinctIds(allowed) && DistinctIds(denied) && IdSet(allowed) !! IdSet(denied)
    requires forall x :: x in called <==> x in IdSet(allowed) || x in IdSet(denied)
    ensures var (done, cancelled) := if allowed == [] then (r, false) else Execute(r, allowed, env);
      var after := if cancelled then done else PutAllDenied(done, denied);
      && after.messageId == r.messageId
      && Stands(after, s)
      && (Balance.Settled(s) <==> (allowed != [] && denied != [] ==> !cancelled && HintsFrom(allowed, env) == []))
  {
    hide Stands, Execute, PutAllDenied, HintsFrom, IdSet, DistinctIds;
    InIds(allowed);
    InIds(denied);
    CallIdsAt(allowed);
    CallIdsAt(denied);
    var (done, cancelled) := if allowed == [] then (r, false) else Execute(r, allowed, env);
    if allowed == [] {
      AllDeniedStand(r, denied, called, []);
      DeniedId(r, denied);
      s := Standing(called, [] + CallIds(denied));
    } else {
      ExecuteStands(r, allowed, env, called);
      s := Ran(called, allowed, HintsFrom(allowed, env));
      if !cancelled {
        DeniedId(done, denied);
        if s.Broken? {
          BrokenDenied(done, denied);
        } else if denied == [] {
          NoneDenied(done);
        } else {
          AllDeniedStand(done, denied, called, CallIds(allowed));
          s := Standing(called, CallIds(allowed) + CallIds(denied));
        }
      }
    }
  }

  lemma NoneDenied(r: Run)
    ensures PutAllDenied(r, []) == r
  {
  }

  /**
   * Resuming a batch that is owed balances the context exactly when the batch is not mixed, or its
   * allowed part brings no hint and is not cancelled: hints are written before the denied results.
   */
  lemma {:induction false} ResumeBalancesIff(r: Run, env: Env, called: seq<string>)
    requires UniqueCalls(r.context) && Owes(r.context, r.messageId, called)
    ensures BalancedContext(Resume(r, env).0.context) <==> QuietWhenMixed(r, env)
  {
    hide CallStates, AnsweredIds, UniqueCalls, Execute, PutAllDenied, Unanswered, Split, DistinctIds, IdSet, OthersFit, BalancedContext, HintsFrom;
    var pending := PendingCalls(r.context);
    var allowed, denied := Split(pending, true), Split(pending, false);
    PendingFacts(r.context);
    DeniedFacts(r.context);
    OwedAreStates(r.context, r.messageId, called);
    PartsFill(called, allowed, denied);
    hide StandingAt;
    var s := SettledParts(r, called, allowed, denied, env);
    var (done, cancelled) := if allowed == [] then (r, false) else Execute(r, allowed, env);
    var after := if cancelled then done else PutAllDenied(done, denied);
    assert Resume(r, env).0 == after;
    BalancedIff(after.context, r.messageId);
  }

  lemma {:induction false} OwedAreStates(context: seq<Msg>, id: MsgId, called: seq<string>)
    requires UniqueCalls(context) && StandingAt(context, id) == Standing(called, [])
    ensures DistinctGiven(called)
    ensures forall x :: x in called ==> x in CallStates(context) && HasCall(Live(context, id), x)
  {
    hide States, ResultIds, AfterBlock;
    var bs := Live(context, id);
    StandingFacts(bs);
    forall x | x in called
      ensures x in CallStates(context) && HasCall(bs, x)
    {
      HasCallIff(bs, x);
      if FindReply(context, id) < |context| {
        LiveStates(context, FindReply(context, id), x);
      } else {
        NoCalls();
      }
    }
  }

  lemma {:induction false} LiveStates(context: seq<Msg>, i: nat, x: string)
    requires i < |context| && x in States(context[i].content)
    ensures x in CallStates(context)
  {
    hide States;
    assert context == [context[0]] + context[1..];
    SplitLedger(context[0], context[1..]);
    if i > 0 { LiveStates(context[1..], i - 1, x); }
  }

  // ---------------------------------------------------------------------------
  // The invariant
  // ---------------------------------------------------------------------------

  /**
   * Between rounds the context is balanced; with a turn in hand it owes exactly that turn's calls;
   * at rest it may owe a batch, and then some call is waiting for the user.
   */
  ghost predicate Even(m: Machine)
  {
    match m.phase
    case Loop(None) => BalancedContext(m.run.context)
    case Loop(Some(t)) =>
      && (t.error.Some? ==> t.calls == [])
      && (if t.calls == [] then BalancedContext(m.run.context) else Owes(m.run.context, m.run.messageId, CallIds(t.calls)))
    case AtRest => EvenAtRest(m.run.context)
  }

  ghost predicate EvenAtRest(context: seq<Msg>)
  {
    BalancedContext(context) || (!NoneIs(CallStates(context), Asking) && exists id, called :: Owes(context, id, called))
  }

  ghost predicate RequestsBalanced(r: Run)
  {
    forall i :: 0 <= i < |r.requests| ==> BalancedContext(r.requests[i])
  }

  // ---------------------------------------------------------------------------
  // Host messages
  // ---------------------------------------------------------------------------

  lemma {:induction false} ToollessFits(m: Msg)
    requires Toolless(m.content) && m.role != Tool
    ensures Fit(m)
  {
    ToollessLevels(LEVEL, m.content);
  }

  lemma {:induction false} AddRawBalanced(r: Run, m: HostMsg)
    requires BalancedContext(r.context) && Toolless(m.blocks)
    ensures BalancedContext(AddRaw(r, m).context) && AddRaw(r, m).requests == r.requests
  {
    hide Fit, Toolless, KnownId;
    var s := AddRaw(r, m);
    if s.context != r.context {
      var added := s.context[|r.context|];
      assert s.context == r.context + [added];
      ToollessFits(added);
    }
  }

  lemma {:induction false} AddRawsBalanced(r: Run, ms: seq<HostMsg>)
    requires BalancedContext(r.context) && AllToolless(ms)
    ensures BalancedContext(AddRaws(r, ms).context) && AddRaws(r, ms).requests == r.requests
  {
    hide BalancedContext, AddRaw, Toolless;
    if ms != [] {
      AddRawsBalanced(r, ms[..|ms| - 1]);
      AddRawBalanced(AddRaws(r, ms[..|ms| - 1]), ms[|ms| - 1]);
    }
  }

  // ---------------------------------------------------------------------------
  // Requests
  // ---------------------------------------------------------------------------

  ghost predicate AllToollessBlocks(snapshots: seq<seq<Block>>)
  {
    forall i :: 0 <= i < |snapshots| ==> Toolless(snapshots[i])
  }

  lemma {:induction false} AttemptsSnapshots(read: Reader, k: nat, max: nat, so: ReasonDone, inputs: nat -> AttemptInput)
    requires k < max && Toolless(so.blocks) && AllToollessBlocks(so.snapshots)
    ensures AllToollessBlocks(RunAttempts(read, k, max, so, inputs).snapshots)
    decreases max - k
  {
    hide RunAttempt, Toolless, Wrote, Unretryable;
    var d := RunAttempt(read, so.nextId, inputs(k));
    AttemptWrote(read, so.nextId, inputs(k));
    WroteAfter(so.blocks, d.blocks, CallsBy(d.end));
    var now := ReasonDone(so.events + d.events, so.blocks + d.blocks, d.nextId, TurnCancelled, so.snapshots + [so.blocks]);
    assert AllToollessBlocks(now.snapshots);
    if d.end.FailedWith? && inputs(k).waiting == Undisturbed && ShouldRetry(d.end.error, inputs(k).advice, k == max - 1) {
      assert CallsBy(d.end) == [];
      AttemptsSnapshots(read, k + 1, max, now.(events := now.events + [Retrying(d.end.error.code, k + 1)]), inputs);
    }
  }

  lemma {:induction false} ReasonSnapshots(read: Reader, hint: Option<string>, maxRetries: nat, nextId: nat, inputs: nat -> AttemptInput)
    ensures AllToollessBlocks(Reason(read, hint, maxRetries, nextId, inputs).snapshots)
    ensures var d := Reason(read, hint, maxRetries, nextId, inputs); d.end.TurnDone? && d.end.result.error.Some? ==> CallsIn(d.end) == []
  {
    hide RunAttempts, Toolless;
    assert Toolless([]) by { ToollessNothing(); }
    var start :=
      if hint.Some? then ReasonDone([HintGiven(nextId, hint.value)], [HintBlock(nextId, hint.value)], nextId + 1, TurnCancelled, [])
      else ReasonDone([], [], nextId, TurnCancelled, []);
    if hint.Some? { OneToolless(HintBlock(nextId, hint.value)); }
    AttemptsSnapshots(read, 0, 1 + maxRetries, start, inputs);
    AttemptsErrors(read, 0, 1 + maxRetries, start, inputs);
  }

  lemma ToollessNothing()
    ensures Toolless([])
  {
  }

  /** A turn that failed hands on no calls. */
  lemma {:induction false} AttemptsErrors(read: Reader, k: nat, max: nat, so: ReasonDone, inputs: nat -> AttemptInput)
    requires k < max
    ensures var d := RunAttempts(read, k, max, so, inputs); d.end.TurnDone? && d.end.result.error.Some? ==> CallsIn(d.end) == []
    decreases max - k
  {
    hide Consume, FailureAfter, Spoken, CallsKept, CallBlocksOf, Unretryable;
    var d := RunAttempt(read, so.nextId, inputs(k));
    if d.end.FailedWith? && inputs(k).waiting == Undisturbed && ShouldRetry(d.end.error, inputs(k).advice, k == max - 1) {
      var now := ReasonDone(so.events + d.events, so.blocks + d.blocks, d.nextId, TurnCancelled, so.snapshots + [so.blocks]);
      AttemptsErrors(read, k + 1, max, now.(events := now.events + [Retrying(d.end.error.code, k + 1)]), inputs);
    }
  }

  lemma {:induction false} SpeechBalanced(context: seq<Msg>, id: MsgId, speech: seq<Block>)
    requires BalancedContext(context) && Toolless(speech)
    ensures BalancedContext(AppendReply(context, id, speech))
  {
    hide BalancedContext, OthersFit, StandingAt, AppendReply, Toolless;
    BalancedIff(context, id);
    StandingAppend(context, id, speech);
    ToollessLevels(StandingAt(context, id), speech);
    BalancedIff(AppendReply(context, id, speech), id);
  }

  lemma {:induction false} SnapshotsBalanced(r: Run, snapshots: seq<seq<Block>>)
    requires BalancedContext(r.context) && AllToollessBlocks(snapshots)
    ensures forall i :: 0 <= i < |Snapshots(r, snapshots)| ==> BalancedContext(Snapshots(r, snapshots)[i])
  {
    hide BalancedContext, AppendReply, Toolless;
    if snapshots != [] {
      SnapshotsBalanced(r, snapshots[..|snapshots| - 1]);
      SpeechBalanced(r.context, r.messageId, snapshots[|snapshots| - 1]);
    }
  }

  // ---------------------------------------------------------------------------
  // Rounds
  // ---------------------------------------------------------------------------

  /** The turn in hand names all its calls. */
  ghost predicate NamedTurn(phase: Phase)
  {
    phase.Loop? && phase.prev.Some? ==> NamedCalls(phase.prev.value.calls)
  }

  lemma {:induction false} AskModelEven(c: Config, r: Run, hint: Option<string>, env: Env)
    requires UniqueCalls(r.context) && BalancedContext(r.context) && RequestsBalanced(r)
    requires FreshTurn(r.context, AskModel(c, r, hint, env).phase) && NamedTurn(AskModel(c, r, hint, env).phase)
    ensures Even(AskModel(c, r, hint, env)) && RequestsBalanced(AskModel(c, r, hint, env).run)
  {
    hide UniqueCalls, BalancedContext, Owes, Reason, Wrote, FreshCalls, UsedIds, AppendReply, Snapshots, Addressed, AllToollessBlocks, NoneIs;
    var d := Reason(c.read, hint, c.maxRetries, r.nextId, env.attempts);
    ReasonWrote(c.read, hint, c.maxRetries, r.nextId, env.attempts);
    ReasonSnapshots(c.read, hint, c.maxRetries, r.nextId, env.attempts);
    NoFreshCalls(UsedIds(r.context));
    TurnOwes(r, d.blocks, CallsIn(d.end));
    SnapshotsBalanced(r, d.snapshots);
  }

  lemma {:induction false} ReasonRoundEven(c: Config, r: Run, hint: Option<string>, env: Env)
    requires UniqueCalls(r.context) && BalancedContext(r.context) && RequestsBalanced(r)
    requires env.hook.HookMessages? ==> AllToolless(env.hook.messages)
    requires FreshTurn(r.context, ReasonRound(c, r, hint, env).phase) && NamedTurn(ReasonRound(c, r, hint, env).phase)
    ensures Even(ReasonRound(c, r, hint, env)) && RequestsBalanced(ReasonRound(c, r, hint, env).run)
  {
    hide UniqueCalls, BalancedContext, AskModel, AddRaws, AllToolless, FreshCalls, NamedCalls, CallStates, AnsweredIds, FindReply, HasUser, NoneIs;
    var counted := r.(iteration := r.iteration + 1);
    match env.hook
    case HookMessages(ms) =>
      AddRawsLedger(counted, ms);
      AddRawsBalanced(counted, ms);
      var ready := Ready(r, ms);
      AskModelEven(c, ready, hint, env);
    case _ =>
  }

  /** A batch may run as a whole or wait for the user; one with a refused call and none to ask about may not occur. */
  ghost predicate Runnable(r: Run, calls: seq<Call>, env: Env)
  {
    AllAllowed(r.context, env.decide, calls) || AnyAsk(r.context, env.decide, calls)
  }

  lemma {:induction false} BatchRunEven(r: Run, calls: seq<Call>, env: Env)
    requires DistinctIds(calls) && Owes(r.context, r.messageId, CallIds(calls))
    ensures BalancedContext(Execute(r, calls, env).0.context)
  {
    hide Execute, DistinctIds, IdSet, OthersFit, StandingAt, BalancedContext, HintsFrom, AnsweredIds, CallStates;
    CallIdsAt(calls);
    InIds(calls);
    ExecuteStands(r, calls, env, CallIds(calls));
    BalancedIff(Execute(r, calls, env).0.context, r.messageId);
  }

  lemma {:induction false} ExecuteRequests(r: Run, calls: seq<Call>, env: Env)
    ensures Execute(r, calls, env).0.requests == r.requests
  {
    SpawnLogs(r, calls);
    GatherLength(calls, env.outcomes, env.toolsCancelled);
    var results := GatherAll(calls, env.outcomes, env.toolsCancelled);
    PutResultsRequests(Spawn(r, calls), calls, results);
    PutHintsRequests(PutResults(Spawn(r, calls), calls, results), HintsOf(results));
  }

  lemma {:induction false} PutResultsRequests(r: Run, calls: seq<Call>, results: seq<ToolResult>)
    requires |calls| == |results|
    ensures PutResults(r, calls, results).requests == r.requests
  {
    if calls != [] { PutResultsRequests(r, calls[..|calls| - 1], results[..|calls| - 1]); }
  }

  lemma {:induction false} PutHintsRequests(r: Run, hints: seq<string>)
    ensures PutHints(r, hints).requests == r.requests
  {
    if hints != [] { PutHintsRequests(r, hints[..|hints| - 1]); }
  }

  lemma {:induction false} PutAllDeniedRequests(r: Run, calls: seq<Call>)
    ensures PutAllDenied(r, calls).requests == r.requests
  {
    if calls != [] { PutAllDeniedRequests(r, calls[..|calls| - 1]); }
  }

  lemma {:induction false} HoldRequests(r: Run, asOf: seq<Msg>, decide: Call -> Behavior, calls: seq<Call>)
    ensures HoldAsked(r, asOf, decide, calls).requests == r.requests
  {
    hide Classify;
    if calls != [] { HoldRequests(r, asOf, decide, calls[..|calls| - 1]); }
  }

  /** A batch on hold is still owed, and some call waits. */
  lemma {:induction false} HeldOwes(r: Run, calls: seq<Call>, env: Env)
    requires SafeRun(r) && Quiet(CallStates(r.context)) && Untouched(calls, CallStates(r.context), AnsweredIds(r.context))
    requires Owes(r.context, r.messageId, CallIds(calls)) && AnyAsk(r.context, env.decide, calls)
    ensures var after := HoldAsked(r, r.context, env.decide, calls);
      Owes(after.context, r.messageId, CallIds(calls)) && !NoneIs(CallStates(after.context), Asking)
  {
    hide CallStates, AnsweredIds, UniqueCalls, SafeLog, LedgerSafe, HoldAsked, AnyAsk, NoneIs, OthersFit, StandingAt;
    HoldSafe(r, r.context, env.decide, calls);
    HoldStands(r, r.context, env.decide, calls, Standing(CallIds(calls), []));
    HoldAsks(r, r.context, env.decide, calls);
  }

  lemma {:induction false} ActRoundEven(r: Run, calls: seq<Call>, env: Env)
    requires SafeRun(r) && Quiet(CallStates(r.context)) && Untouched(calls, CallStates(r.context), AnsweredIds(r.context))
    requires Owes(r.context, r.messageId, CallIds(calls)) && Runnable(r, calls, env) && RequestsBalanced(r)
    ensures Even(ActRound(r, calls, env)) && RequestsBalanced(ActRound(r, calls, env).run)
  {
    hide CallStates, AnsweredIds, UniqueCalls, SafeLog, LedgerSafe, Quiet, HoldAsked, Execute, AllAllowed, AnyAsk, NoneIs, OthersFit, StandingAt, DistinctIds, BalancedContext, Owes;
    if AllAllowed(r.context, env.decide, calls) {
      BatchRunEven(r, calls, env);
      ExecuteRequests(r, calls, env);
    } else {
      HeldOwes(r, calls, env);
      HoldRequests(r, r.context, env.decide, calls);
    }
  }

  /** A batch that is dropped leaves its calls without results for good: the next request is not balanced. */
  lemma {:induction false} DroppedBatchUnbalances(r: Run, calls: seq<Call>, env: Env)
    requires Owes(r.context, r.messageId, CallIds(calls)) && !Runnable(r, calls, env)
    ensures ActRound(r, calls, env).phase == Loop(None) && !BalancedContext(ActRound(r, calls, env).run.context)
  {
    hide AllAllowed, AnyAsk, HoldAsked, Execute, OthersFit, BalancedContext, CallStates, AnsweredIds;
    DenyWithoutAskDoesNothing(r, calls, env);
    BalancedIff(r.context, r.messageId);
  }

  lemma {:induction false} ExitRoundEven(r: Run, reason: EndReason, env: Env)
    requires BalancedContext(r.context) && RequestsBalanced(r)
    ensures Even(ExitRound(r, reason, env)) && RequestsBalanced(ExitRound(r, reason, env).run)
  {
    hide BalancedContext, PutHint, OthersFit, StandingAt;
    if env.stop.Continue? {
      var more := r.(continuations := r.continuations + 1);
      BalancedIff(r.context, r.messageId);
      HintStands(more, env.stop.prompt, StandingAt(r.context, r.messageId));
      PutHintsId(more, [env.stop.prompt]);
      PutHintFields(more, env.stop.prompt);
      BalancedIff(PutHint(more, env.stop.prompt).context, r.messageId);
    }
  }

  lemma PutHintFields(r: Run, hint: string)
    ensures PutHint(r, hint).messageId == r.messageId && PutHint(r, hint).requests == r.requests
  {
  }

  /** What is asked of one turn, besides fairness. */
  ghost predicate TameTurn(c: Config, r: Run, prev: Option<TurnResult>, env: Env)
  {
    var (action, decided) := Decide(c, r, prev);
    && NamedTurn(Round(c, r, prev, env).phase)
    && (action.Acting? ==> Runnable(decided, action.calls, env))
  }

  lemma {:induction false} RoundEven(c: Config, m: Machine, env: Env)
    requires Safe(m) && m.phase.Loop? && Even(m) && RequestsBalanced(m.run)
    requires env.hook.HookMessages? ==> AllToolless(env.hook.messages)
    requires FreshTurn(m.run.context, Round(c, m.run, m.phase.prev, env).phase)
    requires TameTurn(c, m.run, m.phase.prev, env)
    ensures Even(Round(c, m.run, m.phase.prev, env)) && RequestsBalanced(Round(c, m.run, m.phase.prev, env).run)
  {
    hide Safe, CallStates, AnsweredIds, UniqueCalls, SafeLog, LedgerSafe, NoneIs, ReasonRound, ActRound, ExitRound, AllToolless, FreshCalls, UsedIds, BalancedContext, Owes, Runnable, NamedCalls, Untouched, Quiet;
    SafeMeans(m);
    var (action, decided) := Decide(c, m.run, m.phase.prev);
    assert decided.context == m.run.context && decided.messageId == m.run.messageId && decided.requests == m.run.requests && decided.log == m.run.log;
    match action
    case Reasoning(hint, _) => ReasonRoundEven(c, decided, hint, env);
    case Acting(calls) => ActRoundEven(decided, calls, env);
    case Exiting(reason) => ExitRoundEven(decided, reason, env);
  }

  // ---------------------------------------------------------------------------
  // New replies and answers
  // ---------------------------------------------------------------------------

  lemma {:induction false} StartEven(m: Machine, ms: seq<HostMsg>, maxContinuations: nat)
    requires Safe(m) && m.phase.AtRest? && Even(m) && RequestsBalanced(m.run) && AllToolless(ms)
    ensures Even(Start(m.run, ms, maxContinuations)) && RequestsBalanced(Start(m.run, ms, maxContinuations).run)
  {
    hide Safe, CallStates, NoneIs, CallsInState, AddRaws, AllToolless, BalancedContext, Owes, UniqueCalls;
    SafeUnique(m);
    NothingAsking(m.run.context);
    if CallsInState(m.run.context, Asking) == [] {
      var reset := m.run.(status := Active, iteration := 0, emptyRetries := 0, inFinalization := false,
                          continuations := 0, maxContinuations := maxContinuations, requests := []);
      AddRawsBalanced(reset, ms);
    }
  }

  lemma SafeUnique(m: Machine)
    requires Safe(m)
    ensures UniqueCalls(m.run.context) && SafeRun(m.run)
  {
    hide CallStates, AnsweredIds, UniqueCalls, SafeLog, LedgerSafe, NoneIs, PhaseSafe;
  }

  /** Moving a call on keeps what is owed. */
  lemma {:induction false} MarkOwes(context: seq<Msg>, id: MsgId, called: seq<string>, call: string, state: CallState)
    requires Owes(context, id, called)
    ensures Owes(SetState(context, call, state), id, called)
  {
    hide CallStates, AnsweredIds, OthersFit, StandingAt, SetState, CtxLike;
    MarkLedger(context, call, state);
    SetStateLike(context, call, state);
    StandingLike(context, SetState(context, call, state), id);
  }

  lemma {:induction false} OwnerIs(context: seq<Msg>, i: nat, call: string)
    requires UniqueCalls(context) && i < |context| && HasCall(context[i].content, call)
    ensures Owner(context, call) == i
  {
    hide States, Unique, ResultIds;
    assert context == [context[0]] + context[1..];
    SplitLedger(context[0], context[1..]);
    HasCallIff(context[i].content, call);
    HasCallIff(context[0].content, call);
    if i > 0 {
      LiveStates(context[1..], i - 1, call);
      OwnerIs(context[1..], i - 1, call);
    }
  }

  /** A waiting call belongs to the batch that is owed, so answering it speaks about the right message. */
  lemma {:induction false} WaitingIsOwed(r: Run, id: MsgId, called: seq<string>, call: string)
    requires SafeRun(r) && Owes(r.context, id, called)
    requires call in CallStates(r.context) && CallStates(r.context)[call] == Asking
    ensures Owner(r.context, call) < |r.context| && r.context[Owner(r.context, call)].id == id
  {
    hide CallStates, AnsweredIds, UniqueCalls, SafeLog, OthersFit, StandingAt, WasExecuted, Owner, HasCall, FindReply;
    OwedAreStates(r.context, id, called);
    assert call in called;
    var i := FindReply(r.context, id);
    if i < |r.context| {
      OwnerIs(r.context, i, call);
    } else {
      NoCallInNothing(call);
    }
  }

  lemma NoCallInNothing(call: string)
    ensures !HasCall([], call)
  {
  }

  /** When nothing is owed, resuming has nothing to do. */
  lemma {:induction false} BalancedResume(r: Run, env: Env)
    requires UniqueCalls(r.context) && BalancedContext(r.context)
    ensures Resume(r, env) == (r, false)
  {
    hide CallStates, AnsweredIds, UniqueCalls, Unanswered, Split, DistinctIds, BalancedContext, IdSet;
    BalancedAnswers(r.context);
    PendingFacts(r.context);
    DeniedFacts(r.context);
    var allowed, denied := Split(PendingCalls(r.context), true), Split(PendingCalls(r.context), false);
    InIds(allowed);
    InIds(denied);
    assert allowed != [] ==> allowed[0].id in IdSet(allowed);
    assert denied != [] ==> denied[0].id in IdSet(denied);
    NoneDenied(r);
  }

  /** The run right after the last open answer was taken. */
  function AtResume(r: Run, id: string, approved: bool, maxContinuations: nat): Run
  {
    Accept(r.(continuations := 0, maxContinuations := maxContinuations), id, approved).0.(status := Active)
  }

  lemma {:induction false} AcceptEven(r: Run, id: string, approved: bool)
    requires SafeRun(r) && EvenAtRest(r.context)
    ensures var (at, acceptance) := Accept(r, id, approved);
      && at.requests == r.requests
      && (!acceptance.Complete? ==> EvenAtRest(at.context))
      && (acceptance.Complete? ==> BalancedContext(at.context) || exists called :: Owes(at.context, at.messageId, called))
  {
    hide CallStates, AnsweredIds, UniqueCalls, SafeLog, LedgerSafe, SetState, NoneIs, CallsInState, StateOf, Owner, Owes, BalancedContext;
    AcceptSafe(r, id, approved);
    var (at, acceptance) := Accept(r, id, approved);
    StateOfLedger(r.context, id);
    var owner := Owner(r.context, id);
    if owner < |r.context| && StateOf(r.context, id).value == Asking {
      var expected := if approved then Allowed else CallState.Finished;
      SetStateLike(r.context, id, expected);
      if BalancedContext(r.context) {
        BalancedLike(r.context, SetState(r.context, id, expected));
      } else {
        var to, called :| Owes(r.context, to, called);
        MarkOwes(r.context, to, called, id, expected);
        WaitingIsOwed(r, to, called, id);
        assert Owes(at.context, at.messageId, called);
      }
    } else {
      assert at.context == r.context;
    }
  }

  lemma {:induction false} ResumeRequests(r: Run, env: Env)
    ensures Resume(r, env).0.requests == r.requests
  {
    hide Execute, PutAllDenied;
    var pending := PendingCalls(r.context);
    var allowed, denied := Split(pending, true), Split(pending, false);
    ExecuteRequests(r, allowed, env);
    PutAllDeniedRequests(if allowed == [] then r else Execute(r, allowed, env).0, denied);
  }

  ghost predicate TameAnswer(r: Run, id: string, approved: bool, maxContinuations: nat, env: Env)
  {
    QuietWhenMixed(AtResume(r, id, approved, maxContinuations), env)
  }

  lemma {:induction false} AnsweredEven(m: Machine, id: string, approved: bool, maxContinuations: nat, env: Env)
    requires Safe(m) && m.phase.AtRest? && Even(m) && RequestsBalanced(m.run)
    requires TameAnswer(m.run, id, approved, maxContinuations, env)
    ensures Even(Answered(m.run, id, approved, maxContinuations, env))
    ensures RequestsBalanced(Answered(m.run, id, approved, maxContinuations, env).run)
  {
    hide Safe, CallStates, AnsweredIds, UniqueCalls, SafeLog, LedgerSafe, NoneIs, Accept, Resume, QuietWhenMixed, Owes, BalancedContext;
    SafeUnique(m);
    var r := m.run.(continuations := 0, maxContinuations := maxContinuations);
    AcceptSafe(r, id, approved);
    AcceptEven(r, id, approved);
    var (at, acceptance) := Accept(r, id, approved);
    if acceptance.Complete? {
      var active := AtResume(m.run, id, approved, maxContinuations);
      ResumeRequests(active, env);
      if BalancedContext(at.context) {
        BalancedResume(active, env);
      } else {
        var called :| Owes(at.context, at.messageId, called);
        ResumeBalancesIff(active, env, called);
      }
    }
  }

  // ---------------------------------------------------------------------------
  // Whole lives
  // ---------------------------------------------------------------------------

  /**
   * What is asked of the outside, besides fairness: calls have names, no batch is refused in part
   * without a question to the user, and a mixed resume brings no hint and no cancellation.
   */
  ghost predicate Tame(c: Config, m: Machine, input: Input)
  {
    match input
    case StartReply(_, _) => true
    case Answer(id, approved, maxContinuations, env) => m.phase.AtRest? ==> TameAnswer(m.run, id, approved, maxContinuations, env)
    case Turn(env) => m.phase.Loop? ==> TameTurn(c, m.run, m.phase.prev, env)
  }

  ghost predicate TameLife(c: Config, m: Machine, inputs: seq<Input>)
  {
    inputs == [] || (TameLife(c, m, inputs[..|inputs| - 1]) && Tame(c, Life(c, m, inputs[..|inputs| - 1]), inputs[|inputs| - 1]))
  }

  lemma {:induction false} AdvanceEven(c: Config, m: Machine, input: Input)
    requires Safe(m) && Even(m) && RequestsBalanced(m.run) && Fair(c, m, input) && Tame(c, m, input)
    ensures Even(Advance(c, m, input)) && RequestsBalanced(Advance(c, m, input).run)
  {
    hide Safe, Even, RequestsBalanced, Start, Answered, Round, AllToolless, FreshTurn, TameAnswer, TameTurn;
    match input
    case StartReply(ms, maxContinuations) => if m.phase.AtRest? { StartEven(m, ms, maxContinuations); }
    case Answer(id, approved, maxContinuations, env) =>
      if m.phase.AtRest? { AnsweredEven(m, id, approved, maxContinuations, env); }
    case Turn(env) => if m.phase.Loop? { RoundEven(c, m, env); }
  }

  lemma {:induction false} AlwaysEven(c: Config, m: Machine, inputs: seq<Input>)
    requires Safe(m) && Even(m) && RequestsBalanced(m.run) && FairLife(c, m, inputs) && TameLife(c, m, inputs)
    ensures Even(Life(c, m, inputs)) && RequestsBalanced(Life(c, m, inputs).run)
  {
    hide Safe, Even, RequestsBalanced, Fair, Tame, Advance;
    if inputs != [] {
      var before := inputs[..|inputs| - 1];
      AlwaysEven(c, m, before);
      AlwaysSafe(c, m, before);
      AdvanceEven(c, Life(c, m, before), inputs[|inputs| - 1]);
    }
  }

  /**
   * For every tame life of a new agent, every request to the model survives the way to the provider:
   * no result is dropped and no call is stripped, whatever the system prompt.
   */
  lemma {:induction false} RequestsLoseNothing(c: Config, m: Machine, inputs: seq<Input>, i: nat, prompt: string, keepReasoning: bool)
    requires m.run.context == [] && m.run.log == [] && m.run.requests == [] && m.phase == AtRest
    requires FairLife(c, m, inputs) && TameLife(c, m, inputs)
    requires i < |Life(c, m, inputs).run.requests|
    ensures var request := Request(prompt, Life(c, m, inputs).run.requests[i]);
      && Normalize.DroppedFrom(request, 0, keepReasoning) == 0
      && Normalize.StrippedFrom(request, 0, keepReasoning) == 0
  {
    hide Safe, Life, FairLife, TameLife, Request, NoneIs, Owes, Fit;
    NewIsSafe(m);
    AlwaysEven(c, m, inputs);
    var us := BalancedLosesNothing(prompt, Life(c, m, inputs).run.requests[i], keepReasoning);
  }
}
