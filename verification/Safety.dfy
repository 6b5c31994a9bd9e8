/**
 * Safety over whole lives: a tool is executed at most once, and never while any call waits for an
 * answer of the user. What entitles a call to be executed is the subject of `Licence`.
 */
module Safety {
  import opened Prelude
  import opened Messages
  import opened Events
  import opened Context
  import opened Balance
  import opened Ledger
  import opened Reasoning
  import opened Runner

  // ---------------------------------------------------------------------------
  // The trace
  // ---------------------------------------------------------------------------

  predicate ExecutedAt(log: seq<Execution>, p: int, id: string)
  {
    0 <= p < |log| && log[p].callId == id
  }

  ghost predicate WasExecuted(log: seq<Execution>, id: string)
  {
    exists p :: ExecutedAt(log, p, id)
  }

  /** What must hold of the execution at position `p`. */
  ghost predicate SafeEntry(log: seq<Execution>, p: int)
    requires 0 <= p < |log|
  {
    && log[p].asking == 0
    && (forall q :: 0 <= q < |log| && q != p ==> !ExecutedAt(log, q, log[p].callId))
  }

  ghost predicate SafeLog(log: seq<Execution>)
  {
    forall p :: 0 <= p < |log| ==> SafeEntry(log, p)
  }

  // ---------------------------------------------------------------------------
  // The invariant
  // ---------------------------------------------------------------------------

  /** The calls of a turn that has just been reasoned: new, distinct and untouched. */
  ghost predicate Untouched(calls: seq<Call>, states: map<string, CallState>, answered: set<string>)
  {
    && (forall i :: 0 <= i < |calls| ==> calls[i].id in states && states[calls[i].id] == Pending && calls[i].id !in answered)
    && DistinctIds(calls)
  }

  ghost predicate LedgerSafe(states: map<string, CallState>, answered: set<string>, log: seq<Execution>)
  {
    && (forall id :: id in states && (states[id] == Asking || states[id] == Allowed) ==> id !in answered)
    && (forall id :: WasExecuted(log, id) ==> id in answered)
  }

  ghost predicate PhaseSafe(phase: Phase, states: map<string, CallState>, answered: set<string>)
  {
    && (phase.AtRest? && NoneIs(states, Asking) ==> NoneIs(states, Allowed))
    && (phase.Loop? ==> NoneIs(states, Asking) && NoneIs(states, Allowed))
    && (phase.Loop? && phase.prev.Some? ==> Untouched(phase.prev.value.calls, states, answered))
  }

  ghost predicate Safe(m: Machine)
  {
    && UniqueCalls(m.run.context)
    && SafeLog(m.run.log)
    && LedgerSafe(CallStates(m.run.context), AnsweredIds(m.run.context), m.run.log)
    && PhaseSafe(m.phase, CallStates(m.run.context), AnsweredIds(m.run.context))
  }

  // ---------------------------------------------------------------------------
  // Settling calls
  // ---------------------------------------------------------------------------

  /** `b` is `a` with the calls of `ids` finished and answered, and nothing else changed in the ledger. */
  ghost predicate Settled(a: Run, b: Run, ids: set<string>)
  {
    && UniqueCalls(b.context)
    && CallStates(b.context).Keys == CallStates(a.context).Keys
    && (forall id :: id in CallStates(a.context) ==>
          CallStates(b.context)[id] == if id in ids then CallState.Finished else CallStates(a.context)[id])
    && AnsweredIds(b.context) == AnsweredIds(a.context) + ids
    && b.log == a.log
  }

  lemma {:induction false} SettledTrans(a: Run, b: Run, c: Run, i: set<string>, j: set<string>)
    requires Settled(a, b, i) && Settled(b, c, j)
    ensures Settled(a, c, i + j)
  {
    hide CallStates, AnsweredIds, UniqueCalls;
  }

  lemma {:induction false} WriteResult(r: Run, b: Block)
    requires UniqueCalls(r.context) && (b.ToolResultBlock? || b.HintBlock?)
    ensures Settled(r, Write(r, [b]), {}) || b.ToolResultBlock?
    ensures UniqueCalls(Write(r, [b]).context) && CallStates(Write(r, [b]).context) == CallStates(r.context)
    ensures AnsweredIds(Write(r, [b]).context) == AnsweredIds(r.context) + if b.ToolResultBlock? then {b.resultId} else {}
  {
    hide CallStates, AnsweredIds, UniqueCalls, AppendReply;
    ResultLedger(b);
    AppendLedger(r.context, r.messageId, [b]);
  }

  lemma {:induction false} PutResultSettles(r: Run, c: Call, result: ToolResult)
    requires UniqueCalls(r.context)
    ensures Settled(r, PutResult(r, c, result), {c.id})
  {
    hide CallStates, AnsweredIds, UniqueCalls, AppendReply, SetState;
    MarkLedger(r.context, c.id, CallState.Finished);
    var text := if result.text == "" then Placeholder(c.name) else result.text;
    WriteResult(Mark(r, c.id, CallState.Finished), ToolResultBlock(c.id, c.name, Plain(text), StateFor(result.failed)));
  }

  lemma {:induction false} PutResultsSettle(r: Run, calls: seq<Call>, results: seq<ToolResult>)
    requires UniqueCalls(r.context) && |calls| == |results|
    ensures Settled(r, PutResults(r, calls, results), IdSet(calls))
  {
    hide CallStates, AnsweredIds, UniqueCalls, PutResult;
    if calls != [] {
      var n := |calls| - 1;
      PutResultsSettle(r, calls[..n], results[..n]);
      PutResultSettles(PutResults(r, calls[..n], results[..n]), calls[n], results[n]);
      SettledTrans(r, PutResults(r, calls[..n], results[..n]), PutResults(r, calls, results), IdSet(calls[..n]), {calls[n].id});
    }
  }

  lemma {:induction false} PutHintSettles(r: Run, hint: string)
    requires UniqueCalls(r.context)
    ensures Settled(r, PutHint(r, hint), {})
  {
    hide CallStates, AnsweredIds, UniqueCalls, AppendReply;
    WriteResult(r.(nextId := r.nextId + 1), HintBlock(r.nextId, hint));
  }

  lemma {:induction false} PutHintsSettle(r: Run, hints: seq<string>)
    requires UniqueCalls(r.context)
    ensures Settled(r, PutHints(r, hints), {})
  {
    hide CallStates, AnsweredIds, UniqueCalls, PutHint;
    if hints != [] {
      var before := PutHints(r, hints[..|hints| - 1]);
      PutHintsSettle(r, hints[..|hints| - 1]);
      PutHintSettles(before, hints[|hints| - 1]);
      SettledTrans(r, before, PutHints(r, hints), {}, {});
    }
  }

  lemma {:induction false} PutDeniedSettles(r: Run, c: Call)
    requires UniqueCalls(r.context)
    ensures Settled(r, PutDenied(r, c), {c.id})
  {
    hide CallStates, AnsweredIds, UniqueCalls, AppendReply, SetState;
    var w := Write(r, [ToolResultBlock(c.id, c.name, Plain(DeniedText(c.name)), Denied)]);
    WriteResult(r, ToolResultBlock(c.id, c.name, Plain(DeniedText(c.name)), Denied));
    MarkLedger(w.context, c.id, CallState.Finished);
  }

  lemma {:induction false} PutAllDeniedSettles(r: Run, calls: seq<Call>)
    requires UniqueCalls(r.context)
    ensures Settled(r, PutAllDenied(r, calls), IdSet(calls))
  {
    hide CallStates, AnsweredIds, UniqueCalls, PutDenied;
    if calls != [] {
      var before := PutAllDenied(r, calls[..|calls| - 1]);
      PutAllDeniedSettles(r, calls[..|calls| - 1]);
      PutDeniedSettles(before, calls[|calls| - 1]);
      SettledTrans(r, before, PutAllDenied(r, calls), IdSet(calls[..|calls| - 1]), {calls[|calls| - 1].id});
    }
  }

  // ---------------------------------------------------------------------------
  // Executing
  // ---------------------------------------------------------------------------

  function Executions(calls: seq<Call>, asking: nat): seq<Execution>
  {
    if calls == [] then []
    else Executions(calls[..|calls| - 1], asking) + [Execution(calls[|calls| - 1].id, asking)]
  }

  lemma {:induction false} SpawnLogs(r: Run, calls: seq<Call>)
    ensures Spawn(r, calls) == r.(log := r.log + Executions(calls, |CallsInState(r.context, Asking)|))
  {
    hide CallsInState;
    if calls == [] {
      assert r.log + [] == r.log;
    } else {
      SpawnLogs(r, calls[..|calls| - 1]);
    }
  }

  lemma {:induction false} ExecuteSettles(r: Run, calls: seq<Call>, env: Env)
    requires UniqueCalls(r.context)
    ensures Settled(Spawn(r, calls), Execute(r, calls, env).0, IdSet(calls))
  {
    hide CallStates, AnsweredIds, UniqueCalls, PutHints, PutResults, GatherAll, IdSet, CallsInState;
    GatherLength(calls, env.outcomes, env.toolsCancelled);
    var results := GatherAll(calls, env.outcomes, env.toolsCancelled);
    var spawned := Spawn(r, calls);
    SpawnLogs(r, calls);
    PutResultsSettle(spawned, calls, results);
    var written := PutResults(spawned, calls, results);
    PutHintsSettle(written, HintsOf(results));
    SettledTrans(spawned, written, PutHints(written, HintsOf(results)), IdSet(calls), {});
    assert IdSet(calls) + {} == IdSet(calls);
  }

  /** Executing a call for the first time, with nothing waiting, keeps the log safe. */
  lemma {:induction false} ExecutionSafe(log: seq<Execution>, id: string)
    requires SafeLog(log) && !WasExecuted(log, id)
    ensures SafeLog(log + [Execution(id, 0)])
    ensures forall x :: WasExecuted(log + [Execution(id, 0)], x) <==> WasExecuted(log, x) || x == id
  {
    var e := Execution(id, 0);
    var all := log + [e];
    forall p | 0 <= p < |all|
      ensures SafeEntry(all, p)
    {
      if p < |log| {
        assert all[p] == log[p];
        assert SafeEntry(log, p);
        assert ExecutedAt(log, p, log[p].callId);
        forall q | 0 <= q < |all| && q != p
          ensures !ExecutedAt(all, q, all[p].callId)
        {
          assert q < |log| ==> !ExecutedAt(log, q, log[p].callId);
        }
      } else {
        forall q | 0 <= q < |all| && q != p
          ensures !ExecutedAt(all, q, id)
        {
          assert !ExecutedAt(log, q, id);
        }
      }
    }
    forall x
      ensures WasExecuted(all, x) <==> WasExecuted(log, x) || x == id
    {
      if WasExecuted(all, x) {
        var p :| ExecutedAt(all, p, x);
        assert p < |log| ==> ExecutedAt(log, p, x);
      }
      if WasExecuted(log, x) {
        var p :| ExecutedAt(log, p, x);
        assert ExecutedAt(all, p, x);
      }
      assert ExecutedAt(all, |log|, id);
    }
  }

  lemma {:induction false} ExecutionsSafe(log: seq<Execution>, calls: seq<Call>)
    requires SafeLog(log) && DistinctIds(calls)
    requires forall i :: 0 <= i < |calls| ==> !WasExecuted(log, calls[i].id)
    ensures SafeLog(log + Executions(calls, 0))
    ensures forall x :: WasExecuted(log + Executions(calls, 0), x) <==> WasExecuted(log, x) || x in IdSet(calls)
  {
    hide SafeLog, WasExecuted;
    if calls == [] {
      assert log + [] == log;
    } else {
      var n := |calls| - 1;
      var init, id := calls[..n], calls[n].id;
      ExecutionsSafe(log, init);
      var before := log + Executions(init, 0);
      InIdSet(init, id);
      ExecutionSafe(before, id);
      assert log + Executions(calls, 0) == before + [Execution(id, 0)];
    }
  }

  // ---------------------------------------------------------------------------
  // Acting and resuming
  // ---------------------------------------------------------------------------

  ghost predicate Quiet(states: map<string, CallState>)
  {
    NoneIs(states, Asking) && NoneIs(states, Allowed)
  }

  /** Between rounds: the ledger and the trace agree and nothing waits. */
  ghost predicate SafeRun(r: Run)
  {
    && UniqueCalls(r.context) && SafeLog(r.log)
    && LedgerSafe(CallStates(r.context), AnsweredIds(r.context), r.log)
  }

  lemma {:induction false} NothingAsking(context: seq<Msg>)
    requires UniqueCalls(context)
    ensures CallsInState(context, Asking) == [] <==> NoneIs(CallStates(context), Asking)
  {
    NoneInState(AllBlocks(context), Asking);
  }

  /** Executing calls that are unanswered, with nothing waiting. */
  lemma {:induction false} ExecuteSafe(r: Run, calls: seq<Call>, env: Env)
    requires SafeRun(r) && NoneIs(CallStates(r.context), Asking) && DistinctIds(calls)
    requires forall i :: 0 <= i < |calls| ==> calls[i].id in CallStates(r.context) && calls[i].id !in AnsweredIds(r.context)
    ensures var after := Execute(r, calls, env).0;
      && SafeRun(after) && Settled(r.(log := after.log), after, IdSet(calls))
      && NoneIs(CallStates(after.context), Asking)
  {
    hide CallStates, AnsweredIds, UniqueCalls, Execute, CallsInState, SafeLog, WasExecuted, IdSet;
    NothingAsking(r.context);
    SpawnLogs(r, calls);
    ExecuteSettles(r, calls, env);
    ExecutionsSafe(r.log, calls);
    var after := Execute(r, calls, env).0;
    var more := Executions(calls, 0);
    assert after.log == r.log + more;
    forall id
      ensures id in IdSet(calls) ==> id in CallStates(r.context)
    {
      InIdSet(calls, id);
    }
  }

  lemma {:induction false} ActAllAllowedSafe(r: Run, calls: seq<Call>, env: Env)
    requires SafeRun(r) && Quiet(CallStates(r.context)) && Untouched(calls, CallStates(r.context), AnsweredIds(r.context))
    ensures var after := Execute(r, calls, env).0; SafeRun(after) && Quiet(CallStates(after.context))
  {
    hide CallStates, AnsweredIds, UniqueCalls, Execute, SafeLog, WasExecuted, IdSet;
    ExecuteSafe(r, calls, env);
  }

  /** What holding calls for the user changes: asked calls wait, nothing is executed or answered. */
  ghost predicate Held(a: Run, b: Run)
  {
    && UniqueCalls(b.context) && SafeLog(b.log)
    && CallStates(b.context).Keys == CallStates(a.context).Keys
    && AnsweredIds(b.context) == AnsweredIds(a.context)
    && LedgerSafe(CallStates(b.context), AnsweredIds(b.context), b.log)
    && NoneIs(CallStates(b.context), Allowed)
  }

  lemma {:induction false} HoldOneSafe(r: Run, c: Call)
    requires SafeRun(r) && NoneIs(CallStates(r.context), Allowed) && c.id !in AnsweredIds(r.context)
    ensures Held(r, Emit(Mark(r, c.id, Asking), ConfirmRequired(c.id, c.name)))
  {
    hide CallStates, AnsweredIds, UniqueCalls, SetState, SafeLog, WasExecuted;
    MarkLedger(r.context, c.id, Asking);
  }

  lemma {:induction false} HoldSafe(r: Run, asOf: seq<Msg>, decide: Call -> Behavior, calls: seq<Call>)
    requires SafeRun(r) && NoneIs(CallStates(r.context), Allowed)
    requires forall i :: 0 <= i < |calls| ==> calls[i].id !in AnsweredIds(r.context)
    ensures Held(r, HoldAsked(r, asOf, decide, calls))
  {
    hide CallStates, AnsweredIds, UniqueCalls, SafeLog, LedgerSafe, Classify;
    if calls != [] {
      var c := calls[|calls| - 1];
      HoldSafe(r, asOf, decide, calls[..|calls| - 1]);
      var before := HoldAsked(r, asOf, decide, calls[..|calls| - 1]);
      if Classify(asOf, decide, c) == Ask {
        HoldOneSafe(before, c);
      }
    }
  }

  /** With nothing to ask about, holding changes nothing. */
  lemma {:induction false} NothingHeld(r: Run, asOf: seq<Msg>, decide: Call -> Behavior, calls: seq<Call>)
    requires !AnyAsk(asOf, decide, calls)
    ensures HoldAsked(r, asOf, decide, calls) == r
  {
    if calls != [] { NothingHeld(r, asOf, decide, calls[..|calls| - 1]); }
  }

  lemma {:induction false} ActRoundSafe(r: Run, calls: seq<Call>, env: Env)
    requires SafeRun(r) && Quiet(CallStates(r.context)) && Untouched(calls, CallStates(r.context), AnsweredIds(r.context))
    ensures Safe(ActRound(r, calls, env))
  {
    hide CallStates, AnsweredIds, UniqueCalls, SafeLog, WasExecuted, Execute, HoldAsked, AllAllowed, AnyAsk, IdSet;
    if AllAllowed(r.context, env.decide, calls) {
      ActAllAllowedSafe(r, calls, env);
    } else {
      HoldSafe(r, r.context, env.decide, calls);
      if !AnyAsk(r.context, env.decide, calls) {
        NothingHeld(r, r.context, env.decide, calls);
      }
    }
  }

  lemma {:induction false} HoldLogs(r: Run, asOf: seq<Msg>, decide: Call -> Behavior, calls: seq<Call>)
    ensures HoldAsked(r, asOf, decide, calls).log == r.log
  {
    hide Classify, SetState;
    if calls != [] { HoldLogs(r, asOf, decide, calls[..|calls| - 1]); }
  }

  /** A batch executes exactly its calls when every one of them is allowed, and nothing otherwise. */
  lemma {:induction false} ExecutedIffAllAllowed(r: Run, calls: seq<Call>, env: Env)
    requires UniqueCalls(r.context)
    ensures var after := Act(r, calls, env).0;
      after.log == r.log + if AllAllowed(r.context, env.decide, calls) then Executions(calls, |CallsInState(r.context, Asking)|) else []
  {
    hide AllAllowed, Execute, HoldAsked, CallsInState, UniqueCalls, CallStates, AnsweredIds, IdSet;
    if AllAllowed(r.context, env.decide, calls) {
      SpawnLogs(r, calls);
      ExecuteSettles(r, calls, env);
    } else {
      HoldLogs(r, r.context, env.decide, calls);
    }
  }

  lemma {:induction false} AllAllowedMeans(context: seq<Msg>, decide: Call -> Behavior, calls: seq<Call>)
    ensures AllAllowed(context, decide, calls) <==> forall i :: 0 <= i < |calls| ==> StateOf(context, calls[i].id) == Some(Allowed) || decide(calls[i]) == Allow
  {
    hide StateOf;
    if calls != [] {
      var n := |calls| - 1;
      AllAllowedMeans(context, decide, calls[..n]);
      if forall i :: 0 <= i < |calls| ==> StateOf(context, calls[i].id) == Some(Allowed) || decide(calls[i]) == Allow {
        assert forall i :: 0 <= i < n ==> calls[..n][i] == calls[i];
      }
    }
  }

  /** A batch runs, all of it, exactly when each of its calls was confirmed by the user or is allowed by the engine. */
  lemma {:induction false} BatchRunsIff(r: Run, calls: seq<Call>, env: Env)
    requires UniqueCalls(r.context)
    ensures var after := Act(r, calls, env).0;
      after.log == r.log +
        if forall i :: 0 <= i < |calls| ==> StateOf(r.context, calls[i].id) == Some(Allowed) || env.decide(calls[i]) == Allow
        then Executions(calls, |CallsInState(r.context, Asking)|) else []
  {
    hide Act, StateOf, AllAllowed, UniqueCalls, CallsInState, Executions;
    ExecutedIffAllAllowed(r, calls, env);
    AllAllowedMeans(r.context, env.decide, calls);
  }

  /** A batch with a refused call and none to ask about is dropped: no execution, no answer, no pause. */
  lemma {:induction false} DenyWithoutAskDoesNothing(r: Run, calls: seq<Call>, env: Env)
    requires !AllAllowed(r.context, env.decide, calls) && !AnyAsk(r.context, env.decide, calls)
    ensures ActRound(r, calls, env) == Machine(r, Loop(None))
  {
    NothingHeld(r, r.context, env.decide, calls);
  }

  // ---------------------------------------------------------------------------
  // Resuming
  // ---------------------------------------------------------------------------

  lemma {:induction false} DistinctSnoc(calls: seq<Call>, c: Call)
    requires DistinctIds(calls) && c.id !in IdSet(calls)
    ensures DistinctIds(calls + [c]) && IdSet(calls + [c]) == IdSet(calls) + {c.id}
  {
    InIdSet(calls, c.id);
    assert (calls + [c])[..|calls|] == calls;
  }

  /** Which calls of the context are unanswered, and allowed or not. */
  ghost predicate PendingIs(ids: set<string>, states: map<string, CallState>, answered: set<string>, allowed: bool)
  {
    forall id :: id in ids <==> id in states && id !in answered && (states[id] == Allowed) == allowed
  }

  lemma {:induction false} PendingSnoc(ids: set<string>, states: map<string, CallState>, answered: set<string>, allowed: bool, id: string, s: CallState)
    requires PendingIs(ids, states, answered, allowed) && id !in states
    ensures PendingIs(if id !in answered && (s == Allowed) == allowed then ids + {id} else ids, states[id := s], answered, allowed)
  {
  }

  lemma {:induction false} SplitSnoc(u: seq<Block>, b: Block, allowed: bool)
    ensures Split(u + [b], allowed) == Split(u, allowed) + if b.ToolCallBlock? && (b.state == Allowed) == allowed then [CallOf(b)] else []
  {
    assert (u + [b])[..|u|] == u;
  }

  lemma {:induction false} PendingPart(bs: seq<Block>, answered: set<string>, allowed: bool)
    requires Unique(bs)
    ensures var calls := Split(Unanswered(bs, answered), allowed);
      PendingIs(IdSet(calls), States(bs), answered, allowed) && DistinctIds(calls)
  {
    hide PendingIs, DistinctIds, Split, IdSet;
    if bs == [] {
      NothingPending(answered, allowed);
    } else {
      var init, b := bs[..|bs| - 1], bs[|bs| - 1];
      PendingPart(init, answered, allowed);
      var calls := Split(Unanswered(init, answered), allowed);
      if b.ToolCallBlock? {
        PendingSnoc(IdSet(calls), States(init), answered, allowed, b.callId, b.state);
        if b.callId !in answered {
          SplitSnoc(Unanswered(init, answered), b, allowed);
          NotPending(IdSet(calls), States(init), answered, allowed, b.callId);
          if (b.state == Allowed) == allowed {
            DistinctSnoc(calls, CallOf(b));
          } else {
            assert calls + [] == calls;
          }
        } else {
          assert Unanswered(init, answered) + [] == Unanswered(init, answered);
        }
      } else {
        assert Unanswered(init, answered) + [] == Unanswered(init, answered);
      }
    }
  }

  lemma NothingPending(answered: set<string>, allowed: bool)
    ensures PendingIs(IdSet(Split([], allowed)), map[], answered, allowed) && DistinctIds(Split([], allowed))
  {
  }

  lemma NotPending(ids: set<string>, states: map<string, CallState>, answered: set<string>, allowed: bool, id: string)
    requires PendingIs(ids, states, answered, allowed) && id !in states
    ensures id !in ids
  {
  }

  /** Calls that keep their cause when finished and answered keep the run safe and quiet. */
  lemma {:induction false} SettledSafe(a: Run, b: Run, ids: set<string>)
    requires SafeRun(a) && Quiet(CallStates(a.context)) && Settled(a, b, ids)
    ensures SafeRun(b) && Quiet(CallStates(b.context))
  {
    hide CallStates, AnsweredIds, UniqueCalls, SafeLog, WasExecuted;
  }

  /** Running the allowed calls leaves nothing allowed. */
  lemma {:induction false} AllowedRun(r: Run, allowed: seq<Call>, env: Env)
    requires SafeRun(r) && NoneIs(CallStates(r.context), Asking) && DistinctIds(allowed)
    requires PendingIs(IdSet(allowed), CallStates(r.context), AnsweredIds(r.context), true)
    ensures var after := Execute(r, allowed, env).0; SafeRun(after) && Quiet(CallStates(after.context))
  {
    hide CallStates, AnsweredIds, UniqueCalls, Execute, SafeLog, WasExecuted, IdSet;
    forall i | 0 <= i < |allowed|
      ensures allowed[i].id in IdSet(allowed)
    {
      InIdSet(allowed, allowed[i].id);
    }
    ExecuteSafe(r, allowed, env);
  }

  lemma {:induction false} ResumeSafe(r: Run, env: Env)
    requires SafeRun(r) && NoneIs(CallStates(r.context), Asking)
    ensures var after := Resume(r, env).0; SafeRun(after) && Quiet(CallStates(after.context))
  {
    hide CallStates, AnsweredIds, UniqueCalls, Execute, SafeLog, LedgerSafe, PutAllDenied, Unanswered, Split, DistinctIds;
    PendingFacts(r.context);
    var pending := PendingCalls(r.context);
    var allowed, denied := Split(pending, true), Split(pending, false);
    var done := if allowed == [] then r else Execute(r, allowed, env).0;
    if allowed == [] {
      NoneAllowed(r);
    } else {
      AllowedRun(r, allowed, env);
    }
    PutAllDeniedSettles(done, denied);
    SettledSafe(done, PutAllDenied(done, denied), IdSet(denied));
  }

  lemma {:induction false} PendingFacts(context: seq<Msg>)
    requires UniqueCalls(context)
    ensures var calls := Split(PendingCalls(context), true);
      PendingIs(IdSet(calls), CallStates(context), AnsweredIds(context), true) && DistinctIds(calls)
  {
    PendingPart(AllBlocks(context), AnsweredIds(context), true);
  }

  lemma {:induction false} NoneAllowed(r: Run)
    requires SafeRun(r) && NoneIs(CallStates(r.context), Asking)
    requires PendingIs({}, CallStates(r.context), AnsweredIds(r.context), true)
    ensures Quiet(CallStates(r.context))
  {
    hide CallStates, AnsweredIds, UniqueCalls, SafeLog, WasExecuted;
  }

  /** The calls the user has allowed that have no result yet. */
  ghost predicate AllowedOpen(states: map<string, CallState>, answered: set<string>, id: string)
  {
    id in states && id !in answered && states[id] == Allowed
  }

  /**
   * Taking up a paused run settles it: exactly the calls that are allowed and open are executed, and each
   * gets a result; unless that is cancelled, every other open call of the context gets one too, so that
   * none is left without.
   */
  lemma {:induction false} ResumeSettlesAll(r: Run, env: Env) returns (run: seq<Call>)
    requires UniqueCalls(r.context)
    ensures var (after, cancelled) := Resume(r, env); var states, answered := CallStates(r.context), AnsweredIds(r.context);
      && after.log == r.log + Executions(run, |CallsInState(r.context, Asking)|) && DistinctIds(run)
      && (forall id :: id in IdSet(run) <==> AllowedOpen(states, answered, id))
      && CallStates(after.context).Keys == states.Keys
      && (forall id :: id in AnsweredIds(after.context) <==>
            id in answered || AllowedOpen(states, answered, id) || (!cancelled && id in states))
  {
    hide CallStates, AnsweredIds, UniqueCalls, Execute, PutAllDenied, Unanswered, Split, DistinctIds, IdSet, CallsInState, Executions;
    var pending := PendingCalls(r.context);
    var allowed, denied := Split(pending, true), Split(pending, false);
    PendingFacts(r.context);
    DeniedPart(r.context);
    run := allowed;
    SpawnLogs(r, allowed);
    NothingRun(r);
    var done := if allowed == [] then r else Execute(r, allowed, env).0;
    if allowed != [] { ExecuteSettles(r, allowed, env); }
    PutAllDeniedSettles(done, denied);
  }

  lemma {:induction false} NothingRun(r: Run)
    ensures IdSet([]) == {} && r.log + Executions([], |CallsInState(r.context, Asking)|) == r.log
  {
    hide CallsInState;
    assert r.log + [] == r.log;
  }

  lemma {:induction false} DeniedPart(context: seq<Msg>)
    requires UniqueCalls(context)
    ensures PendingIs(IdSet(Split(PendingCalls(context), false)), CallStates(context), AnsweredIds(context), false)
  {
    PendingPart(AllBlocks(context), AnsweredIds(context), false);
  }

  // ---------------------------------------------------------------------------
  // Answers of the user
  // ---------------------------------------------------------------------------

  /** Taking an answer: the one call asked about moves on. */
  lemma {:induction false} MarkedSafe(r: Run, id: string, approved: bool)
    requires SafeRun(r) && id in CallStates(r.context) && CallStates(r.context)[id] == Asking
    ensures SafeRun(Mark(r, id, if approved then Allowed else CallState.Finished))
  {
    hide CallStates, AnsweredIds, UniqueCalls, SetState, SafeLog, WasExecuted;
    MarkLedger(r.context, id, if approved then Allowed else CallState.Finished);
  }

  lemma {:induction false} AcceptSafe(r: Run, id: string, approved: bool)
    requires SafeRun(r)
    ensures var (at, acceptance) := Accept(r, id, approved);
      && SafeRun(at)
      && (acceptance.Rejected? ==> CallStates(at.context) == CallStates(r.context))
      && (acceptance.Incomplete? ==> !NoneIs(CallStates(at.context), Asking))
      && (acceptance.Complete? ==> NoneIs(CallStates(at.context), Asking))
  {
    hide CallStates, AnsweredIds, UniqueCalls, SetState, SafeLog, LedgerSafe, CallsInState, StateOf, Owner, NoneIs;
    StateOfLedger(r.context, id);
    var owner := Owner(r.context, id);
    if owner < |r.context| {
      var at := r.(messageId := r.context[owner].id);
      var expected := if approved then Allowed else CallState.Finished;
      if StateOf(r.context, id).value == Asking {
        MarkedSafe(at, id, approved);
        NothingAsking(Mark(at, id, expected).context);
      } else {
        NothingAsking(at.context);
      }
    }
  }

  lemma {:induction false} AnsweredSafe(m: Machine, id: string, approved: bool, maxContinuations: nat, env: Env)
    requires Safe(m) && m.phase.AtRest?
    ensures Safe(Answered(m.run, id, approved, maxContinuations, env))
  {
    hide CallStates, AnsweredIds, UniqueCalls, SafeLog, LedgerSafe, Accept, Resume, NoneIs;
    var r := m.run.(continuations := 0, maxContinuations := maxContinuations);
    AcceptSafe(r, id, approved);
    var (at, acceptance) := Accept(r, id, approved);
    if acceptance.Complete? {
      ResumeSafe(at.(status := Active), env);
    }
  }

  // ---------------------------------------------------------------------------
  // Host messages and reasoning
  // ---------------------------------------------------------------------------

  ghost predicate AllToolless(ms: seq<HostMsg>)
  {
    forall i :: 0 <= i < |ms| ==> Toolless(ms[i].blocks)
  }

  lemma {:induction false} ToollessLedger(bs: seq<Block>)
    requires Toolless(bs)
    ensures Unique(bs) && States(bs) == map[] && ResultIds(bs) == {}
  {
    if bs != [] { ToollessLedger(bs[..|bs| - 1]); }
  }

  /** Same ledger, same trace. */
  ghost predicate SameLedger(a: Run, b: Run)
  {
    && CallStates(b.context) == CallStates(a.context) && AnsweredIds(b.context) == AnsweredIds(a.context)
    && UniqueCalls(b.context) && b.log == a.log
  }

  lemma {:induction false} AddRawLedger(r: Run, m: HostMsg)
    requires UniqueCalls(r.context) && Toolless(m.blocks)
    ensures SameLedger(r, AddRaw(r, m))
  {
    hide States, Unique, ResultIds, Toolless, KnownId;
    ToollessLedger(m.blocks);
    var after := AddRaw(r, m).context;
    if after != r.context {
      var added := after[|r.context|];
      assert after == r.context + [added];
      AllBlocksSnoc(r.context, added);
      UniqueAppend(AllBlocks(r.context), m.blocks);
      StatesAppend(AllBlocks(r.context), m.blocks);
    }
  }

  lemma {:induction false} AddRawsLedger(r: Run, ms: seq<HostMsg>)
    requires UniqueCalls(r.context) && AllToolless(ms)
    ensures SameLedger(r, AddRaws(r, ms))
  {
    hide CallStates, AnsweredIds, UniqueCalls, AddRaw, Toolless;
    if ms != [] {
      AddRawsLedger(r, ms[..|ms| - 1]);
      AddRawLedger(AddRaws(r, ms[..|ms| - 1]), ms[|ms| - 1]);
    }
  }

  lemma {:induction false} StartSafe(m: Machine, ms: seq<HostMsg>, maxContinuations: nat)
    requires Safe(m) && m.phase.AtRest? && AllToolless(ms)
    ensures Safe(Start(m.run, ms, maxContinuations))
  {
    hide CallStates, AnsweredIds, UniqueCalls, SafeLog, LedgerSafe, AddRaws, NoneIs, CallsInState, AllToolless;
    NothingAsking(m.run.context);
    if CallsInState(m.run.context, Asking) == [] {
      var reset := m.run.(status := Active, iteration := 0, emptyRetries := 0, inFinalization := false,
                          continuations := 0, maxContinuations := maxContinuations, requests := []);
      AddRawsLedger(reset, ms);
    }
  }

  /** The calls of a turn, as the ledger sees them. */
  function Opened(calls: seq<Call>): map<string, CallState>
  {
    if calls == [] then map[] else Opened(calls[..|calls| - 1])[calls[|calls| - 1].id := Pending]
  }

  lemma {:induction false} OpenedIs(calls: seq<Call>)
    ensures Opened(calls).Keys == IdSet(calls)
    ensures forall id :: id in Opened(calls) ==> Opened(calls)[id] == Pending
  {
    if calls != [] { OpenedIs(calls[..|calls| - 1]); }
  }

  lemma {:induction false} CallBlocksLedger(calls: seq<Call>)
    requires DistinctIds(calls)
    ensures Unique(CallBlocksOf(calls)) && States(CallBlocksOf(calls)) == Opened(calls) && ResultIds(CallBlocksOf(calls)) == {}
  {
    if calls != [] {
      var init, c := calls[..|calls| - 1], calls[|calls| - 1];
      CallBlocksLedger(init);
      StatesSnoc(CallBlocksOf(init), ToolCallBlock(c.id, c.name, Arguments(c), Pending));
      OpenedIs(init);
      InIdSet(init, c.id);
    }
  }

  /** What a reasoning action has written so far calls nothing and answers nothing. */
  lemma {:induction false} ToollessAppend(a: seq<Block>, b: seq<Block>)
    requires Toolless(a) && Toolless(b)
    ensures Toolless(a + b)
  {
    if b == [] {
      assert a + b == a;
    } else {
      assert (a + b)[..|a + b| - 1] == a + b[..|b| - 1];
      ToollessAppend(a, b[..|b| - 1]);
    }
  }

  lemma OneToolless(b: Block)
    requires !b.ToolCallBlock? && !b.ToolResultBlock?
    ensures Toolless([b]) && Toolless([])
  {
    assert [b][..0] == [];
  }

  lemma {:induction false} SpokenToolless(a: Attempt)
    ensures Toolless(Spoken(a))
  {
    hide Toolless;
    OneToolless(ThinkingBlock(a.nextId, a.reasoning));
    OneToolless(TextBlock(a.nextId + 1, a.text));
    ToollessAppend(if a.reasoning != "" then [ThinkingBlock(a.nextId, a.reasoning)] else [],
                   if a.text != "" then [TextBlock(a.nextId + 1, a.text)] else []);
  }

  /** The blocks of an attempt: speech, then exactly the calls of its result. */
  ghost predicate Wrote(blocks: seq<Block>, calls: seq<Call>)
  {
    exists speech :: Toolless(speech) && blocks == speech + CallBlocksOf(calls)
  }

  lemma {:induction false} AttemptWrote(read: Reader, nextId: nat, input: AttemptInput)
    ensures Wrote(RunAttempt(read, nextId, input).blocks, CallsBy(RunAttempt(read, nextId, input).end))
  {
    hide Consume, FailureAfter, Spoken, Toolless, CallBlocksOf, CloseText, CloseThinking;
    var (a, _) := Consume(read, NewAttempt(nextId), input.chunks);
    var b := CloseThinking(CloseText(a));
    SpokenToolless(a);
    SpokenToolless(b);
    NoCallBlocks();
    assert Spoken(b) + [] == Spoken(b);
  }

  lemma NoCallBlocks()
    ensures CallBlocksOf([]) == []
  {
  }

  lemma {:induction false} WroteAfter(before: seq<Block>, blocks: seq<Block>, calls: seq<Call>)
    requires Toolless(before) && Wrote(blocks, calls)
    ensures Wrote(before + blocks, calls)
    ensures calls == [] ==> Toolless(before + blocks)
  {
    hide Toolless, CallBlocksOf;
    var speech :| Toolless(speech) && blocks == speech + CallBlocksOf(calls);
    ToollessAppend(before, speech);
    assert before + (speech + CallBlocksOf(calls)) == (before + speech) + CallBlocksOf(calls);
    NoCallBlocks();
    assert calls == [] ==> before + blocks == before + speech;
  }

  lemma {:induction false} AttemptsWrote(read: Reader, k: nat, max: nat, so: ReasonDone, inputs: nat -> AttemptInput)
    requires k < max && Toolless(so.blocks)
    ensures var d := RunAttempts(read, k, max, so, inputs); Wrote(d.blocks, CallsIn(d.end))
    decreases max - k
  {
    hide RunAttempt, Toolless, Wrote, Unretryable;
    var d := RunAttempt(read, so.nextId, inputs(k));
    AttemptWrote(read, so.nextId, inputs(k));
    WroteAfter(so.blocks, d.blocks, CallsBy(d.end));
    match d.end
    case FailedWith(error) =>
      if inputs(k).waiting != CancelledInHook && ShouldRetry(error, inputs(k).advice, k == max - 1) && inputs(k).waiting != CancelledInSleep {
        var now := ReasonDone(so.events + d.events, so.blocks + d.blocks, d.nextId, TurnCancelled, so.snapshots + [so.blocks]);
        assert CallsBy(d.end) == [];
        assert now.blocks == so.blocks + d.blocks;
        AttemptsWrote(read, k + 1, max, now.(events := now.events + [Retrying(error.code, k + 1)]), inputs);
      }
    case _ =>
  }

  lemma {:induction false} ReasonWrote(read: Reader, hint: Option<string>, maxRetries: nat, nextId: nat, inputs: nat -> AttemptInput)
    ensures var d := Reason(read, hint, maxRetries, nextId, inputs); Wrote(d.blocks, CallsIn(d.end))
  {
    hide RunAttempts, Wrote;
    assert Toolless([]);
    assert hint.Some? ==> [HintBlock(nextId, hint.value)][..0] == [];
    var start :=
      if hint.Some? then ReasonDone([HintGiven(nextId, hint.value)], [HintBlock(nextId, hint.value)], nextId + 1, TurnCancelled, [])
      else ReasonDone([], [], nextId, TurnCancelled, []);
    AttemptsWrote(read, 0, 1 + maxRetries, start, inputs);
  }

  lemma {:induction false} WroteLedger(blocks: seq<Block>, calls: seq<Call>)
    requires Wrote(blocks, calls) && DistinctIds(calls)
    ensures Unique(blocks) && States(blocks) == Opened(calls) && ResultIds(blocks) == {}
  {
    hide Toolless, CallBlocksOf, Unique, States, ResultIds;
    var speech :| Toolless(speech) && blocks == speech + CallBlocksOf(calls);
    ToollessLedger(speech);
    CallBlocksLedger(calls);
    StatesAppend(speech, CallBlocksOf(calls));
    UniqueAppend(speech, CallBlocksOf(calls));
  }

  /** The ids a provider may not use again. */
  function UsedIds(context: seq<Msg>): set<string> { CallStates(context).Keys + AnsweredIds(context) }

  ghost predicate FreshCalls(calls: seq<Call>, used: set<string>)
  {
    DistinctIds(calls) && IdSet(calls) !! used
  }

  /** Writing a turn with fresh calls keeps the run safe and quiet, and leaves the calls untouched. */
  lemma {:induction false} TurnSafe(r: Run, blocks: seq<Block>, calls: seq<Call>)
    requires SafeRun(r) && Quiet(CallStates(r.context)) && Wrote(blocks, calls) && FreshCalls(calls, UsedIds(r.context))
    ensures var after := AppendReply(r.context, r.messageId, blocks);
      && SafeRun(r.(context := after)) && Quiet(CallStates(after)) && Untouched(calls, CallStates(after), AnsweredIds(after))
  {
    hide CallStates, AnsweredIds, UniqueCalls, AppendReply, SafeLog, WasExecuted, Wrote, Opened;
    WroteLedger(blocks, calls);
    OpenedIs(calls);
    AppendLedger(r.context, r.messageId, blocks);
    forall i | 0 <= i < |calls|
      ensures calls[i].id in IdSet(calls)
    {
      InIdSet(calls, calls[i].id);
    }
  }

  lemma {:induction false} AskModelSafe(c: Config, r: Run, hint: Option<string>, env: Env)
    requires SafeRun(r) && Quiet(CallStates(r.context))
    requires FreshTurn(r.context, AskModel(c, r, hint, env).phase)
    ensures Safe(AskModel(c, r, hint, env)) && Quiet(CallStates(AskModel(c, r, hint, env).run.context))
  {
    hide CallStates, AnsweredIds, UniqueCalls, AppendReply, SafeLog, LedgerSafe, Untouched, Reason, Snapshots, Addressed, Wrote, FreshCalls, UsedIds;
    var d := Reason(c.read, hint, c.maxRetries, r.nextId, env.attempts);
    ReasonWrote(c.read, hint, c.maxRetries, r.nextId, env.attempts);
    NoFreshCalls(UsedIds(r.context));
    TurnSafe(r, d.blocks, CallsIn(d.end));
  }

  lemma NoFreshCalls(used: set<string>)
    ensures FreshCalls([], used)
  {
  }

  lemma {:induction false} SameLedgerSafe(a: Run, b: Run)
    requires SafeRun(a) && Quiet(CallStates(a.context)) && SameLedger(a, b)
    ensures SafeRun(b) && Quiet(CallStates(b.context)) && UsedIds(b.context) == UsedIds(a.context)
  {
    hide CallStates, AnsweredIds, UniqueCalls, SafeLog, LedgerSafe;
  }

  /** If the loop goes on with a turn in hand, its call ids are distinct and were not used before. */
  ghost predicate FreshTurn(context: seq<Msg>, phase: Phase)
  {
    phase.Loop? && phase.prev.Some? ==> FreshCalls(phase.prev.value.calls, UsedIds(context))
  }

  lemma {:induction false} ReasonRoundSafe(c: Config, r: Run, hint: Option<string>, env: Env)
    requires SafeRun(r) && Quiet(CallStates(r.context))
    requires env.hook.HookMessages? ==> AllToolless(env.hook.messages)
    requires FreshTurn(r.context, ReasonRound(c, r, hint, env).phase)
    ensures Safe(ReasonRound(c, r, hint, env)) && Quiet(CallStates(ReasonRound(c, r, hint, env).run.context))
  {
    hide CallStates, AnsweredIds, UniqueCalls, SafeLog, LedgerSafe, NoneIs, AskModel, AddRaws, FindReply, HasUser, AllToolless, FreshCalls, UsedIds;
    var counted := r.(iteration := r.iteration + 1);
    match env.hook
    case HookMessages(ms) =>
      AddRawsLedger(counted, ms);
      var ready := Rotate(AddRaws(counted, ms), ms);
      SameLedgerSafe(counted, ready);
      AskModelSafe(c, ready, hint, env);
    case _ =>
  }

  lemma {:induction false} ExitRoundSafe(r: Run, reason: EndReason, env: Env)
    requires SafeRun(r) && Quiet(CallStates(r.context))
    ensures Safe(ExitRound(r, reason, env)) && Quiet(CallStates(ExitRound(r, reason, env).run.context))
  {
    hide CallStates, AnsweredIds, UniqueCalls, SafeLog, WasExecuted, PutHint;
    var more := r.(continuations := r.continuations + 1);
    if env.stop.Continue? {
      PutHintSettles(more, env.stop.prompt);
      SettledSafe(more, PutHint(more, env.stop.prompt), {});
    }
  }

  lemma {:induction false} RoundSafe(c: Config, m: Machine, env: Env)
    requires Safe(m) && m.phase.Loop?
    requires env.hook.HookMessages? ==> AllToolless(env.hook.messages)
    requires FreshTurn(m.run.context, Round(c, m.run, m.phase.prev, env).phase)
    ensures Safe(Round(c, m.run, m.phase.prev, env))
  {
    hide CallStates, AnsweredIds, UniqueCalls, SafeLog, LedgerSafe, NoneIs, ReasonRound, ActRound, ExitRound, AllToolless, FreshCalls, UsedIds, Safe;
    SafeMeans(m);
    var (action, decided) := Decide(c, m.run, m.phase.prev);
    match action
    case Reasoning(hint, _) => ReasonRoundSafe(c, decided, hint, env);
    case Acting(calls) => ActRoundSafe(decided, calls, env);
    case Exiting(reason) => ExitRoundSafe(decided, reason, env);
  }

  lemma SafeMeans(m: Machine)
    requires Safe(m) && m.phase.Loop?
    ensures SafeRun(m.run) && Quiet(CallStates(m.run.context))
    ensures m.phase.prev.Some? ==> Untouched(m.phase.prev.value.calls, CallStates(m.run.context), AnsweredIds(m.run.context))
  {
    hide CallStates, AnsweredIds, UniqueCalls, SafeLog, LedgerSafe, NoneIs, Untouched;
  }

  // ---------------------------------------------------------------------------
  // Whole lives
  // ---------------------------------------------------------------------------

  /** What is asked of the outside: the host does not write calls or results, and the provider does not reuse ids. */
  ghost predicate Fair(c: Config, m: Machine, input: Input)
  {
    match input
    case StartReply(ms, _) => AllToolless(ms)
    case Answer(_, _, _, _) => true
    case Turn(env) =>
      && (env.hook.HookMessages? ==> AllToolless(env.hook.messages))
      && FreshTurn(m.run.context, Advance(c, m, input).phase)
  }

  ghost predicate FairLife(c: Config, m: Machine, inputs: seq<Input>)
  {
    inputs == [] || (FairLife(c, m, inputs[..|inputs| - 1]) && Fair(c, Life(c, m, inputs[..|inputs| - 1]), inputs[|inputs| - 1]))
  }

  lemma {:induction false} AdvanceSafe(c: Config, m: Machine, input: Input)
    requires Safe(m) && Fair(c, m, input)
    ensures Safe(Advance(c, m, input))
  {
    hide Safe, Start, Answered, Round, AllToolless, FreshTurn;
    match input
    case StartReply(ms, maxContinuations) => if m.phase.AtRest? { StartSafe(m, ms, maxContinuations); }
    case Answer(id, approved, maxContinuations, env) =>
      if m.phase.AtRest? { AnsweredSafe(m, id, approved, maxContinuations, env); }
    case Turn(env) => if m.phase.Loop? { RoundSafe(c, m, env); }
  }

  /**
   * However long an agent lives and whatever the model, the hooks, the tools and the user do, every
   * execution in its trace is the only one of its call and happens with no call waiting for an answer.
   */
  lemma {:induction false} AlwaysSafe(c: Config, m: Machine, inputs: seq<Input>)
    requires Safe(m) && FairLife(c, m, inputs)
    ensures Safe(Life(c, m, inputs))
    ensures SafeLog(Life(c, m, inputs).run.log)
  {
    if inputs != [] {
      AlwaysSafe(c, m, inputs[..|inputs| - 1]);
      AdvanceSafe(c, Life(c, m, inputs[..|inputs| - 1]), inputs[|inputs| - 1]);
    }
  }

  /** A new agent is safe: no call, no result, no trace. */
  lemma {:induction false} NewIsSafe(m: Machine)
    requires m.run.context == [] && m.run.log == [] && m.phase == AtRest
    ensures Safe(m)
  {
    NoCalls();
    assert AllBlocks([]) == [];
  }

  /** While a call waits for the user, a new reply is refused outright. */
  lemma {:induction false} StartRefusedIffAsking(m: Machine, ms: seq<HostMsg>, maxContinuations: nat)
    requires Safe(m) && m.phase.AtRest?
    ensures Start(m.run, ms, maxContinuations).phase.AtRest? <==> !NoneIs(CallStates(m.run.context), Asking)
    ensures !NoneIs(CallStates(m.run.context), Asking) ==> Start(m.run, ms, maxContinuations) == m
  {
    hide CallStates, AnsweredIds, UniqueCalls, SafeLog, LedgerSafe, NoneIs, CallsInState, AddRaws;
    NothingAsking(m.run.context);
  }
}
