/**
 * What entitles a call to be executed, read off the inputs of a life: the permission engine allowed the
 * whole batch it came in, or it said to ask about the call and the user's first answer was to approve it.
 */
module Licence {
  import opened Prelude
  import opened Messages
  import opened Events
  import opened Context
  import opened Ledger
  import opened Reasoning
  import opened Runner
  import opened Safety

  /** The batch that comes up for execution at input `k`. */
  function BatchAt(c: Config, m: Machine, inputs: seq<Input>, k: nat): seq<Call>
    requires k < |inputs|
  {
    var phase := Life(c, m, inputs[..k]).phase;
    if inputs[k].Turn? && phase.Loop? && phase.prev.Some? then phase.prev.value.calls else []
  }

  ghost predicate Holds(calls: seq<Call>, id: string) { exists i :: 0 <= i < |calls| && calls[i].id == id }

  /** At input `k` the call comes up, and the engine allows every call of its batch. */
  ghost predicate AllowedAt(c: Config, m: Machine, inputs: seq<Input>, k: int, id: string)
  {
    && 0 <= k < |inputs| && inputs[k].Turn?
    && Holds(BatchAt(c, m, inputs, k), id)
    && forall i :: 0 <= i < |BatchAt(c, m, inputs, k)| ==> inputs[k].env.decide(BatchAt(c, m, inputs, k)[i]) == Allow
  }

  /** At input `k` the call comes up, and the engine says to ask the user about it. */
  ghost predicate AskedAt(c: Config, m: Machine, inputs: seq<Input>, k: int, id: string)
  {
    && 0 <= k < |inputs| && inputs[k].Turn?
    && exists i :: 0 <= i < |BatchAt(c, m, inputs, k)| && BatchAt(c, m, inputs, k)[i].id == id
                   && inputs[k].env.decide(BatchAt(c, m, inputs, k)[i]) == Ask
  }

  /** Input `k` is the user's approval of the call. */
  predicate ApprovedAt(inputs: seq<Input>, k: int, id: string)
  {
    0 <= k < |inputs| && inputs[k].Answer? && inputs[k].callId == id && inputs[k].approved
  }

  predicate AnsweredAt(inputs: seq<Input>, k: int, id: string)
  {
    0 <= k < |inputs| && inputs[k].Answer? && inputs[k].callId == id
  }

  /** No input strictly between the two answers for the call. */
  ghost predicate NoAnswerIn(inputs: seq<Input>, j: int, k: int, id: string)
  {
    forall h :: j < h < k ==> !AnsweredAt(inputs, h, id)
  }

  /** The engine said to ask about the call, and no answer has come since. */
  ghost predicate StillAsked(c: Config, m: Machine, inputs: seq<Input>, id: string)
  {
    exists j :: AskedAt(c, m, inputs, j, id) && NoAnswerIn(inputs, j, |inputs|, id)
  }

  /** The engine said to ask about the call, and the first answer after that was an approval. */
  ghost predicate WasApproved(c: Config, m: Machine, inputs: seq<Input>, id: string)
  {
    exists j, k :: j < k && AskedAt(c, m, inputs, j, id) && ApprovedAt(inputs, k, id) && NoAnswerIn(inputs, j, k, id)
  }

  ghost predicate Licensed(c: Config, m: Machine, inputs: seq<Input>, id: string)
  {
    (exists k :: AllowedAt(c, m, inputs, k, id)) || WasApproved(c, m, inputs, id)
  }

  /** What was executed had a licence, what waits was asked about, what is allowed was approved. */
  ghost predicate Entitled(c: Config, m: Machine, inputs: seq<Input>, states: map<string, CallState>, log: seq<Execution>)
  {
    && (forall id :: WasExecuted(log, id) ==> Licensed(c, m, inputs, id))
    && (forall id :: id in states && states[id] == Asking ==> StillAsked(c, m, inputs, id))
    && (forall id :: id in states && states[id] == Allowed ==> WasApproved(c, m, inputs, id))
  }

  ghost predicate EntitledRun(c: Config, m: Machine, inputs: seq<Input>, r: Run)
  {
    Entitled(c, m, inputs, CallStates(r.context), r.log)
  }

  // ---------------------------------------------------------------------------
  // A longer life
  // ---------------------------------------------------------------------------

  lemma {:induction false} BatchStays(c: Config, m: Machine, inputs: seq<Input>, more: Input, k: nat)
    requires k < |inputs|
    ensures BatchAt(c, m, inputs + [more], k) == BatchAt(c, m, inputs, k)
  {
    assert (inputs + [more])[..k] == inputs[..k];
  }

  lemma {:induction false} FactsStay(c: Config, m: Machine, inputs: seq<Input>, more: Input, k: int, id: string)
    ensures AllowedAt(c, m, inputs, k, id) ==> AllowedAt(c, m, inputs + [more], k, id)
    ensures AskedAt(c, m, inputs, k, id) ==> AskedAt(c, m, inputs + [more], k, id)
    ensures ApprovedAt(inputs, k, id) ==> ApprovedAt(inputs + [more], k, id)
  {
    hide BatchAt;
    if 0 <= k < |inputs| { BatchStays(c, m, inputs, more, k); }
  }

  lemma {:induction false} NoAnswerStays(inputs: seq<Input>, more: Input, j: int, k: int, id: string)
    requires NoAnswerIn(inputs, j, k, id) && k <= |inputs|
    ensures NoAnswerIn(inputs + [more], j, k, id)
    ensures k == |inputs| && !AnsweredAt([more], 0, id) ==> NoAnswerIn(inputs + [more], j, k + 1, id)
  {
    forall h | j < h < k
      ensures !AnsweredAt(inputs + [more], h, id)
    {
      assert !AnsweredAt(inputs, h, id);
    }
  }

  lemma {:induction false} LicenceStays(c: Config, m: Machine, inputs: seq<Input>, more: Input, id: string)
    ensures StillAsked(c, m, inputs, id) && !AnsweredAt([more], 0, id) ==> StillAsked(c, m, inputs + [more], id)
    ensures WasApproved(c, m, inputs, id) ==> WasApproved(c, m, inputs + [more], id)
    ensures Licensed(c, m, inputs, id) ==> Licensed(c, m, inputs + [more], id)
  {
    hide AllowedAt, AskedAt, AnsweredAt, NoAnswerIn;
    forall k
      ensures AllowedAt(c, m, inputs, k, id) ==> AllowedAt(c, m, inputs + [more], k, id)
      ensures AskedAt(c, m, inputs, k, id) ==> AskedAt(c, m, inputs + [more], k, id)
      ensures ApprovedAt(inputs, k, id) ==> ApprovedAt(inputs + [more], k, id)
    {
      FactsStay(c, m, inputs, more, k, id);
    }
    if StillAsked(c, m, inputs, id) && !AnsweredAt([more], 0, id) {
      var j :| AskedAt(c, m, inputs, j, id) && NoAnswerIn(inputs, j, |inputs|, id);
      NoAnswerStays(inputs, more, j, |inputs|, id);
    }
    if WasApproved(c, m, inputs, id) {
      var j, k :| j < k && AskedAt(c, m, inputs, j, id) && ApprovedAt(inputs, k, id) && NoAnswerIn(inputs, j, k, id);
      NoAnswerStays(inputs, more, j, k, id);
    }
  }

  /** What a longer life keeps; a call that waits goes on waiting unless the new input answers it. */
  lemma {:induction false} EntitledStays(c: Config, m: Machine, inputs: seq<Input>, more: Input, states: map<string, CallState>, log: seq<Execution>)
    requires Entitled(c, m, inputs, states, log)
    ensures forall id :: WasExecuted(log, id) ==> Licensed(c, m, inputs + [more], id)
    ensures forall id :: id in states && states[id] == Asking && !AnsweredAt([more], 0, id) ==> StillAsked(c, m, inputs + [more], id)
    ensures forall id :: id in states && states[id] == Allowed ==> WasApproved(c, m, inputs + [more], id)
    ensures !more.Answer? ==> Entitled(c, m, inputs + [more], states, log)
  {
    hide WasExecuted, StillAsked, WasApproved, Licensed;
    forall id
      ensures StillAsked(c, m, inputs, id) && !AnsweredAt([more], 0, id) ==> StillAsked(c, m, inputs + [more], id)
      ensures WasApproved(c, m, inputs, id) ==> WasApproved(c, m, inputs + [more], id)
      ensures Licensed(c, m, inputs, id) ==> Licensed(c, m, inputs + [more], id)
    {
      LicenceStays(c, m, inputs, more, id);
    }
  }

  /** With nothing waiting and nothing allowed, only the trace counts. */
  lemma QuietEntitled(c: Config, m: Machine, inputs: seq<Input>, states: map<string, CallState>, log: seq<Execution>, now: map<string, CallState>)
    requires Entitled(c, m, inputs, states, log) && Quiet(now)
    ensures Entitled(c, m, inputs, now, log)
  {
    hide WasExecuted, StillAsked, WasApproved, Licensed;
  }

  lemma QuietStays(c: Config, m: Machine, inputs: seq<Input>, more: Input, states: map<string, CallState>, log: seq<Execution>)
    requires Entitled(c, m, inputs, states, log) && Quiet(states)
    ensures Entitled(c, m, inputs + [more], states, log)
  {
    hide WasExecuted, StillAsked, WasApproved, Licensed;
    EntitledStays(c, m, inputs, more, states, log);
  }

  // ---------------------------------------------------------------------------
  // Executing
  // ---------------------------------------------------------------------------

  lemma {:induction false} ExecutionsShow(log: seq<Execution>, calls: seq<Call>, asking: nat, id: string)
    ensures WasExecuted(log + Executions(calls, asking), id) ==> WasExecuted(log, id) || id in IdSet(calls)
  {
    if calls == [] {
      assert log + [] == log;
    } else {
      var init, last := calls[..|calls| - 1], Execution(calls[|calls| - 1].id, asking);
      ExecutionsShow(log, init, asking, id);
      var before := log + Executions(init, asking);
      assert log + Executions(calls, asking) == before + [last];
      if p :| ExecutedAt(before + [last], p, id) {
        assert p < |before| ==> ExecutedAt(before, p, id);
      }
    }
  }

  lemma {:induction false} ExecuteShows(r: Run, calls: seq<Call>, env: Env, id: string)
    requires UniqueCalls(r.context)
    ensures WasExecuted(Execute(r, calls, env).0.log, id) ==> WasExecuted(r.log, id) || id in IdSet(calls)
  {
    hide Execute, CallsInState, UniqueCalls, CallStates, AnsweredIds, IdSet, WasExecuted, Executions;
    SpawnLogs(r, calls);
    ExecuteSettles(r, calls, env);
    ExecutionsShow(r.log, calls, |CallsInState(r.context, Asking)|, id);
  }

  // ---------------------------------------------------------------------------
  // A batch comes up
  // ---------------------------------------------------------------------------

  /** A call that was just asked for has not been confirmed, so only the engine's answer counts. */
  lemma {:induction false} UntouchedDecides(r: Run, calls: seq<Call>, decide: Call -> Behavior, i: nat)
    requires Untouched(calls, CallStates(r.context), AnsweredIds(r.context)) && i < |calls|
    ensures Classify(r.context, decide, calls[i]) == decide(calls[i])
  {
    hide StateOf, CallStates, AnsweredIds, DistinctIds;
    StateOfLedger(r.context, calls[i].id);
  }

  lemma {:induction false} AllAllowedEach(context: seq<Msg>, decide: Call -> Behavior, calls: seq<Call>, i: nat)
    requires AllAllowed(context, decide, calls) && i < |calls|
    ensures Classify(context, decide, calls[i]) == Allow
  {
    hide Classify;
    if i < |calls| - 1 {
      AllAllowedEach(context, decide, calls[..|calls| - 1], i);
    }
  }

  /** The calls that wait after holding a batch waited before, or are among those to ask about. */
  lemma {:induction false} HeldStates(r: Run, asOf: seq<Msg>, decide: Call -> Behavior, calls: seq<Call>, id: string)
    requires id in CallStates(HoldAsked(r, asOf, decide, calls).context)
    ensures var now := CallStates(HoldAsked(r, asOf, decide, calls).context);
      || (id in CallStates(r.context) && now[id] == CallStates(r.context)[id])
      || (now[id] == Asking && exists i :: 0 <= i < |calls| && calls[i].id == id && Classify(asOf, decide, calls[i]) == Ask)
  {
    hide CallStates, AnsweredIds, UniqueCalls, SetState, Classify;
    if calls != [] {
      var init, last := calls[..|calls| - 1], calls[|calls| - 1];
      var before := HoldAsked(r, asOf, decide, init);
      MarkLedger(before.context, last.id, Asking);
      if Classify(asOf, decide, last) != Ask || last.id != id {
        HeldStates(r, asOf, decide, init, id);
        if i :| 0 <= i < |init| && init[i].id == id && Classify(asOf, decide, init[i]) == Ask { assert calls[i].id == id; }
      }
    }
  }

  /** The life goes on with a turn that has the batch `calls` in hand. */
  ghost predicate ComesUp(c: Config, m: Machine, init: seq<Input>, calls: seq<Call>, env: Env)
  {
    BatchAt(c, m, init + [Turn(env)], |init|) == calls
  }

  lemma {:induction false} AllowedNow(c: Config, m: Machine, init: seq<Input>, r: Run, calls: seq<Call>, env: Env, id: string)
    requires ComesUp(c, m, init, calls, env) && id in IdSet(calls)
    requires Untouched(calls, CallStates(r.context), AnsweredIds(r.context)) && AllAllowed(r.context, env.decide, calls)
    ensures Licensed(c, m, init + [Turn(env)], id)
  {
    hide BatchAt, Untouched, AllAllowed, Classify, CallStates, AnsweredIds, IdSet;
    forall i | 0 <= i < |calls|
      ensures env.decide(calls[i]) == Allow
    {
      AllAllowedEach(r.context, env.decide, calls, i);
      UntouchedDecides(r, calls, env.decide, i);
    }
    InIdSet(calls, id);
    assert AllowedAt(c, m, init + [Turn(env)], |init|, id);
  }

  lemma {:induction false} AskedNow(c: Config, m: Machine, init: seq<Input>, r: Run, calls: seq<Call>, env: Env, i: nat)
    requires ComesUp(c, m, init, calls, env) && i < |calls| && Classify(r.context, env.decide, calls[i]) == Ask
    requires Untouched(calls, CallStates(r.context), AnsweredIds(r.context))
    ensures StillAsked(c, m, init + [Turn(env)], calls[i].id)
  {
    hide BatchAt, Untouched, Classify, CallStates, AnsweredIds;
    UntouchedDecides(r, calls, env.decide, i);
    assert AskedAt(c, m, init + [Turn(env)], |init|, calls[i].id);
    assert NoAnswerIn(init + [Turn(env)], |init|, |init| + 1, calls[i].id);
  }

  lemma {:induction false} ActEntitled(c: Config, m: Machine, init: seq<Input>, r: Run, calls: seq<Call>, env: Env)
    requires ComesUp(c, m, init, calls, env) && EntitledRun(c, m, init + [Turn(env)], r)
    requires SafeRun(r) && Quiet(CallStates(r.context)) && Untouched(calls, CallStates(r.context), AnsweredIds(r.context))
    ensures EntitledRun(c, m, init + [Turn(env)], ActRound(r, calls, env).run)
  {
    hide CallStates, AnsweredIds, UniqueCalls, SafeLog, LedgerSafe, WasExecuted, StillAsked, WasApproved, Licensed, AllAllowed, AnyAsk, Classify, Execute,
      HoldAsked, Untouched, ComesUp, IdSet;
    var inputs := init + [Turn(env)];
    var after := Act(r, calls, env).0;
    if AllAllowed(r.context, env.decide, calls) {
      ActAllAllowedSafe(r, calls, env);
      forall id | WasExecuted(after.log, id)
        ensures Licensed(c, m, inputs, id)
      {
        ExecuteShows(r, calls, env, id);
        if id in IdSet(calls) { AllowedNow(c, m, init, r, calls, env, id); }
      }
    } else {
      HoldLogs(r, r.context, env.decide, calls);
      forall id | id in CallStates(after.context)
        ensures CallStates(after.context)[id] == Asking ==> StillAsked(c, m, inputs, id)
        ensures CallStates(after.context)[id] != Allowed
      {
        HeldStates(r, r.context, env.decide, calls, id);
        if i :| 0 <= i < |calls| && calls[i].id == id && Classify(r.context, env.decide, calls[i]) == Ask {
          AskedNow(c, m, init, r, calls, env, i);
        }
      }
    }
  }

  // ---------------------------------------------------------------------------
  // An answer comes in
  // ---------------------------------------------------------------------------

  lemma {:induction false} ApprovedNow(c: Config, m: Machine, init: seq<Input>, id: string, input: Input)
    requires StillAsked(c, m, init, id) && input.Answer? && input.callId == id && input.approved
    ensures WasApproved(c, m, init + [input], id)
  {
    hide AskedAt, NoAnswerIn;
    var j :| AskedAt(c, m, init, j, id) && NoAnswerIn(init, j, |init|, id);
    FactsStay(c, m, init, input, j, id);
    NoAnswerStays(init, input, j, |init|, id);
    assert j < |init| by { AskedWithin(c, m, init, j, id); }
    assert ApprovedAt(init + [input], |init|, id);
  }

  lemma AskedWithin(c: Config, m: Machine, inputs: seq<Input>, j: int, id: string)
    requires AskedAt(c, m, inputs, j, id)
    ensures 0 <= j < |inputs|
  {
  }

  lemma {:induction false} AcceptEntitled(c: Config, m: Machine, init: seq<Input>, r: Run, input: Input)
    requires EntitledRun(c, m, init, r) && input.Answer?
    ensures EntitledRun(c, m, init + [input], Accept(r, input.callId, input.approved).0)
  {
    hide CallStates, AnsweredIds, UniqueCalls, WasExecuted, StillAsked, WasApproved, Licensed, SetState, StateOf, Owner, CallsInState;
    var id := input.callId;
    EntitledStays(c, m, init, input, CallStates(r.context), r.log);
    StateOfLedger(r.context, id);
    MarkLedger(r.context, id, if input.approved then Allowed else CallState.Finished);
    if id in CallStates(r.context) && CallStates(r.context)[id] == Asking {
      assert StateOf(r.context, id) == Some(Asking);
      if input.approved { ApprovedNow(c, m, init, id, input); }
    }
  }

  lemma {:induction false} ResumeEntitled(c: Config, m: Machine, inputs: seq<Input>, r: Run, env: Env)
    requires EntitledRun(c, m, inputs, r) && SafeRun(r) && NoneIs(CallStates(r.context), Asking)
    ensures EntitledRun(c, m, inputs, Resume(r, env).0)
  {
    hide CallStates, AnsweredIds, UniqueCalls, SafeLog, LedgerSafe, WasExecuted, StillAsked, WasApproved, Licensed, Execute, PutAllDenied, Split, PendingCalls,
      DistinctIds, IdSet;
    ResumeSafe(r, env);
    PendingFacts(r.context);
    var allowed, denied := Split(PendingCalls(r.context), true), Split(PendingCalls(r.context), false);
    var done := if allowed == [] then r else Execute(r, allowed, env).0;
    if allowed != [] { AllowedRun(r, allowed, env); }
    PutAllDeniedSettles(done, denied);
    forall id | WasExecuted(done.log, id)
      ensures Licensed(c, m, inputs, id)
    {
      if allowed != [] { ExecuteShows(r, allowed, env, id); }
      if id in IdSet(allowed) {
        assert id in CallStates(r.context) && CallStates(r.context)[id] == Allowed;
        ApprovedIsLicensed(c, m, inputs, id);
      }
    }
  }

  lemma ApprovedIsLicensed(c: Config, m: Machine, inputs: seq<Input>, id: string)
    requires WasApproved(c, m, inputs, id)
    ensures Licensed(c, m, inputs, id)
  {
  }

  lemma {:induction false} AnsweredEntitled(c: Config, m: Machine, init: seq<Input>, now: Machine, input: Input)
    requires EntitledRun(c, m, init, now.run) && Safe(now) && now.phase.AtRest? && input.Answer?
    ensures EntitledRun(c, m, init + [input], Answered(now.run, input.callId, input.approved, input.maxContinuations, input.env).run)
  {
    hide CallStates, AnsweredIds, UniqueCalls, SafeLog, LedgerSafe, NoneIs, Accept, Resume, Entitled;
    var r := now.run.(continuations := 0, maxContinuations := input.maxContinuations);
    AcceptSafe(r, input.callId, input.approved);
    AcceptEntitled(c, m, init, r, input);
    var (at, acceptance) := Accept(r, input.callId, input.approved);
    if acceptance.Complete? { ResumeEntitled(c, m, init + [input], at.(status := Active), input.env); }
  }

  // ---------------------------------------------------------------------------
  // Whole lives
  // ---------------------------------------------------------------------------

  lemma {:induction false} ReasonRoundLog(c: Config, r: Run, hint: Option<string>, env: Env)
    requires UniqueCalls(r.context) && (env.hook.HookMessages? ==> AllToolless(env.hook.messages))
    ensures ReasonRound(c, r, hint, env).run.log == r.log
  {
    hide Reason, AddRaws, FindReply, HasUser, AllToolless, UniqueCalls, CallStates, AnsweredIds, AppendReply, Snapshots, Addressed;
    var counted := r.(iteration := r.iteration + 1);
    match env.hook
    case HookMessages(ms) => AddRawsLedger(counted, ms);
    case _ =>
  }

  lemma SafeRunOf(m: Machine)
    requires Safe(m)
    ensures SafeRun(m.run)
  {
    hide CallStates, AnsweredIds, UniqueCalls, SafeLog, LedgerSafe, NoneIs, PhaseSafe;
  }

  lemma {:induction false} RoundEntitled(c: Config, m: Machine, init: seq<Input>, env: Env)
    requires var now := Life(c, m, init);
      now.phase.Loop? && Safe(now) && Fair(c, now, Turn(env)) && EntitledRun(c, m, init, now.run)
    ensures EntitledRun(c, m, init + [Turn(env)], Round(c, Life(c, m, init).run, Life(c, m, init).phase.prev, env).run)
  {
    hide Life, Safe, CallStates, AnsweredIds, UniqueCalls, SafeLog, LedgerSafe, NoneIs, ReasonRound, ActRound, AllToolless, FreshCalls, UsedIds,
      Untouched, Entitled, AppendReply;
    var now := Life(c, m, init);
    var inputs := init + [Turn(env)];
    SafeMeans(now);
    EntitledStays(c, m, init, Turn(env), CallStates(now.run.context), now.run.log);
    assert inputs[..|init|] == init;
    var (action, decided) := Decide(c, now.run, now.phase.prev);
    match action
    case Reasoning(hint, _) =>
      ReasonRoundSafe(c, decided, hint, env);
      ReasonRoundLog(c, decided, hint, env);
      QuietEntitled(c, m, inputs, CallStates(now.run.context), now.run.log, CallStates(ReasonRound(c, decided, hint, env).run.context));
    case Acting(calls) => ActEntitled(c, m, init, decided, calls, env);
    case Exiting(reason) =>
      ExitRoundSafe(decided, reason, env);
      QuietEntitled(c, m, inputs, CallStates(now.run.context), now.run.log, CallStates(ExitRound(decided, reason, env).run.context));
  }

  lemma LoopIsQuiet(m: Machine)
    requires Safe(m) && m.phase.Loop?
    ensures Quiet(CallStates(m.run.context))
  {
    hide CallStates, AnsweredIds, UniqueCalls, SafeLog, LedgerSafe;
  }

  lemma {:induction false} AdvanceEntitled(c: Config, m: Machine, init: seq<Input>, input: Input)
    requires var now := Life(c, m, init); Safe(now) && Fair(c, now, input) && EntitledRun(c, m, init, now.run)
    ensures EntitledRun(c, m, init + [input], Advance(c, Life(c, m, init), input).run)
  {
    hide Life, Safe, Entitled, Answered, Round, FreshTurn, AddRaws, CallsInState, UniqueCalls, CallStates, AnsweredIds, AllToolless, SafeLog, LedgerSafe;
    var now := Life(c, m, init);
    SafeRunOf(now);
    EntitledStays(c, m, init, input, CallStates(now.run.context), now.run.log);
    match input
    case StartReply(ms, max) =>
      if now.phase.AtRest? {
        AddRawsLedger(now.run.(status := Active, iteration := 0, emptyRetries := 0, inFinalization := false,
                               continuations := 0, maxContinuations := max, requests := []), ms);
      }
    case Answer(_, _, _, _) =>
      if now.phase.AtRest? {
        AnsweredEntitled(c, m, init, now, input);
      } else {
        LoopIsQuiet(now);
        QuietStays(c, m, init, input, CallStates(now.run.context), now.run.log);
      }
    case Turn(env) => if now.phase.Loop? { RoundEntitled(c, m, init, env); }
  }

  lemma {:induction false} AlwaysEntitled(c: Config, m: Machine, inputs: seq<Input>)
    requires Safe(m) && FairLife(c, m, inputs) && EntitledRun(c, m, [], m.run)
    ensures EntitledRun(c, m, inputs, Life(c, m, inputs).run)
  {
    hide Safe, Fair, Advance, Entitled;
    if inputs != [] {
      var init, last := inputs[..|inputs| - 1], inputs[|inputs| - 1];
      AlwaysEntitled(c, m, init);
      AlwaysSafe(c, m, init);
      AdvanceEntitled(c, m, init, last);
      assert init + [last] == inputs;
    }
  }

  /**
   * Permission safety: whatever the model, the hooks, the tools and the user do, a call that has been
   * executed came up in a batch whose every call the permission engine allowed, or came up with the
   * engine saying to ask about it, and the first answer the user then gave for it was an approval. The
   * inputs may be cut off right after the execution, so the permission always comes first.
   */
  lemma {:induction false} OnlyLicensedCallsRun(c: Config, m: Machine, inputs: seq<Input>, id: string)
    requires m.run.context == [] && m.run.log == [] && m.phase == AtRest
    requires FairLife(c, m, inputs) && WasExecuted(Life(c, m, inputs).run.log, id)
    ensures Licensed(c, m, inputs, id)
  {
    hide Safe, Life, FairLife, Licensed;
    NewIsSafe(m);
    assert CallStates([]) == map[] by { NoCalls(); assert AllBlocks([]) == []; }
    AlwaysEntitled(c, m, inputs);
  }
}
