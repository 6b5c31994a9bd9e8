/**
 * The two ways in which a fair life leaves its context unbalanced, told as what the next request loses:
 * a batch that is dropped, and a mixed batch whose approved part brings a hint.
 */
module RequestLoss {
  import opened Prelude
  import opened Messages
  import opened Events
  import opened Context
  import opened Balance
  import opened Loss
  import opened Ledger
  import opened Reasoning
  import opened Runner
  import opened Safety
  import opened RunBalance
  import opened Anchors

  // ---------------------------------------------------------------------------
  // The next request
  // ---------------------------------------------------------------------------

  lemma {:induction false} FirstSnapshot(read: Reader, k: nat, max: nat, so: ReasonDone, inputs: nat -> AttemptInput)
    requires k < max
    ensures so.snapshots + [so.blocks] <= RunAttempts(read, k, max, so, inputs).snapshots
    decreases max - k
  {
    hide RunAttempt, Unretryable;
    var d := RunAttempt(read, so.nextId, inputs(k));
    if d.end.FailedWith? && inputs(k).waiting == Undisturbed && ShouldRetry(d.end.error, inputs(k).advice, k == max - 1) {
      var now := ReasonDone(so.events + d.events + [Retrying(d.end.error.code, k + 1)], so.blocks + d.blocks, d.nextId, TurnCancelled,
                            so.snapshots + [so.blocks]);
      FirstSnapshot(read, k + 1, max, now, inputs);
    }
  }

  lemma {:induction false} SnapshotAt(r: Run, snapshots: seq<seq<Block>>, i: nat)
    requires i < |snapshots|
    ensures |Snapshots(r, snapshots)| == |snapshots|
    ensures Snapshots(r, snapshots)[i] == AppendReply(r.context, r.messageId, snapshots[i])
  {
    hide AppendReply;
    if |snapshots| > 1 {
      SnapshotAt(r, snapshots[..|snapshots| - 1], if i < |snapshots| - 1 then i else 0);
    }
  }

  /** The model is asked in this round. */
  ghost predicate Asks(c: Config, r: Run, next: Env)
  {
    Decide(c, r, None).0.Reasoning? && next.hook.HookMessages? && AllToolless(next.hook.messages)
  }

  /** The first request of a round shows the context with the host's new messages. */
  lemma {:induction false} NextRequest(c: Config, r: Run, next: Env)
    requires Asks(c, r, next)
    ensures var m := Round(c, r, None, next);
      && |m.run.requests| > |r.requests|
      && m.run.requests[|r.requests|] == AddRaws(r.(iteration := r.iteration + 1), next.hook.messages).context
  {
    hide AddRaws, FindReply, HasUser, RunAttempts, AppendReply, Addressed, AllToolless;
    var counted := r.(iteration := r.iteration + 1);
    RawsKeepRequests(counted, next.hook.messages);
    var ready := Rotate(AddRaws(counted, next.hook.messages), next.hook.messages);
    var start := ReasonDone([], [], ready.nextId, TurnCancelled, []);
    FirstSnapshot(c.read, 0, 1 + c.maxRetries, start, next.attempts);
    var d := Reason(c.read, None, c.maxRetries, ready.nextId, next.attempts);
    SnapshotAt(ready, d.snapshots, 0);
    assert d.snapshots[0] == [];
    NothingAppended(ready.context, ready.messageId);
  }

  lemma NothingAppended(context: seq<Msg>, id: MsgId)
    ensures AppendReply(context, id, []) == context
  {
  }

  lemma {:induction false} RawsKeepRequests(r: Run, ms: seq<HostMsg>)
    ensures AddRaws(r, ms).requests == r.requests && r.context <= AddRaws(r, ms).context
  {
    hide KnownId;
    if ms != [] { RawsKeepRequests(r, ms[..|ms| - 1]); }
  }

  /** Host messages neither cause nor cure an imbalance. */
  lemma {:induction false} HostKeepsBalance(r: Run, ms: seq<HostMsg>)
    requires AllToolless(ms)
    ensures BalancedContext(AddRaws(r, ms).context) <==> BalancedContext(r.context)
  {
    hide AddRaws, Fit;
    RawsKeepRequests(r, ms);
    if BalancedContext(r.context) {
      AddRawsBalanced(r, ms);
    }
    if BalancedContext(AddRaws(r, ms).context) {
      forall i | 0 <= i < |r.context|
        ensures Fit(r.context[i])
      {
        assert Fit(AddRaws(r, ms).context[i]);
      }
    }
  }

  /** What the next request loses tells whether the context is balanced. */
  lemma {:induction false} NextRequestTells(c: Config, r: Run, next: Env, prompt: string, keepReasoning: bool)
    requires Rooted(r.context, r.nextId) && Asks(c, r, next)
    ensures var m := Round(c, r, None, next);
      |m.run.requests| > |r.requests| && (Lost(prompt, m.run.requests[|r.requests|], keepReasoning) == 0 <==> BalancedContext(r.context))
  {
    hide Round, AddRaws, Lost, BalancedContext, AllToolless, Shaped;
    var counted := r.(iteration := r.iteration + 1);
    NextRequest(c, r, next);
    AddRawsRooted(counted, next.hook.messages);
    HostKeepsBalance(counted, next.hook.messages);
    LosesNothingIffBalanced(prompt, AddRaws(counted, next.hook.messages).context, keepReasoning);
  }

  // ---------------------------------------------------------------------------
  // A dropped batch
  // ---------------------------------------------------------------------------

  lemma {:induction false} NewLife(c: Config, m: Machine, inputs: seq<Input>)
    requires m.run.context == [] && m.run.log == [] && m.run.requests == [] && m.phase == AtRest
    requires FairLife(c, m, inputs) && TameLife(c, m, inputs)
    ensures var now := Life(c, m, inputs); Safe(now) && Anchored(now) && Even(now) && RequestsBalanced(now.run)
  {
    hide Safe, Life, FairLife, TameLife, NoneIs, Owes, Fit, Anchored;
    NewIsSafe(m);
    NewIsAnchored(m);
    AlwaysSafe(c, m, inputs);
    AlwaysAnchored(c, m, inputs);
    AlwaysEven(c, m, inputs);
  }

  /**
   * When a batch comes up that is neither allowed as a whole nor to be asked about, the run goes on, and
   * the next request loses something: its calls are stripped and stay without results.
   */
  lemma {:induction false} DroppedBatchLoses(c: Config, m: Machine, inputs: seq<Input>, turn: TurnResult, env: Env, next: Env, prompt: string, keepReasoning: bool)
    requires m.run.context == [] && m.run.log == [] && m.run.requests == [] && m.phase == AtRest
    requires FairLife(c, m, inputs) && TameLife(c, m, inputs)
    requires Life(c, m, inputs).phase == Loop(Some(turn)) && turn.calls != []
    requires !Runnable(Life(c, m, inputs).run, turn.calls, env) && Asks(c, Life(c, m, inputs).run, next)
    ensures var before := Life(c, m, inputs); var dropped := Advance(c, before, Turn(env)); var asked := Advance(c, dropped, Turn(next));
      && dropped == Machine(before.run, Loop(None))
      && |asked.run.requests| > |before.run.requests|
      && Lost(prompt, asked.run.requests[|before.run.requests|], keepReasoning) > 0
  {
    hide Life, FairLife, TameLife, Safe, ReasonRound, ExitRound, Runnable, Lost, BalancedContext, Owes, Asks, AllAllowed, AnyAsk, Rooted, HoldsAll, Shaped;
    var before := Life(c, m, inputs);
    NewLife(c, m, inputs);
    assert turn.error == None;
    DroppedIsLost(before.run, turn.calls, env);
    assert Advance(c, before, Turn(env)) == ActRound(before.run, turn.calls, env);
    NextRequestTells(c, before.run, next, prompt, keepReasoning);
  }

  lemma {:induction false} DroppedIsLost(r: Run, calls: seq<Call>, env: Env)
    requires Owes(r.context, r.messageId, CallIds(calls)) && !Runnable(r, calls, env)
    ensures ActRound(r, calls, env) == Machine(r, Loop(None)) && !BalancedContext(r.context)
  {
    hide AllAllowed, AnyAsk, HoldAsked, Execute, OthersFit, BalancedContext, CallStates, AnsweredIds;
    DenyWithoutAskDoesNothing(r, calls, env);
    DroppedBatchUnbalances(r, calls, env);
  }

  // ---------------------------------------------------------------------------
  // A mixed resume
  // ---------------------------------------------------------------------------

  lemma {:induction false} BalancedIsQuiet(r: Run, env: Env)
    requires UniqueCalls(r.context) && BalancedContext(r.context)
    ensures QuietWhenMixed(r, env) && Resume(r, env) == (r, false)
  {
    hide CallStates, AnsweredIds, UniqueCalls, Unanswered, Split, DistinctIds, BalancedContext, IdSet, Execute, HintsFrom;
    BalancedResume(r, env);
    BalancedAnswers(r.context);
    PendingFacts(r.context);
    var allowed := Split(PendingCalls(r.context), true);
    if allowed != [] { InIdSet(allowed, allowed[0].id); }
  }

  /** The last open answer comes in and the run goes on: the context is balanced exactly after a quiet resume. */
  lemma {:induction false} ResumedBalancedIff(m: Machine, id: string, approved: bool, maxContinuations: nat, env: Env)
    requires Safe(m) && m.phase.AtRest? && Even(m) && Anchored(m)
    requires Answered(m.run, id, approved, maxContinuations, env).phase.Loop?
    ensures var after := Answered(m.run, id, approved, maxContinuations, env).run;
      && Rooted(after.context, after.nextId) && after.requests == m.run.requests
      && (BalancedContext(after.context) <==> QuietWhenMixed(AtResume(m.run, id, approved, maxContinuations), env))
  {
    hide Safe, CallStates, AnsweredIds, UniqueCalls, SafeLog, LedgerSafe, NoneIs, Accept, Resume, QuietWhenMixed, Owes, BalancedContext, Rooted, Holds, HoldsWaiting;
    SafeUnique(m);
    AnsweredAnchored(m, id, approved, maxContinuations, env);
    var r := m.run.(continuations := 0, maxContinuations := maxContinuations);
    AcceptSafe(r, id, approved);
    AcceptEven(r, id, approved);
    var active := AtResume(m.run, id, approved, maxContinuations);
    ResumeRequests(active, env);
    if BalancedContext(active.context) {
      BalancedIsQuiet(active, env);
    } else {
      var called :| Owes(active.context, active.messageId, called);
      ResumeBalancesIff(active, env, called);
    }
  }

  /**
   * When the last open answer comes in and the run goes on, the next request loses something if and only
   * if the batch was mixed and its approved part brought a hint: the hint separates the calls from the
   * denied results.
   */
  lemma {:induction false} ResumeLosesIff(c: Config, m: Machine, inputs: seq<Input>, id: string, approved: bool, maxContinuations: nat, env: Env, next: Env,
                                          prompt: string, keepReasoning: bool)
    requires m.run.context == [] && m.run.log == [] && m.run.requests == [] && m.phase == AtRest
    requires FairLife(c, m, inputs) && TameLife(c, m, inputs) && Life(c, m, inputs).phase.AtRest?
    requires var resumed := Advance(c, Life(c, m, inputs), Answer(id, approved, maxContinuations, env));
      resumed.phase.Loop? && Asks(c, resumed.run, next)
    ensures var before := Life(c, m, inputs);
      var asked := Advance(c, Advance(c, before, Answer(id, approved, maxContinuations, env)), Turn(next));
      var resume := AtResume(before.run, id, approved, maxContinuations);
      var allowed, denied := Split(PendingCalls(resume.context), true), Split(PendingCalls(resume.context), false);
      && |asked.run.requests| > |before.run.requests|
      && (Lost(prompt, asked.run.requests[|before.run.requests|], keepReasoning) > 0
          <==> allowed != [] && denied != [] && HintsFrom(allowed, env) != [])
  {
    hide Life, FairLife, TameLife, Safe, Lost, BalancedContext, Asks, Rooted, Round, Anchored, Even, AtResume, PendingCalls, Split, HintsFrom;
    var before := Life(c, m, inputs);
    NewLife(c, m, inputs);
    ResumedBalancedIff(before, id, approved, maxContinuations, env);
    var resumed := Advance(c, before, Answer(id, approved, maxContinuations, env));
    AnsweredLoops(before.run, id, approved, maxContinuations, env);
    NextRequestTells(c, resumed.run, next, prompt, keepReasoning);
  }

  /** A run that goes on after an answer was not cancelled, and has no turn in hand. */
  lemma AnsweredLoops(r: Run, id: string, approved: bool, maxContinuations: nat, env: Env)
    requires Answered(r, id, approved, maxContinuations, env).phase.Loop?
    ensures Answered(r, id, approved, maxContinuations, env).phase == Loop(None)
    ensures var resume := AtResume(r, id, approved, maxContinuations);
      var allowed := Split(PendingCalls(resume.context), true);
      allowed != [] ==> !Execute(resume, allowed, env).1
  {
    hide Accept, Execute, PutAllDenied, Split, PendingCalls;
  }

  /** The last open answer came in, and settling the batch was cancelled. */
  ghost predicate CancelledWhileSettling(r: Run, id: string, approved: bool, maxContinuations: nat, env: Env)
  {
    && Accept(r.(continuations := 0, maxContinuations := maxContinuations), id, approved).1.Complete?
    && Resume(AtResume(r, id, approved, maxContinuations), env).1
  }

  /** After a cancelled resume the context is balanced exactly when no call of the batch was refused. */
  lemma {:induction false} CancelledBalancedIff(m: Machine, id: string, approved: bool, maxContinuations: nat, env: Env)
    requires Safe(m) && m.phase.AtRest? && Even(m) && CancelledWhileSettling(m.run, id, approved, maxContinuations, env)
    ensures var after := Answered(m.run, id, approved, maxContinuations, env);
      && after.phase.AtRest?
      && (BalancedContext(after.run.context) <==> Split(PendingCalls(AtResume(m.run, id, approved, maxContinuations).context), false) == [])
  {
    hide Safe, CallStates, AnsweredIds, UniqueCalls, SafeLog, LedgerSafe, NoneIs, Accept, Owes, BalancedContext, Execute, PutAllDenied, Split, PendingCalls;
    SafeUnique(m);
    var r := m.run.(continuations := 0, maxContinuations := maxContinuations);
    AcceptSafe(r, id, approved);
    AcceptEven(r, id, approved);
    var active := AtResume(m.run, id, approved, maxContinuations);
    if BalancedContext(active.context) {
      BalancedIsQuiet(active, env);
      assert false;
    } else {
      var called :| Owes(active.context, active.messageId, called);
      ResumeBalancesIff(active, env, called);
    }
  }

  lemma {:induction false} StartedFrom(m: Machine, ms: seq<HostMsg>, maxContinuations: nat)
    requires Safe(m) && m.phase.AtRest? && Anchored(m) && AllToolless(ms) && Start(m.run, ms, maxContinuations).phase.Loop?
    ensures var s := Start(m.run, ms, maxContinuations);
      && s.phase == Loop(None) && s.run.requests == [] && Rooted(s.run.context, s.run.nextId)
      && (BalancedContext(s.run.context) <==> BalancedContext(m.run.context))
  {
    hide Safe, CallsInState, AddRaws, AllToolless, Rooted, BalancedContext, HoldsWaiting, Shaped, HoldsAll;
    StartAnchored(m, ms, maxContinuations);
    var reset := m.run.(status := Active, iteration := 0, emptyRetries := 0, inFinalization := false,
                        continuations := 0, maxContinuations := maxContinuations, requests := []);
    RawsKeepRequests(reset, ms);
    HostKeepsBalance(reset, ms);
  }

  /**
   * When settling a batch is cancelled, its run ends; the first request of the next reply loses something
   * if and only if the user had refused a call of the batch, which is then never answered.
   */
  lemma {:induction false} CancelledResumeLosesIff(c: Config, m: Machine, inputs: seq<Input>, id: string, approved: bool, maxContinuations: nat, env: Env,
                                                   ms: seq<HostMsg>, again: nat, next: Env, prompt: string, keepReasoning: bool)
    requires m.run.context == [] && m.run.log == [] && m.run.requests == [] && m.phase == AtRest
    requires FairLife(c, m, inputs) && TameLife(c, m, inputs) && Life(c, m, inputs).phase.AtRest?
    requires CancelledWhileSettling(Life(c, m, inputs).run, id, approved, maxContinuations, env) && AllToolless(ms)
    requires var started := Advance(c, Advance(c, Life(c, m, inputs), Answer(id, approved, maxContinuations, env)), StartReply(ms, again));
      started.phase.Loop? && Asks(c, started.run, next)
    ensures var before := Life(c, m, inputs);
      var started := Advance(c, Advance(c, before, Answer(id, approved, maxContinuations, env)), StartReply(ms, again));
      var asked := Advance(c, started, Turn(next));
      && asked.run.requests != []
      && (Lost(prompt, asked.run.requests[0], keepReasoning) > 0
          <==> Split(PendingCalls(AtResume(before.run, id, approved, maxContinuations).context), false) != [])
  {
    hide Life, FairLife, TameLife, Safe, Lost, BalancedContext, Asks, Rooted, Round, Anchored, Even, AtResume, PendingCalls, Split, Answered, Start, AllToolless,
      CancelledWhileSettling;
    var before := Life(c, m, inputs);
    NewLife(c, m, inputs);
    CancelledBalancedIff(before, id, approved, maxContinuations, env);
    AnsweredSafe(before, id, approved, maxContinuations, env);
    AnsweredAnchored(before, id, approved, maxContinuations, env);
    var ended := Advance(c, before, Answer(id, approved, maxContinuations, env));
    StartedFrom(ended, ms, again);
    NextRequestTells(c, Start(ended.run, ms, again).run, next, prompt, keepReasoning);
  }
}
