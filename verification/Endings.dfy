/**
 * Why runs end, read off the inputs: each of the four end reasons has its own causes, and a run ends
 * with a reason exactly when one of them comes up.
 */
module Endings {
  import opened Prelude
  import opened Messages
  import opened Normalize
  import opened Events
  import opened Context
  import opened Ledger
  import opened Reasoning
  import opened Runner
  import opened Safety
  import Licence
  import Retries
  import Terminal
  import Termination
  import Completion
  import Projection
  import RequestLoss

  // ---------------------------------------------------------------------------
  // What the last turn brought
  // ---------------------------------------------------------------------------

  /** The turn did not fail, but asked for nothing and said nothing visible. */
  predicate Silence(prev: Option<TurnResult>)
  {
    prev.Some? && prev.value.error == None && prev.value.calls == [] && Blank(prev.value.text)
  }

  predicate Answer(prev: Option<TurnResult>) { prev.Some? && Completion.FinalAnswer(prev.value) }

  predicate Batch(prev: Option<TurnResult>)
  {
    prev.Some? && prev.value.error == None && prev.value.calls != []
  }

  predicate Failed(prev: Option<TurnResult>) { prev.Some? && prev.value.error.Some? }

  /** How many silent turns have been followed up since the last new reply. */
  function Silences(c: Config, m: Machine, inputs: seq<Input>): nat
  {
    if inputs == [] then 0
    else
      var init, now := inputs[..|inputs| - 1], Life(c, m, inputs[..|inputs| - 1]);
      match inputs[|inputs| - 1]
      case StartReply(_, _) =>
        if now.phase.AtRest? && CallsInState(now.run.context, Asking) == [] then 0 else Silences(c, m, init)
      case Answer(_, _, _, _) => Silences(c, m, init)
      case Turn(_) => Silences(c, m, init) + if now.phase.Loop? && Silence(now.phase.prev) then 1 else 0
  }

  /** The run's own counters say how many silences there were, as far as they go. */
  ghost predicate Counts(r: Run, silences: nat)
  {
    && r.emptyRetries == (if silences < 2 then silences else 2)
    && (r.inFinalization <==> silences >= 3)
  }

  // ---------------------------------------------------------------------------
  // Causes
  // ---------------------------------------------------------------------------

  /** The limit on iterations, if there is one, has been reached. */
  predicate UsedUp(c: Config, r: Run) { c.maxIterations.Some? && r.iteration >= c.maxIterations.value }

  /** The model is asked: for a first answer while iterations are left, or once more after up to three silences. */
  predicate Asks(c: Config, r: Run, prev: Option<TurnResult>, silences: nat)
  {
    (prev == None && !UsedUp(c, r)) || (Silence(prev) && silences < 3)
  }

  ghost predicate AllAllow(calls: seq<Call>, decide: Call -> Behavior)
  {
    forall i :: 0 <= i < |calls| ==> decide(calls[i]) == Allow
  }

  /** The tools as a whole, or one of them, were cancelled. */
  ghost predicate ToolsStopped(calls: seq<Call>, env: Env)
  {
    env.toolsCancelled || exists i :: 0 <= i < |calls| && env.outcomes(calls[i].id).Returned? && env.outcomes(calls[i].id).cancelled
  }

  /** The outside cancelled the turn: the hook, the model stream or the wait for it, the tools, or the stop hook. */
  ghost predicate WasInterrupted(c: Config, r: Run, prev: Option<TurnResult>, silences: nat, env: Env)
  {
    || (Asks(c, r, prev, silences)
        && (env.hook.HookCancelled? || (env.hook.HookMessages? && Retries.CancelledAtSome(c.read, c.maxRetries, env.attempts))))
    || (Batch(prev) && AllAllow(prev.value.calls, env.decide) && ToolsStopped(prev.value.calls, env))
    || (Answer(prev) && env.stop.StopCancelled?)
  }

  /** The last turn failed, a fourth silence came up, or a hook raised. */
  predicate HasFailed(c: Config, r: Run, prev: Option<TurnResult>, silences: nat, env: Env)
  {
    || Failed(prev)
    || (Silence(prev) && silences >= 3)
    || (Asks(c, r, prev, silences) && env.hook.HookRaised?)
    || (Answer(prev) && env.stop.StopRaised?)
  }

  predicate Goes(r: Run, env: Env) { env.stop.Continue? && !env.cancellationSet && r.continuations < r.maxContinuations }

  /** An answer with visible text, and the stop hook lets it be the end or may not go on. */
  predicate IsComplete(r: Run, prev: Option<TurnResult>, env: Env)
  {
    Answer(prev) && (env.stop.Stop? || (env.stop.Continue? && !Goes(r, env)))
  }

  ghost predicate Causes(c: Config, r: Run, prev: Option<TurnResult>, silences: nat, env: Env, reason: EndReason)
  {
    match reason
    case Interrupted => WasInterrupted(c, r, prev, silences, env)
    case Failure => HasFailed(c, r, prev, silences, env)
    case Completed => IsComplete(r, prev, env)
    case ExceedMaxIters => prev == None && UsedUp(c, r)
  }

  // ---------------------------------------------------------------------------
  // One turn
  // ---------------------------------------------------------------------------

  lemma {:induction false} AnyCancelledIff(results: seq<ToolResult>)
    ensures AnyCancelled(results) <==> exists i :: 0 <= i < |results| && results[i].cancelled
  {
    if results != [] {
      var init := results[..|results| - 1];
      AnyCancelledIff(init);
      if i :| 0 <= i < |init| && init[i].cancelled { assert results[i].cancelled; }
      if i :| 0 <= i < |results| && results[i].cancelled { assert i < |init| ==> init[i].cancelled; }
    }
  }

  lemma {:induction false} GatheredAt(calls: seq<Call>, outcomes: string -> ToolOutcome, cancelled: bool, i: nat)
    requires i < |calls|
    ensures |GatherAll(calls, outcomes, cancelled)| == |calls|
    ensures GatherAll(calls, outcomes, cancelled)[i] == Gathered(calls[i].id, outcomes(calls[i].id), cancelled)
  {
    hide Gathered;
    GatherLength(calls, outcomes, cancelled);
    if i < |calls| - 1 {
      GatheredAt(calls[..|calls| - 1], outcomes, cancelled, i);
    } else {
      GatherLength(calls[..|calls| - 1], outcomes, cancelled);
    }
  }

  lemma {:induction false} ExecuteCancelledIff(r: Run, calls: seq<Call>, env: Env)
    ensures Execute(r, calls, env).1 <==> ToolsStopped(calls, env)
  {
    hide GatherAll, AnyCancelled, PutHints, PutResults, Spawn;
    GatherLength(calls, env.outcomes, env.toolsCancelled);
    var results := GatherAll(calls, env.outcomes, env.toolsCancelled);
    AnyCancelledIff(results);
    forall i | 0 <= i < |calls|
      ensures results[i] == Gathered(calls[i].id, env.outcomes(calls[i].id), env.toolsCancelled)
    {
      GatheredAt(calls, env.outcomes, env.toolsCancelled, i);
    }
    if i :| 0 <= i < |results| && results[i].cancelled {
      assert env.toolsCancelled || (env.outcomes(calls[i].id).Returned? && env.outcomes(calls[i].id).cancelled);
    }
    if i :| 0 <= i < |calls| && env.outcomes(calls[i].id).Returned? && env.outcomes(calls[i].id).cancelled {
      assert results[i].cancelled;
    }
  }

  lemma {:induction false} UntouchedAllowedIff(r: Run, calls: seq<Call>, decide: Call -> Behavior)
    requires Untouched(calls, CallStates(r.context), AnsweredIds(r.context))
    ensures AllAllowed(r.context, decide, calls) <==> AllAllow(calls, decide)
    ensures AnyAsk(r.context, decide, calls) <==> exists i :: 0 <= i < |calls| && decide(calls[i]) == Ask
  {
    hide AllAllowed, AnyAsk, Classify, Untouched;
    AllowedAndAsk(r.context, decide, calls);
    forall i | 0 <= i < |calls|
      ensures Classify(r.context, decide, calls[i]) == decide(calls[i])
    {
      Licence.UntouchedDecides(r, calls, decide, i);
    }
  }

  lemma {:induction false} AllowedAndAsk(context: seq<Msg>, decide: Call -> Behavior, calls: seq<Call>)
    ensures AllAllowed(context, decide, calls) <==> forall i :: 0 <= i < |calls| ==> Classify(context, decide, calls[i]) == Allow
    ensures AnyAsk(context, decide, calls) <==> exists i :: 0 <= i < |calls| && Classify(context, decide, calls[i]) == Ask
  {
    hide Classify;
    if calls != [] {
      var init := calls[..|calls| - 1];
      AllowedAndAsk(context, decide, init);
      if i :| 0 <= i < |init| && Classify(context, decide, init[i]) == Ask { assert Classify(context, decide, calls[i]) == Ask; }
      if i :| 0 <= i < |calls| && Classify(context, decide, calls[i]) == Ask { assert i < |init| ==> Classify(context, decide, init[i]) == Ask; }
      if forall i :: 0 <= i < |calls| ==> Classify(context, decide, calls[i]) == Allow {
        assert forall i :: 0 <= i < |init| ==> init[i] == calls[i];
      }
    }
  }

  /** A turn that asks the model ends the run only by a cancellation or a raising hook. */
  lemma {:induction false} AskedEnds(c: Config, r: Run, hint: Option<string>, env: Env)
    requires !r.status.Over?
    ensures var m := ReasonRound(c, r, hint, env); var status := m.run.status;
      && (status == Over(EndReason.Interrupted) <==>
            env.hook.HookCancelled? || (env.hook.HookMessages? && Retries.CancelledAtSome(c.read, c.maxRetries, env.attempts)))
      && (status == Over(Failure) <==> env.hook.HookRaised?)
      && (status.Over? ==> status.reason == EndReason.Interrupted || status.reason == Failure)
      && (m.phase.AtRest? <==> status.Over?)
      && m.run.emptyRetries == r.emptyRetries && m.run.inFinalization == r.inFinalization
  {
    hide Reason, AddRaws, Addressed, AppendReply, Snapshots, Retries.CancelledAtSome, FindReply, HasUser;
    var counted := r.(iteration := r.iteration + 1);
    if env.hook.HookMessages? {
      HostsKeep(counted, env.hook.messages);
      var ready := Rotate(AddRaws(counted, env.hook.messages), env.hook.messages);
      Retries.CancelledIff(c.read, hint, c.maxRetries, ready.nextId, env.attempts);
    }
  }

  lemma {:induction false} HostsKeep(r: Run, ms: seq<HostMsg>)
    ensures var s := AddRaws(r, ms);
      s.status == r.status && s.emptyRetries == r.emptyRetries && s.inFinalization == r.inFinalization
  {
    if ms != [] { HostsKeep(r, ms[..|ms| - 1]); }
  }

  /** A batch ends the run only by a cancellation, and pauses it exactly when a call is to be asked about and none runs. */
  lemma {:induction false} ActedEnds(r: Run, calls: seq<Call>, env: Env)
    requires !r.status.Over? && Untouched(calls, CallStates(r.context), AnsweredIds(r.context))
    ensures var m := ActRound(r, calls, env);
      && (m.run.status == Over(EndReason.Interrupted) <==> AllAllow(calls, env.decide) && ToolsStopped(calls, env))
      && (m.run.status.Over? ==> m.run.status.reason == EndReason.Interrupted)
      && (m.run.status.Over? ==> m.phase.AtRest?)
      && (m.phase.AtRest? && !m.run.status.Over? <==> exists i :: 0 <= i < |calls| && env.decide(calls[i]) == Ask)
      && (m.phase.AtRest? && !m.run.status.Over? ==> m.run.status == Paused)
      && m.run.emptyRetries == r.emptyRetries && m.run.inFinalization == r.inFinalization
  {
    hide Execute, HoldAsked, AllAllowed, AnyAsk, Untouched, CallStates, AnsweredIds, ToolsStopped;
    assert (exists i :: 0 <= i < |calls| && env.decide(calls[i]) == Ask) ==> !AllAllow(calls, env.decide);
    UntouchedAllowedIff(r, calls, env.decide);
    ExecuteCancelledIff(r, calls, env);
    Terminal.ExecuteGoesOn(r, calls, env);
    Terminal.HoldGoesOn(r, r.context, env.decide, calls);
    Termination.ExecuteCounts(r, calls, env);
    Termination.HoldCounts(r, r.context, env.decide, calls);
  }

  lemma {:induction false} ExitedEnds(r: Run, reason: EndReason, env: Env)
    requires !r.status.Over?
    ensures var m := ExitRound(r, reason, env);
      && (m.phase.AtRest? <==> m.run.status.Over?)
      && (m.run.status == Over(EndReason.Interrupted) <==> reason == EndReason.Interrupted || (reason == Completed && env.stop.StopCancelled?))
      && (m.run.status == Over(Failure) <==> reason == Failure || (reason == Completed && env.stop.StopRaised?))
      && (m.run.status == Over(ExceedMaxIters) <==> reason == ExceedMaxIters)
      && (m.run.status == Over(Completed) <==> reason == Completed && (env.stop.Stop? || (env.stop.Continue? && !Goes(r, env))))
      && m.run.emptyRetries == r.emptyRetries && m.run.inFinalization == r.inFinalization
  {
    hide AppendReply;
  }

  /** The run ends with a reason exactly when one of its causes comes up in the turn, and otherwise goes on or pauses. */
  ghost predicate EndsWithCause(c: Config, r: Run, prev: Option<TurnResult>, silences: nat, env: Env, after: Machine)
  {
    && (forall reason :: after.run.status == Over(reason) <==> Causes(c, r, prev, silences, env, reason))
    && (after.run.status.Over? ==> after.phase.AtRest?)
    && (after.phase.AtRest? && !after.run.status.Over? <==>
          Batch(prev) && exists i :: 0 <= i < |prev.value.calls| && env.decide(prev.value.calls[i]) == Ask)
  }

  lemma {:induction false} RoundEndsWithCause(c: Config, m: Machine, silences: nat, env: Env)
    requires m.phase.Loop? && Safe(m) && !m.run.status.Over? && Counts(m.run, silences)
    ensures var after := Round(c, m.run, m.phase.prev, env);
      && EndsWithCause(c, m.run, m.phase.prev, silences, env, after)
      && Counts(after.run, silences + if Silence(m.phase.prev) then 1 else 0)
  {
    hide Blank, ReasonRound, ActRound, ExitRound, Untouched, CallStates, AnsweredIds, AllAllow, ToolsStopped, UniqueCalls, SafeLog, LedgerSafe;
    var (action, decided) := Decide(c, m.run, m.phase.prev);
    match action
    case Reasoning(hint, _) => AskedEnds(c, decided, hint, env);
    case Acting(calls) => ActedEnds(decided, calls, env);
    case Exiting(reason) => ExitedEnds(decided, reason, env);
  }

  // ---------------------------------------------------------------------------
  // Answers
  // ---------------------------------------------------------------------------

  function Taken(r: Run, id: string, approved: bool, maxContinuations: nat): (Run, Acceptance)
  {
    Accept(r.(continuations := 0, maxContinuations := maxContinuations), id, approved)
  }

  /** The answer was the last one open, and running the approved calls was cancelled. */
  ghost predicate SettlementStopped(r: Run, id: string, approved: bool, maxContinuations: nat, env: Env)
  {
    var (at, acceptance) := Taken(r, id, approved, maxContinuations);
    var calls := Split(PendingCalls(at.context), true);
    acceptance.Complete? && calls != [] && ToolsStopped(calls, env)
  }

  lemma {:induction false} AnswerEnds(r: Run, id: string, approved: bool, maxContinuations: nat, env: Env)
    ensures var after := Answered(r, id, approved, maxContinuations, env);
      && (SettlementStopped(r, id, approved, maxContinuations, env) ==> after.phase.AtRest? && after.run.status == Over(Failure))
      && (!SettlementStopped(r, id, approved, maxContinuations, env) && after.run.status.Over? ==> after.run.status == r.status && after.phase.AtRest?)
      && (after.phase.Loop? ==> !after.run.status.Over?)
      && after.run.emptyRetries == r.emptyRetries && after.run.inFinalization == r.inFinalization
  {
    hide Accept, Execute, PutAllDenied, PendingCalls, Split, ToolsStopped;
    Terminal.AcceptSendsNothing(r.(continuations := 0, maxContinuations := maxContinuations), id, approved);
    Termination.AcceptCounts(r.(continuations := 0, maxContinuations := maxContinuations), id, approved);
    var at := Taken(r, id, approved, maxContinuations).0.(status := Active);
    Termination.ResumeCounts(at, env);
    Terminal.ResumeGoesOn(at, env);
    SettlingIsCancelledIff(at, env);
    SamePending(Taken(r, id, approved, maxContinuations).0, at);
  }

  lemma SamePending(a: Run, b: Run)
    requires a.context == b.context
    ensures PendingCalls(a.context) == PendingCalls(b.context)
  {
  }

  lemma {:induction false} SettlingIsCancelledIff(r: Run, env: Env)
    ensures var calls := Split(PendingCalls(r.context), true); Resume(r, env).1 <==> calls != [] && ToolsStopped(calls, env)
  {
    hide Execute, PutAllDenied, PendingCalls, Split, ToolsStopped;
    ExecuteCancelledIff(r, Split(PendingCalls(r.context), true), env);
  }

  // ---------------------------------------------------------------------------
  // Whole lives
  // ---------------------------------------------------------------------------

  /** An agent before its first input. */
  ghost predicate New(m: Machine)
  {
    && m.run.context == [] && m.run.log == [] && m.phase == AtRest && m.run.status == Idle
    && m.run.emptyRetries == 0 && !m.run.inFinalization
  }

  ghost predicate Underway(m: Machine, silences: nat)
  {
    (m.phase.Loop? ==> !m.run.status.Over?) && Counts(m.run, silences)
  }

  lemma {:induction false} StartUnderway(r: Run, ms: seq<HostMsg>, maxContinuations: nat)
    requires CallsInState(r.context, Asking) == []
    ensures Underway(Start(r, ms, maxContinuations), 0) && !Start(r, ms, maxContinuations).run.status.Over?
  {
    hide CallsInState, AddRaws;
    var reset := r.(status := Active, iteration := 0, emptyRetries := 0, inFinalization := false,
                    continuations := 0, maxContinuations := maxContinuations, requests := []);
    HostsKeep(reset, ms);
  }

  lemma {:induction false} AdvanceUnderway(c: Config, m: Machine, init: seq<Input>, input: Input)
    requires var now := Life(c, m, init); Safe(now) && Underway(now, Silences(c, m, init))
    ensures Underway(Advance(c, Life(c, m, init), input), Silences(c, m, init + [input]))
  {
    hide Safe, Life, Start, Answered, Round, Causes, CallsInState, Silence;
    var now := Life(c, m, init);
    assert (init + [input])[..|init|] == init;
    match input
    case StartReply(ms, max) =>
      if now.phase.AtRest? && CallsInState(now.run.context, Asking) == [] { StartUnderway(now.run, ms, max); }
      else if now.phase.AtRest? { RefusedStart(now.run, ms, max); }
    case Answer(id, approved, max, env) => if now.phase.AtRest? { AnswerEnds(now.run, id, approved, max, env); }
    case Turn(env) => if now.phase.Loop? { RoundEndsWithCause(c, now, Silences(c, m, init), env); }
  }

  lemma RefusedStart(r: Run, ms: seq<HostMsg>, maxContinuations: nat)
    requires CallsInState(r.context, Asking) != []
    ensures Start(r, ms, maxContinuations) == Machine(r, AtRest)
  {
  }

  lemma {:induction false} AlwaysUnderway(c: Config, m: Machine, inputs: seq<Input>)
    requires New(m) && FairLife(c, m, inputs)
    ensures Safe(Life(c, m, inputs)) && Underway(Life(c, m, inputs), Silences(c, m, inputs))
  {
    hide Safe, Fair, Advance, Silences;
    NewIsSafe(m);
    if inputs == [] {
      NoSilences(c, m);
    } else {
      var init, last := inputs[..|inputs| - 1], inputs[|inputs| - 1];
      AlwaysUnderway(c, m, init);
      AlwaysSafe(c, m, inputs);
      AdvanceUnderway(c, m, init, last);
      assert init + [last] == inputs;
    }
  }

  lemma NoSilences(c: Config, m: Machine)
    ensures Silences(c, m, []) == 0
  {
  }

  /**
   * In every fair life, a turn ends the run with a reason if and only if one of that reason's causes
   * comes up in it: Interrupted if the hook, the model's stream or a wait for it, the tools or the stop
   * hook were cancelled; Failure if the last turn failed, a fourth silence came up, or a hook raised;
   * Completed if the last turn was an answer and nothing goes on; ExceedMaxIters if the model would be
   * asked with no iteration left. It pauses if and only if a call of the batch in hand is to be asked about.
   */
  lemma {:induction false} TurnEndsIff(c: Config, m: Machine, inputs: seq<Input>, env: Env)
    requires New(m) && FairLife(c, m, inputs) && Life(c, m, inputs).phase.Loop?
    ensures var now := Life(c, m, inputs);
      EndsWithCause(c, now.run, now.phase.prev, Silences(c, m, inputs), env, Advance(c, now, Turn(env)))
  {
    hide Safe, Life, FairLife, Round, Silences, EndsWithCause, New;
    AlwaysUnderway(c, m, inputs);
    RoundEndsWithCause(c, Life(c, m, inputs), Silences(c, m, inputs), env);
  }

  /** Input `k` ended a run for this reason. */
  ghost predicate EndedBy(c: Config, m: Machine, inputs: seq<Input>, k: nat, reason: EndReason)
  {
    k < |inputs| &&
    var now := Life(c, m, inputs[..k]);
    match inputs[k]
    case StartReply(_, _) => false
    case Answer(id, approved, max, env) => now.phase.AtRest? && reason == Failure && SettlementStopped(now.run, id, approved, max, env)
    case Turn(env) => now.phase.Loop? && Causes(c, now.run, now.phase.prev, Silences(c, m, inputs[..k]), env, reason)
  }

  /** And since then no run has begun or ended. */
  ghost predicate LastEndedBy(c: Config, m: Machine, inputs: seq<Input>, k: nat, reason: EndReason)
  {
    EndedBy(c, m, inputs, k, reason) && forall j :: k < j <= |inputs| ==> Life(c, m, inputs[..j]).run.status == Over(reason)
  }

  lemma {:induction false} LastEndedStays(c: Config, m: Machine, init: seq<Input>, input: Input, k: nat, reason: EndReason)
    requires LastEndedBy(c, m, init, k, reason) && Life(c, m, init + [input]).run.status == Over(reason)
    ensures LastEndedBy(c, m, init + [input], k, reason)
  {
    hide Life, Causes, SettlementStopped, Silences;
    var inputs := init + [input];
    assert inputs[..k] == init[..k];
    forall j | k < j <= |inputs|
      ensures Life(c, m, inputs[..j]).run.status == Over(reason)
    {
      if j <= |init| { assert inputs[..j] == init[..j]; } else { assert inputs[..j] == inputs; }
    }
  }

  /** Unless a run ends now, one that was over has been over before. */
  lemma {:induction false} AdvanceEnds(c: Config, m: Machine, init: seq<Input>, input: Input, reason: EndReason)
    requires New(m) && FairLife(c, m, init)
    requires Advance(c, Life(c, m, init), input).run.status == Over(reason)
    ensures EndedBy(c, m, init + [input], |init|, reason) || Life(c, m, init).run.status == Over(reason)
  {
    hide Safe, Life, FairLife, Start, Answered, Round, Silences, Causes, SettlementStopped, CallsInState, New;
    var inputs, now := init + [input], Life(c, m, init);
    assert inputs[..|init|] == init;
    match input
    case StartReply(ms, max) =>
      if now.phase.AtRest? {
        if CallsInState(now.run.context, Asking) == [] { StartUnderway(now.run, ms, max); } else { RefusedStart(now.run, ms, max); }
      }
    case Answer(id, approved, max, env) => if now.phase.AtRest? { AnswerEnds(now.run, id, approved, max, env); }
    case Turn(env) => if now.phase.Loop? { TurnEndsIff(c, m, inputs[..|init|], env); }
  }

  /**
   * Whatever model, hooks, tools and user do: when a run of a fair life is over, one input ended it, and
   * that input brought a cause of just that reason.
   */
  lemma {:induction false} RunsEndForAReason(c: Config, m: Machine, inputs: seq<Input>, reason: EndReason) returns (k: nat)
    requires New(m) && FairLife(c, m, inputs) && Life(c, m, inputs).run.status == Over(reason)
    ensures LastEndedBy(c, m, inputs, k, reason)
  {
    hide Fair, Advance, EndedBy, Silences;
    var init, last := inputs[..|inputs| - 1], inputs[|inputs| - 1];
    assert init + [last] == inputs;
    AdvanceEnds(c, m, init, last, reason);
    if EndedBy(c, m, inputs, |init|, reason) {
      k := |init|;
      assert inputs[..|inputs|] == inputs;
    } else {
      k := RunsEndForAReason(c, m, init, reason);
      LastEndedStays(c, m, init, last, k, reason);
    }
  }

  // ---------------------------------------------------------------------------
  // What a turn adds when it does not end the run
  // ---------------------------------------------------------------------------

  /**
   * An answer that the stop hook wants continued, with continuations left: the hook's prompt goes into
   * the current reply as its last block and to the host as one event, and nothing else is written or sent.
   */
  lemma {:induction false} ContinuedWithPrompt(c: Config, m: Machine, env: Env, id: MsgId)
    requires m.phase.Loop? && Answer(m.phase.prev) && Goes(m.run, env)
    ensures var after := Advance(c, m, Turn(env)); var r, s := m.run, after.run;
      && after.phase == Loop(None) && s.status == r.status && s.continuations == r.continuations + 1
      && Projection.Live(s.context, id) == Projection.Live(r.context, id)
           + (if id == r.messageId then [HintBlock(r.nextId, env.stop.prompt)] else [])
      && s.sent == r.sent + [Sent(r.messageId, HintGiven(r.nextId, env.stop.prompt))]
      && s.log == r.log && s.requests == r.requests && s.messageId == r.messageId && s.nextId == r.nextId + 1
  {
    hide Blank, Projection.Live, AppendReply;
    Projection.LiveAppend(m.run.context, m.run.messageId, [HintBlock(m.run.nextId, env.stop.prompt)], id);
    assert Projection.Live(m.run.context, id) + [] == Projection.Live(m.run.context, id);
  }

  lemma {:induction false} AddressedFirst(to: MsgId, es: seq<Event>)
    requires es != []
    ensures |Addressed(to, es)| == |es| && Addressed(to, es)[0] == Sent(to, es[0])
  {
    if |es| > 1 { AddressedFirst(to, es[..|es| - 1]); }
  }

  /** What a turn that asks the model begins with: the prompt after the third silence, and otherwise the request itself. */
  ghost predicate BeginsWith(r: Run, after: Run, prompted: bool)
  {
    && |after.sent| > |r.sent| && after.sent[..|r.sent|] == r.sent && after.sent[|r.sent|].to == after.messageId
    && |after.requests| > |r.requests| && after.requests[..|r.requests|] == r.requests
    && var first, shown := after.sent[|r.sent|].event, Projection.Live(after.requests[|r.requests|], after.messageId);
    if prompted then
      first.HintGiven? && first.hint == FINALIZATION_PROMPT && shown != [] && shown[|shown| - 1] == HintBlock(first.blockId, FINALIZATION_PROMPT)
    else first == ModelCallStarted
  }

  lemma {:induction false} AskBegins(c: Config, r: Run, hint: Option<string>, env: Env)
    requires hint.Some? ==> hint.value == FINALIZATION_PROMPT
    ensures BeginsWith(r, AskModel(c, r, hint, env).run, hint.Some?)
  {
    hide Reason, AppendReply, FindReply, Projection.Live;
    Retries.HintComesFirst(c.read, hint, c.maxRetries, r.nextId, env.attempts);
    var d := Reason(c.read, hint, c.maxRetries, r.nextId, env.attempts);
    AddressedFirst(r.messageId, d.events);
    RequestLoss.SnapshotAt(r, d.snapshots, 0);
    if hint.Some? { Projection.LiveAppend(r.context, r.messageId, d.snapshots[0], r.messageId); }
  }

  lemma {:induction false} AskedBegins(c: Config, r: Run, hint: Option<string>, env: Env)
    requires env.hook.HookMessages? && (hint.Some? ==> hint.value == FINALIZATION_PROMPT)
    ensures BeginsWith(r, ReasonRound(c, r, hint, env).run, hint.Some?)
  {
    hide AskModel, AddRaws, FindReply, HasUser, BeginsWith;
    var counted := r.(iteration := r.iteration + 1);
    Terminal.HostsSendNothing(counted, env.hook.messages);
    var ready := Rotate(AddRaws(counted, env.hook.messages), env.hook.messages);
    AskBegins(c, ready, hint, env);
    SameBeginning(r, ready, AskModel(c, ready, hint, env).run, hint.Some?);
  }

  /** The model is asked to come to an end, without tools, exactly after the third silence. */
  lemma {:induction false} AskedWithPromptIff(c: Config, m: Machine, inputs: seq<Input>, env: Env)
    requires New(m) && FairLife(c, m, inputs) && Life(c, m, inputs).phase.Loop? && env.hook.HookMessages?
    requires var now := Life(c, m, inputs); Asks(c, now.run, now.phase.prev, Silences(c, m, inputs))
    ensures var now := Life(c, m, inputs); var prompted := Silence(now.phase.prev) && Silences(c, m, inputs) == 2;
      && BeginsWith(now.run, Advance(c, now, Turn(env)).run, prompted)
      && Decide(c, now.run, now.phase.prev).0.Reasoning? && (Decide(c, now.run, now.phase.prev).0.forceNoTools <==> prompted)
  {
    hide Safe, Life, FairLife, Silences, New, ReasonRound, Blank, BeginsWith;
    AlwaysUnderway(c, m, inputs);
    var now := Life(c, m, inputs);
    var (action, decided) := Decide(c, now.run, now.phase.prev);
    AskedBegins(c, decided, action.hint, env);
    SameBeginning(now.run, decided, ReasonRound(c, decided, action.hint, env).run, action.hint.Some?);
  }

  lemma SameBeginning(a: Run, b: Run, after: Run, prompted: bool)
    requires BeginsWith(b, after, prompted) && a.sent == b.sent && a.requests == b.requests
    ensures BeginsWith(a, after, prompted)
  {
  }
}
