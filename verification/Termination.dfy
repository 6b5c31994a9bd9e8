/** Every run ends or pauses, with real numeric bounds on turns, model calls and continuations. */
module Termination {
  import opened Prelude
  import opened Messages
  import opened Normalize
  import opened Events
  import opened Context
  import opened Reasoning
  import opened Runner
  import opened StreamChunks
  import opened BlockAssembly
  import Bracketing

  /** The two runs agree on everything that is counted. */
  predicate SameCounts(a: Run, b: Run)
  {
    && a.iteration == b.iteration && a.emptyRetries == b.emptyRetries && a.inFinalization == b.inFinalization
    && a.continuations == b.continuations && a.maxContinuations == b.maxContinuations && a.requests == b.requests
  }

  lemma {:induction false} AddRawsCounts(r: Run, ms: seq<HostMsg>)
    ensures SameCounts(r, AddRaws(r, ms))
  {
    if ms != [] { AddRawsCounts(r, ms[..|ms| - 1]); }
  }

  lemma {:induction false} PutHintsCounts(r: Run, hints: seq<string>)
    ensures SameCounts(r, PutHints(r, hints))
  {
    if hints != [] { PutHintsCounts(r, hints[..|hints| - 1]); }
  }

  lemma {:induction false} PutResultsCounts(r: Run, calls: seq<Call>, results: seq<ToolResult>)
    requires |calls| == |results|
    ensures SameCounts(r, PutResults(r, calls, results))
  {
    if calls != [] { PutResultsCounts(r, calls[..|calls| - 1], results[..|calls| - 1]); }
  }

  lemma {:induction false} SpawnCounts(r: Run, calls: seq<Call>)
    ensures SameCounts(r, Spawn(r, calls))
  {
    if calls != [] { SpawnCounts(r, calls[..|calls| - 1]); }
  }

  lemma {:induction false} ExecuteCounts(r: Run, calls: seq<Call>, env: Env)
    ensures SameCounts(r, Execute(r, calls, env).0)
  {
    GatherLength(calls, env.outcomes, env.toolsCancelled);
    var results := GatherAll(calls, env.outcomes, env.toolsCancelled);
    SpawnCounts(r, calls);
    PutResultsCounts(Spawn(r, calls), calls, results);
    PutHintsCounts(PutResults(Spawn(r, calls), calls, results), HintsOf(results));
  }

  lemma {:induction false} HoldCounts(r: Run, asOf: seq<Msg>, decide: Call -> Behavior, calls: seq<Call>)
    ensures SameCounts(r, HoldAsked(r, asOf, decide, calls))
  {
    if calls != [] { HoldCounts(r, asOf, decide, calls[..|calls| - 1]); }
  }

  lemma {:induction false} PutDeniedCounts(r: Run, calls: seq<Call>)
    ensures SameCounts(r, PutAllDenied(r, calls))
  {
    if calls != [] { PutDeniedCounts(r, calls[..|calls| - 1]); }
  }

  lemma {:induction false} ActCounts(r: Run, calls: seq<Call>, env: Env)
    ensures SameCounts(r, Act(r, calls, env).0)
  {
    ExecuteCounts(r, calls, env);
    HoldCounts(r, r.context, env.decide, calls);
  }

  lemma {:induction false} ResumeCounts(r: Run, env: Env)
    ensures SameCounts(r, Resume(r, env).0)
  {
    var pending := PendingCalls(r.context);
    ExecuteCounts(r, Split(pending, true), env);
    PutDeniedCounts(if Split(pending, true) == [] then r else Execute(r, Split(pending, true), env).0, Split(pending, false));
  }

  // ---------------------------------------------------------------------------
  // The bound
  // ---------------------------------------------------------------------------

  /** How many of the three turns granted for empty answers have been used. */
  function Spent(r: Run): nat { r.emptyRetries + if r.inFinalization then 1 else 0 }

  const GRACE: nat := MAX_EMPTY_RETRIES + 1

  /** The numeric bounds that hold in every reachable state. */
  ghost predicate Bounded(c: Config, r: Run)
  {
    && c.maxIterations.Some?
    && r.emptyRetries <= MAX_EMPTY_RETRIES && (r.inFinalization ==> r.emptyRetries == MAX_EMPTY_RETRIES)
    && r.iteration <= c.maxIterations.value + Spent(r)
    && |r.requests| <= r.iteration * (1 + c.maxRetries)
    && r.continuations <= r.maxContinuations
  }

  function Left(n: nat, r: Run): int
  {
    (if r.iteration < n then n - r.iteration else 0) + (GRACE - Spent(r))
  }

  /** How many more rounds a machine can make. */
  function Rank(n: nat, m: Machine): int
  {
    match m.phase
    case AtRest => 0
    case Loop(prev) => 1 + 2 * Left(n, m.run) + if prev.Some? then 1 else 0
  }

  lemma {:induction false} DecideBounded(c: Config, r: Run, prev: Option<TurnResult>)
    requires Bounded(c, r)
    ensures var (action, d) := Decide(c, r, prev);
      && d.requests == r.requests && d.continuations == r.continuations && d.maxContinuations == r.maxContinuations
      && d.iteration == r.iteration
      && d.emptyRetries <= MAX_EMPTY_RETRIES && (d.inFinalization ==> d.emptyRetries == MAX_EMPTY_RETRIES)
      && (action.Reasoning? ==> d.iteration + 1 <= c.maxIterations.value + Spent(d))
      && (action.Reasoning? && prev.Some? ==> Spent(d) == Spent(r) + 1)
      && (action.Reasoning? && prev == None ==> d == r && r.iteration < c.maxIterations.value)
      && (!action.Reasoning? ==> d == r)
      && (action.Acting? ==> prev.Some?)
      && (action.Exiting? && action.reason == Completed ==> prev.Some?)
  {
  }

  lemma {:induction false} SnapshotsLength(r: Run, snapshots: seq<seq<Block>>)
    ensures |Snapshots(r, snapshots)| == |snapshots|
  {
    if snapshots != [] { SnapshotsLength(r, snapshots[..|snapshots| - 1]); }
  }

  lemma {:induction false} CallsFit(asked: nat, used: nat, iteration: nat, per: nat)
    requires asked <= iteration * per && used <= per
    ensures asked + used <= (iteration + 1) * per
  {
  }

  /** `b` has made at most `n` more requests than `a`; nothing else counted differs. */
  predicate MoreRequests(a: Run, b: Run, n: nat)
  {
    SameCounts(a, b.(requests := a.requests)) && |b.requests| <= |a.requests| + n
  }

  lemma {:induction false} ReasonedCounts(c: Config, ready: Run, hint: Option<string>, attempts: nat -> AttemptInput)
    ensures var after := Reasoned(ready, Reason(c.read, hint, c.maxRetries, ready.nextId, attempts));
      MoreRequests(ready, after, 1 + c.maxRetries)
  {
    Bracketing.ReasoningSound(c.read, hint, c.maxRetries, ready.nextId, attempts);
    SnapshotsLength(ready, Reason(c.read, hint, c.maxRetries, ready.nextId, attempts).snapshots);
  }

  lemma {:induction false} AskModelCounts(c: Config, ready: Run, hint: Option<string>, env: Env)
    ensures MoreRequests(ready, AskModel(c, ready, hint, env).run, 1 + c.maxRetries)
  {
    ReasonedCounts(c, ready, hint, env.attempts);
  }

  /** A reasoning round counts one turn, adds at most `1 + maxRetries` requests, and touches no other count. */
  lemma {:induction false} ReasonCounts(c: Config, d: Run, hint: Option<string>, env: Env)
    ensures MoreRequests(d.(iteration := d.iteration + 1), ReasonRound(c, d, hint, env).run, 1 + c.maxRetries)
  {
    hide AskModel, AddRaws;
    if env.hook.HookMessages? {
      var counted := d.(iteration := d.iteration + 1);
      AddRawsCounts(counted, env.hook.messages);
      AskModelCounts(c, Rotate(AddRaws(counted, env.hook.messages), env.hook.messages), hint, env);
    }
  }

  lemma {:induction false} ReasonBounded(c: Config, d: Run, hint: Option<string>, env: Env)
    requires c.maxIterations.Some? && d.emptyRetries <= MAX_EMPTY_RETRIES && (d.inFinalization ==> d.emptyRetries == MAX_EMPTY_RETRIES)
    requires d.iteration + 1 <= c.maxIterations.value + Spent(d)
    requires |d.requests| <= d.iteration * (1 + c.maxRetries) && d.continuations <= d.maxContinuations
    ensures var r := ReasonRound(c, d, hint, env).run;
      Bounded(c, r) && r.iteration == d.iteration + 1 && Spent(r) == Spent(d)
  {
    hide ReasonRound;
    ReasonCounts(c, d, hint, env);
    CallsFit(|d.requests|, 1 + c.maxRetries, d.iteration, 1 + c.maxRetries);
  }

  lemma {:induction false} ReasonProgresses(c: Config, r: Run, prev: Option<TurnResult>, env: Env)
    requires Bounded(c, r) && Decide(c, r, prev).0.Reasoning?
    ensures var m := Round(c, r, prev, env);
      Bounded(c, m.run) && 0 <= Rank(c.maxIterations.value, m) < Rank(c.maxIterations.value, Machine(r, Loop(prev)))
  {
    DecideBounded(c, r, prev);
    var (action, d) := Decide(c, r, prev);
    ReasonBounded(c, d, action.hint, env);
    var after := ReasonRound(c, d, action.hint, env).run;
    assert Left(c.maxIterations.value, after) + 1 <= Left(c.maxIterations.value, r);
  }

  lemma {:induction false} CountsKeepBounds(c: Config, a: Run, b: Run)
    requires Bounded(c, a) && SameCounts(a, b)
    ensures Bounded(c, b) && Left(c.maxIterations.value, b) == Left(c.maxIterations.value, a) >= 0
  {
  }

  /** Acting leaves the counts alone, and is followed by a fresh turn or by rest. */
  lemma {:induction false} ActRoundCounts(r: Run, calls: seq<Call>, env: Env)
    ensures var m := ActRound(r, calls, env); SameCounts(r, m.run) && (m.phase.Loop? ==> m.phase.prev == None)
  {
    ActCounts(r, calls, env);
  }

  /** Exiting either ends the run or uses up one continuation. */
  lemma {:induction false} ExitRoundCounts(r: Run, reason: EndReason, env: Env)
    requires r.continuations <= r.maxContinuations
    ensures var m := ExitRound(r, reason, env);
      && SameCounts(r, m.run.(continuations := r.continuations)) && m.run.continuations <= m.run.maxContinuations
      && (m.phase.Loop? ==> m.phase.prev == None)
  {
  }

  /** Every round keeps the bounds and brings the end nearer. */
  lemma {:induction false} RoundProgresses(c: Config, r: Run, prev: Option<TurnResult>, env: Env)
    requires Bounded(c, r)
    ensures var m := Round(c, r, prev, env);
      Bounded(c, m.run) && 0 <= Rank(c.maxIterations.value, m) < Rank(c.maxIterations.value, Machine(r, Loop(prev)))
  {
    DecideBounded(c, r, prev);
    var (action, d) := Decide(c, r, prev);
    match action
    case Reasoning(_, _) => ReasonProgresses(c, r, prev, env);
    case Acting(calls) =>
      ActRoundCounts(r, calls, env);
      CountsKeepBounds(c, r, Round(c, r, prev, env).run);
    case Exiting(reason) =>
      ExitRoundCounts(r, reason, env);
      CountsKeepBounds(c, r, Round(c, r, prev, env).run.(continuations := r.continuations));
  }

  lemma {:induction false} StartCounts(c: Config, r: Run, ms: seq<HostMsg>, maxContinuations: nat)
    requires Bounded(c, r)
    ensures Bounded(c, Start(r, ms, maxContinuations).run)
  {
    var reset := r.(status := Active, iteration := 0, emptyRetries := 0, inFinalization := false,
                    continuations := 0, maxContinuations := maxContinuations, requests := []);
    AddRawsCounts(reset, ms);
  }

  lemma {:induction false} AcceptCounts(r: Run, id: string, approved: bool)
    ensures SameCounts(r, Accept(r, id, approved).0)
  {
  }

  lemma {:induction false} AnsweredCounts(c: Config, r: Run, id: string, approved: bool, maxContinuations: nat, env: Env)
    requires Bounded(c, r)
    ensures Bounded(c, Answered(r, id, approved, maxContinuations, env).run)
  {
    var ready := r.(continuations := 0, maxContinuations := maxContinuations);
    AcceptCounts(ready, id, approved);
    var at := Accept(ready, id, approved).0;
    ResumeCounts(at.(status := Active), env);
  }

  lemma {:induction false} AdvanceBounded(c: Config, m: Machine, input: Input)
    requires Bounded(c, m.run)
    ensures Bounded(c, Advance(c, m, input).run)
  {
    match input
    case StartReply(ms, maxContinuations) => StartCounts(c, m.run, ms, maxContinuations);
    case Answer(id, approved, maxContinuations, env) => AnsweredCounts(c, m.run, id, approved, maxContinuations, env);
    case Turn(env) =>
      if m.phase.Loop? { RoundProgresses(c, m.run, m.phase.prev, env); }
  }

  /**
   * The bounds in every reachable state: at most `maxIterations + 3` turns since the reply started,
   * at most that many times `1 + maxRetries` model calls, and no more continuations than allowed.
   */
  lemma {:induction false} AlwaysBounded(c: Config, m: Machine, inputs: seq<Input>)
    requires Bounded(c, m.run)
    ensures var r := Life(c, m, inputs).run;
      && Bounded(c, r)
      && r.iteration <= c.maxIterations.value + 3
      && |r.requests| <= (c.maxIterations.value + 3) * (1 + c.maxRetries)
      && r.continuations <= r.maxContinuations
  {
    if inputs != [] {
      AlwaysBounded(c, m, inputs[..|inputs| - 1]);
      AdvanceBounded(c, Life(c, m, inputs[..|inputs| - 1]), inputs[|inputs| - 1]);
    }
    var r := Life(c, m, inputs).run;
    Scale(r.iteration, c.maxIterations.value + 3, 1 + c.maxRetries);
  }

  lemma {:induction false} Scale(a: nat, b: nat, k: nat)
    requires a <= b
    ensures a * k <= b * k
  {
  }

  lemma {:induction false} RankFalls(c: Config, m: Machine, envs: seq<Env>)
    requires Bounded(c, m.run)
    ensures var after := Life(c, m, Turns(envs));
      && Bounded(c, after.run)
      && (after.phase.AtRest? || Rank(c.maxIterations.value, after) + |envs| <= Rank(c.maxIterations.value, m))
  {
    if envs != [] {
      var init := envs[..|envs| - 1];
      RankFalls(c, m, init);
      assert Turns(envs)[..|Turns(envs)| - 1] == Turns(init);
      var before := Life(c, m, Turns(init));
      if before.phase.Loop? { RoundProgresses(c, before.run, before.phase.prev, envs[|envs| - 1]); }
    }
  }

  /**
   * Termination: however the model, the hooks, the tools and the permission answers behave, a run
   * with `n` iterations allowed has ended or paused after at most `2 * n + 8` rounds.
   */
  lemma {:induction false} EveryRunEnds(c: Config, m: Machine, envs: seq<Env>)
    requires Bounded(c, m.run) && |envs| >= 2 * c.maxIterations.value + 8
    ensures Life(c, m, Turns(envs)).phase.AtRest?
  {
    RankFalls(c, m, envs);
    var after := Life(c, m, Turns(envs));
    assert Rank(c.maxIterations.value, m) <= 2 * c.maxIterations.value + 8;
  }

  // ---------------------------------------------------------------------------
  // The bound is reached
  // ---------------------------------------------------------------------------

  /** A host that adds nothing, a model that answers every request with these chunks, and tools that run and are allowed. */
  function Answering(chunks: seq<Chunk>): Env
  {
    Env(HookMessages([]), _ => AttemptInput(chunks, StreamDone, NoAdvice, Undisturbed),
        _ => Allow, _ => Returned("done", false, false, None), false, StopAnswer.Stop, false)
  }

  /** A model that finishes without saying anything. */
  const SILENT: Env := Answering([Chunk.Finish(FinishReason(FinishKind.Stop, "stop", None))])

  /** A model that asks for one call. */
  const WORKING: Env := Answering([BlockStart(0, ToolCall), BlockEnd(0, ToolBlockWire("id", "tool", "")),
                                   Chunk.Finish(FinishReason(FinishKind.ToolCalls, "tool_calls", None))])

  const SILENCE: TurnResult := TurnResult("", "", [], None)

  const WORK: TurnResult := TurnResult("", "", [Call("id", "tool", Some(NO_ARGUMENTS))], None)

  /** `n` times a turn that asks for a call, each with the turn that runs it. */
  function Worked(n: nat): seq<Env>
  {
    if n == 0 then [] else Worked(n - 1) + [WORKING, WORKING]
  }

  lemma {:induction false} SilentAttempt(read: Reader, nextId: nat, k: nat)
    ensures RunAttempt(read, nextId, SILENT.attempts(k)).end == Succeeded(SILENCE)
  {
    var c := Chunk.Finish(FinishReason(FinishKind.Stop, "stop", None));
    assert [c][..0] == [];
    assert Consume(read, NewAttempt(nextId), []) == (NewAttempt(nextId), None);
  }

  /** A tool block has been opened, and nothing else has happened. */
  function Opened(nextId: nat): Attempt
  {
    NewAttempt(nextId).(asm := Progress(map[0 := Fresh(ToolCall)], 1, map[], None, None, {0}))
  }

  /** The one call has ended, in the assembler and in the attempt. */
  ghost predicate Called(a: Attempt)
  {
    a.calls == WORK.calls && a.text == "" && a.reasoning == "" && a.kind == None && a.asm.pending == {} && a.asm.finish == None
  }

  lemma WorkOpens(read: Reader, nextId: nat)
    ensures OnChunk(read, NewAttempt(nextId), WORKING.attempts(0).chunks[0]) == (Opened(nextId), None)
  {
    assert map[][0 := Fresh(ToolCall)] == map[0 := Fresh(ToolCall)] && {} + {0} == {0};
  }

  lemma WorkEnds(read: Reader, nextId: nat)
    ensures var (a, error) := OnChunk(read, Opened(nextId), WORKING.attempts(0).chunks[1]); Called(a) && error == None
  {
  }

  lemma WorkFinishes(read: Reader, a: Attempt)
    requires Called(a)
    ensures var (b, error) := OnChunk(read, a, WORKING.attempts(0).chunks[2]);
      && error == None && b.calls == WORK.calls && b.text == "" && b.reasoning == "" && b.kind == Some(FinishKind.ToolCalls)
      && Verdict(b.asm) == None
  {
  }

  lemma WorkIsObjects()
    ensures AllObjects(WORK.calls) && CallBlocksOf([]) == []
  {
    assert WORK.calls[..0] == [];
  }

  lemma {:induction false} WorkingAttempt(read: Reader, nextId: nat)
    ensures RunAttempt(read, nextId, WORKING.attempts(0)).end == Succeeded(WORK)
  {
    hide OnChunk, AllObjects, CallBlocksOf, Spoken, Verdict;
    var cs := WORKING.attempts(0).chunks;
    assert cs[..3] == cs && cs[..3][..2] == cs[..2] && cs[..2][..1] == cs[..1] && cs[..1][..0] == [];
    assert Consume(read, NewAttempt(nextId), []) == (NewAttempt(nextId), None);
    WorkOpens(read, nextId);
    assert Consume(read, NewAttempt(nextId), cs[..1]) == (Opened(nextId), None);
    WorkEnds(read, nextId);
    var ended := OnChunk(read, Opened(nextId), cs[1]).0;
    assert Consume(read, NewAttempt(nextId), cs[..2]) == (ended, None);
    WorkFinishes(read, ended);
    WorkIsObjects();
  }

  /** A turn in which the model is asked and answers at once. */
  lemma {:induction false} AskedRound(c: Config, r: Run, hint: Option<string>, env: Env, result: TurnResult)
    requires env.hook == HookMessages([]) && forall nextId: nat :: RunAttempt(c.read, nextId, env.attempts(0)).end == Succeeded(result)
    ensures var m := ReasonRound(c, r, hint, env);
      && m.phase == Loop(Some(result)) && m.run.iteration == r.iteration + 1
      && m.run.emptyRetries == r.emptyRetries && m.run.inFinalization == r.inFinalization
  {
    hide RunAttempt, AddRaws, Addressed, AppendReply, Snapshots;
    var counted := r.(iteration := r.iteration + 1);
    AddRawsCounts(counted, []);
    var ready := Rotate(AddRaws(counted, []), []);
    var id := if hint.Some? then ready.nextId + 1 else ready.nextId;
    assert RunAttempt(c.read, id, env.attempts(0)).end == Succeeded(result);
  }

  lemma {:induction false} SilentRound(c: Config, r: Run, hint: Option<string>)
    ensures var m := ReasonRound(c, r, hint, SILENT);
      && m.phase == Loop(Some(SILENCE)) && m.run.iteration == r.iteration + 1
      && m.run.emptyRetries == r.emptyRetries && m.run.inFinalization == r.inFinalization
  {
    hide ReasonRound, RunAttempt;
    forall nextId: nat
      ensures RunAttempt(c.read, nextId, SILENT.attempts(0)).end == Succeeded(SILENCE)
    {
      SilentAttempt(c.read, nextId, 0);
    }
    AskedRound(c, r, hint, SILENT, SILENCE);
  }

  /** The model has just said nothing; `retries` of the turns granted for that are used up. */
  ghost predicate Silenced(m: Machine, iteration: nat, retries: nat)
  {
    m.phase == Loop(Some(SILENCE)) && m.run.iteration == iteration && m.run.emptyRetries == retries && !m.run.inFinalization
  }

  /** A silent turn after the first. */
  lemma {:induction false} SilentAgain(c: Config, m: Machine, iteration: nat, retries: nat)
    requires Silenced(m, iteration, retries) && retries <= MAX_EMPTY_RETRIES
    ensures var after := Advance(c, m, Turn(SILENT));
      after.run.iteration == iteration + 1 && (retries < MAX_EMPTY_RETRIES ==> Silenced(after, iteration + 1, retries + 1))
  {
    hide ReasonRound;
    if retries < MAX_EMPTY_RETRIES {
      SilentRound(c, m.run.(emptyRetries := retries + 1), None);
    } else {
      SilentRound(c, m.run.(inFinalization := true), Some(FINALIZATION_PROMPT));
    }
  }

  /** About to ask the model, with iterations left and no empty answer so far. */
  ghost predicate Underway(c: Config, m: Machine, iteration: nat)
  {
    && m.phase == Loop(None) && m.run.iteration == iteration && m.run.emptyRetries == 0 && !m.run.inFinalization
    && (c.maxIterations.Some? ==> iteration <= c.maxIterations.value)
  }

  lemma {:induction false} WorkingTurns(c: Config, m: Machine, iteration: nat)
    requires Underway(c, m, iteration) && (c.maxIterations.Some? ==> iteration < c.maxIterations.value)
    ensures Underway(c, Advance(c, Advance(c, m, Turn(WORKING)), Turn(WORKING)), iteration + 1)
  {
    hide ReasonRound, RunAttempt, Execute;
    forall nextId: nat
      ensures RunAttempt(c.read, nextId, WORKING.attempts(0)).end == Succeeded(WORK)
    {
      WorkingAttempt(c.read, nextId);
    }
    AskedRound(c, m.run, None, WORKING, WORK);
    var asked := Advance(c, m, Turn(WORKING));
    assert asked.phase == Loop(Some(WORK));
    RunsAll(asked.run);
    ActCounts(asked.run, WORK.calls, WORKING);
  }

  lemma {:induction false} RunsAll(r: Run)
    ensures Act(r, WORK.calls, WORKING).1 == ActDone
  {
    hide PutHints, PutResults, Spawn;
    var calls := WORK.calls;
    assert calls[..0] == [];
    assert AllAllowed(r.context, WORKING.decide, []);
    GatherLength(calls, WORKING.outcomes, false);
    var results := GatherAll(calls, WORKING.outcomes, false);
    assert GatherAll([], WORKING.outcomes, false) == [];
    assert results[0] == ToolResult("id", "done", false, false, None) && results[..0] == [];
    assert !AnyCancelled([]);
  }

  lemma {:induction false} FirstSilent(c: Config, m: Machine, iteration: nat)
    requires Underway(c, m, iteration) && (c.maxIterations.Some? ==> iteration < c.maxIterations.value)
    ensures Silenced(Advance(c, m, Turn(SILENT)), iteration + 1, 0)
  {
    hide ReasonRound;
    SilentRound(c, m.run, None);
  }

  lemma {:induction false} WorkedLife(c: Config, m: Machine, n: nat)
    requires Underway(c, m, 0) && (c.maxIterations.Some? ==> n <= c.maxIterations.value)
    ensures Underway(c, Life(c, m, Turns(Worked(n))), n)
  {
    hide Advance, Underway;
    if n > 0 {
      WorkedLife(c, m, n - 1);
      var before := Worked(n - 1);
      UnderwayAt(c, m, Life(c, m, Turns(before)), n - 1);
      WorkingTurns(c, Life(c, m, Turns(before)), n - 1);
      assert Worked(n) == (before + [WORKING]) + [WORKING];
      OneMoreTurn(c, m, before, WORKING);
      OneMoreTurn(c, m, before + [WORKING], WORKING);
    }
  }

  lemma UnderwayAt(c: Config, m: Machine, at: Machine, iteration: nat)
    requires Underway(c, at, iteration)
    ensures c.maxIterations.Some? ==> iteration <= c.maxIterations.value
  {
  }

  lemma OneMoreTurn(c: Config, m: Machine, envs: seq<Env>, env: Env)
    ensures Life(c, m, Turns(envs + [env])) == Advance(c, Life(c, m, Turns(envs)), Turn(env))
  {
    assert (envs + [env])[..|envs|] == envs;
    hide Advance;
    LifeSnoc(c, m, Turns(envs), Turn(env));
  }

  /** `k` more turns in which the model says nothing. */
  function Fallen(envs: seq<Env>, k: nat): seq<Env>
  {
    if k == 0 then envs else Fallen(envs, k - 1) + [SILENT]
  }

  lemma {:induction false} FallenLife(c: Config, m: Machine, envs: seq<Env>, iteration: nat, k: nat)
    requires Underway(c, Life(c, m, Turns(envs)), iteration) && (c.maxIterations.Some? ==> iteration < c.maxIterations.value)
    requires 1 <= k <= MAX_EMPTY_RETRIES + 1
    ensures Silenced(Life(c, m, Turns(Fallen(envs, k))), iteration + k, k - 1)
  {
    hide Turns, Advance, Life, Underway, Silenced;
    OneMoreTurn(c, m, Fallen(envs, k - 1), SILENT);
    if k == 1 {
      FirstSilent(c, Life(c, m, Turns(envs)), iteration);
    } else {
      FallenLife(c, m, envs, iteration, k - 1);
      SilentAgain(c, Life(c, m, Turns(Fallen(envs, k - 1))), iteration + k - 1, k - 2);
    }
  }

  lemma {:induction false} LastFallen(c: Config, m: Machine, envs: seq<Env>, iteration: nat)
    requires Underway(c, Life(c, m, Turns(envs)), iteration) && (c.maxIterations.Some? ==> iteration < c.maxIterations.value)
    ensures Life(c, m, Turns(Fallen(envs, MAX_EMPTY_RETRIES + 2))).run.iteration == iteration + MAX_EMPTY_RETRIES + 2
  {
    hide Turns, Advance, Life, Underway, Silenced;
    var before := Fallen(envs, MAX_EMPTY_RETRIES + 1);
    FallenLife(c, m, envs, iteration, MAX_EMPTY_RETRIES + 1);
    OneMoreTurn(c, m, before, SILENT);
    SilentAgain(c, Life(c, m, Turns(before)), iteration + MAX_EMPTY_RETRIES + 1, MAX_EMPTY_RETRIES);
  }

  /**
   * The extra three turns are real, however many iterations are allowed: a model that works in all of
   * them but the last, and falls silent then, is asked three times more.
   */
  lemma {:induction false} BoundIsReached(c: Config, r: Run, n: nat)
    requires c.maxIterations == Some(n) && n >= 1
    requires r.iteration == 0 && r.emptyRetries == 0 && !r.inFinalization
    ensures Life(c, Machine(r, Loop(None)), Turns(Fallen(Worked(n - 1), 4))).run.iteration == n + 3
  {
    hide Turns, Worked, Fallen, Life, Bounded;
    var m := Machine(r, Loop(None));
    WorkedLife(c, m, n - 1);
    LastFallen(c, m, Worked(n - 1), n - 1);
  }
}
