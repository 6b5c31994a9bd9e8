/**
 * What the empty-answer retries are for: a reply that ends as completed ends with visible text, and one
 * that ends at the iteration limit has used up its iterations.
 */
module Completion {
  import opened Prelude
  import opened Messages
  import opened Normalize
  import opened Events
  import opened Context
  import opened Reasoning
  import opened Runner
  import Projection
  import Terminal

  /** The last block is a text with a visible character. */
  predicate EndsWithText(bs: seq<Block>)
  {
    bs != [] && bs[|bs| - 1].TextBlock? && !Blank(bs[|bs| - 1].text)
  }

  /** The turn is a final answer: no failure, no calls, visible text. */
  predicate FinalAnswer(result: TurnResult)
  {
    result.error == None && result.calls == [] && !Blank(result.text)
  }

  function CurrentReply(r: Run): seq<Block> { Projection.Live(r.context, r.messageId) }

  /** How a reply that is over was entitled to its end. */
  ghost predicate Earned(c: Config, r: Run)
  {
    && (r.status == Over(Completed) ==> EndsWithText(CurrentReply(r)))
    && (r.status == Over(ExceedMaxIters) ==> c.maxIterations.Some? && r.iteration >= c.maxIterations.value)
  }

  ghost predicate OnTrack(c: Config, m: Machine)
  {
    && (m.phase.Loop? ==> !m.run.status.Over?)
    && (m.phase.Loop? && m.phase.prev.Some? && FinalAnswer(m.phase.prev.value) ==> EndsWithText(CurrentReply(m.run)))
    && Earned(c, m.run)
  }

  lemma {:induction false} AttemptSpeaks(read: Reader, nextId: nat, input: AttemptInput)
    requires RunAttempt(read, nextId, input).end.Succeeded? && FinalAnswer(RunAttempt(read, nextId, input).end.result)
    ensures EndsWithText(RunAttempt(read, nextId, input).blocks)
  {
    hide Consume, AllObjects;
    var d := RunAttempt(read, nextId, input);
    assert CallBlocksOf(d.end.result.calls) == [];
    assert d.end.result.text != "";
  }

  lemma {:induction false} AttemptsSpeak(read: Reader, k: nat, max: nat, so: ReasonDone, inputs: nat -> AttemptInput)
    requires k < max
    ensures var d := RunAttempts(read, k, max, so, inputs);
      d.end.TurnDone? && FinalAnswer(d.end.result) ==> EndsWithText(d.blocks)
    decreases max - k
  {
    hide RunAttempt, FinalAnswer;
    var d := RunAttempt(read, so.nextId, inputs(k));
    match d.end
    case WasCancelled =>
    case Succeeded(result) => if FinalAnswer(result) { AttemptSpeaks(read, so.nextId, inputs(k)); }
    case FailedWith(error) =>
      NoAnswer(error);
      if ShouldRetry(error, inputs(k).advice, k == max - 1) {
        var retried := ReasonDone(so.events + d.events + [Retrying(error.code, k + 1)], so.blocks + d.blocks, d.nextId, TurnCancelled,
                                  so.snapshots + [so.blocks]);
        AttemptsSpeak(read, k + 1, max, retried, inputs);
      }
  }

  lemma NoAnswer(error: LLMError)
    ensures !FinalAnswer(ErrorResult(error))
  {
  }

  /** A final answer ends the current reply. */
  lemma {:induction false} AskModelOnTrack(c: Config, r: Run, hint: Option<string>, env: Env)
    requires !r.status.Over?
    ensures OnTrack(c, AskModel(c, r, hint, env))
  {
    hide RunAttempts, FinalAnswer, Blank, Projection.Live;
    var start := if hint.Some? then ReasonDone([HintGiven(r.nextId, hint.value)], [HintBlock(r.nextId, hint.value)], r.nextId + 1, TurnCancelled, [])
      else ReasonDone([], [], r.nextId, TurnCancelled, []);
    AttemptsSpeak(c.read, 0, 1 + c.maxRetries, start, env.attempts);
    var d := Reason(c.read, hint, c.maxRetries, r.nextId, env.attempts);
    Projection.LiveAppend(r.context, r.messageId, d.blocks, r.messageId);
  }

  lemma {:induction false} HostKeepsStatus(r: Run, ms: seq<HostMsg>)
    ensures AddRaws(r, ms).status == r.status
  {
    if ms != [] { HostKeepsStatus(r, ms[..|ms| - 1]); }
  }

  lemma {:induction false} ReasonOnTrack(c: Config, r: Run, hint: Option<string>, env: Env)
    requires !r.status.Over?
    ensures OnTrack(c, ReasonRound(c, r, hint, env))
  {
    hide AskModel, EndsWithText, FinalAnswer, AddRaws;
    var counted := r.(iteration := r.iteration + 1);
    if env.hook.HookMessages? {
      HostKeepsStatus(counted, env.hook.messages);
      AskModelOnTrack(c, Rotate(AddRaws(counted, env.hook.messages), env.hook.messages), hint, env);
    }
  }

  lemma {:induction false} ActOnTrack(c: Config, r: Run, calls: seq<Call>, env: Env)
    requires !r.status.Over?
    ensures OnTrack(c, ActRound(r, calls, env))
  {
    hide Execute, HoldAsked, AllAllowed, AnyAsk, EndsWithText, FinalAnswer;
    Terminal.ExecuteGoesOn(r, calls, env);
    Terminal.HoldGoesOn(r, r.context, env.decide, calls);
  }

  lemma {:induction false} ExitOnTrack(c: Config, r: Run, reason: EndReason, env: Env)
    requires !r.status.Over?
    requires reason == Completed ==> EndsWithText(CurrentReply(r))
    requires reason == ExceedMaxIters ==> c.maxIterations.Some? && r.iteration >= c.maxIterations.value
    ensures OnTrack(c, ExitRound(r, reason, env))
  {
    hide EndsWithText, FinalAnswer, AppendReply, Projection.Live;
  }

  lemma {:induction false} RoundOnTrack(c: Config, m: Machine, env: Env)
    requires OnTrack(c, m) && m.phase.Loop?
    ensures OnTrack(c, Round(c, m.run, m.phase.prev, env))
  {
    hide EndsWithText, ReasonRound, ActRound, ExitRound, Blank, Projection.Live;
    var (action, decided) := Decide(c, m.run, m.phase.prev);
    match action
    case Reasoning(hint, _) => ReasonOnTrack(c, decided, hint, env);
    case Acting(calls) => ActOnTrack(c, decided, calls, env);
    case Exiting(reason) => ExitOnTrack(c, decided, reason, env);
  }

  lemma {:induction false} TurnsOnTrack(c: Config, m: Machine, turns: seq<Input>)
    requires OnTrack(c, m) && Terminal.AllTurns(turns)
    ensures OnTrack(c, Life(c, m, turns))
  {
    hide OnTrack, Round;
    if turns != [] {
      var init, last := turns[..|turns| - 1], turns[|turns| - 1];
      TurnsOnTrack(c, m, init);
      if Life(c, m, init).phase.Loop? { RoundOnTrack(c, Life(c, m, init), last.env); }
    }
  }

  /**
   * Whatever model, hooks, tools and user do, a run that ends as completed leaves a reply whose last
   * block is visible text, and a run that ends at the iteration limit has made that many iterations.
   */
  lemma {:induction false} EndsAreEarned(c: Config, m: Machine, first: Input, turns: seq<Input>)
    requires m.phase.AtRest? && !first.Turn? && Terminal.AllTurns(turns)
    requires Advance(c, m, first).phase.Loop?
    ensures Earned(c, Life(c, Advance(c, m, first), turns).run)
  {
    hide Life, EndsWithText, Resume, Accept, AddRaws, FinalAnswer;
    BeginsFresh(c, m, first);
    TurnsOnTrack(c, Advance(c, m, first), turns);
  }

  lemma {:induction false} BeginsFresh(c: Config, m: Machine, first: Input)
    requires m.phase.AtRest? && !first.Turn? && Advance(c, m, first).phase.Loop?
    ensures OnTrack(c, Advance(c, m, first))
  {
    hide EndsWithText, Accept, Resume, AddRaws, FinalAnswer;
    match first
    case StartReply(ms, maxContinuations) =>
      var reset := m.run.(status := Active, iteration := 0, emptyRetries := 0, inFinalization := false,
                          continuations := 0, maxContinuations := maxContinuations, requests := []);
      HostKeepsStatus(reset, ms);
    case Answer(id, approved, maxContinuations, env) =>
      var (at, acceptance) := Accept(m.run.(continuations := 0, maxContinuations := maxContinuations), id, approved);
      Terminal.ResumeGoesOn(at.(status := Active), env);
  }
}
