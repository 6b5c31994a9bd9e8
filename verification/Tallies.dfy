/**
 * The counters of a run, read off the inputs: how often the model was asked, how often the stop hook had
 * the run go on, and how often it may; and when a new reply is taken.
 */
module Tallies {
  import opened Prelude
  import opened Messages
  import opened Normalize
  import opened Events
  import opened Context
  import opened Ledger
  import opened Reasoning
  import opened Runner
  import opened Safety
  import opened Endings
  import Confluence
  import HostStates
  import Termination

  /** What has been counted since the last new reply; continuations are counted since the last answer, too. */
  datatype Tally = Tally(asked: nat, continued: nat, limit: nat)

  /** The model is asked: first while iterations are left, or once more after up to three silences. */
  predicate AsksAgain(c: Config, asked: nat, prev: Option<TurnResult>, silences: nat)
  {
    || (prev == None && (c.maxIterations == None || asked < c.maxIterations.value))
    || (Silence(prev) && silences < 3)
  }

  function TallyOf(c: Config, m: Machine, inputs: seq<Input>): Tally
  {
    if inputs == [] then Tally(m.run.iteration, m.run.continuations, m.run.maxContinuations)
    else
      var init := inputs[..|inputs| - 1];
      var now, t := Life(c, m, init), TallyOf(c, m, init);
      match inputs[|inputs| - 1]
      case StartReply(_, limit) => if now.phase.AtRest? && HostStates.WaitingIds(c, m, init) == {} then Tally(0, 0, limit) else t
      case Answer(_, _, limit, _) => if now.phase.AtRest? then Tally(t.asked, 0, limit) else t
      case Turn(env) =>
        if now.phase.AtRest? then t
        else
          var goesOn := Endings.Answer(now.phase.prev) && env.stop.Continue? && !env.cancellationSet && t.continued < t.limit;
          Tally(t.asked + (if AsksAgain(c, t.asked, now.phase.prev, Silences(c, m, init)) then 1 else 0),
                t.continued + (if goesOn then 1 else 0), t.limit)
  }

  ghost predicate Tallied(r: Run, t: Tally)
  {
    r.iteration == t.asked && r.continuations == t.continued && r.maxContinuations == t.limit
  }

  /** In every fair life: an agent at rest takes a new reply if and only if no call it asked about is unanswered. */
  lemma {:induction false} ReplyTakenIff(c: Config, m: Machine, inputs: seq<Input>, ms: seq<HostMsg>, maxContinuations: nat)
    requires m.run.context == [] && m.run.log == [] && m.phase == AtRest
    requires FairLife(c, m, inputs) && Life(c, m, inputs).phase.AtRest?
    ensures var now := Life(c, m, inputs);
      && (Advance(c, now, StartReply(ms, maxContinuations)).phase.Loop? <==> HostStates.WaitingIds(c, m, inputs) == {})
      && (HostStates.WaitingIds(c, m, inputs) != {} ==> Advance(c, now, StartReply(ms, maxContinuations)) == now)
      && (CallsInState(now.run.context, Asking) == [] <==> HostStates.WaitingIds(c, m, inputs) == {})
  {
    hide Safe, Life, FairLife, HostStates.WaitingIds, CallStates, AddRaws;
    NewIsSafe(m);
    AlwaysSafe(c, m, inputs);
    HostStates.WaitingAsk(c, m, inputs);
    var now := Life(c, m, inputs);
    StartRefusedIffAsking(now, ms, maxContinuations);
    NothingWaits(now);
  }

  lemma NothingWaits(m: Machine)
    requires Safe(m)
    ensures CallsInState(m.run.context, Asking) == [] <==> Confluence.AskingIds(m.run.context) == {}
    ensures NoneIs(CallStates(m.run.context), Asking) <==> Confluence.AskingIds(m.run.context) == {}
  {
    hide CallStates, AnsweredIds, UniqueCalls, SafeLog, LedgerSafe, PhaseSafe, CallsInState;
    NothingAsking(m.run.context);
    if NoneIs(CallStates(m.run.context), Asking) { HostStates.NothingAsks(m.run.context); } else {
      var id :| id in CallStates(m.run.context) && CallStates(m.run.context)[id] == Asking;
      assert id in Confluence.AskingIds(m.run.context);
    }
  }

  lemma {:induction false} StartTallies(r: Run, ms: seq<HostMsg>, maxContinuations: nat)
    requires CallsInState(r.context, Asking) == []
    ensures Tallied(Start(r, ms, maxContinuations).run, Tally(0, 0, maxContinuations))
  {
    hide CallsInState, AddRaws;
    Termination.AddRawsCounts(r.(status := Active, iteration := 0, emptyRetries := 0, inFinalization := false,
                                 continuations := 0, maxContinuations := maxContinuations, requests := []), ms);
  }

  lemma {:induction false} AnswerTallies(r: Run, id: string, approved: bool, maxContinuations: nat, env: Env, t: Tally)
    requires Tallied(r, t)
    ensures Tallied(Answered(r, id, approved, maxContinuations, env).run, Tally(t.asked, 0, maxContinuations))
  {
    hide Accept, Resume;
    var ready := r.(continuations := 0, maxContinuations := maxContinuations);
    Termination.AcceptCounts(ready, id, approved);
    Termination.ResumeCounts(Accept(ready, id, approved).0.(status := Active), env);
  }

  lemma {:induction false} ReasonTallies(c: Config, r: Run, hint: Option<string>, env: Env)
    ensures var s := ReasonRound(c, r, hint, env).run;
      s.iteration == r.iteration + 1 && s.continuations == r.continuations && s.maxContinuations == r.maxContinuations
  {
    hide ReasonRound;
    Termination.ReasonCounts(c, r, hint, env);
  }

  lemma {:induction false} RoundTallies(c: Config, m: Machine, env: Env, t: Tally, silences: nat)
    requires m.phase.Loop? && Tallied(m.run, t) && Counts(m.run, silences)
    ensures var goesOn := Endings.Answer(m.phase.prev) && env.stop.Continue? && !env.cancellationSet && t.continued < t.limit;
      Tallied(Round(c, m.run, m.phase.prev, env).run,
              Tally(t.asked + (if AsksAgain(c, t.asked, m.phase.prev, silences) then 1 else 0), t.continued + (if goesOn then 1 else 0), t.limit))
  {
    hide Blank, ReasonRound, ActRound, AppendReply;
    var (action, decided) := Decide(c, m.run, m.phase.prev);
    match action
    case Reasoning(hint, _) => ReasonTallies(c, decided, hint, env);
    case Acting(calls) => Termination.ActRoundCounts(decided, calls, env);
    case Exiting(reason) =>
  }

  /** The run's counters are what the inputs tell, at every time of every fair life. */
  lemma {:induction false} CountersAreTallied(c: Config, m: Machine, inputs: seq<Input>)
    requires New(m) && FairLife(c, m, inputs)
    ensures Tallied(Life(c, m, inputs).run, TallyOf(c, m, inputs))
  {
    hide Safe, Start, Answered, Round, Silence, AsksAgain, Counts, CallsInState, HostStates.WaitingIds, Silences, Endings.Answer, Fair, Tallied;
    if inputs == [] {
      NothingTallied(m);
    } else {
      var init, last := inputs[..|inputs| - 1], inputs[|inputs| - 1];
      CountersAreTallied(c, m, init);
      var now := Life(c, m, init);
      match last
      case StartReply(ms, limit) =>
        if now.phase.AtRest? {
          ReplyTakenIff(c, m, init, ms, limit);
          if CallsInState(now.run.context, Asking) == [] { StartTallies(now.run, ms, limit); } else { RefusedStart(now.run, ms, limit); }
        }
      case Answer(id, approved, limit, env) => if now.phase.AtRest? { AnswerTallies(now.run, id, approved, limit, env, TallyOf(c, m, init)); }
      case Turn(env) =>
        if now.phase.Loop? {
          AlwaysUnderway(c, m, init);
          RoundTallies(c, now, env, TallyOf(c, m, init), Silences(c, m, init));
        }
    }
  }

  lemma NothingTallied(m: Machine)
    ensures Tallied(m.run, Tally(m.run.iteration, m.run.continuations, m.run.maxContinuations))
  {
  }
}
