/**
 * The life of a call in the runner's context, read off the inputs: its state at any time is decided by
 * whether it has a result, whether it was asked about, and what the user has answered.
 */
module CallLives {
  import opened Prelude
  import opened Messages
  import opened Events
  import opened Context
  import opened Ledger
  import opened Reasoning
  import opened Runner
  import opened Safety
  import opened HostStates
  import Confluence
  import Licence

  /** The calls that waited when the user answered them in this way. */
  function DecidedIds(c: Config, m: Machine, inputs: seq<Input>, approved: bool): set<string>
  {
    if inputs == [] then {}
    else
      var init := inputs[..|inputs| - 1];
      match inputs[|inputs| - 1]
      case Answer(id, answer, _, _) =>
        DecidedIds(c, m, init, approved)
        + if Life(c, m, init).phase.AtRest? && answer == approved && id in WaitingIds(c, m, init) then {id} else {}
      case _ => DecidedIds(c, m, init, approved)
  }

  /** What the inputs and the results say the state of a call is. */
  function StateDue(answered: set<string>, waiting: set<string>, refused: set<string>, approved: set<string>, id: string): CallState
  {
    if id in answered then CallState.Finished
    else if id in waiting then Asking
    else if id in refused then CallState.Finished
    else if id in approved then Allowed
    else Pending
  }

  ghost predicate Due(states: map<string, CallState>, answered: set<string>, waiting: set<string>, refused: set<string>, approved: set<string>)
  {
    && (forall id :: id in states ==> states[id] == StateDue(answered, waiting, refused, approved, id))
    && waiting <= states.Keys && refused <= states.Keys && approved <= states.Keys
    && waiting !! answered && waiting !! refused && waiting !! approved && refused !! approved
  }

  ghost predicate DueRun(r: Run, waiting: set<string>, refused: set<string>, approved: set<string>)
  {
    Due(CallStates(r.context), AnsweredIds(r.context), waiting, refused, approved)
  }

  // ---------------------------------------------------------------------------
  // Steps
  // ---------------------------------------------------------------------------

  lemma SettledDue(a: Run, b: Run, ids: set<string>, waiting: set<string>, refused: set<string>, approved: set<string>)
    requires DueRun(a, waiting, refused, approved) && Settled(a, b, ids) && waiting == {}
    ensures DueRun(b, waiting, refused, approved)
  {
    hide CallStates, AnsweredIds, UniqueCalls;
  }

  lemma WaitingAsks(r: Run, waiting: set<string>, refused: set<string>, approved: set<string>, id: string)
    requires DueRun(r, waiting, refused, approved) && id in waiting
    ensures !NoneIs(CallStates(r.context), Asking)
  {
    hide CallStates, AnsweredIds;
    assert CallStates(r.context)[id] == Asking;
  }

  lemma NoneWait(r: Run, waiting: set<string>, refused: set<string>, approved: set<string>)
    requires DueRun(r, waiting, refused, approved) && NoneIs(CallStates(r.context), Asking)
    ensures waiting == {}
  {
    hide DueRun, NoneIs;
    if id :| id in waiting {
      WaitingAsks(r, waiting, refused, approved, id);
      assert false;
    }
  }

  lemma SameLedgerDue(a: Run, b: Run, waiting: set<string>, refused: set<string>, approved: set<string>)
    requires DueRun(a, waiting, refused, approved) && SameLedger(a, b)
    ensures DueRun(b, waiting, refused, approved)
  {
    hide CallStates, AnsweredIds, UniqueCalls;
  }

  lemma {:induction false} AskModelDue(c: Config, r: Run, hint: Option<string>, env: Env, waiting: set<string>, refused: set<string>, approved: set<string>)
    requires DueRun(r, waiting, refused, approved) && UniqueCalls(r.context) && FreshTurn(r.context, AskModel(c, r, hint, env).phase)
    ensures DueRun(AskModel(c, r, hint, env).run, waiting, refused, approved)
  {
    hide CallStates, AnsweredIds, UniqueCalls, AppendReply, Reason, Addressed, Snapshots, Wrote, IdSet, Opened, DistinctIds;
    NoFreshCalls(UsedIds(r.context));
    var d := Reason(c.read, hint, c.maxRetries, r.nextId, env.attempts);
    ReasonWrote(c.read, hint, c.maxRetries, r.nextId, env.attempts);
    WroteLedger(d.blocks, CallsIn(d.end));
    OpenedIs(CallsIn(d.end));
    AppendLedger(r.context, r.messageId, d.blocks);
  }

  lemma {:induction false} ReasonRoundDue(c: Config, r: Run, hint: Option<string>, env: Env, waiting: set<string>, refused: set<string>, approved: set<string>)
    requires DueRun(r, waiting, refused, approved) && UniqueCalls(r.context)
    requires env.hook.HookMessages? ==> AllToolless(env.hook.messages)
    requires FreshTurn(r.context, ReasonRound(c, r, hint, env).phase)
    ensures DueRun(ReasonRound(c, r, hint, env).run, waiting, refused, approved)
  {
    hide CallStates, AnsweredIds, UniqueCalls, AskModel, AddRaws, FindReply, HasUser, AllToolless, FreshCalls, Due;
    var counted := r.(iteration := r.iteration + 1);
    match env.hook
    case HookMessages(ms) =>
      AddRawsLedger(counted, ms);
      var ready := Rotate(AddRaws(counted, ms), ms);
      AskModelDue(c, ready, hint, env, waiting, refused, approved);
    case _ =>
  }

  /** Holding a batch changes the states of the calls it asks about and no other. */
  lemma {:induction false} HoldStates(r: Run, asOf: seq<Msg>, decide: Call -> Behavior, calls: seq<Call>)
    requires forall i :: 0 <= i < |calls| ==> calls[i].id in CallStates(r.context) && Classify(asOf, decide, calls[i]) == decide(calls[i])
    ensures var s := HoldAsked(r, asOf, decide, calls);
      && CallStates(s.context).Keys == CallStates(r.context).Keys && AnsweredIds(s.context) == AnsweredIds(r.context)
      && forall id :: id in CallStates(r.context) ==>
           CallStates(s.context)[id] == if id in AskedOf(calls, decide) then Asking else CallStates(r.context)[id]
  {
    hide CallStates, AnsweredIds, Classify, SetState;
    if calls != [] {
      var init, c := calls[..|calls| - 1], calls[|calls| - 1];
      assert forall i :: 0 <= i < |init| ==> init[i] == calls[i];
      HoldStates(r, asOf, decide, init);
      MarkLedger(HoldAsked(r, asOf, decide, init).context, c.id, Asking);
    }
  }

  lemma {:induction false} ActDue(r: Run, calls: seq<Call>, env: Env, waiting: set<string>, refused: set<string>, approved: set<string>)
    requires SafeRun(r) && Quiet(CallStates(r.context)) && Untouched(calls, CallStates(r.context), AnsweredIds(r.context)) && DueRun(r, waiting, refused, approved)
    ensures DueRun(ActRound(r, calls, env).run, waiting + AskedOf(calls, env.decide), refused, approved)
  {
    hide CallStates, AnsweredIds, UniqueCalls, SafeLog, LedgerSafe, Execute, HoldAsked, AllAllowed, AnyAsk, Classify, DistinctIds, AskedOf, CallsInState, IdSet;
    NoneWait(r, waiting, refused, approved);
    forall i | 0 <= i < |calls|
      ensures Classify(r.context, env.decide, calls[i]) == env.decide(calls[i])
    {
      Licence.UntouchedDecides(r, calls, env.decide, i);
    }
    forall id
      ensures id in AskedOf(calls, env.decide) ==> id in CallStates(r.context) && CallStates(r.context)[id] == Pending && id !in AnsweredIds(r.context)
    {
      AskedAreCalls(calls, env.decide, id);
    }
    if AllAllowed(r.context, env.decide, calls) {
      forall i | 0 <= i < |calls|
        ensures env.decide(calls[i]) == Allow
      {
        Licence.AllAllowedEach(r.context, env.decide, calls, i);
      }
      AllAllowedAskNothing(calls, env.decide);
      assert waiting + AskedOf(calls, env.decide) == waiting;
      SpawnLogs(r, calls);
      ExecuteSettles(r, calls, env);
      SettledDue(Spawn(r, calls), Execute(r, calls, env).0, IdSet(calls), waiting, refused, approved);
    } else {
      HoldStates(r, r.context, env.decide, calls);
    }
  }

  lemma {:induction false} ExitDue(r: Run, reason: EndReason, env: Env, waiting: set<string>, refused: set<string>, approved: set<string>)
    requires UniqueCalls(r.context) && Quiet(CallStates(r.context)) && DueRun(r, waiting, refused, approved)
    ensures DueRun(ExitRound(r, reason, env).run, waiting, refused, approved)
  {
    hide CallStates, AnsweredIds, UniqueCalls, PutHint, Due;
    NoneWait(r, waiting, refused, approved);
    if env.stop.Continue? {
      var more := r.(continuations := r.continuations + 1);
      PutHintSettles(more, env.stop.prompt);
      SettledDue(more, PutHint(more, env.stop.prompt), {}, waiting, refused, approved);
    }
  }

  lemma {:induction false} RoundDue(c: Config, m: Machine, env: Env, waiting: set<string>, refused: set<string>, approved: set<string>)
    requires Safe(m) && m.phase.Loop? && Fair(c, m, Turn(env)) && DueRun(m.run, waiting, refused, approved)
    ensures DueRun(Round(c, m.run, m.phase.prev, env).run, waiting + AskedIn(m.phase.prev, env.decide), refused, approved)
  {
    hide CallStates, AnsweredIds, UniqueCalls, SafeLog, LedgerSafe, NoneIs, ReasonRound, ActRound, ExitRound, AllToolless, FreshCalls, UsedIds, Safe,
      Untouched, AskedOf, Due;
    SafeMeans(m);
    var (action, decided) := Decide(c, m.run, m.phase.prev);
    assert waiting + {} == waiting;
    match action
    case Reasoning(hint, _) => ReasonRoundDue(c, decided, hint, env, waiting, refused, approved);
    case Acting(calls) => ActDue(decided, calls, env, waiting, refused, approved);
    case Exiting(reason) => ExitDue(decided, reason, env, waiting, refused, approved);
  }

  lemma {:induction false} ResumeDue(r: Run, env: Env, waiting: set<string>, refused: set<string>, approved: set<string>)
    requires UniqueCalls(r.context) && NoneIs(CallStates(r.context), Asking) && DueRun(r, waiting, refused, approved)
    ensures DueRun(Resume(r, env).0, waiting, refused, approved)
  {
    hide CallStates, AnsweredIds, UniqueCalls, Execute, PutAllDenied, Unanswered, Split, IdSet, CallsInState, Due;
    NoneWait(r, waiting, refused, approved);
    var pending := PendingCalls(r.context);
    var allowed, denied := Split(pending, true), Split(pending, false);
    var done := if allowed == [] then r else Execute(r, allowed, env).0;
    if allowed != [] {
      SpawnLogs(r, allowed);
      ExecuteSettles(r, allowed, env);
      SettledDue(Spawn(r, allowed), done, IdSet(allowed), waiting, refused, approved);
    }
    PutAllDeniedSettles(done, denied);
    SettledDue(done, PutAllDenied(done, denied), IdSet(denied), waiting, refused, approved);
  }

  /** What an answer does to the calls that wait, are refused and are approved. */
  lemma {:induction false} AcceptDue(r: Run, id: string, answer: bool, waiting: set<string>, refused: set<string>, approved: set<string>)
    requires SafeRun(r) && DueRun(r, waiting, refused, approved)
    ensures var at := Accept(r, id, answer).0;
      DueRun(at, waiting - {id}, refused + (if id in waiting && !answer then {id} else {}), approved + (if id in waiting && answer then {id} else {}))
  {
    hide CallStates, AnsweredIds, UniqueCalls, SafeLog, WasExecuted, SetState, StateOf, Owner, CallsInState;
    StateOfLedger(r.context, id);
    MarkLedger(r.context, id, if answer then Allowed else CallState.Finished);
    assert refused + {} == refused && approved + {} == approved;
    if id !in waiting { assert waiting - {id} == waiting; }
  }

  lemma {:induction false} AnsweredDue(m: Machine, id: string, answer: bool, maxContinuations: nat, env: Env,
                                       waiting: set<string>, refused: set<string>, approved: set<string>)
    requires Safe(m) && m.phase.AtRest? && DueRun(m.run, waiting, refused, approved)
    ensures DueRun(Answered(m.run, id, answer, maxContinuations, env).run, waiting - {id},
                   refused + (if id in waiting && !answer then {id} else {}), approved + (if id in waiting && answer then {id} else {}))
  {
    hide CallStates, AnsweredIds, UniqueCalls, Accept, Resume, SafeLog, LedgerSafe, NoneIs, Due;
    var r := m.run.(continuations := 0, maxContinuations := maxContinuations);
    AcceptSafe(r, id, answer);
    AcceptDue(r, id, answer, waiting, refused, approved);
    var (at, acceptance) := Accept(r, id, answer);
    if acceptance.Complete? {
      ResumeDue(at.(status := Active), env, waiting - {id},
                refused + (if id in waiting && !answer then {id} else {}), approved + (if id in waiting && answer then {id} else {}));
    }
  }

  lemma {:induction false} StartDue(m: Machine, ms: seq<HostMsg>, maxContinuations: nat, waiting: set<string>, refused: set<string>, approved: set<string>)
    requires Safe(m) && AllToolless(ms) && DueRun(m.run, waiting, refused, approved)
    ensures DueRun(Start(m.run, ms, maxContinuations).run, waiting, refused, approved)
  {
    hide CallStates, AnsweredIds, UniqueCalls, AddRaws, CallsInState, AllToolless, SafeLog, LedgerSafe, NoneIs, Due;
    AddRawsLedger(m.run.(status := Active, iteration := 0, emptyRetries := 0, inFinalization := false,
                         continuations := 0, maxContinuations := maxContinuations, requests := []), ms);
  }

  // ---------------------------------------------------------------------------
  // Whole lives
  // ---------------------------------------------------------------------------

  lemma {:induction false} AlwaysDue(c: Config, m: Machine, inputs: seq<Input>)
    requires Safe(m) && m.run.context == [] && FairLife(c, m, inputs)
    ensures DueRun(Life(c, m, inputs).run, WaitingIds(c, m, inputs), DecidedIds(c, m, inputs, false), DecidedIds(c, m, inputs, true))
  {
    hide Safe, Round, Start, Answered, AskedIn, AllToolless, FreshTurn, DueRun;
    if inputs == [] {
      NothingDue(m.run);
    } else {
      var init, last := inputs[..|inputs| - 1], inputs[|inputs| - 1];
      AlwaysDue(c, m, init);
      AlwaysSafe(c, m, init);
      var now := Life(c, m, init);
      var waiting, refused, approved := WaitingIds(c, m, init), DecidedIds(c, m, init, false), DecidedIds(c, m, init, true);
      assert refused + {} == refused && approved + {} == approved && waiting + {} == waiting;
      match last
      case StartReply(ms, maxContinuations) => if now.phase.AtRest? { StartDue(now, ms, maxContinuations, waiting, refused, approved); }
      case Answer(id, answer, maxContinuations, env) =>
        if now.phase.AtRest? { AnsweredDue(now, id, answer, maxContinuations, env, waiting, refused, approved); }
      case Turn(env) => if now.phase.Loop? { RoundDue(c, now, env, waiting, refused, approved); }
    }
  }

  lemma NothingDue(r: Run)
    requires r.context == []
    ensures DueRun(r, {}, {}, {})
  {
    assert AllBlocks([]) == [];
    NoCalls();
  }

  /**
   * For every life of a new agent whose host writes no calls and whose providers reuse no call id: a call
   * of the context is finished once it has a result; before that it asks while it waits for the user, is
   * finished if the user refused it, allowed if the user approved it, and pending if it was never asked
   * about.
   */
  lemma {:induction false} CallStateIs(c: Config, m: Machine, inputs: seq<Input>, call: string)
    requires m.run.context == [] && m.run.log == [] && m.phase == AtRest
    requires FairLife(c, m, inputs) && call in CallStates(Life(c, m, inputs).run.context)
    ensures StateOf(Life(c, m, inputs).run.context, call) ==
      Some(if call in AnsweredIds(Life(c, m, inputs).run.context) then CallState.Finished
           else if call in WaitingIds(c, m, inputs) then Asking
           else if call in DecidedIds(c, m, inputs, false) then CallState.Finished
           else if call in DecidedIds(c, m, inputs, true) then Allowed
           else Pending)
  {
    hide Safe, Life, FairLife, WaitingIds, DecidedIds, CallStates, AnsweredIds, StateOf;
    NewIsSafe(m);
    AlwaysDue(c, m, inputs);
    StateOfLedger(Life(c, m, inputs).run.context, call);
  }
}
