/**
 * A host that folds the runner's events together with the answers its user gives: what it shows of a
 * call against the state the runner keeps.
 */
module HostAnswers {
  import opened Prelude
  import opened Messages
  import opened Events
  import opened Context
  import opened Ledger
  import opened Reasoning
  import opened Runner
  import opened Safety
  import opened AttemptFold
  import opened Projection
  import opened Showing
  import opened HostStates
  import opened CallLives
  import Endings
  import Terminal

  // ---------------------------------------------------------------------------
  // What a step sends
  // ---------------------------------------------------------------------------

  /** Between `a` and `b` confirmations were required for calls of `asked` alone, and none was answered. */
  ghost predicate Requires(a: Run, b: Run, asked: set<string>)
  {
    && a.sent <= b.sent
    && forall i :: |a.sent| <= i < |b.sent| ==> !b.sent[i].event.ConfirmAnswered? && (b.sent[i].event.ConfirmRequired? ==> b.sent[i].event.callId in asked)
  }

  lemma RequiresTrans(a: Run, b: Run, c: Run, asked: set<string>)
    requires Requires(a, b, asked) && Requires(b, c, asked)
    ensures Requires(a, c, asked)
  {
    forall i | |a.sent| <= i < |c.sent|
      ensures !c.sent[i].event.ConfirmAnswered? && (c.sent[i].event.ConfirmRequired? ==> c.sent[i].event.callId in asked)
    {
      if i < |b.sent| { assert c.sent[i] == b.sent[i]; }
    }
  }

  lemma SameSent(a: Run, b: Run, asked: set<string>)
    requires b.sent == a.sent
    ensures Requires(a, b, asked)
  {
  }

  lemma {:induction false} ResultRequires(r: Run, c: Call, result: ToolResult, asked: set<string>)
    ensures Requires(r, PutResult(r, c, result), asked)
  {
    hide AppendReply, SetState;
  }

  lemma {:induction false} ResultsRequire(r: Run, calls: seq<Call>, results: seq<ToolResult>, asked: set<string>)
    requires |calls| == |results|
    ensures Requires(r, PutResults(r, calls, results), asked)
  {
    hide PutResult, Requires;
    if calls == [] {
      SameSent(r, r, asked);
    } else {
      var n := |calls| - 1;
      ResultsRequire(r, calls[..n], results[..n], asked);
      var before := PutResults(r, calls[..n], results[..n]);
      ResultRequires(before, calls[n], results[n], asked);
      RequiresTrans(r, before, PutResult(before, calls[n], results[n]), asked);
    }
  }

  lemma {:induction false} HintsRequire(r: Run, hints: seq<string>, asked: set<string>)
    ensures Requires(r, PutHints(r, hints), asked)
  {
    hide AppendReply;
    if hints != [] {
      HintsRequire(r, hints[..|hints| - 1], asked);
      var before := PutHints(r, hints[..|hints| - 1]);
      RequiresTrans(r, before, PutHint(before, hints[|hints| - 1]), asked);
    }
  }

  lemma {:induction false} ExecuteRequires(r: Run, calls: seq<Call>, env: Env, asked: set<string>)
    ensures Requires(r, Execute(r, calls, env).0, asked)
  {
    hide Spawn, PutResults, PutHints, GatherAll, Requires, CallsInState, Executions;
    GatherLength(calls, env.outcomes, env.toolsCancelled);
    var results := GatherAll(calls, env.outcomes, env.toolsCancelled);
    var spawned := Spawn(r, calls);
    SpawnLogs(r, calls);
    SameSent(r, spawned, asked);
    var written := PutResults(spawned, calls, results);
    ResultsRequire(spawned, calls, results, asked);
    HintsRequire(written, HintsOf(results), asked);
    RequiresTrans(r, spawned, written, asked);
    RequiresTrans(r, written, PutHints(written, HintsOf(results)), asked);
  }

  lemma {:induction false} DenialsRequire(r: Run, calls: seq<Call>, asked: set<string>)
    ensures Requires(r, PutAllDenied(r, calls), asked)
  {
    hide AppendReply, SetState;
    if calls != [] {
      DenialsRequire(r, calls[..|calls| - 1], asked);
      var before := PutAllDenied(r, calls[..|calls| - 1]);
      RequiresTrans(r, before, PutDenied(before, calls[|calls| - 1]), asked);
    }
  }

  lemma {:induction false} ResumeRequires(r: Run, env: Env, asked: set<string>)
    ensures Requires(r, Resume(r, env).0, asked)
  {
    hide Execute, PutAllDenied, Requires, Split, PendingCalls;
    var pending := PendingCalls(r.context);
    var allowed, denied := Split(pending, true), Split(pending, false);
    ExecuteRequires(r, allowed, env, asked);
    SameSent(r, r, asked);
    var done := if allowed == [] then r else Execute(r, allowed, env).0;
    DenialsRequire(done, denied, asked);
    RequiresTrans(r, done, PutAllDenied(done, denied), asked);
  }

  lemma {:induction false} AnsweredRequires(r: Run, id: string, answer: bool, maxContinuations: nat, env: Env, asked: set<string>)
    ensures Requires(r, Answered(r, id, answer, maxContinuations, env).run, asked)
  {
    hide Accept, Resume;
    var ready := r.(continuations := 0, maxContinuations := maxContinuations);
    Terminal.AcceptSendsNothing(ready, id, answer);
    ResumeRequires(Accept(ready, id, answer).0.(status := Active), env, asked);
  }

  lemma {:induction false} AddressedRequires(r: Run, s: Run, es: seq<Event>, asked: set<string>)
    requires s.sent == r.sent + Addressed(r.messageId, es)
    requires forall i :: 0 <= i < |es| ==> !es[i].ConfirmAnswered? && (es[i].ConfirmRequired? ==> es[i].callId in asked)
    ensures Requires(r, s, asked)
  {
    hide Addressed;
    Terminal.AddressedAt(r.messageId, es);
  }

  lemma {:induction false} ReasonRequires(c: Config, r: Run, hint: Option<string>, env: Env, asked: set<string>)
    ensures Requires(r, ReasonRound(c, r, hint, env).run, asked)
  {
    hide Reason, AddRaws, Addressed, AppendReply, Snapshots, FindReply, HasUser, Announces, IdSet;
    var counted := r.(iteration := r.iteration + 1);
    match env.hook
    case HookMessages(ms) =>
      Terminal.HostsSendNothing(counted, ms);
      var ready := Rotate(AddRaws(counted, ms), ms);
      var d := Reason(c.read, hint, c.maxRetries, ready.nextId, env.attempts);
      ReasonSpeaks(c.read, hint, c.maxRetries, ready.nextId, env.attempts);
      AddressedRequires(ready, Reasoned(ready, d), d.events, asked);
    case _ =>
  }

  lemma {:induction false} QuestionsAsk(calls: seq<Call>, decide: Call -> Behavior)
    ensures forall i :: 0 <= i < |Questions(calls, decide)| ==>
      Questions(calls, decide)[i].ConfirmRequired? && Questions(calls, decide)[i].callId in AskedOf(calls, decide)
  {
    if calls != [] { QuestionsAsk(calls[..|calls| - 1], decide); }
  }

  lemma {:induction false} ActRequires(r: Run, calls: seq<Call>, env: Env)
    requires Untouched(calls, CallStates(r.context), AnsweredIds(r.context))
    ensures Requires(r, ActRound(r, calls, env).run, AskedOf(calls, env.decide))
  {
    hide Untouched, Execute, HoldAsked, AllAllowed, AnyAsk, Addressed, CallStates, AnsweredIds, Endings.AllAllow, Questions, AskedOf;
    if Endings.AllAllow(calls, env.decide) {
      Endings.UntouchedAllowedIff(r, calls, env.decide);
      ExecuteRequires(r, calls, env, AskedOf(calls, env.decide));
    } else {
      HeldBatchAsks(r, calls, env);
      QuestionsAsk(calls, env.decide);
      AddressedRequires(r, ActRound(r, calls, env).run, Questions(calls, env.decide), AskedOf(calls, env.decide));
    }
  }

  /** The calls an input asks about. */
  function AskedNow(m: Machine, input: Input): set<string>
  {
    if input.Turn? && m.phase.Loop? then AskedIn(m.phase.prev, input.env.decide) else {}
  }

  lemma {:induction false} RoundRequires(c: Config, m: Machine, env: Env)
    requires Safe(m) && m.phase.Loop?
    ensures Requires(m.run, Round(c, m.run, m.phase.prev, env).run, AskedIn(m.phase.prev, env.decide))
  {
    hide CallStates, AnsweredIds, UniqueCalls, SafeLog, LedgerSafe, NoneIs, ReasonRound, ActRound, Safe, Untouched, AskedOf, AppendReply;
    SafeMeans(m);
    var (action, decided) := Decide(c, m.run, m.phase.prev);
    match action
    case Reasoning(hint, _) => ReasonRequires(c, decided, hint, env, AskedIn(m.phase.prev, env.decide));
    case Acting(calls) => ActRequires(decided, calls, env);
    case Exiting(reason) =>
  }

  lemma {:induction false} AdvanceRequires(c: Config, m: Machine, input: Input)
    requires Safe(m)
    ensures Requires(m.run, Advance(c, m, input).run, AskedNow(m, input))
  {
    hide Safe, Answered, Round, AskedIn, CallsInState, AddRaws;
    match input
    case StartReply(ms, maxContinuations) =>
      Terminal.HostsSendNothing(m.run.(status := Active, iteration := 0, emptyRetries := 0, inFinalization := false,
                                       continuations := 0, maxContinuations := maxContinuations, requests := []), ms);
    case Answer(id, answer, maxContinuations, env) => AnsweredRequires(m.run, id, answer, maxContinuations, env, {});
    case Turn(env) => if m.phase.Loop? { RoundRequires(c, m, env); }
  }

  // ---------------------------------------------------------------------------
  // The host's own events
  // ---------------------------------------------------------------------------

  function Later(before: seq<Sent>, after: seq<Sent>): seq<Sent> { if |before| <= |after| then after[|before|..] else [] }

  /** The answer as the host folds it: into the message that holds the call, if the call was waiting. */
  function OwnAnswer(c: Config, m: Machine, init: seq<Input>, input: Input, id: MsgId): seq<Event>
  {
    var now := Life(c, m, init);
    if input.Answer? && now.phase.AtRest? && input.callId in WaitingIds(c, m, init) && HasCall(Live(now.run.context, id), input.callId)
    then [ConfirmAnswered(input.callId, input.approved)] else []
  }

  /** The events of one message as such a host folds them: each answer as it is given, then what the runner sends. */
  function HostEvents(c: Config, m: Machine, inputs: seq<Input>, id: MsgId): seq<Event>
  {
    if inputs == [] then []
    else
      var init, last := inputs[..|inputs| - 1], inputs[|inputs| - 1];
      HostEvents(c, m, init, id) + OwnAnswer(c, m, init, last, id) + SentTo(Later(Life(c, m, init).run.sent, Life(c, m, inputs).run.sent), id)
  }

  /** The state after the user's decision, where the runner's events alone leave the call asking. */
  function Over(state: Option<CallState>, refused: bool, approved: bool): Option<CallState>
  {
    if state != Some(Asking) then state
    else if refused then Some(CallState.Finished)
    else if approved then Some(Allowed)
    else state
  }

  /** The host's events tell what the runner's tell, with the decisions laid over. */
  ghost predicate Overlaid(own: seq<Event>, pure: seq<Event>, refused: set<string>, approved: set<string>, id: string)
  {
    && (ResultBegun(own, id) <==> ResultBegun(pure, id)) && ResultsTold(own) == ResultsTold(pure)
    && StateTold(own, id) == Over(StateTold(pure, id), id in refused, id in approved)
  }

  lemma {:induction false} OverlaidMore(own: seq<Event>, pure: seq<Event>, refused: set<string>, approved: set<string>, id: string, es: seq<Event>)
    requires Overlaid(own, pure, refused, approved, id)
    requires forall i :: 0 <= i < |es| ==> !es[i].ConfirmAnswered? && (es[i].ConfirmRequired? && es[i].callId == id ==> id !in refused && id !in approved)
    ensures Overlaid(own + es, pure + es, refused, approved, id)
  {
    hide ResultBegun, StateTold, ResultsTold;
    if es == [] {
      assert own + es == own && pure + es == pure;
    } else {
      var init, e := es[..|es| - 1], es[|es| - 1];
      assert forall i :: 0 <= i < |init| ==> init[i] == es[i];
      OverlaidMore(own, pure, refused, approved, id, init);
      assert own + es == (own + init) + [e] && pure + es == (pure + init) + [e];
      ToldSnoc(own + init, e, id);
      ToldSnoc(pure + init, e, id);
    }
  }

  lemma {:induction false} SentToSome(sent: seq<Sent>, id: MsgId, asked: set<string>)
    requires forall i :: 0 <= i < |sent| ==> !sent[i].event.ConfirmAnswered? && (sent[i].event.ConfirmRequired? ==> sent[i].event.callId in asked)
    ensures forall i :: 0 <= i < |SentTo(sent, id)| ==>
      !SentTo(sent, id)[i].ConfirmAnswered? && (SentTo(sent, id)[i].ConfirmRequired? ==> SentTo(sent, id)[i].callId in asked)
  {
    if sent != [] { SentToSome(sent[..|sent| - 1], id, asked); }
  }

  // ---------------------------------------------------------------------------
  // Whole lives
  // ---------------------------------------------------------------------------

  lemma {:induction false} SentLater(c: Config, m: Machine, input: Input, id: MsgId)
    requires Safe(m)
    ensures var more := Later(m.run.sent, Advance(c, m, input).run.sent);
      && SentTo(Advance(c, m, input).run.sent, id) == SentTo(m.run.sent, id) + SentTo(more, id)
      && forall i :: 0 <= i < |SentTo(more, id)| ==>
           !SentTo(more, id)[i].ConfirmAnswered? && (SentTo(more, id)[i].ConfirmRequired? ==> SentTo(more, id)[i].callId in AskedNow(m, input))
  {
    hide Safe, Advance, SentTo, AskedNow;
    AdvanceRequires(c, m, input);
    var before, after := m.run.sent, Advance(c, m, input).run.sent;
    var more := Later(before, after);
    assert after == before + more;
    SentToAppend(before, more, id);
    SentToSome(more, id, AskedNow(m, input));
  }

  /** What is asked about now has not been decided before. */
  lemma {:induction false} AskedUndecided(m: Machine, input: Input, waiting: set<string>, refused: set<string>, approved: set<string>, id: string)
    requires Safe(m) && DueRun(m.run, waiting, refused, approved) && id in AskedNow(m, input)
    ensures id !in refused && id !in approved
  {
    hide Safe, AskedOf, CallStates, AnsweredIds, UniqueCalls;
    SafeMeans(m);
    AskedAreCalls(m.phase.prev.value.calls, input.env.decide, id);
  }

  /** A call that waits shows as asking in the message that holds it, and in no other. */
  lemma {:induction false} WaitingTold(c: Config, m: Machine, inputs: seq<Input>, id: MsgId, call: string)
    requires m.run.context == [] && m.run.log == [] && m.run.requests == [] && m.run.sent == [] && m.phase == AtRest
    requires FairLife(c, m, inputs)
    ensures var told := StateTold(SentTo(Life(c, m, inputs).run.sent, id), call);
      && (!HasCall(RunnerView(c, m, inputs, id), call) ==> told != Some(Asking))
      && (HasCall(RunnerView(c, m, inputs, id), call) && call in WaitingIds(c, m, inputs) ==> told == Some(Asking))
  {
    hide Life, FairLife, Live, SentTo, AskedIds, WaitingIds, HasCall, StateTold, Folded, Shown, ResultIds, StateOf;
    HostShowsCalls(c, m, inputs, id, call);
    HostShowsWhatWaits(c, m, inputs, id, call);
    FoldShowsTold(c.read, SentTo(Life(c, m, inputs).run.sent, id), call);
    HostIsFold(c, m, inputs, id);
  }

  lemma HostIsFold(c: Config, m: Machine, inputs: seq<Input>, id: MsgId)
    ensures HostView(c, m, inputs, id) == Folded(c.read, SentTo(Life(c, m, inputs).run.sent, id)).content
  {
  }

  /** The host's own answer, laid over. */
  lemma {:induction false} AnswerOverlaid(own: seq<Event>, pure: seq<Event>, refused: set<string>, approved: set<string>, call: string, id: string, answer: bool)
    requires Overlaid(own, pure, refused, approved, id)
    requires id == call ==> StateTold(pure, id) == Some(Asking) && id !in refused && id !in approved
    ensures Overlaid(own + [ConfirmAnswered(call, answer)], pure, refused + (if answer then {} else {call}), approved + (if answer then {call} else {}), id)
  {
    hide ResultBegun, StateTold, ResultsTold;
    ToldSnoc(own, ConfirmAnswered(call, answer), id);
  }

  /** A decision about a call that does not ask in a message makes no difference there. */
  lemma NoAnswerOverlaid(own: seq<Event>, pure: seq<Event>, refused: set<string>, approved: set<string>, call: string, id: string, answer: bool)
    requires Overlaid(own, pure, refused, approved, id)
    requires id == call ==> StateTold(pure, id) != Some(Asking)
    ensures Overlaid(own, pure, refused + (if answer then {} else {call}), approved + (if answer then {call} else {}), id)
  {
    hide ResultBegun, StateTold, ResultsTold;
  }

  lemma {:induction false} InputOverlaid(c: Config, m: Machine, init: seq<Input>, input: Input, id: MsgId, call: string)
    requires m.run.context == [] && m.run.log == [] && m.run.requests == [] && m.run.sent == [] && m.phase == AtRest
    requires FairLife(c, m, init)
    requires var pure := SentTo(Life(c, m, init).run.sent, id);
      Overlaid(HostEvents(c, m, init, id), pure, DecidedIds(c, m, init, false), DecidedIds(c, m, init, true), call)
    ensures var pure, inputs := SentTo(Life(c, m, init).run.sent, id), init + [input];
      Overlaid(HostEvents(c, m, init, id) + OwnAnswer(c, m, init, input, id), pure, DecidedIds(c, m, inputs, false), DecidedIds(c, m, inputs, true), call)
  {
    hide Safe, Life, FairLife, Live, SentTo, HasCall, StateTold, Overlaid, HostEvents, WaitingIds, CallStates, AnsweredIds;
    var own, pure := HostEvents(c, m, init, id), SentTo(Life(c, m, init).run.sent, id);
    var refused, approved := DecidedIds(c, m, init, false), DecidedIds(c, m, init, true);
    assert (init + [input])[..|init|] == init;
    assert own + [] == own && refused + {} == refused && approved + {} == approved;
    if input.Answer? && Life(c, m, init).phase.AtRest? && input.callId in WaitingIds(c, m, init) {
      WaitingTold(c, m, init, id, input.callId);
      if HasCall(RunnerView(c, m, init, id), input.callId) {
        NewIsSafe(m);
        AlwaysDue(c, m, init);
        AnswerOverlaid(own, pure, refused, approved, input.callId, call, input.approved);
      } else {
        NoAnswerOverlaid(own, pure, refused, approved, input.callId, call, input.approved);
      }
    }
  }

  lemma {:induction false} LifeOverlaid(c: Config, m: Machine, inputs: seq<Input>, id: MsgId, call: string)
    requires m.run.context == [] && m.run.log == [] && m.run.requests == [] && m.run.sent == [] && m.phase == AtRest
    requires FairLife(c, m, inputs)
    ensures Overlaid(HostEvents(c, m, inputs, id), SentTo(Life(c, m, inputs).run.sent, id), DecidedIds(c, m, inputs, false), DecidedIds(c, m, inputs, true), call)
  {
    hide Safe, Overlaid, Advance, SentTo, OwnAnswer, Fair, Later, AskedNow, DueRun;
    if inputs == [] {
      NothingOverlaid(call, id);
    } else {
      var init, last := inputs[..|inputs| - 1], inputs[|inputs| - 1];
      assert init + [last] == inputs;
      LifeOverlaid(c, m, init, id, call);
      InputOverlaid(c, m, init, last, id, call);
      NewIsSafe(m);
      AlwaysSafe(c, m, init);
      AlwaysDue(c, m, init);
      var now := Life(c, m, init);
      SentLater(c, now, last, id);
      var refused, approved := DecidedIds(c, m, inputs, false), DecidedIds(c, m, inputs, true);
      if call in AskedNow(now, last) {
        AskedUndecided(now, last, WaitingIds(c, m, init), DecidedIds(c, m, init, false), DecidedIds(c, m, init, true), call);
        AskedIsTurn(now, last, call);
      }
      OverlaidMore(HostEvents(c, m, init, id) + OwnAnswer(c, m, init, last, id), SentTo(now.run.sent, id), refused, approved, call,
                   SentTo(Later(now.run.sent, Advance(c, now, last).run.sent), id));
    }
  }

  lemma AskedIsTurn(m: Machine, input: Input, id: string)
    requires id in AskedNow(m, input)
    ensures input.Turn?
  {
  }

  lemma NothingOverlaid(call: string, id: MsgId)
    ensures SentTo([], id) == [] && Overlaid([], [], {}, {}, call)
  {
  }

  /**
   * A host that folds the runner's events and its own answers: for every life of a new agent, message and
   * call written there, it shows the call finished once the message has its result, asking while it waits
   * for the user, finished or allowed once the user has refused or approved it, and pending otherwise. That
   * is the state the runner keeps if and only if the call has no result in another message, or was refused.
   */
  lemma {:induction false} HostWithAnswersShows(c: Config, m: Machine, inputs: seq<Input>, id: MsgId, call: string)
    requires m.run.context == [] && m.run.log == [] && m.run.requests == [] && m.run.sent == [] && m.phase == AtRest
    requires FairLife(c, m, inputs) && HasCall(RunnerView(c, m, inputs, id), call)
    ensures var shown, written, context :=
        Shown(Folded(c.read, HostEvents(c, m, inputs, id)).content, call), RunnerView(c, m, inputs, id), Life(c, m, inputs).run.context;
      && shown == Some(StateDue(ResultIds(written), WaitingIds(c, m, inputs), DecidedIds(c, m, inputs, false), DecidedIds(c, m, inputs, true), call))
      && (shown == StateOf(context, call) <==>
            call in ResultIds(written) || call !in AnsweredIds(context) || call in DecidedIds(c, m, inputs, false))
  {
    hide Safe, Life, FairLife, Live, SentTo, HasCall, StateTold, HostEvents, AskedIds, WaitingIds, DecidedIds, CallStates, AnsweredIds, ResultIds, Folded, Shown,
      StateOf, ResultsTold, ResultBegun, UniqueCalls;
    LifeOverlaid(c, m, inputs, id, call);
    FoldShowsTold(c.read, HostEvents(c, m, inputs, id), call);
    LifeMirrors(c, m, inputs, id);
    assert MirrorsCall(SentTo(Life(c, m, inputs).run.sent, id), RunnerView(c, m, inputs, id), AskedIds(c, m, inputs), call);
    NewIsSafe(m);
    AlwaysDue(c, m, inputs);
    AskedSplits(c, m, inputs, call);
    WrittenIsKnown(Life(c, m, inputs).run.context, id, call);
    CallStateIs(c, m, inputs, call);
    if call in ResultIds(RunnerView(c, m, inputs, id)) { LiveAnswered(Life(c, m, inputs).run.context, id, call); }
  }

  /** What was asked about waits or has been decided. */
  lemma {:induction false} AskedSplits(c: Config, m: Machine, inputs: seq<Input>, call: string)
    ensures call in AskedIds(c, m, inputs) <==>
      call in WaitingIds(c, m, inputs) || call in DecidedIds(c, m, inputs, false) || call in DecidedIds(c, m, inputs, true)
  {
    hide Life, AskedIn;
    if inputs != [] { AskedSplits(c, m, inputs[..|inputs| - 1], call); }
  }

  lemma {:induction false} WrittenIsKnown(context: seq<Msg>, id: MsgId, call: string)
    requires HasCall(Live(context, id), call)
    ensures call in CallStates(context)
  {
    hide FindReply, AllBlocks, HasCall, States;
    var i := FindReply(context, id);
    HasCallIff(Live(context, id), call);
    if i < |context| {
      assert context == context[..i] + [context[i]] + context[i + 1..];
      AllBlocksAppend(context[..i] + [context[i]], context[i + 1..]);
      AllBlocksAppend(context[..i], [context[i]]);
      AllBlocksOne(context[i]);
      StatesAppend(AllBlocks(context[..i]) + context[i].content, AllBlocks(context[i + 1..]));
      StatesAppend(AllBlocks(context[..i]), context[i].content);
    } else {
      NoCalls();
    }
  }
}
