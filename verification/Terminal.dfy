/**
 * One terminal event: a run that was accepted sends exactly one end event, as its last event and with
 * the reason its status records, unless it pauses; then it sends none.
 */
module Terminal {
  import opened Prelude
  import opened Messages
  import opened Events
  import opened Context
  import opened Reasoning
  import opened AttemptFold
  import opened Agreement
  import opened Runner

  /** The event begins or ends a reply. */
  predicate Frames(e: Event) { e.ReplyStarted? || e.ReplyEnded? }

  /** `sent` is `before` and more events, none of which begins or ends a reply. */
  ghost predicate Onward(before: seq<Sent>, sent: seq<Sent>)
  {
    before <= sent && forall i :: |before| <= i < |sent| ==> !Frames(sent[i].event)
  }

  /** `b` is `a` with more events, none of which begins or ends a reply, and the same status. */
  ghost predicate GoesOn(a: Run, b: Run)
  {
    b.status == a.status && Onward(a.sent, b.sent)
  }

  lemma GoesOnTrans(a: Run, b: Run, c: Run)
    requires GoesOn(a, b) && GoesOn(b, c)
    ensures GoesOn(a, c)
  {
  }

  lemma {:induction false} ResultsGoOn(r: Run, calls: seq<Call>, results: seq<ToolResult>)
    requires |calls| == |results|
    ensures GoesOn(r, PutResults(r, calls, results))
  {
    hide AppendReply, SetState;
    if calls != [] {
      var n := |calls| - 1;
      ResultsGoOn(r, calls[..n], results[..n]);
      var before := PutResults(r, calls[..n], results[..n]);
      GoesOnTrans(r, before, PutResult(before, calls[n], results[n]));
    }
  }

  lemma {:induction false} HintsGoOn(r: Run, hints: seq<string>)
    ensures GoesOn(r, PutHints(r, hints))
  {
    hide AppendReply;
    if hints != [] {
      HintsGoOn(r, hints[..|hints| - 1]);
      var before := PutHints(r, hints[..|hints| - 1]);
      GoesOnTrans(r, before, PutHint(before, hints[|hints| - 1]));
    }
  }

  lemma {:induction false} SpawnGoesOn(r: Run, calls: seq<Call>)
    ensures GoesOn(r, Spawn(r, calls))
  {
    hide CallsInState;
    if calls != [] { SpawnGoesOn(r, calls[..|calls| - 1]); }
  }

  lemma {:induction false} ExecuteGoesOn(r: Run, calls: seq<Call>, env: Env)
    ensures GoesOn(r, Execute(r, calls, env).0)
  {
    hide Spawn, PutResults, PutHints, GatherAll, GoesOn;
    GatherLength(calls, env.outcomes, env.toolsCancelled);
    var results := GatherAll(calls, env.outcomes, env.toolsCancelled);
    var spawned := Spawn(r, calls);
    SpawnGoesOn(r, calls);
    ResultsGoOn(spawned, calls, results);
    HintsGoOn(PutResults(spawned, calls, results), HintsOf(results));
    GoesOnTrans(r, spawned, PutResults(spawned, calls, results));
    GoesOnTrans(r, PutResults(spawned, calls, results), PutHints(PutResults(spawned, calls, results), HintsOf(results)));
  }

  lemma {:induction false} HoldGoesOn(r: Run, asOf: seq<Msg>, decide: Call -> Behavior, calls: seq<Call>)
    ensures GoesOn(r, HoldAsked(r, asOf, decide, calls))
  {
    hide Classify, SetState;
    if calls != [] {
      var c := calls[|calls| - 1];
      HoldGoesOn(r, asOf, decide, calls[..|calls| - 1]);
      var before := HoldAsked(r, asOf, decide, calls[..|calls| - 1]);
      GoesOnTrans(r, before, Emit(Mark(before, c.id, Asking), ConfirmRequired(c.id, c.name)));
    }
  }

  lemma {:induction false} DeniedGoesOn(r: Run, calls: seq<Call>)
    ensures GoesOn(r, PutAllDenied(r, calls))
  {
    hide AppendReply, SetState;
    if calls != [] {
      DeniedGoesOn(r, calls[..|calls| - 1]);
      var before := PutAllDenied(r, calls[..|calls| - 1]);
      GoesOnTrans(r, before, PutDenied(before, calls[|calls| - 1]));
    }
  }

  lemma {:induction false} AddRawsGoOn(r: Run, ms: seq<HostMsg>)
    ensures GoesOn(r, AddRaws(r, ms))
  {
    hide KnownId;
    if ms != [] { AddRawsGoOn(r, ms[..|ms| - 1]); }
  }

  // ---------------------------------------------------------------------------
  // Reasoning
  // ---------------------------------------------------------------------------

  ghost predicate NoFrame(es: seq<Event>)
  {
    forall i :: 0 <= i < |es| ==> !Frames(es[i])
  }

  lemma {:induction false} AttemptNoFrame(read: Reader, nextId: nat, input: AttemptInput)
    ensures NoFrame(RunAttempt(read, nextId, input).events)
  {
    hide RunAttempt, Concluded, Local, Spoke, Lists, EndsRead, Parsed;
    ConcludedIs(read, nextId, input);
    ConcludedTracked(read, nextId, input);
    var a := Concluded(read, nextId, input).0;
    LocalSpeech(a.events, nextId, a.nextId);
    forall i | 0 <= i < |a.events|
      ensures !Frames(a.events[i])
    {
      assert Speech(a.events[i]);
    }
  }

  lemma {:induction false} AttemptsNoFrame(read: Reader, k: nat, max: nat, so: ReasonDone, inputs: nat -> AttemptInput)
    requires k < max && NoFrame(so.events)
    ensures NoFrame(RunAttempts(read, k, max, so, inputs).events)
    decreases max - k
  {
    hide RunAttempt, Unretryable;
    var d := RunAttempt(read, so.nextId, inputs(k));
    AttemptNoFrame(read, so.nextId, inputs(k));
    if d.end.FailedWith? && inputs(k).waiting == Undisturbed && ShouldRetry(d.end.error, inputs(k).advice, k == max - 1) {
      var now := ReasonDone(so.events + d.events, so.blocks + d.blocks, d.nextId, TurnCancelled, so.snapshots + [so.blocks]);
      AttemptsNoFrame(read, k + 1, max, now.(events := now.events + [Retrying(d.end.error.code, k + 1)]), inputs);
    }
  }

  lemma {:induction false} ReasonNoFrame(read: Reader, hint: Option<string>, maxRetries: nat, nextId: nat, inputs: nat -> AttemptInput)
    ensures NoFrame(Reason(read, hint, maxRetries, nextId, inputs).events)
  {
    hide RunAttempts;
    var start :=
      if hint.Some? then ReasonDone([HintGiven(nextId, hint.value)], [HintBlock(nextId, hint.value)], nextId + 1, TurnCancelled, [])
      else ReasonDone([], [], nextId, TurnCancelled, []);
    AttemptsNoFrame(read, 0, 1 + maxRetries, start, inputs);
  }

  lemma {:induction false} AddressedAt(to: MsgId, es: seq<Event>)
    ensures |Addressed(to, es)| == |es|
    ensures forall i :: 0 <= i < |es| ==> Addressed(to, es)[i].event == es[i]
  {
    if es != [] { AddressedAt(to, es[..|es| - 1]); }
  }

  lemma {:induction false} ReasonedGoesOn(r: Run, d: ReasonDone)
    requires NoFrame(d.events)
    ensures GoesOn(r, Reasoned(r, d))
  {
    hide AppendReply, Snapshots;
    AddressedAt(r.messageId, d.events);
  }

  // ---------------------------------------------------------------------------
  // Rounds
  // ---------------------------------------------------------------------------

  /**
   * A run that began when `from` had been sent: while it goes on it is active and has sent no end; at
   * rest it is paused without an end, or over with the one end event that says so, as its last. No
   * other reply has begun since.
   */
  ghost predicate EndsOnce(m: Machine, from: seq<Sent>)
  {
    var sent, status := m.run.sent, m.run.status;
    && (m.phase.Loop? ==> status == Active && Onward(from, sent))
    && (m.phase.AtRest? ==>
          || (status == Paused && Onward(from, sent))
          || (status.Over? && sent != [] && Onward(from, sent[..|sent| - 1]) && sent[|sent| - 1].event == ReplyEnded(status.reason)))
  }

  lemma FinishEnds(r: Run, reason: EndReason, from: seq<Sent>)
    requires Onward(from, r.sent)
    ensures EndsOnce(Machine(Finish(r, reason), AtRest), from)
  {
    var s := Finish(r, reason);
    assert s.sent[..|s.sent| - 1] == r.sent;
  }

  lemma GoneOn(a: Run, b: Run, from: seq<Sent>)
    requires Onward(from, a.sent) && GoesOn(a, b)
    ensures Onward(from, b.sent)
  {
    forall i | |from| <= i < |b.sent|
      ensures !Frames(b.sent[i].event)
    {
      assert i < |a.sent| ==> b.sent[i] == a.sent[i];
    }
  }

  lemma {:induction false} ReasonRoundEnds(c: Config, r: Run, hint: Option<string>, env: Env, from: seq<Sent>)
    requires Onward(from, r.sent) && r.status == Active
    ensures EndsOnce(ReasonRound(c, r, hint, env), from)
  {
    hide Onward, EndsOnce, GoesOn, Reason, Reasoned, AddRaws, Finish, FindReply, HasUser, NoFrame;
    var counted := r.(iteration := r.iteration + 1);
    match env.hook
    case HookCancelled => FinishEnds(counted, EndReason.Interrupted, from);
    case HookRaised => FinishEnds(counted, Failure, from);
    case HookMessages(ms) =>
      AddRawsGoOn(counted, ms);
      var ready := Rotate(AddRaws(counted, ms), ms);
      GoneOn(counted, AddRaws(counted, ms), from);
      var d := Reason(c.read, hint, c.maxRetries, ready.nextId, env.attempts);
      ReasonNoFrame(c.read, hint, c.maxRetries, ready.nextId, env.attempts);
      ReasonedGoesOn(ready, d);
      SameStatus(counted, AddRaws(counted, ms));
      SameStatus(ready, Reasoned(ready, d));
      GoneOn(ready, Reasoned(ready, d), from);
      match d.end
      case TurnDone(result) => StillGoing(Reasoned(ready, d), Some(result), from);
      case TurnCancelled => FinishEnds(Reasoned(ready, d), EndReason.Interrupted, from);
  }

  lemma SameStatus(a: Run, b: Run)
    requires GoesOn(a, b)
    ensures b.status == a.status
  {
  }

  lemma StillGoing(r: Run, prev: Option<TurnResult>, from: seq<Sent>)
    requires Onward(from, r.sent) && r.status == Active
    ensures EndsOnce(Machine(r, Loop(prev)), from)
  {
  }

  lemma PausedEnds(r: Run, from: seq<Sent>)
    requires Onward(from, r.sent)
    ensures EndsOnce(Machine(r.(status := Paused), AtRest), from)
  {
  }

  lemma {:induction false} ActRoundEnds(r: Run, calls: seq<Call>, env: Env, from: seq<Sent>)
    requires Onward(from, r.sent) && r.status == Active
    ensures EndsOnce(ActRound(r, calls, env), from)
  {
    hide Onward, EndsOnce, GoesOn, Execute, HoldAsked, AllAllowed, AnyAsk, Finish;
    ExecuteGoesOn(r, calls, env);
    HoldGoesOn(r, r.context, env.decide, calls);
    var after := Act(r, calls, env).0;
    GoneOn(r, after, from);
    SameStatus(r, after);
    FinishEnds(after, EndReason.Interrupted, from);
    PausedEnds(after, from);
    StillGoing(after, None, from);
  }

  lemma {:induction false} ExitRoundEnds(r: Run, reason: EndReason, env: Env, from: seq<Sent>)
    requires Onward(from, r.sent) && r.status == Active
    ensures EndsOnce(ExitRound(r, reason, env), from)
  {
    hide Onward, EndsOnce, Finish, AppendReply;
    FinishEnds(r, reason, from);
    FinishEnds(r, EndReason.Interrupted, from);
    FinishEnds(r, Failure, from);
    if env.stop.Continue? {
      var more := r.(continuations := r.continuations + 1);
      OneMore(more, env.stop.prompt, from);
      StillGoing(PutHint(more, env.stop.prompt), None, from);
    }
  }

  lemma OneMore(r: Run, hint: string, from: seq<Sent>)
    requires Onward(from, r.sent)
    ensures Onward(from, PutHint(r, hint).sent) && PutHint(r, hint).status == r.status
  {
    hide AppendReply;
  }

  lemma {:induction false} RoundEnds(c: Config, m: Machine, env: Env, from: seq<Sent>)
    requires m.phase.Loop? && EndsOnce(m, from)
    ensures EndsOnce(Round(c, m.run, m.phase.prev, env), from)
  {
    hide Onward, ReasonRound, ActRound, ExitRound;
    var (action, decided) := Decide(c, m.run, m.phase.prev);
    assert decided.sent == m.run.sent && decided.status == m.run.status;
    match action
    case Reasoning(hint, _) => ReasonRoundEnds(c, decided, hint, env, from);
    case Acting(calls) => ActRoundEnds(decided, calls, env, from);
    case Exiting(reason) => ExitRoundEnds(decided, reason, env, from);
  }

  // ---------------------------------------------------------------------------
  // Whole runs
  // ---------------------------------------------------------------------------

  /** A new reply is refused and changes nothing, or it begins a run with one event that says so. */
  lemma {:induction false} StartBegins(r: Run, ms: seq<HostMsg>, maxContinuations: nat)
    ensures var m := Start(r, ms, maxContinuations);
      m == Machine(r, AtRest) || (m.phase.Loop? && EndsOnce(m, r.sent + [Sent(m.run.messageId, ReplyStarted)]))
  {
    hide CallsInState, AddRaws;
    var reset := r.(status := Active, iteration := 0, emptyRetries := 0, inFinalization := false,
                    continuations := 0, maxContinuations := maxContinuations, requests := []);
    AddRawsGoOn(reset, ms);
    HostsSendNothing(reset, ms);
    var m := Start(r, ms, maxContinuations);
    if m.phase.Loop? {
      assert m.run.sent == r.sent + [Sent(m.run.messageId, ReplyStarted)];
      NothingYet(m.run.sent);
    }
  }

  lemma {:induction false} HostsSendNothing(r: Run, ms: seq<HostMsg>)
    ensures AddRaws(r, ms).sent == r.sent && AddRaws(r, ms).requests == r.requests
  {
    hide KnownId;
    if ms != [] { HostsSendNothing(r, ms[..|ms| - 1]); }
  }

  lemma {:induction false} AcceptSendsNothing(r: Run, id: string, approved: bool)
    ensures Accept(r, id, approved).0.sent == r.sent && Accept(r, id, approved).0.status == r.status
  {
    hide Owner, StateOf, SetState, CallsInState;
  }

  lemma {:induction false} ResumeGoesOn(r: Run, env: Env)
    ensures GoesOn(r, Resume(r, env).0)
  {
    hide Execute, PutAllDenied, GoesOn, Split, PendingCalls;
    var pending := PendingCalls(r.context);
    var allowed, denied := Split(pending, true), Split(pending, false);
    ExecuteGoesOn(r, allowed, env);
    Stays(r);
    var done := if allowed == [] then r else Execute(r, allowed, env).0;
    DeniedGoesOn(done, denied);
    GoesOnTrans(r, done, PutAllDenied(done, denied));
  }

  lemma Stays(r: Run)
    ensures GoesOn(r, r)
  {
  }

  /**
   * An answer is refused and sends nothing, leaves the run paused, or takes it up again; a
   * cancellation while the batch is settled ends the run as a failure, not as an interruption.
   */
  lemma {:induction false} AnswerBegins(r: Run, id: string, approved: bool, maxContinuations: nat, env: Env)
    ensures var m := Answered(r, id, approved, maxContinuations, env);
      match Accept(r.(continuations := 0, maxContinuations := maxContinuations), id, approved).1
      case Rejected => m.phase.AtRest? && m.run.sent == r.sent && m.run.status == r.status
      case Incomplete => m.phase.AtRest? && m.run.sent == r.sent && m.run.status == Paused
      case Complete => EndsOnce(m, r.sent) && (m.phase.AtRest? ==> m.run.status == Over(Failure))
  {
    hide Accept, Resume, Onward;
    var fresh' := r.(continuations := 0, maxContinuations := maxContinuations);
    AcceptSendsNothing(fresh', id, approved);
    var at := Accept(fresh', id, approved).0.(status := Active);
    ResumeGoesOn(at, env);
    var settled := Resume(at, env).0;
    NothingYet(at.sent);
    GoneOn(at, settled, r.sent);
    FinishEnds(settled, Failure, r.sent);
    StillGoing(settled, None, r.sent);
  }

  lemma NothingYet(sent: seq<Sent>)
    ensures Onward(sent, sent)
  {
  }

  ghost predicate AllTurns(inputs: seq<Input>)
  {
    forall i :: 0 <= i < |inputs| ==> inputs[i].Turn?
  }

  /** Turns keep a run's promise to the end. */
  lemma {:induction false} TurnsEndOnce(c: Config, m: Machine, turns: seq<Input>, from: seq<Sent>)
    requires EndsOnce(m, from) && AllTurns(turns)
    ensures EndsOnce(Life(c, m, turns), from)
  {
    hide EndsOnce, Round;
    if turns != [] {
      var n := |turns| - 1;
      TurnsEndOnce(c, m, turns[..n], from);
      var before := Life(c, m, turns[..n]);
      assert turns[n].Turn?;
      if before.phase.Loop? { RoundEnds(c, before, turns[n].env, from); }
    }
  }

  /** What a run has sent when it has just begun: its start, unless it is one that is taken up again. */
  function Begun(m: Machine, first: Input, begun: Machine): seq<Sent>
  {
    m.run.sent + if first.StartReply? then [Sent(begun.run.messageId, ReplyStarted)] else []
  }

  /**
   * Every accepted run, from its first input on, begins with one start event, unless an answer takes it
   * up again, and ends with exactly one end event or pauses with none; nothing between begins or ends a
   * reply.
   */
  lemma {:induction false} AcceptedRunsEndOnce(c: Config, m: Machine, first: Input, turns: seq<Input>)
    requires m.phase.AtRest? && !first.Turn? && AllTurns(turns)
    requires Advance(c, m, first).phase.Loop?
    ensures EndsOnce(Life(c, Advance(c, m, first), turns), Begun(m, first, Advance(c, m, first)))
  {
    hide EndsOnce, Start, Answered, Life, Accept;
    var begun := Advance(c, m, first);
    if first.StartReply? {
      StartBegins(m.run, first.messages, first.maxContinuations);
    } else {
      AnswerBegins(m.run, first.callId, first.approved, first.maxContinuations, first.env);
      AnswerLoops(m.run, first.callId, first.approved, first.maxContinuations, first.env);
      assert m.run.sent + [] == m.run.sent;
    }
    TurnsEndOnce(c, begun, turns, Begun(m, first, begun));
  }

  lemma AnswerLoops(r: Run, id: string, approved: bool, maxContinuations: nat, env: Env)
    ensures Answered(r, id, approved, maxContinuations, env).phase.Loop? ==>
      Accept(r.(continuations := 0, maxContinuations := maxContinuations), id, approved).1.Complete?
  {
    hide Accept, Resume;
  }
}
