/**
 * The runner as it runs: an object whose methods write the shared context, send events and move its
 * counters. Every method leaves the value the state machine of `Runner` prescribes.
 */
module ReActRunner {
  import opened Prelude
  import opened Messages
  import Normalize
  import opened Events
  import opened Context
  import opened Reasoning
  import ReasoningExecutor
  import opened Runner

  /** `gather_results`: one outcome per task, kept by call id and lined up with the calls again. */
  method GatherResults(calls: seq<Call>, outcomes: string -> ToolOutcome, isCancelled: bool)
      returns (results: seq<ToolResult>, cancelled: bool)
    ensures results == GatherAll(calls, outcomes, isCancelled)
    ensures cancelled == (isCancelled || AnyCancelled(results))
  {
    var finished: map<string, ToolResult> := map[];
    for i := 0 to |calls|
      invariant forall j :: 0 <= j < i ==> calls[j].id in finished
      invariant forall id :: id in finished ==> finished[id] == Gathered(id, outcomes(id), isCancelled)
    {
      finished := finished[calls[i].id := Gathered(calls[i].id, outcomes(calls[i].id), isCancelled)];
    }
    results := [];
    var anyCancelled := false;
    for i := 0 to |calls|
      invariant results == GatherAll(calls[..i], outcomes, isCancelled)
      invariant anyCancelled == AnyCancelled(results)
    {
      assert calls[..i + 1][..i] == calls[..i];
      var result := finished[calls[i].id];
      assert (results + [result])[..|results|] == results;
      results := results + [result];
      anyCancelled := anyCancelled || result.cancelled;
    }
    assert calls[..|calls|] == calls;
    cancelled := isCancelled || anyCancelled;
  }

  lemma {:induction false} AllAllowedIff(context: seq<Msg>, decide: Call -> Behavior, calls: seq<Call>)
    ensures AllAllowed(context, decide, calls) <==> forall i :: 0 <= i < |calls| ==> Classify(context, decide, calls[i]) == Allow
    ensures AnyAsk(context, decide, calls) <==> exists i :: 0 <= i < |calls| && Classify(context, decide, calls[i]) == Ask
  {
    hide Classify;
    if calls != [] {
      var init := calls[..|calls| - 1];
      AllAllowedIff(context, decide, init);
      assert forall i :: 0 <= i < |init| ==> init[i] == calls[i];
      if i :| 0 <= i < |calls| && Classify(context, decide, calls[i]) == Ask {
        assert i < |init| ==> Classify(context, decide, init[i]) == Ask;
      }
    }
  }

  class ReActRunner {
    const config: Config
    const context: MessageContext
    var sent: seq<Sent>
    var nextId: nat
    var messageId: MsgId
    var status: Status
    var iteration: nat
    var emptyRetries: nat
    var inFinalization: bool
    var continuations: nat
    var maxContinuations: nat
    ghost var log: seq<Execution>
    ghost var requests: seq<seq<Msg>>

    ghost function Value(): Run
      reads this, context
    {
      Run(context.messages, sent, log, nextId, messageId, status, iteration, emptyRetries, inFinalization,
          continuations, maxContinuations, requests)
    }

    constructor (config: Config, context: MessageContext)
      ensures this.config == config && this.context == context
      ensures Value().context == context.messages && Value().sent == [] && Value().log == [] && status == Idle
    {
      this.config, this.context := config, context;
      sent, nextId, messageId, status := [], 0, Host(""), Idle;
      iteration, emptyRetries, inFinalization, continuations, maxContinuations := 0, 0, false, 0, 0;
      log, requests := [], [];
    }

    method Send(e: Event)
      modifies this`sent
      ensures Value() == Emit(old(Value()), e)
    {
      sent := sent + [Sent(messageId, e)];
    }

    method Finalize(reason: EndReason)
      modifies this`sent, this`status
      ensures Value() == Finish(old(Value()), reason)
    {
      status := Over(reason);
      Send(ReplyEnded(reason));
    }

    /** What to do next; only the empty-response bookkeeping changes. */
    method DecideNext(prev: Option<TurnResult>) returns (action: Action)
      modifies this`emptyRetries, this`inFinalization
      ensures (action, Value()) == Decide(config, old(Value()), prev)
    {
      if prev.Some? && prev.value.error.Some? { return Exiting(Failure); }
      if prev.Some? && prev.value.calls != [] { return Acting(prev.value.calls); }
      if prev.Some? && !Normalize.Blank(prev.value.text) { return Exiting(Completed); }
      if prev.Some? {
        if inFinalization { return Exiting(Failure); }
        if emptyRetries < MAX_EMPTY_RETRIES {
          emptyRetries := emptyRetries + 1;
          return Action.Reasoning(None, false);
        }
        inFinalization := true;
        return Action.Reasoning(Some(FINALIZATION_PROMPT), true);
      }
      if config.maxIterations.Some? && iteration >= config.maxIterations.value { return Exiting(ExceedMaxIters); }
      action := Action.Reasoning(None, false);
    }

    // -------------------------------------------------------------------------
    // Acting
    // -------------------------------------------------------------------------

    method WriteResult(c: Call, result: ToolResult)
      modifies this`sent, context
      ensures Value() == PutResult(old(Value()), c, result)
    {
      var _ := context.SetToolCallState(c.id, CallState.Finished);
      var text := if result.text != "" then result.text else Placeholder(c.name);
      var state := if result.failed then ResultState.Failed else Success;
      context.AppendReplyBlocks(messageId, [ToolResultBlock(c.id, c.name, Plain(text), state)]);
      Send(ResultStarted(c.id, c.name));
      if result.text != "" { Send(ResultGrown(c.id, result.text)); }
      Send(ResultEnded(c.id, state));
    }

    method WriteHint(hint: string)
      modifies this`sent, this`nextId, context
      ensures Value() == PutHint(old(Value()), hint)
    {
      var id := nextId;
      nextId := nextId + 1;
      context.AppendReplyBlocks(messageId, [HintBlock(id, hint)]);
      Send(HintGiven(id, hint));
    }

    /** All results of a batch, one behind the other; the hints are kept for later. */
    method WriteResults(calls: seq<Call>, results: seq<ToolResult>) returns (hints: seq<string>)
      requires |calls| == |results|
      modifies this`sent, context
      ensures Value() == PutResults(old(Value()), calls, results) && hints == HintsOf(results)
    {
      hide PutResult;
      hints := [];
      for i := 0 to |calls|
        invariant Value() == PutResults(old(Value()), calls[..i], results[..i])
        invariant hints == HintsOf(results[..i])
      {
        assert calls[..i + 1][..i] == calls[..i] && results[..i + 1][..i] == results[..i];
        WriteResult(calls[i], results[i]);
        if results[i].hint.Some? { hints := hints + [results[i].hint.value]; }
      }
      assert calls[..|calls|] == calls && results[..|calls|] == results;
    }

    method WriteHints(hints: seq<string>)
      modifies this`sent, this`nextId, context
      ensures Value() == PutHints(old(Value()), hints)
    {
      hide PutHint;
      for i := 0 to |hints|
        invariant Value() == PutHints(old(Value()), hints[..i])
      {
        assert hints[..i + 1][..i] == hints[..i];
        WriteHint(hints[i]);
      }
      assert hints[..|hints|] == hints;
    }

    /** Spawn all, gather all, write all results, then all hints. */
    method ExecuteCalls(calls: seq<Call>, env: Env) returns (cancelled: bool)
      modifies this`sent, this`nextId, this`log, context
      ensures (Value(), cancelled) == Execute(old(Value()), calls, env)
    {
      hide PutResults, PutHints, CallsInState, Spawn, GatherAll;
      log := Spawn(Value(), calls).log;
      SpawnLog(old(Value()), calls);
      GatherLength(calls, env.outcomes, env.toolsCancelled);
      var results: seq<ToolResult>;
      results, cancelled := GatherResults(calls, env.outcomes, env.toolsCancelled);
      var hints := WriteResults(calls, results);
      WriteHints(hints);
    }

    /** The decisions of a batch, taken before anything changes. */
    method ClassifyBatch(calls: seq<Call>, decide: Call -> Behavior) returns (decisions: seq<Behavior>, hasPause: bool)
      ensures |decisions| == |calls|
      ensures forall i :: 0 <= i < |calls| ==> decisions[i] == Classify(context.messages, decide, calls[i])
      ensures hasPause <==> !AllAllowed(context.messages, decide, calls)
    {
      decisions, hasPause := [], false;
      for i := 0 to |calls|
        invariant |decisions| == i
        invariant forall j :: 0 <= j < i ==> decisions[j] == Classify(context.messages, decide, calls[j])
        invariant hasPause <==> exists j :: 0 <= j < i && decisions[j] != Allow
      {
        var behavior := if StateOf(context.messages, calls[i].id) == Some(Allowed) then Allow else decide(calls[i]);
        decisions := decisions + [behavior];
        if behavior != Allow {
          hasPause := true;
          assert decisions[i] != Allow;
        }
      }
      AllAllowedIff(context.messages, decide, calls);
    }

    /** Runs the whole batch, or holds all of it and asks the user. */
    method ActStream(calls: seq<Call>, env: Env) returns (end: ActEnd)
      modifies this`sent, this`nextId, this`log, context
      ensures (Value(), end) == Act(old(Value()), calls, env)
    {
      hide Execute, Classify;
      var decisions, hasPause := ClassifyBatch(calls, env.decide);
      if !hasPause {
        var cancelled := ExecuteCalls(calls, env);
        return if cancelled then ActCancelled else ActDone;
      }
      ghost var start := Value();
      var paused := false;
      for i := 0 to |calls|
        invariant Value() == HoldAsked(start, start.context, env.decide, calls[..i])
        invariant paused == AnyAsk(start.context, env.decide, calls[..i])
      {
        assert calls[..i + 1][..i] == calls[..i];
        if decisions[i] == Ask {
          var _ := context.SetToolCallState(calls[i].id, Asking);
          Send(ConfirmRequired(calls[i].id, calls[i].name));
          paused := true;
        }
      }
      assert calls[..|calls|] == calls;
      end := if paused then ActPaused else ActDone;
    }

    // -------------------------------------------------------------------------
    // Resuming
    // -------------------------------------------------------------------------

    method PendingToolCalls() returns (pending: seq<Block>)
      ensures pending == PendingCalls(context.messages)
    {
      hide AllBlocks;
      var bs := AllBlocks(context.messages);
      var answered: set<string> := {};
      for i := 0 to |bs|
        invariant answered == ResultIds(bs[..i])
      {
        assert bs[..i + 1][..i] == bs[..i];
        if bs[i].ToolResultBlock? { answered := answered + {bs[i].resultId}; }
      }
      assert bs[..|bs|] == bs;
      pending := [];
      for i := 0 to |bs|
        invariant pending == Unanswered(bs[..i], answered)
      {
        assert bs[..i + 1][..i] == bs[..i];
        if bs[i].ToolCallBlock? && bs[i].callId !in answered { pending := pending + [bs[i]]; }
      }
      assert bs[..|bs|] == bs;
    }

    method WriteDenied(c: Call)
      modifies this`sent, context
      ensures Value() == PutDenied(old(Value()), c)
    {
      var text := DeniedText(c.name);
      context.AppendReplyBlocks(messageId, [ToolResultBlock(c.id, c.name, Plain(text), Denied)]);
      var _ := context.SetToolCallState(c.id, CallState.Finished);
      Send(ResultStarted(c.id, c.name));
      Send(ResultGrown(c.id, text));
      Send(ResultEnded(c.id, Denied));
    }

    /** Settles the batch from the context alone: the allowed calls run, the others are refused. */
    method ResumeExecute(env: Env) returns (cancelled: bool)
      modifies this`sent, this`nextId, this`log, context
      ensures (Value(), cancelled) == Resume(old(Value()), env)
    {
      hide Execute, PutDenied, PendingCalls;
      var pending := PendingToolCalls();
      var allowed: seq<Call>, denied: seq<Call> := [], [];
      for i := 0 to |pending|
        invariant allowed == Split(pending[..i], true) && denied == Split(pending[..i], false)
      {
        assert pending[..i + 1][..i] == pending[..i];
        if pending[i].ToolCallBlock? {
          var call := CallOf(pending[i]);
          if pending[i].state == Allowed { allowed := allowed + [call]; } else { denied := denied + [call]; }
        }
      }
      assert pending[..|pending|] == pending;
      cancelled := false;
      if allowed != [] {
        cancelled := ExecuteCalls(allowed, env);
        if cancelled { return; }
      }
      ghost var done := Value();
      for i := 0 to |denied|
        invariant Value() == PutAllDenied(done, denied[..i])
      {
        assert denied[..i + 1][..i] == denied[..i];
        WriteDenied(denied[i]);
      }
      assert denied[..|denied|] == denied;
    }

    method AcceptConfirmation(id: string, approved: bool) returns (acceptance: Acceptance)
      modifies this`messageId, context
      ensures (Value(), acceptance) == Accept(old(Value()), id, approved)
    {
      hide SetState, CallsInState;
      var owner := Owner(context.messages, id);
      if owner == |context.messages| { return Rejected; }
      var state := StateOf(context.messages, id).value;
      messageId := context.messages[owner].id;
      var expected := if approved then Allowed else CallState.Finished;
      if state == Asking {
        var _ := context.SetToolCallState(id, expected);
      } else if state != expected {
        return Rejected;
      }
      var open := context.ToolCallsInState(Asking);
      acceptance := if open == [] then Complete else Incomplete;
    }

    // -------------------------------------------------------------------------
    // Rounds
    // -------------------------------------------------------------------------

    method AddHostMessage(m: HostMsg)
      modifies this`nextId, context
      ensures Value() == AddRaw(old(Value()), m)
    {
      hide KnownId;
      var role := if m.role == User || m.role == Assistant || m.role == System then m.role else Assistant;
      if m.id.Some? && m.id.value != "" {
        if KnownId(context.messages, Host(m.id.value)) { return; }
        context.messages := context.messages + [Msg(Host(m.id.value), role, m.blocks)];
      } else {
        context.messages := context.messages + [Msg(Drawn(nextId), role, m.blocks)];
        nextId := nextId + 1;
      }
    }

    method AddHostMessages(ms: seq<HostMsg>) returns (hasUser: bool)
      modifies this`nextId, context
      ensures Value() == AddRaws(old(Value()), ms) && hasUser == HasUser(ms)
    {
      hide AddRaw;
      hasUser := false;
      for i := 0 to |ms|
        invariant Value() == AddRaws(old(Value()), ms[..i]) && hasUser == HasUser(ms[..i])
      {
        assert ms[..i + 1][..i] == ms[..i];
        AddHostMessage(ms[i]);
        if ms[i].role == User { hasUser := true; }
      }
      assert ms[..|ms|] == ms;
    }

    /** Asks the model, forwards what it says, and writes it to the reply. */
    method ReasonStream(hint: Option<string>, env: Env) returns (end: ReasonEnd)
      modifies this`sent, this`nextId, this`requests, context
      ensures var d := Reason(config.read, hint, config.maxRetries, old(nextId), env.attempts);
        end == d.end && Value() == Reasoned(old(Value()), d)
    {
      hide Reason, Snapshots, Addressed, AppendReply;
      var d := ReasoningExecutor.PerformReasoning(config.read, hint, config.maxRetries, nextId, env.attempts);
      requests := requests + Snapshots(Value(), d.snapshots);
      ghost var asked := Value();
      NoneAddressed(messageId);
      ghost var before := sent;
      var to := messageId;
      for i := 0 to |d.events|
        invariant sent == before + Addressed(to, d.events[..i])
        invariant Value() == asked.(sent := sent) && messageId == to
      {
        assert d.events[..i + 1][..i] == d.events[..i];
        AddressedSnoc(to, d.events[..i], d.events[i]);
        assert d.events[..i] + [d.events[i]] == d.events[..i + 1];
        Send(d.events[i]);
      }
      assert d.events[..|d.events|] == d.events;
      context.AppendReplyBlocks(to, d.blocks);
      nextId := d.nextId;
      end := d.end;
    }

    /** The host's messages join first; a user message among them moves on to a new reply. */
    method TakeHostMessages(ms: seq<HostMsg>)
      modifies this`nextId, this`messageId, context
      ensures Value() == Rotate(AddRaws(old(Value()), ms), ms)
    {
      hide AddRaws, HasUser;
      var hasUser := AddHostMessages(ms);
      if FindReply(context.messages, messageId) < |context.messages| && hasUser {
        messageId := Drawn(nextId);
        nextId := nextId + 1;
      }
    }

    method ReasonStep(hint: Option<string>, env: Env) returns (phase: Phase)
      modifies this, context
      ensures Machine(Value(), phase) == ReasonRound(config, old(Value()), hint, env)
    {
      hide Reason, AddRaws, Rotate, Reasoned, Finish;
      iteration := iteration + 1;
      phase := AtRest;
      match env.hook
      case HookCancelled => Finalize(EndReason.Interrupted);
      case HookRaised => Finalize(Failure);
      case HookMessages(ms) =>
        TakeHostMessages(ms);
        var end := ReasonStream(hint, env);
        match end {
          case TurnDone(result) => phase := Loop(Some(result));
          case TurnCancelled => Finalize(EndReason.Interrupted);
        }
    }

    method ActStep(calls: seq<Call>, env: Env) returns (phase: Phase)
      modifies this, context
      ensures Machine(Value(), phase) == ActRound(old(Value()), calls, env)
    {
      hide Act;
      var end := ActStream(calls, env);
      match end
      case ActDone => phase := Loop(None);
      case ActPaused =>
        status := Paused;
        phase := AtRest;
      case ActCancelled =>
        Finalize(EndReason.Interrupted);
        phase := AtRest;
    }

    /** Ends the reply, unless the stop hook asks for more and may have it. */
    method ExitStep(reason: EndReason, env: Env) returns (phase: Phase)
      modifies this, context
      ensures Machine(Value(), phase) == ExitRound(old(Value()), reason, env)
    {
      phase := AtRest;
      if reason == Completed {
        match env.stop {
          case StopCancelled =>
            Finalize(EndReason.Interrupted);
            return;
          case StopRaised =>
            Finalize(Failure);
            return;
          case Continue(prompt) =>
            if !env.cancellationSet && continuations < maxContinuations {
              continuations := continuations + 1;
              WriteHint(prompt);
              return Loop(None);
            }
          case Stop =>
        }
      }
      Finalize(reason);
    }

    /** The main loop, for as long as it lasts and the given environment answers. */
    method MainLoop(envs: seq<Env>) returns (phase: Phase)
      modifies this, context
      ensures Machine(Value(), phase) == Life(config, Machine(old(Value()), Loop(None)), Turns(envs))
    {
      hide ReasonRound, ActRound, ExitRound, Decide;
      ghost var start := Machine(Value(), Loop(None));
      phase := Loop(None);
      var i := 0;
      while i < |envs| && phase.Loop?
        invariant 0 <= i <= |envs|
        invariant Machine(Value(), phase) == Life(config, start, Turns(envs[..i]))
        decreases |envs| - i
      {
        TurnsSnoc(config, start, envs, i);
        var action := DecideNext(phase.prev);
        match action {
          case Reasoning(hint, _) => phase := ReasonStep(hint, envs[i]);
          case Acting(calls) => phase := ActStep(calls, envs[i]);
          case Exiting(reason) => phase := ExitStep(reason, envs[i]);
        }
        i := i + 1;
      }
      if i < |envs| {
        RestsOn(config, start, envs, i);
      } else {
        assert envs[..i] == envs;
      }
    }

    /** Readies a new reply; refused, and nothing changes, while a call waits for the user. */
    method PrepareNewReply(ms: seq<HostMsg>, max: nat) returns (accepted: bool)
      modifies this, context
      ensures accepted <==> CallsInState(old(context.messages), Asking) == []
      ensures Machine(Value(), if accepted then Loop(None) else AtRest) == Start(old(Value()), ms, max)
    {
      hide CallsInState, AddRaws;
      var asking := context.ToolCallsInState(Asking);
      if asking != [] { return false; }
      status, iteration, emptyRetries, inFinalization := Active, 0, 0, false;
      continuations, maxContinuations := 0, max;
      requests := [];
      var _ := AddHostMessages(ms);
      messageId := Drawn(nextId);
      nextId := nextId + 1;
      Send(ReplyStarted);
      accepted := true;
    }

    method RunReply(ms: seq<HostMsg>, max: nat, envs: seq<Env>) returns (accepted: bool, phase: Phase)
      modifies this, context
      ensures accepted <==> CallsInState(old(context.messages), Asking) == []
      ensures Machine(Value(), phase) == Life(config, Start(old(Value()), ms, max), Turns(envs))
    {
      hide CallsInState, Start, Life, Turns;
      accepted := PrepareNewReply(ms, max);
      if accepted {
        phase := MainLoop(envs);
      } else {
        RestingLife(config, Value(), envs);
        phase := AtRest;
      }
    }

    /** A user answer: with the last open one the batch is settled and the loop goes on. */
    method RunAnswer(id: string, approved: bool, max: nat, env: Env, envs: seq<Env>) returns (phase: Phase)
      modifies this, context
      ensures Machine(Value(), phase) == Life(config, Answered(old(Value()), id, approved, max, env), Turns(envs))
    {
      hide Accept, Resume, Life, Turns;
      continuations, maxContinuations := 0, max;
      var acceptance := AcceptConfirmation(id, approved);
      match acceptance
      case Rejected =>
        RestingLife(config, Value(), envs);
        phase := AtRest;
      case Incomplete =>
        status := Paused;
        RestingLife(config, Value(), envs);
        phase := AtRest;
      case Complete =>
        status := Active;
        var cancelled := ResumeExecute(env);
        if cancelled {
          Finalize(Failure);
          RestingLife(config, Value(), envs);
          phase := AtRest;
        } else {
          phase := MainLoop(envs);
        }
    }
  }

  lemma {:induction false} TurnsSnoc(c: Config, m: Machine, envs: seq<Env>, i: nat)
    requires i < |envs|
    ensures Life(c, m, Turns(envs[..i + 1])) == Advance(c, Life(c, m, Turns(envs[..i])), Turn(envs[i]))
  {
    assert envs[..i + 1][..i] == envs[..i];
    assert Turns(envs[..i + 1])[..|Turns(envs[..i + 1])| - 1] == Turns(envs[..i]);
  }

  /** At rest, turns change nothing. */
  lemma {:induction false} RestsOn(c: Config, m: Machine, envs: seq<Env>, i: nat)
    requires i <= |envs| && Life(c, m, Turns(envs[..i])).phase.AtRest?
    ensures Life(c, m, Turns(envs)) == Life(c, m, Turns(envs[..i]))
    decreases |envs| - i
  {
    hide Life, Turns, Round;
    if i < |envs| {
      TurnsSnoc(c, m, envs, i);
      RestsOn(c, m, envs, i + 1);
    } else {
      assert envs[..i] == envs;
    }
  }

  lemma {:induction false} RestingLife(c: Config, r: Run, envs: seq<Env>)
    ensures Life(c, Machine(r, AtRest), Turns(envs)) == Machine(r, AtRest)
  {
    hide Round;
    assert envs[..0] == [];
    assert Turns([]) == [] && Life(c, Machine(r, AtRest), []) == Machine(r, AtRest);
    RestsOn(c, Machine(r, AtRest), envs, 0);
  }

  lemma NoneAddressed(to: MsgId)
    ensures forall es: seq<Event> :: Addressed(to, es[..0]) == []
  {
  }

  lemma AddressedSnoc(to: MsgId, es: seq<Event>, e: Event)
    ensures Addressed(to, es + [e]) == Addressed(to, es) + [Sent(to, e)]
  {
    assert (es + [e])[..|es|] == es;
  }

  /** Spawning only adds to the trace. */
  lemma {:induction false} SpawnLog(r: Run, calls: seq<Call>)
    ensures Spawn(r, calls) == r.(log := Spawn(r, calls).log)
  {
    hide CallsInState;
    if calls != [] { SpawnLog(r, calls[..|calls| - 1]); }
  }
}
