/**
 * The runner as a state machine: decide, reason, act, exit, pause, confirm and resume. Everything
 * outside the runner (model, hooks, tools, permission answers, the user) is an input of a step.
 */
module Runner {
  import opened Prelude
  import opened Messages
  import opened Normalize
  import opened Events
  import opened Context
  import opened Reasoning

  datatype Status = Idle | Active | Paused | Over(reason: EndReason)

  /** What one tool task comes back with; `Raised` is a task that ended in an exception. */
  datatype ToolOutcome = Returned(text: string, failed: bool, cancelled: bool, hint: Option<string>) | Raised

  datatype ToolResult = ToolResult(callId: string, text: string, failed: bool, cancelled: bool, hint: Option<string>)

  /** The start of a tool task, with the number of calls that waited for the user at that moment. */
  datatype Execution = Execution(callId: string, asking: nat)

  /** A message the host contributes: it may carry its own id. */
  datatype HostMsg = HostMsg(role: Role, blocks: seq<Block>, id: Option<string>)

  datatype HookAnswer = HookMessages(messages: seq<HostMsg>) | HookCancelled | HookRaised

  datatype StopAnswer = Stop | Continue(prompt: string) | StopCancelled | StopRaised

  /** Everything the environment decides about one round of the main loop. */
  datatype Env = Env(
    hook: HookAnswer,
    attempts: nat -> AttemptInput,
    decide: Call -> Behavior,
    outcomes: string -> ToolOutcome,
    toolsCancelled: bool,
    stop: StopAnswer,
    cancellationSet: bool)

  /** Settings that do not change over the life of an agent. */
  datatype Config = Config(read: Reader, maxIterations: Option<nat>, maxRetries: nat)

  const MAX_EMPTY_RETRIES: nat := 2

  const FINALIZATION_PROMPT := "请根据上面的对话，直接给出回复用户的最终内容。"

  /** The runner's state, with what it has sent, a trace of its calls, and the contexts it has shown the model. */
  datatype Run = Run(
    context: seq<Msg>,
    sent: seq<Sent>,
    log: seq<Execution>,
    nextId: nat,
    messageId: MsgId,
    status: Status,
    iteration: nat,
    emptyRetries: nat,
    inFinalization: bool,
    continuations: nat,
    maxContinuations: nat,
    requests: seq<seq<Msg>>)

  /** The main loop is inside a run and has the last turn's result in hand, or the runner is at rest. */
  datatype Phase = Loop(prev: Option<TurnResult>) | AtRest

  datatype Machine = Machine(run: Run, phase: Phase)

  // ---------------------------------------------------------------------------
  // Decide
  // ---------------------------------------------------------------------------

  datatype Action = Reasoning(hint: Option<string>, forceNoTools: bool) | Acting(calls: seq<Call>) | Exiting(reason: EndReason)

  function Decide(c: Config, r: Run, prev: Option<TurnResult>): (Action, Run)
  {
    if prev.Some? && prev.value.error.Some? then (Exiting(Failure), r)
    else if prev.Some? && prev.value.calls != [] then (Acting(prev.value.calls), r)
    else if prev.Some? && !Blank(prev.value.text) then (Exiting(Completed), r)
    else if prev.Some? then
      if r.inFinalization then (Exiting(Failure), r)
      else if r.emptyRetries < MAX_EMPTY_RETRIES then (Reasoning(None, false), r.(emptyRetries := r.emptyRetries + 1))
      else (Reasoning(Some(FINALIZATION_PROMPT), true), r.(inFinalization := true))
    else if c.maxIterations.Some? && r.iteration >= c.maxIterations.value then (Exiting(ExceedMaxIters), r)
    else (Reasoning(None, false), r)
  }

  // ---------------------------------------------------------------------------
  // Writing
  // ---------------------------------------------------------------------------

  function Emit(r: Run, e: Event): Run { r.(sent := r.sent + [Sent(r.messageId, e)]) }

  function Addressed(to: MsgId, es: seq<Event>): seq<Sent>
  {
    if es == [] then [] else Addressed(to, es[..|es| - 1]) + [Sent(to, es[|es| - 1])]
  }

  function Write(r: Run, blocks: seq<Block>): Run { r.(context := AppendReply(r.context, r.messageId, blocks)) }

  function Mark(r: Run, id: string, state: CallState): Run { r.(context := SetState(r.context, id, state)) }

  /** The terminal transition: records the reason and sends the one terminal event. */
  function Finish(r: Run, reason: EndReason): Run { Emit(r.(status := Over(reason)), ReplyEnded(reason)) }

  // ---------------------------------------------------------------------------
  // Acting
  // ---------------------------------------------------------------------------

  function Placeholder(name: string): string { "[" + name + "] 已完成" }

  function DeniedText(name: string): string { "[USER_DENIED] 用户拒绝了工具 [" + name + "] 的执行" }

  const INTERRUPTED_TEXT := "[INTERRUPTED] Tool execution was interrupted."

  /** The outcome of one call once all tasks are gathered. */
  function Gathered(id: string, outcome: ToolOutcome, cancelled: bool): ToolResult
  {
    match outcome
    case Returned(text, failed, stopped, hint) => ToolResult(id, text, failed, stopped, hint)
    case Raised => ToolResult(id, INTERRUPTED_TEXT, false, cancelled, None)
  }

  /** One result per call, in the order of the calls. */
  function GatherAll(calls: seq<Call>, outcomes: string -> ToolOutcome, cancelled: bool): seq<ToolResult>
  {
    if calls == [] then []
    else
      var c := calls[|calls| - 1];
      GatherAll(calls[..|calls| - 1], outcomes, cancelled) + [Gathered(c.id, outcomes(c.id), cancelled)]
  }

  predicate AnyCancelled(results: seq<ToolResult>)
  {
    results != [] && (results[|results| - 1].cancelled || AnyCancelled(results[..|results| - 1]))
  }

  function StateFor(failed: bool): ResultState { if failed then ResultState.Failed else Success }

  /** Writes one result and sends its events. */
  function PutResult(r: Run, c: Call, result: ToolResult): Run
  {
    var text := if result.text == "" then Placeholder(c.name) else result.text;
    var state := StateFor(result.failed);
    var w := Write(Mark(r, c.id, CallState.Finished), [ToolResultBlock(c.id, c.name, Plain(text), state)]);
    var started := Emit(w, ResultStarted(c.id, c.name));
    var grown := if result.text == "" then started else Emit(started, ResultGrown(c.id, result.text));
    Emit(grown, ResultEnded(c.id, state))
  }

  function PutResults(r: Run, calls: seq<Call>, results: seq<ToolResult>): Run
    requires |calls| == |results|
  {
    if calls == [] then r
    else
      var n := |calls| - 1;
      PutResult(PutResults(r, calls[..n], results[..n]), calls[n], results[n])
  }

  function HintsOf(results: seq<ToolResult>): seq<string>
  {
    if results == [] then []
    else HintsOf(results[..|results| - 1])
         + (if results[|results| - 1].hint.Some? then [results[|results| - 1].hint.value] else [])
  }

  function PutHint(r: Run, hint: string): Run
  {
    var w := Write(r.(nextId := r.nextId + 1), [HintBlock(r.nextId, hint)]);
    Emit(w, HintGiven(r.nextId, hint))
  }

  function PutHints(r: Run, hints: seq<string>): Run
  {
    if hints == [] then r else PutHint(PutHints(r, hints[..|hints| - 1]), hints[|hints| - 1])
  }

  /** Starts all calls: from here on they count as executed. */
  function Spawn(r: Run, calls: seq<Call>): Run
  {
    if calls == [] then r
    else
      var spawned := Spawn(r, calls[..|calls| - 1]);
      spawned.(log := spawned.log + [Execution(calls[|calls| - 1].id, |CallsInState(r.context, Asking)|)])
  }

  lemma {:induction false} GatherLength(calls: seq<Call>, outcomes: string -> ToolOutcome, cancelled: bool)
    ensures |GatherAll(calls, outcomes, cancelled)| == |calls|
  {
    if calls != [] { GatherLength(calls[..|calls| - 1], outcomes, cancelled); }
  }

  /** Runs a batch concurrently, writes all results, then the hints; true when something was cancelled. */
  function Execute(r: Run, calls: seq<Call>, env: Env): (Run, bool)
  {
    GatherLength(calls, env.outcomes, env.toolsCancelled);
    var results := GatherAll(calls, env.outcomes, env.toolsCancelled);
    (PutHints(PutResults(Spawn(r, calls), calls, results), HintsOf(results)),
     env.toolsCancelled || AnyCancelled(results))
  }

  /** The behaviour of one call; a call already confirmed is not asked about again. */
  function Classify(context: seq<Msg>, decide: Call -> Behavior, c: Call): Behavior
  {
    if StateOf(context, c.id) == Some(Allowed) then Allow else decide(c)
  }

  predicate AllAllowed(context: seq<Msg>, decide: Call -> Behavior, calls: seq<Call>)
  {
    calls == [] || (Classify(context, decide, calls[|calls| - 1]) == Allow && AllAllowed(context, decide, calls[..|calls| - 1]))
  }

  predicate AnyAsk(context: seq<Msg>, decide: Call -> Behavior, calls: seq<Call>)
  {
    calls != [] && (Classify(context, decide, calls[|calls| - 1]) == Ask || AnyAsk(context, decide, calls[..|calls| - 1]))
  }

  /** Puts every call to be asked about on hold; decisions were taken on the context `asOf`. */
  function HoldAsked(r: Run, asOf: seq<Msg>, decide: Call -> Behavior, calls: seq<Call>): Run
  {
    if calls == [] then r
    else
      var c := calls[|calls| - 1];
      var before := HoldAsked(r, asOf, decide, calls[..|calls| - 1]);
      if Classify(asOf, decide, c) != Ask then before
      else Emit(Mark(before, c.id, Asking), ConfirmRequired(c.id, c.name))
  }

  datatype ActEnd = ActDone | ActPaused | ActCancelled

  function Act(r: Run, calls: seq<Call>, env: Env): (Run, ActEnd)
  {
    if AllAllowed(r.context, env.decide, calls) then
      var (done, cancelled) := Execute(r, calls, env);
      (done, if cancelled then ActCancelled else ActDone)
    else
      (HoldAsked(r, r.context, env.decide, calls),
       if AnyAsk(r.context, env.decide, calls) then ActPaused else ActDone)
  }

  // ---------------------------------------------------------------------------
  // Resuming
  // ---------------------------------------------------------------------------

  function CallOf(b: Block): Call
    requires b.ToolCallBlock?
  {
    Call(b.callId, b.name, Some(b.arguments))
  }

  /** The pending calls that are, or are not, allowed. */
  function Split(bs: seq<Block>, allowed: bool): seq<Call>
  {
    if bs == [] then []
    else
      var b := bs[|bs| - 1];
      Split(bs[..|bs| - 1], allowed)
      + (if b.ToolCallBlock? && (b.state == Allowed) == allowed then [CallOf(b)] else [])
  }

  function PutDenied(r: Run, c: Call): Run
  {
    var text := DeniedText(c.name);
    var w := Mark(Write(r, [ToolResultBlock(c.id, c.name, Plain(text), Denied)]), c.id, CallState.Finished);
    Emit(Emit(Emit(w, ResultStarted(c.id, c.name)), ResultGrown(c.id, text)), ResultEnded(c.id, Denied))
  }

  function PutAllDenied(r: Run, calls: seq<Call>): Run
  {
    if calls == [] then r else PutDenied(PutAllDenied(r, calls[..|calls| - 1]), calls[|calls| - 1])
  }

  /** Settles every unanswered call of the context; true when the allowed part was cancelled. */
  function Resume(r: Run, env: Env): (Run, bool)
  {
    var pending := PendingCalls(r.context);
    var allowed, denied := Split(pending, true), Split(pending, false);
    var (done, cancelled) := if allowed == [] then (r, false) else Execute(r, allowed, env);
    if cancelled then (done, true) else (PutAllDenied(done, denied), false)
  }

  datatype Acceptance = Rejected | Incomplete | Complete

  /** Takes one user answer: refused, taken with others still open, or taken as the last one. */
  function Accept(r: Run, id: string, approved: bool): (Run, Acceptance)
  {
    var owner := Owner(r.context, id);
    if owner == |r.context| then (r, Rejected)
    else
      var at := r.(messageId := r.context[owner].id);
      var state := StateOf(r.context, id).value;
      var expected := if approved then Allowed else CallState.Finished;
      if state == Asking then
        var marked := Mark(at, id, expected);
        (marked, if CallsInState(marked.context, Asking) == [] then Complete else Incomplete)
      else if state != expected then (at, Rejected)
      else (at, if CallsInState(at.context, Asking) == [] then Complete else Incomplete)
  }

  // ---------------------------------------------------------------------------
  // Rounds
  // ---------------------------------------------------------------------------

  predicate KnownId(context: seq<Msg>, id: MsgId)
  {
    context != [] && (context[|context| - 1].id == id || KnownId(context[..|context| - 1], id))
  }

  /** A host message joins the context unless its id is taken; other roles count as assistant. */
  function AddRaw(r: Run, m: HostMsg): Run
  {
    var role := if m.role == User || m.role == Assistant || m.role == System then m.role else Assistant;
    if m.id.Some? && m.id.value != "" then
      if KnownId(r.context, Host(m.id.value)) then r
      else r.(context := r.context + [Msg(Host(m.id.value), role, m.blocks)])
    else r.(context := r.context + [Msg(Drawn(r.nextId), role, m.blocks)], nextId := r.nextId + 1)
  }

  function AddRaws(r: Run, ms: seq<HostMsg>): Run
  {
    if ms == [] then r else AddRaw(AddRaws(r, ms[..|ms| - 1]), ms[|ms| - 1])
  }

  predicate HasUser(ms: seq<HostMsg>)
  {
    ms != [] && (ms[|ms| - 1].role == User || HasUser(ms[..|ms| - 1]))
  }

  /** A user message after the current reply started moves the run on to a new reply message. */
  function Rotate(r: Run, ms: seq<HostMsg>): Run
  {
    if FindReply(r.context, r.messageId) < |r.context| && HasUser(ms) then
      r.(messageId := Drawn(r.nextId), nextId := r.nextId + 1)
    else r
  }

  function Snapshots(r: Run, snapshots: seq<seq<Block>>): seq<seq<Msg>>
  {
    if snapshots == [] then []
    else Snapshots(r, snapshots[..|snapshots| - 1]) + [AppendReply(r.context, r.messageId, snapshots[|snapshots| - 1])]
  }

  /** Records what a reasoning action sent, wrote and asked the model. */
  function Reasoned(r: Run, d: ReasonDone): Run
  {
    r.(sent := r.sent + Addressed(r.messageId, d.events),
       context := AppendReply(r.context, r.messageId, d.blocks),
       nextId := d.nextId,
       requests := r.requests + Snapshots(r, d.snapshots))
  }

  function AskModel(c: Config, r: Run, hint: Option<string>, env: Env): Machine
  {
    var d := Reason(c.read, hint, c.maxRetries, r.nextId, env.attempts);
    var after := Reasoned(r, d);
    match d.end
    case TurnDone(result) => Machine(after, Loop(Some(result)))
    case TurnCancelled => Machine(Finish(after, EndReason.Interrupted), AtRest)
  }

  function ReasonRound(c: Config, r: Run, hint: Option<string>, env: Env): Machine
  {
    var counted := r.(iteration := r.iteration + 1);
    match env.hook
    case HookCancelled => Machine(Finish(counted, EndReason.Interrupted), AtRest)
    case HookRaised => Machine(Finish(counted, Failure), AtRest)
    case HookMessages(ms) => AskModel(c, Rotate(AddRaws(counted, ms), ms), hint, env)
  }

  function ActRound(r: Run, calls: seq<Call>, env: Env): Machine
  {
    var (after, end) := Act(r, calls, env);
    match end
    case ActDone => Machine(after, Loop(None))
    case ActPaused => Machine(after.(status := Paused), AtRest)
    case ActCancelled => Machine(Finish(after, EndReason.Interrupted), AtRest)
  }

  function ExitRound(r: Run, reason: EndReason, env: Env): Machine
  {
    if reason != Completed then Machine(Finish(r, reason), AtRest)
    else
      match env.stop
      case Stop => Machine(Finish(r, reason), AtRest)
      case StopCancelled => Machine(Finish(r, EndReason.Interrupted), AtRest)
      case StopRaised => Machine(Finish(r, Failure), AtRest)
      case Continue(prompt) =>
        if env.cancellationSet || r.continuations >= r.maxContinuations then Machine(Finish(r, reason), AtRest)
        else Machine(PutHint(r.(continuations := r.continuations + 1), prompt), Loop(None))
  }

  /** One turn of the main loop. */
  function Round(c: Config, r: Run, prev: Option<TurnResult>, env: Env): Machine
  {
    var (action, decided) := Decide(c, r, prev);
    match action
    case Reasoning(hint, _) => ReasonRound(c, decided, hint, env)
    case Acting(calls) => ActRound(decided, calls, env)
    case Exiting(reason) => ExitRound(decided, reason, env)
  }

  // ---------------------------------------------------------------------------
  // Whole lives
  // ---------------------------------------------------------------------------

  datatype Input =
    | StartReply(messages: seq<HostMsg>, maxContinuations: nat)
    | Answer(callId: string, approved: bool, maxContinuations: nat, env: Env)
    | Turn(env: Env)

  /** A new reply is refused while a call waits for the user; otherwise the run starts afresh. */
  function Start(r: Run, ms: seq<HostMsg>, maxContinuations: nat): Machine
  {
    if CallsInState(r.context, Asking) != [] then Machine(r, AtRest)
    else
      var reset := r.(status := Active, iteration := 0, emptyRetries := 0, inFinalization := false,
                      continuations := 0, maxContinuations := maxContinuations, requests := []);
      var added := AddRaws(reset, ms);
      var named := added.(messageId := Drawn(added.nextId), nextId := added.nextId + 1);
      Machine(Emit(named, ReplyStarted), Loop(None))
  }

  /** A user answer: with the last open one, the batch is settled and the loop goes on. */
  function Answered(r: Run, id: string, approved: bool, maxContinuations: nat, env: Env): Machine
  {
    var (at, acceptance) := Accept(r.(continuations := 0, maxContinuations := maxContinuations), id, approved);
    match acceptance
    case Rejected => Machine(at, AtRest)
    case Incomplete => Machine(at.(status := Paused), AtRest)
    case Complete =>
      var (settled, cancelled) := Resume(at.(status := Active), env);
      if cancelled then Machine(Finish(settled, Failure), AtRest) else Machine(settled, Loop(None))
  }

  function Advance(c: Config, m: Machine, input: Input): Machine
  {
    match input
    case StartReply(ms, maxContinuations) =>
      if m.phase.AtRest? then Start(m.run, ms, maxContinuations) else m
    case Answer(id, approved, maxContinuations, env) =>
      if m.phase.AtRest? then Answered(m.run, id, approved, maxContinuations, env) else m
    case Turn(env) => if m.phase.Loop? then Round(c, m.run, m.phase.prev, env) else m
  }

  /** The machine after a life of inputs. */
  function Life(c: Config, m: Machine, inputs: seq<Input>): Machine
  {
    if inputs == [] then m else Advance(c, Life(c, m, inputs[..|inputs| - 1]), inputs[|inputs| - 1])
  }

  /** The inputs of a run once it has begun. */
  function Turns(envs: seq<Env>): seq<Input>
  {
    if envs == [] then [] else Turns(envs[..|envs| - 1]) + [Turn(envs[|envs| - 1])]
  }

  lemma {:induction false} LifeSnoc(c: Config, m: Machine, inputs: seq<Input>, input: Input)
    ensures Life(c, m, inputs + [input]) == Advance(c, Life(c, m, inputs), input)
  {
    assert (inputs + [input])[..|inputs|] == inputs;
  }
}
