/**
 * One reasoning action: stream the model's answer, forward it as events, retry failed attempts,
 * and write what was said into the reply.
 */
module Reasoning {
  import opened Prelude
  import opened StreamChunks
  import opened BlockAssembly
  import opened Messages
  import opened Events

  datatype Call = Call(id: string, name: string, input: Option<Json>)

  function IdSet(calls: seq<Call>): set<string>
  {
    if calls == [] then {} else IdSet(calls[..|calls| - 1]) + {calls[|calls| - 1].id}
  }

  lemma {:induction false} InIdSet(calls: seq<Call>, id: string)
    ensures id in IdSet(calls) <==> exists i :: 0 <= i < |calls| && calls[i].id == id
  {
    if calls != [] {
      InIdSet(calls[..|calls| - 1], id);
      if i :| 0 <= i < |calls| && calls[i].id == id {
        assert i < |calls| - 1 ==> calls[..|calls| - 1][i].id == id;
      }
    }
  }

  ghost predicate DistinctIds(calls: seq<Call>)
  {
    forall i, j :: 0 <= i < j < |calls| ==> calls[i].id != calls[j].id
  }

  datatype TurnResult = TurnResult(text: string, reasoning: string, calls: seq<Call>, error: Option<LLMError>)

  /** How a model stream stops: it ends, it raises, or the task is cancelled. */
  datatype StreamEnd = StreamDone | StreamRaised(error: LLMError) | StreamCancelled

  /** What the error hook advises. */
  datatype Advice = NoAdvice | RetryAdvice | StopAdvice

  /** Whether the task is cancelled while a failed attempt is being handled. */
  datatype Waiting = Undisturbed | CancelledInHook | CancelledInSleep

  /** Everything the environment decides about one attempt. */
  datatype AttemptInput = AttemptInput(chunks: seq<Chunk>, ending: StreamEnd, advice: Advice, waiting: Waiting)

  /** The state of one attempt; `events` is what it has sent so far. */
  datatype Attempt = Attempt(
    asm: Progress,
    text: string,
    reasoning: string,
    calls: seq<Call>,
    kind: Option<FinishKind>,
    usage: Option<Usage>,
    textOpen: Option<nat>,
    thinkingOpen: Option<nat>,
    started: set<string>,
    nextId: nat,
    events: seq<Event>)

  function NewAttempt(nextId: nat): Attempt
  {
    Attempt(EMPTY, "", "", [], None, None, None, None, {}, nextId, [ModelCallStarted])
  }

  function OnTextDelta(a: Attempt, text: string): Attempt
  {
    var b := if a.textOpen.Some? then a
             else a.(textOpen := Some(a.nextId), nextId := a.nextId + 1, events := a.events + [TextStarted(a.nextId)]);
    b.(text := a.text + text, events := b.events + [TextGrown(b.textOpen.value, text)])
  }

  function OnReasoningDelta(a: Attempt, text: string): Attempt
  {
    var b := if a.thinkingOpen.Some? then a
             else a.(thinkingOpen := Some(a.nextId), nextId := a.nextId + 1, events := a.events + [ThinkingStarted(a.nextId)]);
    b.(reasoning := a.reasoning + text, events := b.events + [ThinkingGrown(b.thinkingOpen.value, text)])
  }

  /** Announces a call the first time its id is seen. */
  function Announced(a: Attempt, id: string, name: string): Attempt
  {
    if id in a.started then a else a.(started := a.started + {id}, events := a.events + [CallStarted(id, name)])
  }

  function OnToolDelta(a: Attempt, id: string, name: string, delta: string): Attempt
  {
    if id == "" then a
    else
      var b := Announced(a, id, name);
      b.(events := b.events + [CallGrown(id, delta)])
  }

  function ParsedInput(read: Reader, arguments: string): Option<Json>
  {
    if arguments == "" then Some(NO_ARGUMENTS) else read(arguments)
  }

  function OnToolEnd(read: Reader, a: Attempt, w: WireBlock): Attempt
  {
    var b := Announced(a, w.id, w.name);
    b.(events := b.events + [CallEnded(w.id, w.arguments)],
       calls := a.calls + [Call(w.id, w.name, ParsedInput(read, w.arguments))])
  }

  function CloseText(a: Attempt): Attempt
  {
    if a.textOpen.Some? then a.(textOpen := None, events := a.events + [TextEnded(a.textOpen.value)]) else a
  }

  function CloseThinking(a: Attempt): Attempt
  {
    if a.thinkingOpen.Some? then a.(thinkingOpen := None, events := a.events + [ThinkingEnded(a.thinkingOpen.value)]) else a
  }

  function OnBlockEnd(read: Reader, a: Attempt, w: WireBlock): Attempt
  {
    match w.wireType
    case ToolCallWire => OnToolEnd(read, a, w)
    case TextWire => CloseText(a)
    case ThinkingWire => CloseThinking(a)
    case _ => a
  }

  predicate CompleteUsage(u: Option<Usage>)
  {
    u.Some? && u.value.prompt.Some? && u.value.completion.Some? && u.value.total.Some?
  }

  /** A regular finish: closes what is open and reports the usage if it is complete. */
  function OnFinish(a: Attempt, kind: FinishKind): Attempt
  {
    var b := CloseThinking(CloseText(a.(kind := Some(kind))));
    if CompleteUsage(a.usage) then
      b.(events := b.events + [ModelCallEnded(a.usage.value.prompt.value, a.usage.value.completion.value, a.usage.value.total.value)])
    else b
  }

  predicate IsFailure(kind: FinishKind) { kind == Error || kind == Aborted }

  function FailureOf(r: FinishReason): LLMError
  {
    if r.failure.Some? then r.failure.value
    else if r.kind == Aborted then LLMError("aborted", "ABORTED") else LLMError("error", "ERROR")
  }

  /** What a chunk the assembler has taken does to the attempt. */
  function OnTaken(read: Reader, a: Attempt, c: Chunk): Attempt
  {
    match c
    case TextDelta(_, text) => OnTextDelta(a, text)
    case ReasoningDelta(_, text) => OnReasoningDelta(a, text)
    case ToolCallDelta(_, id, name, delta) => OnToolDelta(a, id, name, delta)
    case BlockEnd(_, w) => OnBlockEnd(read, a, w)
    case UsageChunk(u) => a.(usage := Some(u))
    case Finish(r) => if IsFailure(r.kind) then a else OnFinish(a, r.kind)
    case _ => a
  }

  /** One chunk: taken by the assembler or refused; an error finish is an error too. */
  function OnChunk(read: Reader, a: Attempt, c: Chunk): (Attempt, Option<LLMError>)
  {
    match Feed(a.asm, c)
    case Err(e) => (a, Some(e))
    case Ok(p) =>
      (OnTaken(read, a.(asm := p), c),
       if c.Finish? && IsFailure(c.reason.kind) then Some(FailureOf(c.reason)) else None)
  }

  /** The chunks up to the first error. */
  function Consume(read: Reader, a: Attempt, cs: seq<Chunk>): (Attempt, Option<LLMError>)
  {
    if cs == [] then (a, None) else
    var (b, error) := Consume(read, a, cs[..|cs| - 1]);
    if error.Some? then (b, error) else OnChunk(read, b, cs[|cs| - 1])
  }

  /** The arguments a call block is built with: falsy or unreadable input counts as no arguments. */
  function Arguments(c: Call): Json
  {
    if c.input.Some? && c.input.value.Truthy() then c.input.value else NO_ARGUMENTS
  }

  /** A call block accepts only an object as arguments. */
  predicate AllObjects(calls: seq<Call>)
  {
    calls == [] || (Arguments(calls[|calls| - 1]).JObj? && AllObjects(calls[..|calls| - 1]))
  }

  const INVALID_ARGUMENTS := LLMError("arguments must be an object", "unknown")

  function CallsKept(a: Attempt): seq<Call>
  {
    if a.kind == Some(MaxTokens) then [] else a.calls
  }

  function CallBlocksOf(calls: seq<Call>): seq<Block>
  {
    if calls == [] then []
    else
      var c := calls[|calls| - 1];
      CallBlocksOf(calls[..|calls| - 1]) + [ToolCallBlock(c.id, c.name, Arguments(c), Pending)]
  }

  /** The thinking and text blocks of what was said, without empty ones. */
  function Spoken(a: Attempt): seq<Block>
  {
    (if a.reasoning != "" then [ThinkingBlock(a.nextId, a.reasoning)] else [])
    + (if a.text != "" then [TextBlock(a.nextId + 1, a.text)] else [])
  }

  datatype AttemptEnd =
    | Succeeded(result: TurnResult)
    | FailedWith(error: LLMError)
    | WasCancelled

  /** Why an attempt that was not cancelled failed, if it did. */
  function FailureAfter(a: Attempt, error: Option<LLMError>, ending: StreamEnd): Option<LLMError>
  {
    if error.Some? then error
    else match ending
         case StreamRaised(e) => Some(e)
         case _ =>
           if Verdict(a.asm).Some? then Verdict(a.asm)
           else if !AllObjects(CallsKept(a)) then Some(INVALID_ARGUMENTS) else None
  }

  /** One whole attempt: its events, the blocks it writes, the next unused id, and how it ends. */
  datatype AttemptDone = AttemptDone(events: seq<Event>, blocks: seq<Block>, nextId: nat, end: AttemptEnd)

  function RunAttempt(read: Reader, nextId: nat, input: AttemptInput): AttemptDone
  {
    var (a, error) := Consume(read, NewAttempt(nextId), input.chunks);
    if error == None && input.ending == StreamCancelled then
      var b := CloseThinking(CloseText(a));
      AttemptDone(b.events, Spoken(b), b.nextId + 2, WasCancelled)
    else
      var failure := FailureAfter(a, error, input.ending);
      if failure.Some? then
        var b := CloseThinking(CloseText(a));
        AttemptDone(b.events, Spoken(b), b.nextId + 2, FailedWith(failure.value))
      else
        AttemptDone(a.events, Spoken(a) + CallBlocksOf(CallsKept(a)), a.nextId + 2,
                    Succeeded(TurnResult(a.text, a.reasoning, CallsKept(a), None)))
  }

  /** The calls an attempt hands on. */
  function CallsBy(end: AttemptEnd): seq<Call>
  {
    match end case Succeeded(result) => result.calls case _ => []
  }

  predicate Unretryable(code: string) { code == "auth_error" || code == "bad_request" || code == "content_filter" }

  /** Retry unless the hook or the error class says stop; never after the last attempt. */
  predicate ShouldRetry(error: LLMError, advice: Advice, isLast: bool)
  {
    !isLast && (if advice == NoAdvice then !Unretryable(error.code) else advice == RetryAdvice)
  }

  datatype ReasonEnd = TurnDone(result: TurnResult) | TurnCancelled

  function CallsIn(end: ReasonEnd): seq<Call>
  {
    match end case TurnDone(result) => result.calls case _ => []
  }

  /** A whole reasoning action; `snapshots` are the blocks already written at each request. */
  datatype ReasonDone = ReasonDone(events: seq<Event>, blocks: seq<Block>, nextId: nat, end: ReasonEnd, snapshots: seq<seq<Block>>)

  function ErrorResult(error: LLMError): TurnResult { TurnResult("", "", [], Some(error)) }

  function RunAttempts(read: Reader, k: nat, max: nat, so: ReasonDone, inputs: nat -> AttemptInput): ReasonDone
    requires k < max
    decreases max - k
  {
    var input := inputs(k);
    var d := RunAttempt(read, so.nextId, input);
    var now := ReasonDone(so.events + d.events, so.blocks + d.blocks, d.nextId, TurnCancelled, so.snapshots + [so.blocks]);
    match d.end
    case WasCancelled => now
    case Succeeded(result) => now.(end := TurnDone(result))
    case FailedWith(error) =>
      if input.waiting == CancelledInHook then now
      else if !ShouldRetry(error, input.advice, k == max - 1) then now.(end := TurnDone(ErrorResult(error)))
      else
        var retried := now.(events := now.events + [Retrying(error.code, k + 1)]);
        if input.waiting == CancelledInSleep then retried
        else RunAttempts(read, k + 1, max, retried, inputs)
  }

  /** The action from its start: an optional hint is written and sent first. */
  function Reason(read: Reader, hint: Option<string>, maxRetries: nat, nextId: nat, inputs: nat -> AttemptInput): ReasonDone
  {
    var start :=
      if hint.Some? then ReasonDone([HintGiven(nextId, hint.value)], [HintBlock(nextId, hint.value)], nextId + 1, TurnCancelled, [])
      else ReasonDone([], [], nextId, TurnCancelled, []);
    RunAttempts(read, 0, 1 + maxRetries, start, inputs)
  }
}
