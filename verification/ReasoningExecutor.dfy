/** The reasoning executor as it runs: chunk loop, retry loop, and the writes to the reply. */
module ReasoningExecutor {
  import opened Prelude
  import opened StreamChunks
  import opened BlockAssembly
  import opened Messages
  import opened Events
  import opened Reasoning

  /** The local variables of one attempt. */
  class AttemptRun {
    const read: Reader
    const assembler: BlockAssembler
    var text: string
    var reasoning: string
    var calls: seq<Call>
    var kind: Option<FinishKind>
    var usage: Option<Usage>
    var textOpen: Option<nat>
    var thinkingOpen: Option<nat>
    var started: set<string>
    var nextId: nat
    var events: seq<Event>

    ghost function Value(): Attempt
      reads this, assembler
    {
      Attempt(assembler.Value(), text, reasoning, calls, kind, usage, textOpen, thinkingOpen, started, nextId, events)
    }

    ghost predicate Valid()
      reads this, assembler
    {
      assembler.Valid()
    }

    constructor (read: Reader, nextId: nat)
      ensures Valid() && Value() == NewAttempt(nextId) && this.read == read && fresh(assembler)
    {
      this.read := read;
      assembler := new BlockAssembler();
      text, reasoning, calls, kind, usage := "", "", [], None, None;
      textOpen, thinkingOpen, started := None, None, {};
      this.nextId := nextId;
      events := [ModelCallStarted];
    }

    method TakeText(delta: string)
      modifies this
      ensures Value() == OnTextDelta(old(Value()), delta)
    {
      if textOpen == None {
        textOpen := Some(nextId);
        nextId := nextId + 1;
        events := events + [TextStarted(textOpen.value)];
      }
      text := text + delta;
      events := events + [TextGrown(textOpen.value, delta)];
    }

    method TakeReasoning(delta: string)
      modifies this
      ensures Value() == OnReasoningDelta(old(Value()), delta)
    {
      if thinkingOpen == None {
        thinkingOpen := Some(nextId);
        nextId := nextId + 1;
        events := events + [ThinkingStarted(thinkingOpen.value)];
      }
      reasoning := reasoning + delta;
      events := events + [ThinkingGrown(thinkingOpen.value, delta)];
    }

    method TakeToolDelta(id: string, name: string, delta: string)
      modifies this
      ensures Value() == OnToolDelta(old(Value()), id, name, delta)
    {
      if id != "" && id !in started {
        started := started + {id};
        events := events + [CallStarted(id, name)];
      }
      if id != "" { events := events + [CallGrown(id, delta)]; }
    }

    method TakeToolEnd(w: WireBlock)
      modifies this
      ensures Value() == OnToolEnd(read, old(Value()), w)
    {
      var input := if w.arguments == "" then Some(NO_ARGUMENTS) else read(w.arguments);
      if w.id !in started {
        started := started + {w.id};
        events := events + [CallStarted(w.id, w.name)];
      }
      events := events + [CallEnded(w.id, w.arguments)];
      calls := calls + [Call(w.id, w.name, input)];
    }

    method EndText()
      modifies this
      ensures Value() == CloseText(old(Value()))
    {
      if textOpen.Some? {
        events := events + [TextEnded(textOpen.value)];
        textOpen := None;
      }
    }

    method EndThinking()
      modifies this
      ensures Value() == CloseThinking(old(Value()))
    {
      if thinkingOpen.Some? {
        events := events + [ThinkingEnded(thinkingOpen.value)];
        thinkingOpen := None;
      }
    }

    method TakeFinish(k: FinishKind)
      modifies this
      ensures Value() == OnFinish(old(Value()), k)
    {
      kind := Some(k);
      EndText();
      EndThinking();
      if CompleteUsage(usage) {
        events := events + [ModelCallEnded(usage.value.prompt.value, usage.value.completion.value, usage.value.total.value)];
      }
    }

    /** One chunk of the stream: assembled first, then forwarded. */
    method TakeChunk(c: Chunk) returns (error: Option<LLMError>)
      requires Valid()
      modifies this, assembler
      ensures Valid() && (Value(), error) == OnChunk(read, old(Value()), c)
    {
      hide Feed, OnTextDelta, OnReasoningDelta, OnToolDelta, OnToolEnd, CloseText, CloseThinking, OnFinish, FailureOf;
      error := assembler.FeedChunk(c);
      if error.Some? { return; }
      match c
      case TextDelta(_, delta) => TakeText(delta);
      case ReasoningDelta(_, delta) => TakeReasoning(delta);
      case ToolCallDelta(_, id, name, delta) => TakeToolDelta(id, name, delta);
      case BlockEnd(_, w) =>
        match w.wireType {
          case ToolCallWire => TakeToolEnd(w);
          case TextWire => EndText();
          case ThinkingWire => EndThinking();
          case _ =>
        }
      case UsageChunk(u) => usage := Some(u);
      case Finish(r) =>
        if r.kind == Error || r.kind == Aborted {
          error := Some(FailureOf(r));
        } else {
          TakeFinish(r.kind);
        }
      case _ =>
    }

    method TakeChunks(cs: seq<Chunk>) returns (error: Option<LLMError>)
      requires Valid()
      modifies this, assembler
      ensures Valid() && (Value(), error) == Consume(read, old(Value()), cs)
    {
      error := None;
      ghost var a := Value();
      for i := 0 to |cs|
        invariant Valid() && error == None
        invariant Consume(read, a, cs[..i]) == (Value(), None)
      {
        assert cs[..i + 1][..i] == cs[..i];
        error := TakeChunk(cs[i]);
        if error.Some? {
          StaysFailed(read, a, cs, i + 1);
          return;
        }
      }
      assert cs[..|cs|] == cs;
    }

    method SpokenBlocks() returns (blocks: seq<Block>)
      ensures blocks == Spoken(Value())
    {
      blocks := [];
      if reasoning != "" { blocks := blocks + [ThinkingBlock(nextId, reasoning)]; }
      if text != "" { blocks := blocks + [TextBlock(nextId + 1, text)]; }
    }
  }

  lemma {:induction false} StaysFailed(read: Reader, a: Attempt, cs: seq<Chunk>, n: nat)
    requires n <= |cs| && Consume(read, a, cs[..n]).1.Some?
    ensures Consume(read, a, cs) == Consume(read, a, cs[..n])
    decreases |cs| - n
  {
    if n < |cs| {
      assert cs[..n + 1][..n] == cs[..n];
      StaysFailed(read, a, cs, n + 1);
    } else {
      assert cs[..n] == cs;
    }
  }

  /** One attempt from start to end. */
  method PerformAttempt(read: Reader, nextId: nat, input: AttemptInput) returns (done: AttemptDone)
    ensures done == RunAttempt(read, nextId, input)
  {
    var run := new AttemptRun(read, nextId);
    var error := run.TakeChunks(input.chunks);
    if error == None && input.ending == StreamCancelled {
      run.EndText();
      run.EndThinking();
      var blocks := run.SpokenBlocks();
      return AttemptDone(run.events, blocks, run.nextId + 2, WasCancelled);
    }
    var kept := if run.kind == Some(MaxTokens) then [] else run.calls;
    var failure := error;
    if failure == None && input.ending.StreamRaised? { failure := Some(input.ending.error); }
    if failure == None { failure := run.assembler.Validate(); }
    if failure == None && !AllObjects(kept) { failure := Some(INVALID_ARGUMENTS); }
    if failure.Some? {
      run.EndText();
      run.EndThinking();
      var blocks := run.SpokenBlocks();
      return AttemptDone(run.events, blocks, run.nextId + 2, FailedWith(failure.value));
    }
    var blocks := run.SpokenBlocks();
    blocks := blocks + CallBlocksOf(kept);
    done := AttemptDone(run.events, blocks, run.nextId + 2, Succeeded(TurnResult(run.text, run.reasoning, kept, None)));
  }

  /** The reasoning action: the hint, then attempts until one succeeds or none is left. */
  method PerformReasoning(read: Reader, hint: Option<string>, maxRetries: nat, nextId: nat, inputs: nat -> AttemptInput)
      returns (done: ReasonDone)
    ensures done == Reason(read, hint, maxRetries, nextId, inputs)
  {
    hide RunAttempt;
    done := ReasonDone([], [], nextId, TurnCancelled, []);
    if hint.Some? {
      done := ReasonDone([HintGiven(nextId, hint.value)], [HintBlock(nextId, hint.value)], nextId + 1, TurnCancelled, []);
    }
    ghost var start := done;
    var maxAttempts := 1 + maxRetries;
    var attempt := 0;
    while attempt < maxAttempts
      invariant 0 <= attempt < maxAttempts
      invariant RunAttempts(read, attempt, maxAttempts, done, inputs) == RunAttempts(read, 0, maxAttempts, start, inputs)
      decreases maxAttempts - attempt
    {
      var input := inputs(attempt);
      var d := PerformAttempt(read, done.nextId, input);
      done := ReasonDone(done.events + d.events, done.blocks + d.blocks, d.nextId, TurnCancelled, done.snapshots + [done.blocks]);
      match d.end
      case WasCancelled => return;
      case Succeeded(result) =>
        done := done.(end := TurnDone(result));
        return;
      case FailedWith(error) =>
        if input.waiting == CancelledInHook { return; }
        if !ShouldRetry(error, input.advice, attempt == maxAttempts - 1) {
          done := done.(end := TurnDone(ErrorResult(error)));
          return;
        }
        done := done.(events := done.events + [Retrying(error.code, attempt + 1)]);
        if input.waiting == CancelledInSleep { return; }
        attempt := attempt + 1;
    }
  }
}
