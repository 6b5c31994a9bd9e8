/**
 * The projection conditions on the Chat Completions path: text and thinking are always orderly, so
 * only the calls can set a host apart from the runner.
 */
module CompletionsProjection {
  import opened Prelude
  import opened StreamChunks
  import opened BlockAssembly
  import CompletionsAdapter
  import opened Messages
  import opened Events
  import opened Reasoning
  import opened Views
  import opened Bracketing
  import opened AttemptFold
  import opened Agreement

  /** A chunk from the body of a turn: it opens a block or adds something to one. */
  predicate BodyChunk(c: Chunk)
  {
    match c
    case BlockStart(_, _) => true
    case TextDelta(_, text) => text != ""
    case ReasoningDelta(_, text) => text != ""
    case ToolCallDelta(_, _, _, _) => true
    case _ => false
  }

  /** A chunk from the tail of a turn: it adds nothing. */
  predicate TailChunk(c: Chunk) { c.BlockEnd? || c.UsageChunk? || c.Finish? }

  ghost predicate Body(cs: seq<Chunk>) { forall i :: 0 <= i < |cs| ==> BodyChunk(cs[i]) }

  ghost predicate Tail(cs: seq<Chunk>) { forall i :: 0 <= i < |cs| ==> TailChunk(cs[i]) }

  // ---------------------------------------------------------------------------
  // The adapter sends a body, then a tail
  // ---------------------------------------------------------------------------

  lemma {:induction false} ToolBody(s: CompletionsAdapter.Stage, ds: seq<CompletionsAdapter.ToolDelta>)
    requires Body(s.out)
    ensures Body(CompletionsAdapter.OnToolDeltas(s, ds).out)
  {
    if ds != [] { ToolBody(s, ds[..|ds| - 1]); }
  }

  lemma {:induction false} SpeechBody(s: CompletionsAdapter.Stage, c: CompletionsAdapter.Choice)
    requires Body(s.out)
    ensures Body(CompletionsAdapter.OnText(CompletionsAdapter.OnReasoning(s, c.reasoning), c.content).out)
  {
  }

  lemma {:induction false} ConsumedBody(pcs: seq<CompletionsAdapter.ProviderChunk>)
    ensures Body(CompletionsAdapter.Consumed(pcs).out)
  {
    hide CompletionsAdapter.OnToolDeltas, CompletionsAdapter.OnText, CompletionsAdapter.OnReasoning;
    if pcs != [] {
      var pc := pcs[|pcs| - 1];
      ConsumedBody(pcs[..|pcs| - 1]);
      var s := CompletionsAdapter.Consumed(pcs[..|pcs| - 1]);
      var metered := if pc.usage.Some? then s.(usage := pc.usage) else s;
      if pc.choice.Some? {
        var c := pc.choice.value;
        SpeechBody(metered, c);
        ToolBody(CompletionsAdapter.OnText(CompletionsAdapter.OnReasoning(metered, c.reasoning), c.content), c.toolDeltas);
      }
    }
  }

  lemma {:induction false} ToolTail(s: CompletionsAdapter.Stage, wires: seq<int>)
    ensures Tail(CompletionsAdapter.ToolEnds(s, wires).0)
  {
    if wires != [] { ToolTail(s, wires[1..]); }
  }

  /** Every turn, however it ends, is a body followed by a tail. */
  lemma {:induction false} OutputParts(pcs: seq<CompletionsAdapter.ProviderChunk>, ending: CompletionsAdapter.Ending)
      returns (body: seq<Chunk>, tail: seq<Chunk>)
    ensures CompletionsAdapter.StreamOutput(pcs, ending) == body + tail && Body(body) && Tail(tail)
  {
    hide CompletionsAdapter.Consumed, CompletionsAdapter.ToolEnds, CompletionsAdapter.Sorted;
    var s := CompletionsAdapter.Consumed(pcs);
    ConsumedBody(pcs);
    ToolTail(s, CompletionsAdapter.Sorted(s.items.Keys));
    body := s.out;
    tail := if ending.Failed? then [CompletionsAdapter.ErrorFinish("", ending.error)] else CompletionsAdapter.ClosingChunks(s);
  }

  // ---------------------------------------------------------------------------
  // Such turns speak once
  // ---------------------------------------------------------------------------

  /** So far at most one block of each kind was started, and it is still open and not empty. */
  ghost predicate SpeaksOnce(a: Attempt)
  {
    && StartCount(a.events, TextKind) == (if a.textOpen.Some? then 1 else 0)
    && StartCount(a.events, ThinkingKind) == (if a.thinkingOpen.Some? then 1 else 0)
    && (a.textOpen.Some? ==> a.text != "")
    && (a.thinkingOpen.Some? ==> a.reasoning != "")
  }

  lemma {:induction false} BodyOnce(read: Reader, a: Attempt, c: Chunk)
    requires SpeaksOnce(a) && BodyChunk(c)
    ensures SpeaksOnce(OnTaken(read, a, c))
  {
    hide StartCount;
    match c
    case TextDelta(_, text) =>
      StartCountSnoc(a.events, TextStarted(a.nextId), TextKind);
      StartCountSnoc(a.events, TextStarted(a.nextId), ThinkingKind);
      var b := if a.textOpen.Some? then a
               else a.(textOpen := Some(a.nextId), nextId := a.nextId + 1, events := a.events + [TextStarted(a.nextId)]);
      StartCountSnoc(b.events, TextGrown(b.textOpen.value, text), TextKind);
      StartCountSnoc(b.events, TextGrown(b.textOpen.value, text), ThinkingKind);
      assert |a.text + text| > 0;
    case ReasoningDelta(_, text) =>
      StartCountSnoc(a.events, ThinkingStarted(a.nextId), TextKind);
      StartCountSnoc(a.events, ThinkingStarted(a.nextId), ThinkingKind);
      var b := if a.thinkingOpen.Some? then a
               else a.(thinkingOpen := Some(a.nextId), nextId := a.nextId + 1, events := a.events + [ThinkingStarted(a.nextId)]);
      StartCountSnoc(b.events, ThinkingGrown(b.thinkingOpen.value, text), TextKind);
      StartCountSnoc(b.events, ThinkingGrown(b.thinkingOpen.value, text), ThinkingKind);
      assert |a.reasoning + text| > 0;
    case ToolCallDelta(_, id, name, delta) =>
      forall k
        ensures StartCount(OnTaken(read, a, c).events, k) == StartCount(a.events, k)
      {
        StartCountSnoc(a.events, CallStarted(id, name), k);
        StartCountSnoc(Announced(a, id, name).events, CallGrown(id, delta), k);
      }
    case _ =>
  }

  /** At most one block of each kind was started, and none is empty. */
  ghost predicate SpokeOnce(a: Attempt)
  {
    && OneBlock(StartCount(a.events, TextKind), a.text)
    && OneBlock(StartCount(a.events, ThinkingKind), a.reasoning)
  }

  /** Closing starts nothing and says nothing. */
  ghost predicate Closes(a: Attempt, b: Attempt)
  {
    && b.text == a.text && b.reasoning == a.reasoning
    && forall k :: StartCount(b.events, k) == StartCount(a.events, k)
  }

  lemma {:induction false} CloseCloses(a: Attempt)
    ensures Closes(a, CloseText(a)) && Closes(a, CloseThinking(a))
  {
    hide StartCount;
    forall k
      ensures StartCount(CloseText(a).events, k) == StartCount(a.events, k)
      ensures StartCount(CloseThinking(a).events, k) == StartCount(a.events, k)
    {
      if a.textOpen.Some? { StartCountSnoc(a.events, TextEnded(a.textOpen.value), k); }
      if a.thinkingOpen.Some? { StartCountSnoc(a.events, ThinkingEnded(a.thinkingOpen.value), k); }
    }
  }

  lemma {:induction false} ToolEndCloses(read: Reader, a: Attempt, w: WireBlock)
    ensures Closes(a, OnToolEnd(read, a, w))
  {
    hide StartCount;
    forall k
      ensures StartCount(OnToolEnd(read, a, w).events, k) == StartCount(a.events, k)
    {
      StartCountSnoc(a.events, CallStarted(w.id, w.name), k);
      StartCountSnoc(Announced(a, w.id, w.name).events, CallEnded(w.id, w.arguments), k);
    }
  }

  lemma {:induction false} FinishCloses(a: Attempt, kind: FinishKind)
    ensures Closes(a, OnFinish(a, kind))
  {
    hide StartCount, CloseText, CloseThinking;
    var marked := a.(kind := Some(kind));
    CloseCloses(marked);
    CloseCloses(CloseText(marked));
    var b := CloseThinking(CloseText(marked));
    forall k
      ensures StartCount(OnFinish(a, kind).events, k) == StartCount(b.events, k)
    {
      if CompleteUsage(a.usage) {
        var u := a.usage.value;
        StartCountSnoc(b.events, ModelCallEnded(u.prompt.value, u.completion.value, u.total.value), k);
      }
    }
  }

  lemma {:induction false} TailCloses(read: Reader, a: Attempt, c: Chunk)
    requires TailChunk(c)
    ensures Closes(a, OnTaken(read, a, c))
  {
    hide StartCount, CloseText, CloseThinking, OnFinish, OnToolEnd;
    match c
    case BlockEnd(_, w) =>
      CloseCloses(a);
      ToolEndCloses(read, a, w);
    case Finish(r) => FinishCloses(a, r.kind);
    case _ =>
  }

  lemma {:induction false} ConsumeBody(read: Reader, nextId: nat, cs: seq<Chunk>)
    requires Body(cs)
    ensures SpeaksOnce(Consume(read, NewAttempt(nextId), cs).0)
  {
    hide Feed, OnTaken, StartCount, SpeaksOnce;
    if cs == [] {
      NewOnce(nextId);
    } else {
      var c := cs[|cs| - 1];
      ConsumeBody(read, nextId, cs[..|cs| - 1]);
      var (b, error) := Consume(read, NewAttempt(nextId), cs[..|cs| - 1]);
      if error.None? && Feed(b.asm, c).Ok? {
        SameOnce(b, b.(asm := Feed(b.asm, c).value));
        BodyOnce(read, b.(asm := Feed(b.asm, c).value), c);
      }
    }
  }

  lemma NewOnce(nextId: nat)
    ensures SpeaksOnce(NewAttempt(nextId))
  {
    assert [ModelCallStarted][..0] == [];
  }

  lemma SameOnce(a: Attempt, b: Attempt)
    requires SpeaksOnce(a) && b == a.(asm := b.asm)
    ensures SpeaksOnce(b)
  {
  }

  lemma ClosesTrans(a: Attempt, b: Attempt, c: Attempt)
    requires Closes(a, b) && Closes(b, c)
    ensures Closes(a, c)
  {
  }

  lemma {:induction false} ConsumeTail(read: Reader, nextId: nat, body: seq<Chunk>, tail: seq<Chunk>)
    requires Body(body) && Tail(tail)
    ensures SpokeOnce(Consume(read, NewAttempt(nextId), body + tail).0)
  {
    hide Feed, OnTaken, StartCount, Closes;
    if tail == [] {
      assert body + tail == body;
      ConsumeBody(read, nextId, body);
    } else {
      var init, c := tail[..|tail| - 1], tail[|tail| - 1];
      var cs := body + tail;
      assert cs[..|cs| - 1] == body + init;
      ConsumeTail(read, nextId, body, init);
      var (b, error) := Consume(read, NewAttempt(nextId), body + init);
      if error.None? && Feed(b.asm, c).Ok? {
        var taken := b.(asm := Feed(b.asm, c).value);
        TailCloses(read, taken, c);
        ClosesOnce(taken, OnTaken(read, taken, c));
      }
    }
  }

  lemma ClosesOnce(a: Attempt, b: Attempt)
    requires SpokeOnce(a) && Closes(a, b)
    ensures SpokeOnce(b)
  {
    hide StartCount;
  }

  /**
   * On the Chat Completions path an attempt is orderly exactly when its calls are, whatever the
   * provider sends and however the stream and the attempt end.
   */
  lemma {:induction false} CompletionsOrderlyIffCallsAre(read: Reader, nextId: nat, input: AttemptInput,
                                                         pcs: seq<CompletionsAdapter.ProviderChunk>, ending: CompletionsAdapter.Ending)
    requires input.chunks == CompletionsAdapter.StreamOutput(pcs, ending)
    ensures var d := RunAttempt(read, nextId, input);
      Orderly(read, d.events, CallsBy(d.end)) <==> OrderlyCalls(read, d.events, CallsBy(d.end))
  {
    hide Consume, CompletionsAdapter.StreamOutput, OrderlyCalls, StartCount, RunAttempt, FailureAfter, CloseText, CloseThinking, Closes, Tracked, Spoke, AfterEvents;
    var body, tail := OutputParts(pcs, ending);
    ConsumeTail(read, nextId, body, tail);
    var a := Consume(read, NewAttempt(nextId), input.chunks).0;
    CloseCloses(a);
    CloseCloses(CloseText(a));
    ClosesTrans(a, CloseText(a), CloseThinking(CloseText(a)));
    ClosesOnce(a, CloseThinking(CloseText(a)));
    ConcludedIs(read, nextId, input);
    ConcludedTracked(read, nextId, input);
  }
}
