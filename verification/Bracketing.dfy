/**
 * What every reasoning action guarantees about its events, whatever the model streams and however
 * the attempts end: starts and ends are bracketed, deltas name the open block, nothing said is lost
 * on the way into the reply, and the number of model calls is bounded.
 */
module Bracketing {
  import opened Prelude
  import opened StreamChunks
  import opened BlockAssembly
  import opened Messages
  import opened Events
  import opened Reasoning

  /** The text and thinking blocks open after some events; `Bad` once the bracketing is violated. */
  datatype Track = Bad | Track(text: Option<nat>, thinking: Option<nat>)

  const CLOSED: Track := Track(None, None)

  function AfterEvent(t: Track, e: Event): Track
  {
    if t.Bad? then Bad else
    match e
    case TextStarted(id) => if t.text == None then t.(text := Some(id)) else Bad
    case TextGrown(id, _) => if t.text == Some(id) then t else Bad
    case TextEnded(id) => if t.text == Some(id) then t.(text := None) else Bad
    case ThinkingStarted(id) => if t.thinking == None then t.(thinking := Some(id)) else Bad
    case ThinkingGrown(id, _) => if t.thinking == Some(id) then t else Bad
    case ThinkingEnded(id) => if t.thinking == Some(id) then t.(thinking := None) else Bad
    case _ => t
  }

  function AfterEvents(t: Track, es: seq<Event>): Track
  {
    if es == [] then t else AfterEvent(AfterEvents(t, es[..|es| - 1]), es[|es| - 1])
  }

  function TextSent(es: seq<Event>): string
  {
    if es == [] then ""
    else TextSent(es[..|es| - 1]) + (if es[|es| - 1].TextGrown? then es[|es| - 1].delta else "")
  }

  function ThinkingSent(es: seq<Event>): string
  {
    if es == [] then ""
    else ThinkingSent(es[..|es| - 1]) + (if es[|es| - 1].ThinkingGrown? then es[|es| - 1].delta else "")
  }

  function ModelCalls(es: seq<Event>): nat
  {
    if es == [] then 0 else ModelCalls(es[..|es| - 1]) + (if es[|es| - 1].ModelCallStarted? then 1 else 0)
  }

  function TextWritten(bs: seq<Block>): string
  {
    if bs == [] then ""
    else TextWritten(bs[..|bs| - 1]) + (if bs[|bs| - 1].TextBlock? then bs[|bs| - 1].text else "")
  }

  function ThinkingWritten(bs: seq<Block>): string
  {
    if bs == [] then ""
    else ThinkingWritten(bs[..|bs| - 1]) + (if bs[|bs| - 1].ThinkingBlock? then bs[|bs| - 1].thinking else "")
  }

  // ---------------------------------------------------------------------------
  // One attempt
  // ---------------------------------------------------------------------------

  /** The attempt's open ids match its events, and its totals are what its deltas carried. */
  ghost predicate Faithful(a: Attempt)
  {
    && AfterEvents(CLOSED, a.events) == Track(a.textOpen, a.thinkingOpen)
    && TextSent(a.events) == a.text
    && ThinkingSent(a.events) == a.reasoning
    && ModelCalls(a.events) == 1
  }

  lemma {:induction false} EventSnoc(es: seq<Event>, e: Event)
    ensures (es + [e])[..|es|] == es && (es + [e])[|es|] == e
    ensures AfterEvents(CLOSED, es + [e]) == AfterEvent(AfterEvents(CLOSED, es), e)
    ensures TextSent(es + [e]) == TextSent(es) + if e.TextGrown? then e.delta else ""
    ensures ThinkingSent(es + [e]) == ThinkingSent(es) + if e.ThinkingGrown? then e.delta else ""
    ensures ModelCalls(es + [e]) == ModelCalls(es) + if e.ModelCallStarted? then 1 else 0
  {
    assert (es + [e])[..|es|] == es;
  }

  /** Sending an event that is neither a delta nor a model call start. */
  lemma {:induction false} QuietEvent(a: Attempt, e: Event, b: Attempt)
    requires Faithful(a) && !e.TextGrown? && !e.ThinkingGrown? && !e.ModelCallStarted?
    requires b.events == a.events + [e] && b.text == a.text && b.reasoning == a.reasoning
    requires AfterEvent(Track(a.textOpen, a.thinkingOpen), e) == Track(b.textOpen, b.thinkingOpen)
    ensures Faithful(b)
  {
    EventSnoc(a.events, e);
    assert a.text + "" == a.text && a.reasoning + "" == a.reasoning;
  }

  lemma {:induction false} TextDeltaFaithful(a: Attempt, text: string)
    requires Faithful(a)
    ensures Faithful(OnTextDelta(a, text))
  {
    var b := a;
    if a.textOpen == None {
      b := a.(textOpen := Some(a.nextId), nextId := a.nextId + 1, events := a.events + [TextStarted(a.nextId)]);
      QuietEvent(a, TextStarted(a.nextId), b);
    }
    EventSnoc(b.events, TextGrown(b.textOpen.value, text));
    assert b.reasoning + "" == b.reasoning;
  }

  lemma {:induction false} ReasoningDeltaFaithful(a: Attempt, text: string)
    requires Faithful(a)
    ensures Faithful(OnReasoningDelta(a, text))
  {
    var b := a;
    if a.thinkingOpen == None {
      b := a.(thinkingOpen := Some(a.nextId), nextId := a.nextId + 1, events := a.events + [ThinkingStarted(a.nextId)]);
      QuietEvent(a, ThinkingStarted(a.nextId), b);
    }
    EventSnoc(b.events, ThinkingGrown(b.thinkingOpen.value, text));
    assert b.text + "" == b.text;
  }

  lemma {:induction false} AnnouncedFaithful(a: Attempt, id: string, name: string)
    requires Faithful(a)
    ensures Faithful(Announced(a, id, name))
  {
    if id !in a.started {
      QuietEvent(a, CallStarted(id, name), Announced(a, id, name));
    }
  }

  lemma {:induction false} ToolDeltaFaithful(a: Attempt, id: string, name: string, delta: string)
    requires Faithful(a)
    ensures Faithful(OnToolDelta(a, id, name, delta))
  {
    if id != "" {
      AnnouncedFaithful(a, id, name);
      QuietEvent(Announced(a, id, name), CallGrown(id, delta), OnToolDelta(a, id, name, delta));
    }
  }

  lemma {:induction false} ToolEndFaithful(read: Reader, a: Attempt, w: WireBlock)
    requires Faithful(a)
    ensures Faithful(OnToolEnd(read, a, w))
  {
    AnnouncedFaithful(a, w.id, w.name);
    QuietEvent(Announced(a, w.id, w.name), CallEnded(w.id, w.arguments), OnToolEnd(read, a, w));
  }

  lemma {:induction false} CloseFaithful(a: Attempt)
    requires Faithful(a)
    ensures Faithful(CloseText(a)) && Faithful(CloseThinking(a))
    ensures Faithful(CloseThinking(CloseText(a)))
  {
    if a.textOpen.Some? { QuietEvent(a, TextEnded(a.textOpen.value), CloseText(a)); }
    if a.thinkingOpen.Some? { QuietEvent(a, ThinkingEnded(a.thinkingOpen.value), CloseThinking(a)); }
    var b := CloseText(a);
    if b.thinkingOpen.Some? { QuietEvent(b, ThinkingEnded(b.thinkingOpen.value), CloseThinking(b)); }
  }

  lemma {:induction false} FinishFaithful(a: Attempt, kind: FinishKind)
    requires Faithful(a)
    ensures Faithful(OnFinish(a, kind)) && OnFinish(a, kind).textOpen == None && OnFinish(a, kind).thinkingOpen == None
  {
    CloseFaithful(a.(kind := Some(kind)));
    var b := CloseThinking(CloseText(a.(kind := Some(kind))));
    if CompleteUsage(a.usage) {
      QuietEvent(b, ModelCallEnded(a.usage.value.prompt.value, a.usage.value.completion.value, a.usage.value.total.value), OnFinish(a, kind));
    }
  }

  lemma {:induction false} TakenFaithful(read: Reader, a: Attempt, c: Chunk)
    requires Faithful(a)
    ensures Faithful(OnTaken(read, a, c))
  {
    match c
    case TextDelta(_, text) => TextDeltaFaithful(a, text);
    case ReasoningDelta(_, text) => ReasoningDeltaFaithful(a, text);
    case ToolCallDelta(_, id, name, delta) => ToolDeltaFaithful(a, id, name, delta);
    case BlockEnd(_, w) =>
      if w.wireType.ToolCallWire? { ToolEndFaithful(read, a, w); } else { CloseFaithful(a); }
    case Finish(r) =>
      if !IsFailure(r.kind) { FinishFaithful(a, r.kind); }
    case _ =>
  }

  lemma {:induction false} ConsumeFaithful(read: Reader, nextId: nat, cs: seq<Chunk>)
    ensures Faithful(Consume(read, NewAttempt(nextId), cs).0)
  {
    if cs == [] {
      var a := NewAttempt(nextId);
      assert a.events[..0] == [];
      assert TextSent([]) == "" && ThinkingSent([]) == "" && ModelCalls([]) == 0 && AfterEvents(CLOSED, []) == CLOSED;
    } else {
      ConsumeFaithful(read, nextId, cs[..|cs| - 1]);
      var (b, error) := Consume(read, NewAttempt(nextId), cs[..|cs| - 1]);
      var c := cs[|cs| - 1];
      if error == None && Feed(b.asm, c).Ok? {
        TakenFaithful(read, b.(asm := Feed(b.asm, c).value), c);
      }
    }
  }

  /** Once a regular finish has been taken, no text or thinking block stays open. */
  lemma {:induction false} FinishedIsClosed(read: Reader, nextId: nat, cs: seq<Chunk>)
    ensures var (a, error) := Consume(read, NewAttempt(nextId), cs);
      error == None && a.asm.Finished() ==> a.textOpen == None && a.thinkingOpen == None
  {
    hide Faithful, AfterEvents;
    if cs != [] {
      var init, c := cs[..|cs| - 1], cs[|cs| - 1];
      FinishedIsClosed(read, nextId, init);
      var (b, error) := Consume(read, NewAttempt(nextId), init);
      if error == None && Feed(b.asm, c).Ok? && c.Finish? && !IsFailure(c.reason.kind) {
        ConsumeFaithful(read, nextId, init);
        FinishFaithful(b.(asm := Feed(b.asm, c).value), c.reason.kind);
      }
    }
  }

  lemma {:induction false} SpokenWrites(a: Attempt)
    ensures TextWritten(Spoken(a)) == a.text && ThinkingWritten(Spoken(a)) == a.reasoning
  {
    var t := if a.reasoning != "" then [ThinkingBlock(a.nextId, a.reasoning)] else [];
    var s := if a.text != "" then [TextBlock(a.nextId + 1, a.text)] else [];
    WrittenAppend(t, s);
    OneWritten(ThinkingBlock(a.nextId, a.reasoning));
    OneWritten(TextBlock(a.nextId + 1, a.text));
    assert TextWritten([]) == "" && ThinkingWritten([]) == "";
    assert "" + a.text == a.text && a.reasoning + "" == a.reasoning;
  }

  lemma {:induction false} OneWritten(b: Block)
    ensures TextWritten([b]) == (if b.TextBlock? then b.text else "")
    ensures ThinkingWritten([b]) == (if b.ThinkingBlock? then b.thinking else "")
  {
    assert [b][..0] == [];
    assert TextWritten([]) == "" && ThinkingWritten([]) == "";
    assert b.TextBlock? ==> "" + b.text == b.text;
    assert b.ThinkingBlock? ==> "" + b.thinking == b.thinking;
  }

  lemma {:induction false} WrittenAppend(a: seq<Block>, b: seq<Block>)
    ensures TextWritten(a + b) == TextWritten(a) + TextWritten(b)
    ensures ThinkingWritten(a + b) == ThinkingWritten(a) + ThinkingWritten(b)
  {
    if b == [] {
      assert a + b == a;
      assert TextWritten(a) + "" == TextWritten(a) && ThinkingWritten(a) + "" == ThinkingWritten(a);
    } else {
      var init, last := b[..|b| - 1], b[|b| - 1];
      assert (a + b)[..|a + b| - 1] == a + init;
      WrittenAppend(a, init);
      var t, k := if last.TextBlock? then last.text else "", if last.ThinkingBlock? then last.thinking else "";
      assert (TextWritten(a) + TextWritten(init)) + t == TextWritten(a) + (TextWritten(init) + t);
      assert (ThinkingWritten(a) + ThinkingWritten(init)) + k == ThinkingWritten(a) + (ThinkingWritten(init) + k);
    }
  }

  lemma {:induction false} CallsWriteNothing(calls: seq<Call>)
    ensures TextWritten(CallBlocksOf(calls)) == "" && ThinkingWritten(CallBlocksOf(calls)) == ""
  {
    if calls != [] {
      CallsWriteNothing(calls[..|calls| - 1]);
      var c := calls[|calls| - 1];
      var b := ToolCallBlock(c.id, c.name, Arguments(c), Pending);
      WrittenAppend(CallBlocksOf(calls[..|calls| - 1]), [b]);
      OneWritten(b);
    }
  }

  /** What holds of a stretch of events and the blocks written with it. */
  ghost predicate Sound(es: seq<Event>, bs: seq<Block>, calls: nat)
  {
    && AfterEvents(CLOSED, es) == CLOSED
    && TextSent(es) == TextWritten(bs)
    && ThinkingSent(es) == ThinkingWritten(bs)
    && ModelCalls(es) == calls
  }

  lemma {:induction false} AttemptSound(read: Reader, nextId: nat, input: AttemptInput)
    ensures var d := RunAttempt(read, nextId, input); Sound(d.events, d.blocks, 1)
  {
    hide Consume, AfterEvents, TextSent, ThinkingSent, ModelCalls, TextWritten, ThinkingWritten, AllObjects, CallBlocksOf, Spoken;
    var (a, error) := Consume(read, NewAttempt(nextId), input.chunks);
    ConsumeFaithful(read, nextId, input.chunks);
    CloseFaithful(a);
    var b := CloseThinking(CloseText(a));
    SpokenWrites(b);
    if !(error == None && input.ending == StreamCancelled) && FailureAfter(a, error, input.ending) == None {
      FinishedIsClosed(read, nextId, input.chunks);
      SpokenWrites(a);
      CallsWriteNothing(CallsKept(a));
      WrittenAppend(Spoken(a), CallBlocksOf(CallsKept(a)));
      assert a.text + "" == a.text && a.reasoning + "" == a.reasoning;
    }
  }

  // ---------------------------------------------------------------------------
  // All attempts
  // ---------------------------------------------------------------------------

  lemma {:induction false} EventsAppend(t: Track, a: seq<Event>, b: seq<Event>)
    ensures AfterEvents(t, a + b) == AfterEvents(AfterEvents(t, a), b)
    ensures TextSent(a + b) == TextSent(a) + TextSent(b)
    ensures ThinkingSent(a + b) == ThinkingSent(a) + ThinkingSent(b)
    ensures ModelCalls(a + b) == ModelCalls(a) + ModelCalls(b)
  {
    if b == [] {
      assert a + b == a;
      assert TextSent(a) + "" == TextSent(a) && ThinkingSent(a) + "" == ThinkingSent(a);
    } else {
      var init, e := b[..|b| - 1], b[|b| - 1];
      assert (a + b)[..|a + b| - 1] == a + init;
      EventsAppend(t, a, init);
      var x, y := if e.TextGrown? then e.delta else "", if e.ThinkingGrown? then e.delta else "";
      assert (TextSent(a) + TextSent(init)) + x == TextSent(a) + (TextSent(init) + x);
      assert (ThinkingSent(a) + ThinkingSent(init)) + y == ThinkingSent(a) + (ThinkingSent(init) + y);
    }
  }

  lemma {:induction false} SoundAppend(e1: seq<Event>, b1: seq<Block>, n1: nat, e2: seq<Event>, b2: seq<Block>, n2: nat)
    requires Sound(e1, b1, n1) && Sound(e2, b2, n2)
    ensures Sound(e1 + e2, b1 + b2, n1 + n2)
  {
    EventsAppend(CLOSED, e1, e2);
    WrittenAppend(b1, b2);
  }

  lemma {:induction false} QuietSound(e: Event)
    requires e.Retrying? || e.HintGiven?
    ensures Sound([e], [], 0)
  {
    EventSnoc([], e);
    assert [] + [e] == [e];
    assert TextSent([]) == "" && ThinkingSent([]) == "" && TextWritten([]) == "" && ThinkingWritten([]) == "";
  }

  lemma {:induction false} AttemptsSound(read: Reader, k: nat, max: nat, so: ReasonDone, inputs: nat -> AttemptInput)
    requires k < max && |so.snapshots| == k && Sound(so.events, so.blocks, k)
    ensures var d := RunAttempts(read, k, max, so, inputs);
      Sound(d.events, d.blocks, |d.snapshots|) && k < |d.snapshots| <= max
    decreases max - k
  {
    hide Sound, RunAttempt;
    var input := inputs(k);
    var d := RunAttempt(read, so.nextId, input);
    AttemptSound(read, so.nextId, input);
    SoundAppend(so.events, so.blocks, k, d.events, d.blocks, 1);
    if d.end.FailedWith? && input.waiting != CancelledInHook && ShouldRetry(d.end.error, input.advice, k == max - 1) {
      var now := ReasonDone(so.events + d.events, so.blocks + d.blocks, d.nextId, TurnCancelled, so.snapshots + [so.blocks]);
      var e := Retrying(d.end.error.code, k + 1);
      QuietSound(e);
      SoundAppend(now.events, now.blocks, k + 1, [e], [], 0);
      assert now.blocks + [] == now.blocks;
      if input.waiting != CancelledInSleep {
        AttemptsSound(read, k + 1, max, now.(events := now.events + [e]), inputs);
      }
    }
  }

  /**
   * For every model stream, malformed, failing or cancelled: the events are bracketed, all text and
   * thinking sent as deltas over all attempts is what was written to the reply, and there are
   * between one and `1 + maxRetries` model calls whatever the error hook advises.
   */
  lemma {:induction false} ReasoningSound(read: Reader, hint: Option<string>, maxRetries: nat, nextId: nat, inputs: nat -> AttemptInput)
    ensures var d := Reason(read, hint, maxRetries, nextId, inputs);
      Sound(d.events, d.blocks, |d.snapshots|) && 1 <= |d.snapshots| <= 1 + maxRetries
  {
    var start :=
      if hint.Some? then ReasonDone([HintGiven(nextId, hint.value)], [HintBlock(nextId, hint.value)], nextId + 1, TurnCancelled, [])
      else ReasonDone([], [], nextId, TurnCancelled, []);
    if hint.Some? {
      QuietSound(HintGiven(nextId, hint.value));
      OneWritten(HintBlock(nextId, hint.value));
    }
    AttemptsSound(read, 0, 1 + maxRetries, start, inputs);
  }
}
