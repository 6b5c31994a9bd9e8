/**
 * Which model streams keep a host and the runner in agreement, read off the chunks before any of
 * them is handled: the condition on an attempt's events, moved to the attempt's input.
 */
module StreamOrder {
  import opened Prelude
  import opened StreamChunks
  import opened BlockAssembly
  import opened Events
  import opened Reasoning
  import opened Bracketing
  import opened AttemptFold
  import opened Agreement
  import opened Forwarding
  import CompletionsProjection

  // ---------------------------------------------------------------------------
  // Calls and blocks, read off the chunks
  // ---------------------------------------------------------------------------

  /** The call a chunk names: a tool delta with an id, or the end of a tool block. */
  function NamedBy(c: Chunk): seq<Named>
  {
    match c
    case ToolCallDelta(_, id, name, _) => if id != "" then [Named(id, name)] else []
    case BlockEnd(_, w) => if w.wireType == ToolCallWire then [Named(w.id, w.name)] else []
    case _ => []
  }

  function AllNamed(cs: seq<Chunk>): seq<Named>
  {
    if cs == [] then [] else AllNamed(cs[..|cs| - 1]) + NamedBy(cs[|cs| - 1])
  }

  predicate Mentioned(ns: seq<Named>, id: string) { exists i :: 0 <= i < |ns| && ns[i].id == id }

  /** Only the first mention of each id. */
  function FirstMentions(ns: seq<Named>): seq<Named>
  {
    if ns == [] then []
    else
      var before, n := FirstMentions(ns[..|ns| - 1]), ns[|ns| - 1];
      if Mentioned(before, n.id) then before else before + [n]
  }

  /** The argument text heard for a call since its block last ended. */
  function Heard(cs: seq<Chunk>, id: string): string
  {
    if cs == [] then ""
    else
      var before := Heard(cs[..|cs| - 1], id);
      match cs[|cs| - 1]
      case ToolCallDelta(_, x, _, delta) => if x == id && id != "" then before + delta else before
      case BlockEnd(_, w) => if w.wireType == ToolCallWire && w.id == id then "" else before
      case _ => before
  }

  /** The tool blocks that end, each with its own arguments and those heard before. */
  function Closings(cs: seq<Chunk>): seq<Ending>
  {
    if cs == [] then []
    else
      var init, c := cs[..|cs| - 1], cs[|cs| - 1];
      Closings(init) +
      if c.BlockEnd? && c.block.wireType == ToolCallWire then [Ending(c.block.id, c.block.arguments, Heard(init, c.block.id))] else []
  }

  predicate Says(c: Chunk, k: Kind) { (k == TextKind && c.TextDelta?) || (k == ThinkingKind && c.ReasoningDelta?) }

  predicate Stops(c: Chunk, k: Kind)
  {
    || (c.Finish? && !FailingFinish(c))
    || (c.BlockEnd? && ((k == TextKind && c.block.wireType == TextWire) || (k == ThinkingKind && c.block.wireType == ThinkingWire)))
  }

  predicate IsOpen(cs: seq<Chunk>, k: Kind)
  {
    cs != [] && (Says(cs[|cs| - 1], k) || (IsOpen(cs[..|cs| - 1], k) && !Stops(cs[|cs| - 1], k)))
  }

  /** How often the stream begins to say something of a kind: its first delta, or one after an end of that kind. */
  function Openings(cs: seq<Chunk>, k: Kind): nat
  {
    if cs == [] then 0
    else
      var init := cs[..|cs| - 1];
      Openings(init, k) + if Says(cs[|cs| - 1], k) && !IsOpen(init, k) then 1 else 0
  }

  /** The calls that are made: none unless the stream succeeds. */
  function CallsMade(read: Reader, input: AttemptInput): seq<Call>
  {
    if Succeeds(read, input) then CallsAsked(read, input.chunks) else []
  }

  /**
   * In the part of the stream that is read: text and thinking each begin at most once, and not to say
   * nothing; the calls as first mentioned are the calls made, under their final names and in order, so
   * that a stream which fails or is cut short mentions none; and their arguments are legible.
   */
  ghost predicate OrderlyStream(read: Reader, input: AttemptInput)
  {
    var cs := ReadPart(input.chunks);
    && OneBlock(Openings(cs, TextKind), TextStreamed(cs))
    && OneBlock(Openings(cs, ThinkingKind), ThoughtStreamed(cs))
    && FirstMentions(AllNamed(cs)) == Names(CallsMade(read, input))
    && forall j :: 0 <= j < |Closings(cs)| ==> Legible(read, Closings(cs)[j])
  }

  // ---------------------------------------------------------------------------
  // The attempt's events mirror the chunks
  // ---------------------------------------------------------------------------

  ghost predicate Mirrors(a: Attempt, cs: seq<Chunk>)
  {
    && MirrorsCalls(a, cs)
    && MirrorsSpeech(a, cs)
  }

  ghost predicate MirrorsCalls(a: Attempt, cs: seq<Chunk>)
  {
    && Starts(a.events) == FirstMentions(AllNamed(cs))
    && Ends(a.events) == Closings(cs)
    && (forall id :: id in a.started <==> HasStart(a.events, id))
    && (forall id :: BufferIn(a.events, id) == Heard(cs, id))
  }

  ghost predicate MirrorsSpeech(a: Attempt, cs: seq<Chunk>)
  {
    && StartCount(a.events, TextKind) == Openings(cs, TextKind) && StartCount(a.events, ThinkingKind) == Openings(cs, ThinkingKind)
    && (a.textOpen.Some? <==> IsOpen(cs, TextKind)) && (a.thinkingOpen.Some? <==> IsOpen(cs, ThinkingKind))
  }

  lemma MentionsSnoc(ns: seq<Named>, n: Named)
    ensures FirstMentions(ns + [n]) == if Mentioned(FirstMentions(ns), n.id) then FirstMentions(ns) else FirstMentions(ns) + [n]
  {
    assert (ns + [n])[..|ns|] == ns;
  }

  /** Text, thinking, usage and finishes leave the calls alone. */
  lemma {:induction false} QuietEvents(a: Attempt, b: Attempt, cs: seq<Chunk>, e: Event)
    requires MirrorsCalls(a, cs) && b.events == a.events + [e] && b.started == a.started && EventKind(e) != CallKind
    ensures MirrorsCalls(b, cs)
  {
    hide Starts, Ends, BufferIn, FirstMentions, AllNamed, Closings, Heard, HasStart;
    EventsSnoc(_ => None, a.events, e);
    assert Starts(a.events) + [] == Starts(a.events) && Ends(a.events) + [] == Ends(a.events);
    forall id
      ensures HasStart(b.events, id) <==> HasStart(a.events, id)
      ensures BufferIn(b.events, id) == BufferIn(a.events, id)
    {
      HasStartSnoc(a.events, e, id);
      ReadsSnoc(_ => None, a.events, e, id);
    }
  }

  lemma {:induction false} QuietChunk(a: Attempt, cs: seq<Chunk>, c: Chunk)
    requires MirrorsCalls(a, cs) && NamedBy(c) == [] && !c.ToolCallDelta? && !(c.BlockEnd? && c.block.wireType == ToolCallWire)
    ensures MirrorsCalls(a, cs + [c])
  {
    hide Starts, Ends, BufferIn, FirstMentions, HasStart;
    assert (cs + [c])[..|cs|] == cs;
    assert AllNamed(cs) + [] == AllNamed(cs) && Closings(cs) + [] == Closings(cs);
  }

  /** Naming a call announces it the first time. */
  lemma {:induction false} AnnounceMirrors(a: Attempt, id: string, name: string, ns: seq<Named>)
    requires Starts(a.events) == FirstMentions(ns) && (forall x :: x in a.started <==> HasStart(a.events, x))
    ensures var b := Announced(a, id, name);
      && Starts(b.events) == FirstMentions(ns + [Named(id, name)])
      && Ends(b.events) == Ends(a.events)
      && (forall x :: x in b.started <==> HasStart(b.events, x))
  {
    hide Ends, BufferIn, FirstMentions;
    MentionsSnoc(ns, Named(id, name));
    assert Mentioned(FirstMentions(ns), id) <==> HasStart(a.events, id);
    hide Starts, HasStart;
    if id !in a.started {
      var e := CallStarted(id, name);
      EventsSnoc(_ => None, a.events, e);
      assert Ends(a.events) + [] == Ends(a.events);
      forall x
        ensures HasStart(a.events + [e], x) <==> HasStart(a.events, x) || x == id
      {
        HasStartSnoc(a.events, e, x);
      }
    }
  }

  /** A call that was not named before has not been heard either. */
  lemma {:induction false} UnnamedUnheard(cs: seq<Chunk>, id: string)
    requires !Mentioned(AllNamed(cs), id)
    ensures Heard(cs, id) == ""
  {
    if cs != [] {
      var init, c := cs[..|cs| - 1], cs[|cs| - 1];
      assert cs == init + [c];
      forall i | 0 <= i < |AllNamed(init)|
        ensures AllNamed(init)[i].id != id
      {
        assert AllNamed(cs)[i] == AllNamed(init)[i];
      }
      UnnamedUnheard(init, id);
      if NamedBy(c) != [] { assert AllNamed(cs)[|AllNamed(init)|] == NamedBy(c)[0]; }
    }
  }

  lemma {:induction false} FirstMentionsList(ns: seq<Named>, id: string)
    ensures Mentioned(FirstMentions(ns), id) <==> Mentioned(ns, id)
  {
    if ns != [] {
      var init, n := ns[..|ns| - 1], ns[|ns| - 1];
      FirstMentionsList(init, id);
      assert ns == init + [n];
      MentionedSnoc(init, n, id);
      MentionedSnoc(FirstMentions(init), n, id);
      FirstMentionsList(init, n.id);
    }
  }

  lemma {:induction false} MentionedSnoc(ns: seq<Named>, n: Named, id: string)
    ensures Mentioned(ns + [n], id) <==> Mentioned(ns, id) || n.id == id
  {
    if i :| 0 <= i < |ns| && ns[i].id == id { assert (ns + [n])[i].id == id; }
    if n.id == id { assert (ns + [n])[|ns|].id == id; }
  }

  /** Announcing resets a buffer that was empty anyway. */
  lemma {:induction false} AnnounceHeard(a: Attempt, id: string, name: string, cs: seq<Chunk>, x: string)
    requires MirrorsCalls(a, cs)
    ensures BufferIn(Announced(a, id, name).events, x) == Heard(cs, x)
  {
    hide Starts, Ends, BufferIn, FirstMentions, Heard, Closings, AllNamed;
    if id !in a.started {
      ReadsSnoc(_ => None, a.events, CallStarted(id, name), x);
      if x == id {
        FirstMentionsList(AllNamed(cs), id);
        assert Mentioned(FirstMentions(AllNamed(cs)), id) <==> HasStart(a.events, id);
        UnnamedUnheard(cs, id);
      }
    }
  }

  lemma {:induction false} ToolDeltaMirrors(a: Attempt, cs: seq<Chunk>, c: Chunk)
    requires MirrorsCalls(a, cs) && c.ToolCallDelta?
    ensures MirrorsCalls(OnToolDelta(a, c.callId, c.name, c.argumentsDelta), cs + [c])
  {
    hide Starts, Ends, BufferIn, FirstMentions, HasStart, Announced;
    var id, all := c.callId, cs + [c];
    assert all[..|cs|] == cs;
    if id == "" {
      assert AllNamed(cs) + [] == AllNamed(cs) && Closings(cs) + [] == Closings(cs);
    } else {
      var b, e := Announced(a, id, c.name), CallGrown(id, c.argumentsDelta);
      AnnounceMirrors(a, id, c.name, AllNamed(cs));
      EventsSnoc(_ => None, b.events, e);
      assert Starts(b.events) + [] == Starts(b.events) && Ends(b.events) + [] == Ends(b.events) && Closings(cs) + [] == Closings(cs);
      forall x
        ensures HasStart(b.events + [e], x) <==> HasStart(b.events, x)
        ensures BufferIn(b.events + [e], x) == Heard(all, x)
      {
        HasStartSnoc(b.events, e, x);
        AnnounceHeard(a, id, c.name, cs, x);
        ReadsSnoc(_ => None, b.events, e, x);
      }
    }
  }

  lemma {:induction false} ToolEndMirrors(read: Reader, a: Attempt, cs: seq<Chunk>, c: Chunk)
    requires MirrorsCalls(a, cs) && c.BlockEnd? && c.block.wireType == ToolCallWire
    ensures MirrorsCalls(OnToolEnd(read, a, c.block), cs + [c])
  {
    hide Starts, Ends, BufferIn, FirstMentions, HasStart, Announced;
    var w, all := c.block, cs + [c];
    assert all[..|cs|] == cs;
    var b, e := Announced(a, w.id, w.name), CallEnded(w.id, w.arguments);
    AnnounceMirrors(a, w.id, w.name, AllNamed(cs));
    AnnounceHeard(a, w.id, w.name, cs, w.id);
    EventsSnoc(_ => None, b.events, e);
    assert Starts(b.events) + [] == Starts(b.events);
    forall x
      ensures HasStart(b.events + [e], x) <==> HasStart(b.events, x)
      ensures BufferIn(b.events + [e], x) == Heard(all, x)
    {
      HasStartSnoc(b.events, e, x);
      AnnounceHeard(a, w.id, w.name, cs, x);
      ReadsSnoc(_ => None, b.events, e, x);
    }
  }

  lemma {:induction false} CloseQuiet(a: Attempt, cs: seq<Chunk>)
    requires MirrorsCalls(a, cs)
    ensures MirrorsCalls(CloseText(a), cs) && MirrorsCalls(CloseThinking(a), cs)
  {
    hide MirrorsCalls;
    if a.textOpen.Some? { QuietEvents(a, CloseText(a), cs, TextEnded(a.textOpen.value)); }
    if a.thinkingOpen.Some? { QuietEvents(a, CloseThinking(a), cs, ThinkingEnded(a.thinkingOpen.value)); }
  }

  lemma SameCalls(a: Attempt, b: Attempt, cs: seq<Chunk>)
    requires MirrorsCalls(a, cs) && b.events == a.events && b.started == a.started
    ensures MirrorsCalls(b, cs)
  {
  }

  lemma {:induction false} FinishQuiet(a: Attempt, kind: FinishKind, cs: seq<Chunk>)
    requires MirrorsCalls(a, cs)
    ensures MirrorsCalls(OnFinish(a, kind), cs)
  {
    hide MirrorsCalls, CloseText, CloseThinking;
    var marked := a.(kind := Some(kind));
    SameCalls(a, marked, cs);
    CloseQuiet(marked, cs);
    CloseQuiet(CloseText(marked), cs);
    var b := CloseThinking(CloseText(marked));
    if CompleteUsage(a.usage) {
      var u := a.usage.value;
      QuietEvents(b, OnFinish(a, kind), cs, ModelCallEnded(u.prompt.value, u.completion.value, u.total.value));
    }
  }

  lemma {:induction false} SpeechQuiet(a: Attempt, text: string, cs: seq<Chunk>)
    requires MirrorsCalls(a, cs)
    ensures MirrorsCalls(OnTextDelta(a, text), cs) && MirrorsCalls(OnReasoningDelta(a, text), cs)
  {
    hide MirrorsCalls;
    var t, r := a, a;
    if a.textOpen.None? {
      t := a.(textOpen := Some(a.nextId), nextId := a.nextId + 1, events := a.events + [TextStarted(a.nextId)]);
      QuietEvents(a, t, cs, TextStarted(a.nextId));
    }
    QuietEvents(t, OnTextDelta(a, text), cs, TextGrown(t.textOpen.value, text));
    if a.thinkingOpen.None? {
      r := a.(thinkingOpen := Some(a.nextId), nextId := a.nextId + 1, events := a.events + [ThinkingStarted(a.nextId)]);
      QuietEvents(a, r, cs, ThinkingStarted(a.nextId));
    }
    QuietEvents(r, OnReasoningDelta(a, text), cs, ThinkingGrown(r.thinkingOpen.value, text));
  }

  lemma {:induction false} TakenMirrorsCalls(read: Reader, a: Attempt, cs: seq<Chunk>, c: Chunk)
    requires MirrorsCalls(a, cs)
    ensures MirrorsCalls(OnTaken(read, a, c), cs + [c])
  {
    hide MirrorsCalls, OnTextDelta, OnReasoningDelta, OnToolDelta, OnToolEnd, CloseText, CloseThinking, OnFinish;
    if c.ToolCallDelta? {
      ToolDeltaMirrors(a, cs, c);
    } else if c.BlockEnd? && c.block.wireType == ToolCallWire {
      ToolEndMirrors(read, a, cs, c);
    } else {
      match c {
        case TextDelta(_, text) => SpeechQuiet(a, text, cs);
        case ReasoningDelta(_, text) => SpeechQuiet(a, text, cs);
        case BlockEnd(_, w) => CloseQuiet(a, cs);
        case UsageChunk(u) => SameCalls(a, a.(usage := Some(u)), cs);
        case Finish(r) => FinishQuiet(a, r.kind, cs);
        case _ =>
      }
      QuietChunk(OnTaken(read, a, c), cs, c);
    }
  }

  // ---------------------------------------------------------------------------
  // Speech
  // ---------------------------------------------------------------------------

  /** A spoken delta opens its block unless it is open. */
  lemma {:induction false} DeltaMirrorsSpeech(read: Reader, a: Attempt, cs: seq<Chunk>, c: Chunk)
    requires MirrorsSpeech(a, cs) && (c.TextDelta? || c.ReasoningDelta?)
    ensures MirrorsSpeech(OnTaken(read, a, c), cs + [c])
  {
    hide StartCount;
    assert (cs + [c])[..|cs|] == cs;
    var k := if c.TextDelta? then TextKind else ThinkingKind;
    var open := if c.TextDelta? then a.textOpen else a.thinkingOpen;
    var start := if c.TextDelta? then TextStarted(a.nextId) else ThinkingStarted(a.nextId);
    var es := if open.Some? then a.events else a.events + [start];
    var id := if open.Some? then open.value else a.nextId;
    var grown := if c.TextDelta? then TextGrown(id, c.text) else ThinkingGrown(id, c.text);
    assert OnTaken(read, a, c).events == es + [grown];
    forall k'
      ensures StartCount(es + [grown], k') == StartCount(a.events, k') + if k' == k && open.None? then 1 else 0
    {
      StartCountSnoc(a.events, start, k');
      StartCountSnoc(es, grown, k');
    }
  }

  lemma {:induction false} OtherMirrorsSpeech(read: Reader, a: Attempt, cs: seq<Chunk>, c: Chunk)
    requires MirrorsSpeech(a, cs) && !c.TextDelta? && !c.ReasoningDelta?
    ensures MirrorsSpeech(OnTaken(read, a, c), cs + [c])
  {
    hide StartCount, CloseText, CloseThinking, OnToolEnd, OnFinish;
    assert (cs + [c])[..|cs|] == cs;
    match c
    case ToolCallDelta(_, id, name, delta) =>
      forall k
        ensures StartCount(OnTaken(read, a, c).events, k) == StartCount(a.events, k)
      {
        StartCountSnoc(a.events, CallStarted(id, name), k);
        StartCountSnoc(Announced(a, id, name).events, CallGrown(id, delta), k);
      }
    case BlockEnd(_, w) =>
      CompletionsProjection.CloseCloses(a);
      CompletionsProjection.ToolEndCloses(read, a, w);
      ClosedFields(read, a, w);
    case Finish(r) =>
      CompletionsProjection.FinishCloses(a, r.kind);
      FinishedFields(a, r.kind);
    case _ =>
  }

  lemma ClosedFields(read: Reader, a: Attempt, w: WireBlock)
    ensures CloseText(a).textOpen == None && CloseText(a).thinkingOpen == a.thinkingOpen
    ensures CloseThinking(a).thinkingOpen == None && CloseThinking(a).textOpen == a.textOpen
    ensures OnToolEnd(read, a, w).textOpen == a.textOpen && OnToolEnd(read, a, w).thinkingOpen == a.thinkingOpen
  {
  }

  lemma FinishedFields(a: Attempt, kind: FinishKind)
    ensures OnFinish(a, kind).textOpen == None && OnFinish(a, kind).thinkingOpen == None
  {
  }

  lemma {:induction false} TakenMirrors(read: Reader, a: Attempt, cs: seq<Chunk>, c: Chunk)
    requires Mirrors(a, cs)
    ensures Mirrors(OnTaken(read, a, c), cs + [c])
  {
    hide MirrorsCalls, MirrorsSpeech, OnTaken;
    TakenMirrorsCalls(read, a, cs, c);
    if c.TextDelta? || c.ReasoningDelta? { DeltaMirrorsSpeech(read, a, cs, c); } else { OtherMirrorsSpeech(read, a, cs, c); }
  }

  lemma NothingMirrored(nextId: nat)
    ensures Mirrors(NewAttempt(nextId), [])
  {
    assert [ModelCallStarted][..0] == [];
  }

  lemma SameMirrors(a: Attempt, b: Attempt, cs: seq<Chunk>)
    requires Mirrors(a, cs) && b == a.(asm := b.asm)
    ensures Mirrors(b, cs)
  {
  }

  lemma {:induction false} ReadMirrors(read: Reader, nextId: nat, cs: seq<Chunk>)
    ensures Mirrors(Consume(read, NewAttempt(nextId), cs).0, ReadPart(cs))
  {
    hide OnTaken, Feed, HasTaken, Mirrors;
    if cs == [] {
      NothingMirrored(nextId);
    } else {
      var init, c := cs[..|cs| - 1], cs[|cs| - 1];
      ReadMirrors(read, nextId, init);
      ReadsPart(read, nextId, init);
      var (b, error) := Consume(read, NewAttempt(nextId), init);
      if FeedAll(init).Ok? {
        TakenIsFed(read, b, init);
        if EndsFailing(init) {
          FailedTakesNoMore(read, b, init, c);
        } else if Feed(b.asm, c).Ok? {
          SameMirrors(b, b.(asm := Feed(b.asm, c).value), init);
          TakenMirrors(read, b.(asm := Feed(b.asm, c).value), init, c);
          assert init + [c] == cs;
        }
      }
    }
  }

  // ---------------------------------------------------------------------------
  // The condition on the input
  // ---------------------------------------------------------------------------

  /** What the attempt has sent and handed on in the end, against the part that is read. */
  lemma {:induction false} ConcludedMirrors(read: Reader, nextId: nat, input: AttemptInput)
    ensures var (a, kept) := Concluded(read, nextId, input); var cs := ReadPart(input.chunks);
      && MirrorsCalls(a, cs)
      && StartCount(a.events, TextKind) == Openings(cs, TextKind) && StartCount(a.events, ThinkingKind) == Openings(cs, ThinkingKind)
  {
    hide Consume, FailureAfter, CloseText, CloseThinking, MirrorsCalls, StartCount, ReadPart, Openings;
    ReadMirrors(read, nextId, input.chunks);
    var a, cs := Consume(read, NewAttempt(nextId), input.chunks).0, ReadPart(input.chunks);
    CloseQuiet(a, cs);
    CloseQuiet(CloseText(a), cs);
    CompletionsProjection.CloseCloses(a);
    CompletionsProjection.CloseCloses(CloseText(a));
  }

  lemma {:induction false} CallsMadeBy(read: Reader, nextId: nat, input: AttemptInput)
    ensures CallsBy(RunAttempt(read, nextId, input).end) == CallsMade(read, input)
  {
    hide RunAttempt, Succeeds;
    SucceedsIff(read, nextId, input);
    if Succeeds(read, input) { ResultIsWhatWasStreamed(read, nextId, input); }
  }

  /**
   * For every model stream, however it ends: the attempt is orderly, as seen from its events and its
   * result, exactly when the stream is orderly, as seen from its chunks.
   */
  lemma {:induction false} OrderlyIffStream(read: Reader, nextId: nat, input: AttemptInput)
    ensures var d := RunAttempt(read, nextId, input);
      Orderly(read, d.events, CallsBy(d.end)) <==> OrderlyStream(read, input)
  {
    hide RunAttempt, Concluded, CallsMade, StartCount, Openings, TextSent, ThinkingSent, TextStreamed, ThoughtStreamed,
      Starts, Ends, FirstMentions, AllNamed, Closings, Names, Legible, HasStart, ReadPart, OneBlock;
    ConcludedIs(read, nextId, input);
    ConcludedMirrors(read, nextId, input);
    CallsMadeBy(read, nextId, input);
    SaysWhatWasStreamed(read, nextId, input);
  }

  /**
   * The exact condition under which a host that folds the events and the runner that writes the
   * context show the provider the same after an attempt, checked on the stream alone.
   */
  lemma {:induction false} AttemptAgreesIffOrderlyStream(read: Reader, nextId: nat, input: AttemptInput)
    ensures var d := RunAttempt(read, nextId, input);
      Interchangeable(Folded(read, d.events).content, d.blocks) <==> OrderlyStream(read, input)
  {
    hide RunAttempt, Interchangeable, OrderlyStream, Orderly;
    AttemptAgreesIffOrderly(read, nextId, input);
    OrderlyIffStream(read, nextId, input);
  }
}
