/** What a host rebuilds from the events of one model attempt: its texts, its thinking and its calls. */
module AttemptFold {
  import opened Prelude
  import opened StreamChunks
  import opened BlockAssembly
  import opened Messages
  import opened Events
  import opened Reasoning

  // ---------------------------------------------------------------------------
  // Blocks and events by kind
  // ---------------------------------------------------------------------------

  datatype Kind = TextKind | ThinkingKind | CallKind | OtherKind

  function KindOf(b: Block): Kind
  {
    match b
    case TextBlock(_, _) => TextKind
    case ThinkingBlock(_, _) => ThinkingKind
    case ToolCallBlock(_, _, _, _) => CallKind
    case _ => OtherKind
  }

  /** The kind of block an event creates or changes; `OtherKind` for events without effect on a message. */
  function EventKind(e: Event): Kind
  {
    match e
    case TextStarted(_) => TextKind
    case TextGrown(_, _) => TextKind
    case ThinkingStarted(_) => ThinkingKind
    case ThinkingGrown(_, _) => ThinkingKind
    case CallStarted(_, _) => CallKind
    case CallGrown(_, _) => CallKind
    case CallEnded(_, _) => CallKind
    case _ => OtherKind
  }

  /** The events an attempt can send. */
  predicate Speech(e: Event)
  {
    match e
    case ReplyStarted => false
    case ReplyEnded(_) => false
    case HintGiven(_, _) => false
    case ResultStarted(_, _) => false
    case ResultGrown(_, _) => false
    case ResultEnded(_, _) => false
    case ConfirmRequired(_, _) => false
    case ConfirmAnswered(_, _) => false
    case _ => true
  }

  function KeyKind(key: Key): Kind
  {
    match key
    case TextKey(_) => TextKind
    case ThinkingKey(_) => ThinkingKind
    case CallKey(_) => CallKind
    case _ => OtherKind
  }

  function Only(bs: seq<Block>, k: Kind): seq<Block>
  {
    if bs == [] then []
    else Only(bs[..|bs| - 1], k) + (if KindOf(bs[|bs| - 1]) == k then [bs[|bs| - 1]] else [])
  }

  lemma {:induction false} OnlySnoc(bs: seq<Block>, b: Block, k: Kind)
    ensures Only(bs + [b], k) == Only(bs, k) + if KindOf(b) == k then [b] else []
  {
    assert (bs + [b])[..|bs|] == bs;
  }

  lemma {:induction false} FindSnoc(bs: seq<Block>, b: Block, key: Key)
    ensures Find(bs + [b], key) ==
      if Find(bs, key) < |bs| then Find(bs, key) else if KeyOf(b) == key then |bs| else |bs| + 1
  {
    assert (bs + [b])[..|bs|] == bs;
  }

  lemma {:induction false} OnlyShorter(bs: seq<Block>, i: nat, k: Kind)
    requires i < |bs| && KindOf(bs[i]) == k
    ensures |Only(bs[..i], k)| < |Only(bs, k)|
    ensures Only(bs, k)[|Only(bs[..i], k)|] == bs[i]
    decreases |bs|
  {
    var init := bs[..|bs| - 1];
    if i < |bs| - 1 {
      assert init[..i] == bs[..i];
      OnlyShorter(init, i, k);
    }
  }

  /** Looking a block up among its own kind finds the same block. */
  lemma {:induction false} OnlyFind(bs: seq<Block>, key: Key)
    requires KeyKind(key) != OtherKind
    ensures Find(Only(bs, KeyKind(key)), key) == |Only(bs[..Find(bs, key)], KeyKind(key))|
    ensures Find(bs, key) == |bs| <==> Find(Only(bs, KeyKind(key)), key) == |Only(bs, KeyKind(key))|
  {
    hide Find, Only;
    var k := KeyKind(key);
    if bs == [] {
      EmptyFind(key, k);
    } else {
      var init, b := bs[..|bs| - 1], bs[|bs| - 1];
      assert bs == init + [b];
      OnlyFind(init, key);
      FindSnoc(init, b, key);
      FindSnoc(Only(init, k), b, key);
      OnlySnoc(init, b, k);
      assert Only(init, k) + [] == Only(init, k);
      var i := Find(init, key);
      if i < |init| {
        assert bs[..i] == init[..i];
        OnlyShorter(init, i, k);
      } else {
        assert bs[..|init|] == init && init[..|init|] == init && bs[..|bs|] == bs;
      }
    }
  }

  lemma EmptyFind(key: Key, k: Kind)
    ensures Find([], key) == 0 && Only([], k) == []
    ensures forall bs: seq<Block> :: bs == [] ==> Only(bs[..0], k) == []
  {
  }

  /** Changing a block in place changes its own kind in place and no other kind. */
  lemma {:induction false} OnlyUpdate(bs: seq<Block>, i: nat, b: Block, k: Kind)
    requires i < |bs| && KindOf(b) == KindOf(bs[i])
    ensures |Only(bs[..i], k)| <= |Only(bs, k)|
    ensures KindOf(b) == k ==> |Only(bs[..i], k)| < |Only(bs, k)|
    ensures Only(bs[i := b], k) == if KindOf(b) == k then Only(bs, k)[|Only(bs[..i], k)| := b] else Only(bs, k)
    decreases |bs|
  {
    hide Only;
    var n := |bs| - 1;
    var init, last := bs[..n], bs[n];
    assert bs == init + [last];
    OnlySnoc(init, last, k);
    if i < n {
      assert init[..i] == bs[..i];
      assert bs[i := b] == init[i := b] + [last];
      OnlyUpdate(init, i, b, k);
      OnlySnoc(init[i := b], last, k);
    } else {
      assert bs[i := b] == init + [b] && bs[..i] == init;
      OnlySnoc(init, b, k);
    }
  }

  lemma {:induction false} OnlyAt(bs: seq<Block>, key: Key, b: Block, k: Kind)
    requires KeyKind(key) != OtherKind && Find(bs, key) < |bs| && KeyOf(b) == key
    ensures Find(Only(bs, KeyKind(key)), key) < |Only(bs, KeyKind(key))|
    ensures Only(bs, KeyKind(key))[Find(Only(bs, KeyKind(key)), key)] == bs[Find(bs, key)]
    ensures Only(bs[Find(bs, key) := b], k) ==
      if KeyKind(key) == k then Only(bs, k)[Find(Only(bs, KeyKind(key)), key) := b] else Only(bs, k)
  {
    var i := Find(bs, key);
    OnlyFind(bs, key);
    OnlyUpdate(bs, i, b, k);
    OnlyShorter(bs, i, KeyKind(key));
  }

  /** Argument text is kept apart from all blocks but calls. */
  lemma {:induction false} OnlyBuffers(read: Reader, r: Rebuilt, e: Event)
    requires Speech(e)
    ensures Apply(read, r, e).buffers ==
      if EventKind(e) == CallKind then Apply(read, r.(content := Only(r.content, CallKind)), e).buffers else r.buffers
  {
    hide Only, Find, ReadArguments;
    if e.CallEnded? { OnlyFind(r.content, CallKey(e.callId)); }
  }

  /** An attempt's event acts on the blocks of its own kind as if they were alone. */
  lemma {:induction false} OnlyApply(read: Reader, r: Rebuilt, e: Event, k: Kind)
    requires Speech(e) && k != OtherKind
    ensures Only(Apply(read, r, e).content, k) ==
      if EventKind(e) == k then Apply(read, r.(content := Only(r.content, k)), e).content else Only(r.content, k)
  {
    hide Only, Find, ReadArguments;
    var bs := r.content;
    match e
    case TextStarted(id) => OnlySnoc(bs, TextBlock(id, ""), k);
    case ThinkingStarted(id) => OnlySnoc(bs, ThinkingBlock(id, ""), k);
    case CallStarted(id, name) => OnlySnoc(bs, ToolCallBlock(id, name, NO_ARGUMENTS, Pending), k);
    case TextGrown(id, delta) =>
      OnlyFind(bs, TextKey(id));
      var i := Find(bs, TextKey(id));
      if i < |bs| { OnlyAt(bs, TextKey(id), bs[i].(text := bs[i].text + delta), k); }
    case ThinkingGrown(id, delta) =>
      OnlyFind(bs, ThinkingKey(id));
      var i := Find(bs, ThinkingKey(id));
      if i < |bs| { OnlyAt(bs, ThinkingKey(id), bs[i].(thinking := bs[i].thinking + delta), k); }
    case CallEnded(id, arguments) =>
      OnlyFind(bs, CallKey(id));
      var i := Find(bs, CallKey(id));
      if i < |bs| {
        var raw := if arguments != "" then arguments else Buffered(r, id);
        OnlyAt(bs, CallKey(id), bs[i].(arguments := ReadArguments(read, raw)), k);
      }
    case _ =>
  }

  // ---------------------------------------------------------------------------
  // Text and thinking
  // ---------------------------------------------------------------------------

  /** The message a host has after these events alone. */
  function Folded(read: Reader, es: seq<Event>): Rebuilt { ApplyAll(read, Rebuilt([], map[]), es) }

  lemma FoldedSnoc(read: Reader, es: seq<Event>, e: Event)
    ensures Folded(read, es + [e]) == Apply(read, Folded(read, es), e)
  {
    assert (es + [e])[..|es|] == es;
  }

  function Words(b: Block): string
  {
    match b case TextBlock(_, text) => text case ThinkingBlock(_, thinking) => thinking case _ => ""
  }

  function WordsIn(bs: seq<Block>): seq<string>
  {
    if bs == [] then [] else WordsIn(bs[..|bs| - 1]) + [Words(bs[|bs| - 1])]
  }

  predicate Starting(e: Event, k: Kind)
  {
    (e.TextStarted? && k == TextKind) || (e.ThinkingStarted? && k == ThinkingKind)
  }

  /** How many blocks of a kind the events start. */
  function StartCount(es: seq<Event>, k: Kind): nat
  {
    if es == [] then 0 else StartCount(es[..|es| - 1], k) + (if Starting(es[|es| - 1], k) then 1 else 0)
  }

  lemma StartCountSnoc(es: seq<Event>, e: Event, k: Kind)
    ensures StartCount(es + [e], k) == StartCount(es, k) + if Starting(e, k) then 1 else 0
  {
    assert (es + [e])[..|es|] == es;
  }

  predicate IsSpoken(k: Kind) { k == TextKind || k == ThinkingKind }

  function KeyFor(k: Kind, id: nat): Key { if k == TextKind then TextKey(id) else ThinkingKey(id) }

  function NewBlock(k: Kind, id: nat, words: string): Block
  {
    if k == TextKind then TextBlock(id, words) else ThinkingBlock(id, words)
  }

  function SaidBy(a: Attempt, k: Kind): string { if k == TextKind then a.text else a.reasoning }

  function OpenBy(a: Attempt, k: Kind): Option<nat> { if k == TextKind then a.textOpen else a.thinkingOpen }

  /** The blocks of a kind against what has been said: their words together, with the open one last. */
  ghost predicate Tells(bs: seq<Block>, k: Kind, starts: nat, said: string, open: Option<nat>, nextId: nat)
  {
    && |bs| == starts
    && Concat(WordsIn(bs)) == said
    && (forall i :: 0 <= i < |bs| ==> (if k == TextKind then bs[i].TextBlock? else bs[i].ThinkingBlock?) && bs[i].id < nextId)
    && (open.Some? ==> bs != [] && bs[|bs| - 1].id == open.value && Find(bs, KeyFor(k, open.value)) == |bs| - 1)
  }

  lemma {:induction false} Absent(bs: seq<Block>, key: Key)
    ensures Find(bs, key) == |bs| <==> forall i :: 0 <= i < |bs| ==> KeyOf(bs[i]) != key
  {
    if bs != [] {
      Absent(bs[..|bs| - 1], key);
      assert bs == bs[..|bs| - 1] + [bs[|bs| - 1]];
    }
  }

  lemma {:induction false} TellsStart(bs: seq<Block>, k: Kind, starts: nat, said: string, open: Option<nat>, nextId: nat)
    requires IsSpoken(k) && Tells(bs, k, starts, said, open, nextId)
    ensures Tells(bs + [NewBlock(k, nextId, "")], k, starts + 1, said, Some(nextId), nextId + 1)
  {
    hide Find, Concat;
    var b := NewBlock(k, nextId, "");
    Absent(bs, KeyOf(b));
    FindSnoc(bs, b, KeyOf(b));
    assert (bs + [b])[..|bs|] == bs;
    ConcatSnoc(WordsIn(bs), "");
    assert said + "" == said;
  }

  lemma {:induction false} TellsGrow(bs: seq<Block>, k: Kind, starts: nat, said: string, open: nat, nextId: nat, delta: string)
    requires IsSpoken(k) && Tells(bs, k, starts, said, Some(open), nextId)
    ensures Tells(bs[|bs| - 1 := NewBlock(k, open, Words(bs[|bs| - 1]) + delta)], k, starts, said + delta, Some(open), nextId)
  {
    hide Find, Concat;
    var n := |bs| - 1;
    var b := NewBlock(k, open, Words(bs[n]) + delta);
    var after := bs[n := b];
    assert after[..n] == bs[..n] && after == bs[..n] + [b] && bs == bs[..n] + [bs[n]];
    FindSnoc(bs[..n], b, KeyFor(k, open));
    FindSnoc(bs[..n], bs[n], KeyFor(k, open));
    ConcatSnoc(WordsIn(bs[..n]), Words(b));
    ConcatSnoc(WordsIn(bs[..n]), Words(bs[n]));
    assert Concat(WordsIn(bs[..n])) + (Words(bs[n]) + delta) == Concat(WordsIn(bs[..n])) + Words(bs[n]) + delta;
  }

  lemma TellsLater(bs: seq<Block>, k: Kind, starts: nat, said: string, open: Option<nat>, nextId: nat, open': Option<nat>, nextId': nat)
    requires Tells(bs, k, starts, said, open, nextId) && nextId <= nextId' && (open' == open || open' == None)
    ensures Tells(bs, k, starts, said, open', nextId')
  {
  }

  ghost predicate Spoke(read: Reader, a: Attempt, k: Kind)
  {
    Tells(Only(Folded(read, a.events).content, k), k, StartCount(a.events, k), SaidBy(a, k), OpenBy(a, k), a.nextId)
  }

  /** `b` is `a` after sending an event that says nothing of this kind. */
  lemma {:induction false} SendOther(read: Reader, a: Attempt, b: Attempt, e: Event, k: Kind)
    requires IsSpoken(k) && Spoke(read, a, k) && b.events == a.events + [e] && Speech(e) && EventKind(e) != k
    requires SaidBy(b, k) == SaidBy(a, k) && a.nextId <= b.nextId && (OpenBy(b, k) == OpenBy(a, k) || OpenBy(b, k) == None)
    ensures Spoke(read, b, k)
  {
    hide Tells, Only, Apply, Folded;
    FoldedSnoc(read, a.events, e);
    OnlyApply(read, Folded(read, a.events), e, k);
    StartCountSnoc(a.events, e, k);
    TellsLater(Only(Folded(read, a.events).content, k), k, StartCount(a.events, k), SaidBy(a, k), OpenBy(a, k), a.nextId, OpenBy(b, k), b.nextId);
  }

  lemma {:induction false} SendStart(read: Reader, a: Attempt, b: Attempt, e: Event, k: Kind)
    requires IsSpoken(k) && Spoke(read, a, k) && b.events == a.events + [e]
    requires e == if k == TextKind then TextStarted(a.nextId) else ThinkingStarted(a.nextId)
    requires SaidBy(b, k) == SaidBy(a, k) && OpenBy(b, k) == Some(a.nextId) && b.nextId == a.nextId + 1
    ensures Spoke(read, b, k)
  {
    hide Tells, Only, Folded;
    FoldedSnoc(read, a.events, e);
    OnlyApply(read, Folded(read, a.events), e, k);
    StartCountSnoc(a.events, e, k);
    TellsStart(Only(Folded(read, a.events).content, k), k, StartCount(a.events, k), SaidBy(a, k), OpenBy(a, k), a.nextId);
  }

  lemma {:induction false} SendGrow(read: Reader, a: Attempt, b: Attempt, e: Event, k: Kind, delta: string)
    requires IsSpoken(k) && Spoke(read, a, k) && b.events == a.events + [e] && OpenBy(a, k).Some?
    requires e == if k == TextKind then TextGrown(OpenBy(a, k).value, delta) else ThinkingGrown(OpenBy(a, k).value, delta)
    requires SaidBy(b, k) == SaidBy(a, k) + delta && OpenBy(b, k) == OpenBy(a, k) && b.nextId == a.nextId
    ensures Spoke(read, b, k)
  {
    hide Only, Folded, Concat, WordsIn;
    FoldedSnoc(read, a.events, e);
    OnlyApply(read, Folded(read, a.events), e, k);
    StartCountSnoc(a.events, e, k);
    var bs := Only(Folded(read, a.events).content, k);
    TellsGrow(bs, k, StartCount(a.events, k), SaidBy(a, k), OpenBy(a, k).value, a.nextId, delta);
  }

  /** The same attempt with other assembler or bookkeeping fields. */
  lemma SameSpeech(read: Reader, a: Attempt, b: Attempt, k: Kind)
    requires Spoke(read, a, k) && b.events == a.events && SaidBy(b, k) == SaidBy(a, k) && OpenBy(b, k) == OpenBy(a, k) && b.nextId == a.nextId
    ensures Spoke(read, b, k)
  {
  }

  lemma {:induction false} TextDeltaSpoke(read: Reader, a: Attempt, text: string, k: Kind)
    requires IsSpoken(k) && Spoke(read, a, k)
    ensures Spoke(read, OnTextDelta(a, text), k)
  {
    hide Spoke;
    var b := if a.textOpen.Some? then a
             else a.(textOpen := Some(a.nextId), nextId := a.nextId + 1, events := a.events + [TextStarted(a.nextId)]);
    if a.textOpen.None? {
      if k == TextKind {
        SendStart(read, a, b, TextStarted(a.nextId), k);
      } else {
        SendOther(read, a, b, TextStarted(a.nextId), k);
      }
    }
    var e := TextGrown(b.textOpen.value, text);
    if k == TextKind {
      SendGrow(read, b, OnTextDelta(a, text), e, k, text);
    } else {
      SendOther(read, b, OnTextDelta(a, text), e, k);
    }
  }

  lemma {:induction false} ReasoningDeltaSpoke(read: Reader, a: Attempt, text: string, k: Kind)
    requires IsSpoken(k) && Spoke(read, a, k)
    ensures Spoke(read, OnReasoningDelta(a, text), k)
  {
    hide Spoke;
    var b := if a.thinkingOpen.Some? then a
             else a.(thinkingOpen := Some(a.nextId), nextId := a.nextId + 1, events := a.events + [ThinkingStarted(a.nextId)]);
    if a.thinkingOpen.None? {
      if k == ThinkingKind {
        SendStart(read, a, b, ThinkingStarted(a.nextId), k);
      } else {
        SendOther(read, a, b, ThinkingStarted(a.nextId), k);
      }
    }
    var e := ThinkingGrown(b.thinkingOpen.value, text);
    if k == ThinkingKind {
      SendGrow(read, b, OnReasoningDelta(a, text), e, k, text);
    } else {
      SendOther(read, b, OnReasoningDelta(a, text), e, k);
    }
  }

  lemma {:induction false} AnnouncedSpoke(read: Reader, a: Attempt, id: string, name: string, k: Kind)
    requires IsSpoken(k) && Spoke(read, a, k)
    ensures Spoke(read, Announced(a, id, name), k)
  {
    hide Spoke;
    if id !in a.started { SendOther(read, a, Announced(a, id, name), CallStarted(id, name), k); }
  }

  lemma {:induction false} ToolSpoke(read: Reader, a: Attempt, id: string, name: string, b: Attempt, e: Event, k: Kind)
    requires IsSpoken(k) && Spoke(read, a, k) && EventKind(e) == CallKind
    requires b.events == Announced(a, id, name).events + [e]
    requires b.text == a.text && b.reasoning == a.reasoning && b.textOpen == a.textOpen && b.thinkingOpen == a.thinkingOpen && b.nextId == a.nextId
    ensures Spoke(read, b, k)
  {
    hide Spoke;
    AnnouncedSpoke(read, a, id, name, k);
    SendOther(read, Announced(a, id, name), b, e, k);
  }

  lemma {:induction false} CloseSpoke(read: Reader, a: Attempt, k: Kind)
    requires IsSpoken(k) && Spoke(read, a, k)
    ensures Spoke(read, CloseText(a), k) && Spoke(read, CloseThinking(a), k)
  {
    hide Spoke;
    if a.textOpen.Some? { SendOther(read, a, CloseText(a), TextEnded(a.textOpen.value), k); }
    if a.thinkingOpen.Some? { SendOther(read, a, CloseThinking(a), ThinkingEnded(a.thinkingOpen.value), k); }
  }

  lemma {:induction false} FinishSpoke(read: Reader, a: Attempt, kind: FinishKind, k: Kind)
    requires IsSpoken(k) && Spoke(read, a, k)
    ensures Spoke(read, OnFinish(a, kind), k)
  {
    hide Spoke, CloseText, CloseThinking;
    SameSpeech(read, a, a.(kind := Some(kind)), k);
    var text := CloseText(a.(kind := Some(kind)));
    CloseSpoke(read, a.(kind := Some(kind)), k);
    CloseSpoke(read, text, k);
    if CompleteUsage(a.usage) {
      var u := a.usage.value;
      SendOther(read, CloseThinking(text), OnFinish(a, kind), ModelCallEnded(u.prompt.value, u.completion.value, u.total.value), k);
    }
  }

  lemma {:induction false} TakenSpoke(read: Reader, a: Attempt, c: Chunk, k: Kind)
    requires IsSpoken(k) && Spoke(read, a, k)
    ensures Spoke(read, OnTaken(read, a, c), k)
  {
    hide Spoke, OnTextDelta, OnReasoningDelta, Announced, CloseText, CloseThinking, OnFinish;
    match c
    case TextDelta(_, text) => TextDeltaSpoke(read, a, text, k);
    case ReasoningDelta(_, text) => ReasoningDeltaSpoke(read, a, text, k);
    case ToolCallDelta(_, id, name, delta) =>
      if id != "" { ToolDeltaFields(a, id, name, delta); ToolSpoke(read, a, id, name, OnToolDelta(a, id, name, delta), CallGrown(id, delta), k); }
    case BlockEnd(_, w) =>
      if w.wireType == ToolCallWire {
        ToolEndFields(read, a, w);
        ToolSpoke(read, a, w.id, w.name, OnToolEnd(read, a, w), CallEnded(w.id, w.arguments), k);
      }
      CloseSpoke(read, a, k);
    case UsageChunk(u) => SameSpeech(read, a, OnTaken(read, a, c), k);
    case Finish(r) => if !IsFailure(r.kind) { FinishSpoke(read, a, r.kind, k); }
    case _ =>
  }

  lemma ToolDeltaFields(a: Attempt, id: string, name: string, delta: string)
    requires id != ""
    ensures var b := OnToolDelta(a, id, name, delta);
      && b.events == Announced(a, id, name).events + [CallGrown(id, delta)]
      && b.text == a.text && b.reasoning == a.reasoning && b.textOpen == a.textOpen && b.thinkingOpen == a.thinkingOpen && b.nextId == a.nextId
  {
  }

  lemma ToolEndFields(read: Reader, a: Attempt, w: WireBlock)
    ensures var b := OnToolEnd(read, a, w);
      && b.events == Announced(a, w.id, w.name).events + [CallEnded(w.id, w.arguments)]
      && b.text == a.text && b.reasoning == a.reasoning && b.textOpen == a.textOpen && b.thinkingOpen == a.thinkingOpen && b.nextId == a.nextId
  {
  }

  lemma {:induction false} ConsumeSpoke(read: Reader, a: Attempt, cs: seq<Chunk>, k: Kind)
    requires IsSpoken(k) && Spoke(read, a, k)
    ensures Spoke(read, Consume(read, a, cs).0, k)
  {
    hide Spoke, OnTaken, Feed;
    if cs != [] {
      var c := cs[|cs| - 1];
      ConsumeSpoke(read, a, cs[..|cs| - 1], k);
      var (b, error) := Consume(read, a, cs[..|cs| - 1]);
      if error.None? {
        match Feed(b.asm, c)
        case Err(_) =>
        case Ok(p) =>
          SameSpeech(read, b, b.(asm := p), k);
          TakenSpoke(read, b.(asm := p), c, k);
      }
    }
  }

  lemma {:induction false} NewSpoke(read: Reader, nextId: nat, k: Kind)
    requires IsSpoken(k)
    ensures Spoke(read, NewAttempt(nextId), k)
  {
    assert [ModelCallStarted][..0] == [];
    assert Folded(read, [ModelCallStarted]) == Rebuilt([], map[]);
  }

  // ---------------------------------------------------------------------------
  // Calls
  // ---------------------------------------------------------------------------

  datatype Named = Named(id: string, name: string)

  /** A call's end: its own argument text, and the text its deltas had built. */
  datatype Ending = Ending(id: string, arguments: string, buffer: string)

  /** The calls the events announce, in order. */
  function Starts(es: seq<Event>): seq<Named>
  {
    if es == [] then []
    else
      var e := es[|es| - 1];
      Starts(es[..|es| - 1]) + (if e.CallStarted? then [Named(e.callId, e.name)] else [])
  }

  function GrownBuffer(before: string, e: Event, id: string): string
  {
    match e
    case CallStarted(x, _) => if x == id then "" else before
    case CallGrown(x, delta) => if x == id then before + delta else before
    case CallEnded(x, _) => if x == id then "" else before
    case _ => before
  }

  /** The argument text received for a call since it was announced or last ended. */
  function BufferIn(es: seq<Event>, id: string): string
  {
    if es == [] then "" else GrownBuffer(BufferIn(es[..|es| - 1], id), es[|es| - 1], id)
  }

  function Ends(es: seq<Event>): seq<Ending>
  {
    if es == [] then []
    else
      var init, e := es[..|es| - 1], es[|es| - 1];
      Ends(init) + (if e.CallEnded? then [Ending(e.callId, e.arguments, BufferIn(init, e.callId))] else [])
  }

  function Raw(e: Ending): string { if e.arguments != "" then e.arguments else e.buffer }

  function NextRead(read: Reader, before: Json, buffer: string, e: Event, id: string): Json
  {
    match e
    case CallStarted(x, _) => if x == id then NO_ARGUMENTS else before
    case CallEnded(x, arguments) => if x == id then ReadArguments(read, if arguments != "" then arguments else buffer) else before
    case _ => before
  }

  /** The arguments a host holds for a call. */
  function LastRead(read: Reader, es: seq<Event>, id: string): Json
  {
    if es == [] then NO_ARGUMENTS
    else
      var init := es[..|es| - 1];
      NextRead(read, LastRead(read, init, id), BufferIn(init, id), es[|es| - 1], id)
  }

  lemma EventsSnoc(read: Reader, es: seq<Event>, e: Event)
    ensures Starts(es + [e]) == Starts(es) + if e.CallStarted? then [Named(e.callId, e.name)] else []
    ensures Ends(es + [e]) == Ends(es) + if e.CallEnded? then [Ending(e.callId, e.arguments, BufferIn(es, e.callId))] else []
  {
    assert (es + [e])[..|es|] == es;
  }

  lemma ReadsSnoc(read: Reader, es: seq<Event>, e: Event, id: string)
    ensures BufferIn(es + [e], id) == GrownBuffer(BufferIn(es, id), e, id)
    ensures LastRead(read, es + [e], id) == NextRead(read, LastRead(read, es, id), BufferIn(es, id), e, id)
  {
    assert (es + [e])[..|es|] == es;
  }

  ghost predicate HasStart(es: seq<Event>, id: string)
  {
    exists i :: 0 <= i < |Starts(es)| && Starts(es)[i].id == id
  }

  /** The call blocks and buffers of a host against the events. */
  ghost predicate Lists(read: Reader, es: seq<Event>, cs: seq<Block>, buffers: map<string, string>)
  {
    && |cs| == |Starts(es)|
    && (forall i :: 0 <= i < |cs| ==>
          && cs[i].ToolCallBlock? && Named(cs[i].callId, cs[i].name) == Starts(es)[i]
          && cs[i].arguments == LastRead(read, es, cs[i].callId))
    && (forall i, j :: 0 <= i < j < |cs| ==> cs[i].callId != cs[j].callId)
    && (forall id :: Buffered(Rebuilt(cs, buffers), id) == BufferIn(es, id))
  }

  /** An end never precedes its start, and what a call ended with last is what the host holds. */
  ghost predicate EndsRead(read: Reader, es: seq<Event>)
  {
    && (forall j :: 0 <= j < |Ends(es)| ==> HasStart(es, Ends(es)[j].id))
    && ((forall i, j :: 0 <= i < j < |Ends(es)| ==> Ends(es)[i].id != Ends(es)[j].id) ==>
          forall j :: 0 <= j < |Ends(es)| ==> LastRead(read, es, Ends(es)[j].id) == ReadArguments(read, Raw(Ends(es)[j])))
  }

  /** Calls are announced once, before anything else is said of them. */
  ghost predicate InTurn(es: seq<Event>, e: Event)
  {
    match e
    case CallStarted(id, _) => !HasStart(es, id)
    case CallGrown(id, _) => HasStart(es, id)
    case CallEnded(id, _) => HasStart(es, id)
    case _ => true
  }

  lemma {:induction false} HasStartSnoc(es: seq<Event>, e: Event, id: string)
    ensures HasStart(es + [e], id) <==> HasStart(es, id) || (e.CallStarted? && e.callId == id)
  {
    EventsSnoc(_ => None, es, e);
    var s, s' := Starts(es), Starts(es + [e]);
    if i :| 0 <= i < |s| && s[i].id == id {
      assert s'[i].id == id;
    }
    if e.CallStarted? && e.callId == id {
      assert s'[|s|].id == id;
    }
  }

  lemma {:induction false} EndsReadSnoc(read: Reader, es: seq<Event>, e: Event)
    requires EndsRead(read, es) && InTurn(es, e)
    ensures EndsRead(read, es + [e])
  {
    hide Starts, Ends, LastRead, BufferIn, HasStart, ReadArguments;
    EventsSnoc(read, es, e);
    var all := es + [e];
    var ends, ends' := Ends(es), Ends(all);
    forall j | 0 <= j < |ends'|
      ensures HasStart(all, ends'[j].id)
    {
      HasStartSnoc(es, e, ends'[j].id);
      assert j < |ends| ==> ends'[j] == ends[j];
    }
    if forall i, j :: 0 <= i < j < |ends'| ==> ends'[i].id != ends'[j].id {
      forall i, j | 0 <= i < j < |ends|
        ensures ends[i].id != ends[j].id
      {
        assert ends'[i] == ends[i] && ends'[j] == ends[j];
      }
      forall j | 0 <= j < |ends'|
        ensures LastRead(read, all, ends'[j].id) == ReadArguments(read, Raw(ends'[j]))
      {
        ReadsSnoc(read, es, e, ends'[j].id);
        if j < |ends| {
          assert ends'[j] == ends[j];
          assert e.CallEnded? ==> ends'[|ends|].id == e.callId && ends'[j].id != ends'[|ends|].id;
        }
      }
    }
  }

  lemma {:induction false} ListsStart(read: Reader, es: seq<Event>, cs: seq<Block>, buffers: map<string, string>, id: string, name: string)
    requires Lists(read, es, cs, buffers) && !HasStart(es, id)
    ensures Lists(read, es + [CallStarted(id, name)], cs + [ToolCallBlock(id, name, NO_ARGUMENTS, Pending)], buffers[id := ""])
  {
    hide Starts, LastRead, BufferIn;
    var e := CallStarted(id, name);
    EventsSnoc(read, es, e);
    var after := cs + [ToolCallBlock(id, name, NO_ARGUMENTS, Pending)];
    forall x
      ensures Buffered(Rebuilt(after, buffers[id := ""]), x) == BufferIn(es + [e], x)
    {
      ReadsSnoc(read, es, e, x);
      assert Buffered(Rebuilt(cs, buffers), x) == BufferIn(es, x);
    }
    forall i | 0 <= i < |after|
      ensures after[i].arguments == LastRead(read, es + [e], after[i].callId)
    {
      ReadsSnoc(read, es, e, after[i].callId);
      assert i < |cs| ==> Starts(es)[i].id != id;
    }
    assert forall i :: 0 <= i < |cs| ==> Starts(es)[i].id != id;
  }

  lemma {:induction false} ListsGrow(read: Reader, es: seq<Event>, cs: seq<Block>, buffers: map<string, string>, id: string, delta: string)
    requires Lists(read, es, cs, buffers)
    ensures Lists(read, es + [CallGrown(id, delta)], cs, buffers[id := Buffered(Rebuilt(cs, buffers), id) + delta])
  {
    hide Starts, LastRead, BufferIn;
    var e := CallGrown(id, delta);
    EventsSnoc(read, es, e);
    var after := buffers[id := Buffered(Rebuilt(cs, buffers), id) + delta];
    forall x
      ensures Buffered(Rebuilt(cs, after), x) == BufferIn(es + [e], x)
      ensures LastRead(read, es + [e], x) == LastRead(read, es, x)
    {
      ReadsSnoc(read, es, e, x);
      assert Buffered(Rebuilt(cs, buffers), x) == BufferIn(es, x);
    }
  }

  lemma {:induction false} ListsEnd(read: Reader, es: seq<Event>, cs: seq<Block>, buffers: map<string, string>, id: string, arguments: string)
    requires Lists(read, es, cs, buffers) && HasStart(es, id)
    ensures var after := Apply(read, Rebuilt(cs, buffers), CallEnded(id, arguments));
      Lists(read, es + [CallEnded(id, arguments)], after.content, after.buffers)
  {
    hide Starts, LastRead, BufferIn, Find, ReadArguments;
    var e := CallEnded(id, arguments);
    EventsSnoc(read, es, e);
    Absent(cs, CallKey(id));
    var s :| 0 <= s < |Starts(es)| && Starts(es)[s].id == id;
    assert cs[s].callId == id;
    var i := Find(cs, CallKey(id));
    var after := Apply(read, Rebuilt(cs, buffers), e);
    assert Buffered(Rebuilt(cs, buffers), id) == BufferIn(es, id);
    forall x
      ensures Buffered(after, x) == BufferIn(es + [e], x)
    {
      ReadsSnoc(read, es, e, x);
      assert Buffered(Rebuilt(cs, buffers), x) == BufferIn(es, x);
    }
    forall k | 0 <= k < |cs|
      ensures after.content[k].arguments == LastRead(read, es + [e], cs[k].callId)
    {
      ReadsSnoc(read, es, e, cs[k].callId);
    }
  }

  /** The results of a turn's calls against the ends of the events. */
  ghost predicate Parsed(read: Reader, es: seq<Event>, calls: seq<Call>)
  {
    && |Ends(es)| == |calls|
    && forall j :: 0 <= j < |calls| ==> calls[j].id == Ends(es)[j].id && calls[j].input == ParsedInput(read, Ends(es)[j].arguments)
  }

  /** Every event belongs to an attempt whose block ids start at `lo`, and speaks of announced calls. */
  ghost predicate Local(es: seq<Event>, lo: nat, hi: nat)
  {
    forall i :: 0 <= i < |es| ==> LocalEvent(es, es[i], lo, hi)
  }

  ghost predicate LocalEvent(es: seq<Event>, e: Event, lo: nat, hi: nat)
  {
    && Speech(e)
    && (EventKind(e) == CallKind ==> HasStart(es, e.callId))
    && (IsSpoken(EventKind(e)) ==> lo <= e.blockId < hi)
  }

  ghost predicate OpenFrom(open: Option<nat>, lo: nat, hi: nat) { open.Some? ==> lo <= open.value < hi }

  ghost predicate Tracked(read: Reader, a: Attempt, lo: nat)
  {
    && Lists(read, a.events, Only(Folded(read, a.events).content, CallKind), Folded(read, a.events).buffers)
    && EndsRead(read, a.events)
    && (forall id :: id in a.started <==> HasStart(a.events, id))
    && Parsed(read, a.events, a.calls)
    && lo <= a.nextId && Local(a.events, lo, a.nextId)
    && OpenFrom(a.textOpen, lo, a.nextId) && OpenFrom(a.thinkingOpen, lo, a.nextId)
  }

  /** What sending an event does to the bookkeeping of calls. */
  ghost predicate Sends(read: Reader, a: Attempt, b: Attempt, e: Event)
  {
    && b.events == a.events + [e]
    && b.started == (if e.CallStarted? then a.started + {e.callId} else a.started)
    && (if e.CallEnded? then |b.calls| == |a.calls| + 1 && b.calls[..|a.calls|] == a.calls
          && b.calls[|a.calls|].id == e.callId && b.calls[|a.calls|].input == ParsedInput(read, e.arguments)
        else b.calls == a.calls)
  }

  lemma {:induction false} LocalSnoc(es: seq<Event>, e: Event, lo: nat, hi: nat, hi': nat)
    requires Local(es, lo, hi) && hi <= hi' && LocalEvent(es + [e], e, lo, hi')
    ensures Local(es + [e], lo, hi')
  {
    hide HasStart;
    var all := es + [e];
    forall i | 0 <= i < |all|
      ensures LocalEvent(all, all[i], lo, hi')
    {
      if i < |es| {
        assert all[i] == es[i];
        assert LocalEvent(es, es[i], lo, hi);
        if EventKind(es[i]) == CallKind { HasStartSnoc(es, e, es[i].callId); }
      }
    }
  }

  lemma {:induction false} ParsedSnoc(read: Reader, a: Attempt, b: Attempt, e: Event)
    requires Parsed(read, a.events, a.calls) && Sends(read, a, b, e)
    ensures Parsed(read, b.events, b.calls)
  {
    hide Ends, BufferIn;
    EventsSnoc(read, a.events, e);
    forall j | 0 <= j < |b.calls|
      ensures b.calls[j].id == Ends(b.events)[j].id && b.calls[j].input == ParsedInput(read, Ends(b.events)[j].arguments)
    {
      assert j < |a.calls| ==> b.calls[j] == a.calls[j];
    }
  }

  lemma {:induction false} ListsSnoc(read: Reader, es: seq<Event>, e: Event)
    requires Lists(read, es, Only(Folded(read, es).content, CallKind), Folded(read, es).buffers) && Speech(e) && InTurn(es, e)
    ensures Lists(read, es + [e], Only(Folded(read, es + [e]).content, CallKind), Folded(read, es + [e]).buffers)
  {
    hide Lists, Only, Folded, HasStart;
    FoldedSnoc(read, es, e);
    var r := Folded(read, es);
    var cs := Only(r.content, CallKind);
    OnlyApply(read, r, e, CallKind);
    OnlyBuffers(read, r, e);
    match e
    case CallStarted(id, name) => ListsStart(read, es, cs, r.buffers, id, name);
    case CallGrown(id, delta) => ListsGrow(read, es, cs, r.buffers, id, delta);
    case CallEnded(id, arguments) => ListsEnd(read, es, cs, r.buffers, id, arguments);
    case _ => ListsOther(read, es, cs, r.buffers, e);
  }

  lemma {:induction false} ListsOther(read: Reader, es: seq<Event>, cs: seq<Block>, buffers: map<string, string>, e: Event)
    requires Lists(read, es, cs, buffers) && EventKind(e) != CallKind
    ensures Lists(read, es + [e], cs, buffers)
  {
    hide Starts, LastRead, BufferIn;
    EventsSnoc(read, es, e);
    assert Starts(es) + [] == Starts(es);
    forall x
      ensures BufferIn(es + [e], x) == BufferIn(es, x)
      ensures LastRead(read, es + [e], x) == LastRead(read, es, x)
    {
      ReadsSnoc(read, es, e, x);
    }
    assert forall x :: Buffered(Rebuilt(cs, buffers), x) == BufferIn(es, x);
  }

  lemma {:induction false} SendTracked(read: Reader, a: Attempt, b: Attempt, e: Event, lo: nat)
    requires Tracked(read, a, lo) && Sends(read, a, b, e) && Speech(e) && InTurn(a.events, e)
    requires a.nextId <= b.nextId && (IsSpoken(EventKind(e)) ==> lo <= e.blockId < b.nextId)
    requires OpenFrom(b.textOpen, lo, b.nextId) && OpenFrom(b.thinkingOpen, lo, b.nextId)
    ensures Tracked(read, b, lo)
  {
    hide Lists, EndsRead, HasStart, Parsed, Local, Only, Folded;
    ListsSnoc(read, a.events, e);
    EndsReadSnoc(read, a.events, e);
    ParsedSnoc(read, a, b, e);
    forall id
      ensures id in b.started <==> HasStart(b.events, id)
    {
      HasStartSnoc(a.events, e, id);
    }
    LocalSnoc(a.events, e, lo, a.nextId, b.nextId);
  }

  lemma {:induction false} TextDeltaTracked(read: Reader, a: Attempt, text: string, lo: nat)
    requires Tracked(read, a, lo)
    ensures Tracked(read, OnTextDelta(a, text), lo)
  {
    TrackedOpen(read, a, lo);
    hide Tracked, HasStart;
    var t := if a.textOpen.Some? then a
             else a.(textOpen := Some(a.nextId), nextId := a.nextId + 1, events := a.events + [TextStarted(a.nextId)]);
    if a.textOpen.None? { SendTracked(read, a, t, TextStarted(a.nextId), lo); }
    SendTracked(read, t, OnTextDelta(a, text), TextGrown(t.textOpen.value, text), lo);
  }

  lemma {:induction false} ReasoningDeltaTracked(read: Reader, a: Attempt, text: string, lo: nat)
    requires Tracked(read, a, lo)
    ensures Tracked(read, OnReasoningDelta(a, text), lo)
  {
    TrackedOpen(read, a, lo);
    hide Tracked, HasStart;
    var k := if a.thinkingOpen.Some? then a
             else a.(thinkingOpen := Some(a.nextId), nextId := a.nextId + 1, events := a.events + [ThinkingStarted(a.nextId)]);
    if a.thinkingOpen.None? { SendTracked(read, a, k, ThinkingStarted(a.nextId), lo); }
    SendTracked(read, k, OnReasoningDelta(a, text), ThinkingGrown(k.thinkingOpen.value, text), lo);
  }

  lemma TrackedOpen(read: Reader, a: Attempt, lo: nat)
    requires Tracked(read, a, lo)
    ensures lo <= a.nextId && OpenFrom(a.textOpen, lo, a.nextId) && OpenFrom(a.thinkingOpen, lo, a.nextId)
    ensures forall id :: id in a.started <==> HasStart(a.events, id)
  {
    hide Lists, EndsRead, Parsed, Local;
  }

  lemma {:induction false} AnnouncedTracked(read: Reader, a: Attempt, id: string, name: string, lo: nat)
    requires Tracked(read, a, lo)
    ensures Tracked(read, Announced(a, id, name), lo)
    ensures HasStart(Announced(a, id, name).events, id)
  {
    TrackedOpen(read, a, lo);
    hide Tracked, HasStart;
    if id !in a.started {
      SendTracked(read, a, Announced(a, id, name), CallStarted(id, name), lo);
      HasStartSnoc(a.events, CallStarted(id, name), id);
    }
  }

  lemma {:induction false} ToolTracked(read: Reader, a: Attempt, id: string, name: string, delta: string, lo: nat)
    requires Tracked(read, a, lo)
    ensures Tracked(read, OnToolDelta(a, id, name, delta), lo)
  {
    hide Tracked, HasStart;
    if id != "" {
      AnnouncedTracked(read, a, id, name, lo);
      var b := Announced(a, id, name);
      TrackedOpen(read, b, lo);
      SendTracked(read, b, OnToolDelta(a, id, name, delta), CallGrown(id, delta), lo);
    }
  }

  lemma {:induction false} ToolEndTracked(read: Reader, a: Attempt, w: WireBlock, lo: nat)
    requires Tracked(read, a, lo)
    ensures Tracked(read, OnToolEnd(read, a, w), lo)
  {
    hide Tracked, HasStart;
    AnnouncedTracked(read, a, w.id, w.name, lo);
    var b := Announced(a, w.id, w.name);
    TrackedOpen(read, b, lo);
    SendTracked(read, b, OnToolEnd(read, a, w), CallEnded(w.id, w.arguments), lo);
  }

  lemma {:induction false} CloseTracked(read: Reader, a: Attempt, lo: nat)
    requires Tracked(read, a, lo)
    ensures Tracked(read, CloseText(a), lo) && Tracked(read, CloseThinking(a), lo)
  {
    TrackedOpen(read, a, lo);
    hide Tracked;
    if a.textOpen.Some? { SendTracked(read, a, CloseText(a), TextEnded(a.textOpen.value), lo); }
    if a.thinkingOpen.Some? { SendTracked(read, a, CloseThinking(a), ThinkingEnded(a.thinkingOpen.value), lo); }
  }

  lemma SameTracked(read: Reader, a: Attempt, b: Attempt, lo: nat)
    requires Tracked(read, a, lo) && b.events == a.events && b.started == a.started && b.calls == a.calls && b.nextId == a.nextId
    requires b.textOpen == a.textOpen && b.thinkingOpen == a.thinkingOpen
    ensures Tracked(read, b, lo)
  {
    hide Lists, EndsRead, Parsed, Local, HasStart;
  }

  lemma {:induction false} FinishTracked(read: Reader, a: Attempt, kind: FinishKind, lo: nat)
    requires Tracked(read, a, lo)
    ensures Tracked(read, OnFinish(a, kind), lo)
  {
    hide Tracked, CloseText, CloseThinking;
    var marked := a.(kind := Some(kind));
    SameTracked(read, a, marked, lo);
    CloseTracked(read, marked, lo);
    CloseTracked(read, CloseText(marked), lo);
    var b := CloseThinking(CloseText(marked));
    TrackedOpen(read, b, lo);
    if CompleteUsage(a.usage) {
      var u := a.usage.value;
      SendTracked(read, b, OnFinish(a, kind), ModelCallEnded(u.prompt.value, u.completion.value, u.total.value), lo);
    }
  }

  lemma {:induction false} TakenTracked(read: Reader, a: Attempt, c: Chunk, lo: nat)
    requires Tracked(read, a, lo)
    ensures Tracked(read, OnTaken(read, a, c), lo)
  {
    hide Tracked, OnTextDelta, OnReasoningDelta, OnToolDelta, OnToolEnd, CloseText, CloseThinking, OnFinish;
    match c
    case TextDelta(_, text) => TextDeltaTracked(read, a, text, lo);
    case ReasoningDelta(_, text) => ReasoningDeltaTracked(read, a, text, lo);
    case ToolCallDelta(_, id, name, delta) => ToolTracked(read, a, id, name, delta, lo);
    case BlockEnd(_, w) =>
      ToolEndTracked(read, a, w, lo);
      CloseTracked(read, a, lo);
    case UsageChunk(u) => SameTracked(read, a, OnTaken(read, a, c), lo);
    case Finish(r) => FinishTracked(read, a, r.kind, lo);
    case _ =>
  }

  lemma {:induction false} ConsumeTracked(read: Reader, a: Attempt, cs: seq<Chunk>, lo: nat)
    requires Tracked(read, a, lo)
    ensures Tracked(read, Consume(read, a, cs).0, lo)
  {
    hide Tracked, OnTaken, Feed;
    if cs != [] {
      var c := cs[|cs| - 1];
      ConsumeTracked(read, a, cs[..|cs| - 1], lo);
      var (b, error) := Consume(read, a, cs[..|cs| - 1]);
      if error.None? {
        match Feed(b.asm, c)
        case Err(_) =>
        case Ok(p) =>
          SameTracked(read, b, b.(asm := p), lo);
          TakenTracked(read, b.(asm := p), c, lo);
      }
    }
  }

  lemma {:induction false} NewTracked(read: Reader, nextId: nat)
    ensures Tracked(read, NewAttempt(nextId), nextId)
  {
    assert [ModelCallStarted][..0] == [];
    assert Folded(read, [ModelCallStarted]) == Rebuilt([], map[]);
    assert Starts([ModelCallStarted]) == [] && Ends([ModelCallStarted]) == [];
    forall id
      ensures BufferIn([ModelCallStarted], id) == ""
    {
    }
  }
}
