/**
 * The Responses adapter against the stream contract: exactly which event streams it turns into
 * accepted chunk sequences.
 */
module ResponsesContract {
  import opened Prelude
  import opened StreamChunks
  import opened BlockAssembly
  import opened ResponsesAdapter

  // ---------------------------------------------------------------------------
  // The story of each item, read off the provider's events alone
  // ---------------------------------------------------------------------------

  datatype Story = Unseen | Announced | Speaking(reasoning: bool, said: string) | Calling | CallDone

  /**
   * The stories so far; `spoilt` once an item has been used as two things or after its end, `raised`
   * once text came for a call.
   */
  datatype Telling = Telling(stories: map<string, Story>, spoilt: bool, raised: bool)

  const SILENCE: Telling := Telling(map[], false, false)

  function StoryOf(t: Telling, id: string): Story { if id in t.stories then t.stories[id] else Unseen }

  function With(t: Telling, id: string, story: Story): Telling { t.(stories := t.stories[id := story]) }

  function TellSpeech(t: Telling, id: string, reasoning: bool, delta: string): Telling
  {
    if delta == "" then t else
    match StoryOf(t, id)
    case Unseen => With(t, id, Speaking(reasoning, delta))
    case Speaking(was, said) => if was == reasoning then With(t, id, Speaking(reasoning, said + delta)) else t.(spoilt := true)
    case Announced => With(t, id, Speaking(reasoning, "")).(raised := true)
    case Calling => t.(raised := true)
    case CallDone => t.(raised := true)
  }

  function TellArguments(t: Telling, id: string, delta: string): Telling
  {
    if delta == "" then t else
    match StoryOf(t, id)
    case Speaking(_, _) => t.(spoilt := true)
    case CallDone => t.(spoilt := true)
    case _ => With(t, id, Calling)
  }

  function TellAdded(t: Telling, id: string): Telling
  {
    if StoryOf(t, id) == Unseen then With(t, id, Announced) else t
  }

  function TellDone(t: Telling, id: string): Telling
  {
    match StoryOf(t, id)
    case Speaking(_, _) => t.(spoilt := true)
    case CallDone => t.(spoilt := true)
    case _ => With(t, id, CallDone)
  }

  function Tell(t: Telling, e: ResponseEvent): Telling
  {
    if t.spoilt || t.raised then t else
    match e
    case TextDeltaEvent(id, delta) => TellSpeech(t, id, false, delta)
    case ReasoningDeltaEvent(id, delta) => TellSpeech(t, id, true, delta)
    case ArgumentsDeltaEvent(id, delta) => TellArguments(t, id, delta)
    case ItemAddedEvent(id, isFunction, _, _) => if isFunction then TellAdded(t, id) else t
    case ItemDoneEvent(id, isFunction, _, _, _) => if isFunction then TellDone(t, id) else t
    case _ => t
  }

  function Told(es: seq<ResponseEvent>): Telling
  {
    if es == [] then SILENCE else Tell(Told(es[..|es| - 1]), es[|es| - 1])
  }

  /** No item is left with a call under way. */
  ghost predicate NoCallOpen(t: Telling) { forall id :: StoryOf(t, id) != Calling }

  /** No item has an open block at all. */
  ghost predicate NothingOpen(t: Telling) { forall id :: StoryOf(t, id) != Calling && !StoryOf(t, id).Speaking? }

  // ---------------------------------------------------------------------------
  // The adapter and the assembler stay in step
  // ---------------------------------------------------------------------------

  function OwnerOf(owner: map<int, string>, i: int): string { if i in owner then owner[i] else "" }

  /** One item against its story and its block. */
  ghost predicate ItemInStep(item: Item, story: Story, p: Progress)
  {
    match story
    case Unseen => false
    case Announced => item.kind == ToolItem && item.index == None && !item.ended
    case Speaking(reasoning, said) =>
      && item.index.Some? && !item.ended && item.index.value in p.open
      && p.open[item.index.value].blockType == (if reasoning then Reasoning else Text)
      && p.open[item.index.value].text == said
      && (item.kind != ToolItem ==> item.text == said && item.kind == if reasoning then ReasoningItem else TextItem)
    case Calling =>
      item.kind == ToolItem && item.index.Some? && !item.ended && item.index.value in p.open && p.open[item.index.value].blockType == ToolCall
    case CallDone => item.kind == ToolItem && item.index.Some? && item.ended && item.index.value !in p.open
  }

  ghost predicate AllInStep(items: map<string, Item>, t: Telling, p: Progress)
  {
    && items.Keys == t.stories.Keys
    && (forall id :: id in items ==> ItemInStep(items[id], StoryOf(t, id), p))
  }

  /** Every started item owns its index, and every open block belongs to an item. */
  ghost predicate Owned(items: map<string, Item>, next: int, p: Progress, owner: map<int, string>)
  {
    && (forall id :: id in items && items[id].index.Some? ==>
          items[id].index.value < next && OwnerOf(owner, items[id].index.value) == id)
    && (forall i :: i in p.open ==> i < next && OwnerOf(owner, i) in items && items[OwnerOf(owner, i)].index == Some(i))
  }

  ghost predicate InStep(s: Stage, p: Progress, t: Telling, owner: map<int, string>)
  {
    && p.finish == None && p.next == s.next && p.pending == p.open.Keys && s.raised == t.raised
    && AllInStep(s.items, t, p)
    && Owned(s.items, s.next, p, owner)
    && (!s.raised ==> forall id :: id in s.items && s.items[id].kind == ToolItem ==> !StoryOf(t, id).Speaking?)
  }

  lemma {:induction false} BeginInStep(s: Stage, p: Progress, t: Telling, owner: map<int, string>, id: string, kind: ItemKind)
      returns (q: Progress, owner': map<int, string>)
    requires InStep(s, p, t, owner) && !s.raised && (StoryOf(t, id) == Unseen || (StoryOf(t, id) == Announced))
    ensures var b := Begun(Known(s, id, kind), id, kind);
      && Feed(p, BlockStart(s.next, TypeOf(kind))) == Ok(q)
      && b.out == s.out + [BlockStart(s.next, TypeOf(kind))]
      && b.items == s.items[id := b.items[id]] && b.items[id].index == Some(s.next)
      && b.items[id].kind == (if StoryOf(t, id) == Unseen then kind else ToolItem) && !b.items[id].ended
      && (StoryOf(t, id) == Unseen ==> b.items[id].text == "")
      && b.next == s.next + 1 && b.raised == s.raised
      && q == p.(open := p.open[s.next := Fresh(TypeOf(kind))], pending := p.pending + {s.next}, next := p.next + 1)
      && s.next !in p.open
      && owner' == owner[s.next := id]
  {
    q := Feed(p, BlockStart(s.next, TypeOf(kind))).value;
    owner' := owner[s.next := id];
    assert id in s.items ==> ItemInStep(s.items[id], StoryOf(t, id), p);
  }

  lemma {:induction false} FreshOwned(items: map<string, Item>, next: int, p: Progress, owner: map<int, string>, id: string, item: Item, q: Progress)
    requires Owned(items, next, p, owner) && (id in items ==> items[id].index == None) && item.index == Some(next)
    requires forall i :: i in q.open ==> i in p.open || i == next
    ensures Owned(items[id := item], next + 1, q, owner[next := id])
  {
    var items', owner' := items[id := item], owner[next := id];
    forall x | x in items' && items'[x].index.Some?
      ensures items'[x].index.value < next + 1 && OwnerOf(owner', items'[x].index.value) == x
    {
      assert x != id ==> x in items && items[x].index.value < next;
    }
    forall i | i in q.open
      ensures i < next + 1 && OwnerOf(owner', i) in items' && items'[OwnerOf(owner', i)].index == Some(i)
    {
      assert i != next ==> i in p.open && OwnerOf(owner', i) == OwnerOf(owner, i);
    }
  }

  lemma {:induction false} FreshItems(items: map<string, Item>, next: int, p: Progress, t: Telling, owner: map<int, string>, id: string, item: Item,
                                      story: Story, q: Progress, t': Telling)
    requires AllInStep(items, t, p) && Owned(items, next, p, owner) && ItemInStep(item, story, q)
    requires t'.stories == t.stories[id := story]
    requires forall i :: i != next ==> (i in q.open <==> i in p.open)
    requires forall i :: i in p.open && i != next ==> q.open[i] == p.open[i]
    ensures AllInStep(items[id := item], t', q)
  {
    hide ItemInStep;
    forall x | x in items[id := item]
      ensures ItemInStep(items[id := item][x], StoryOf(t', x), q)
    {
      if x != id {
        assert ItemInStep(items[x], StoryOf(t, x), p);
        OtherItem(items[x], StoryOf(t, x), p, q, next);
      }
    }
  }

  /** An item whose block has just been started, and what else was said of it. */
  lemma {:induction false} FreshInStep(s: Stage, p: Progress, t: Telling, owner: map<int, string>, id: string, item: Item, story: Story,
                                       s': Stage, q: Progress, t': Telling)
    requires InStep(s, p, t, owner) && !s.raised && (StoryOf(t, id) == Unseen || StoryOf(t, id) == Announced)
    requires s'.items == s.items[id := item] && item.index == Some(s.next) && s'.next == s.next + 1
    requires t'.stories == t.stories[id := story] && s'.raised == t'.raised
    requires q.finish == None && q.next == p.next + 1 && q.pending == q.open.Keys && ItemInStep(item, story, q)
    requires forall i :: i != s.next ==> (i in q.open <==> i in p.open)
    requires forall i :: i in p.open && i != s.next ==> q.open[i] == p.open[i]
    requires !t'.raised && item.kind == ToolItem ==> !story.Speaking?
    ensures InStep(s', q, t', owner[s.next := id])
  {
    NoBlockYet(s, p, t, owner, id);
    hide ItemInStep, AllInStep, Owned;
    FreshOwned(s.items, s.next, p, owner, id, item, q);
    FreshItems(s.items, s.next, p, t, owner, id, item, story, q, t');
  }

  lemma NoBlockYet(s: Stage, p: Progress, t: Telling, owner: map<int, string>, id: string)
    requires InStep(s, p, t, owner) && (StoryOf(t, id) == Unseen || StoryOf(t, id) == Announced)
    ensures id in s.items ==> s.items[id].index == None
  {
    assert id in s.items ==> ItemInStep(s.items[id], StoryOf(t, id), p);
  }

  /** Other items do not notice what happens to a block that is not theirs. */
  lemma OtherItem(item: Item, story: Story, p: Progress, q: Progress, n: int)
    requires ItemInStep(item, story, p) && (item.index.Some? ==> item.index.value != n)
    requires forall i :: i != n ==> (i in q.open <==> i in p.open)
    requires forall i :: i in p.open && i != n ==> q.open[i] == p.open[i]
    ensures ItemInStep(item, story, q)
  {
  }

  /** Something more about an item whose block was started before. */
  lemma {:induction false} MoreInStep(s: Stage, p: Progress, t: Telling, owner: map<int, string>, id: string, item: Item, story: Story,
                                      s': Stage, q: Progress, t': Telling)
    requires InStep(s, p, t, owner) && !s.raised && id in s.items && s.items[id].index.Some?
    requires s'.items == s.items[id := item] && item.index == s.items[id].index && s'.next == s.next
    requires t'.stories == t.stories[id := story] && s'.raised == t'.raised
    requires q.finish == None && q.next == p.next && q.pending == q.open.Keys && ItemInStep(item, story, q)
    requires forall i :: i != item.index.value ==> (i in q.open <==> i in p.open)
    requires item.index.value in q.open ==> item.index.value in p.open
    requires forall i :: i in p.open && i != item.index.value ==> q.open[i] == p.open[i]
    requires !t'.raised && item.kind == ToolItem ==> !story.Speaking?
    ensures InStep(s', q, t', owner)
  {
    hide ItemInStep;
    forall x | x in s'.items
      ensures ItemInStep(s'.items[x], StoryOf(t', x), q)
    {
      if x != id {
        assert ItemInStep(s.items[x], StoryOf(t, x), p);
        assert s.items[x].index.Some? ==> s.items[x].index.value != item.index.value;
        OtherItem(s.items[x], StoryOf(t, x), p, q, item.index.value);
      }
    }
  }

  lemma {:induction false} FeedTwo(p: Progress, out: seq<Chunk>, a: Chunk, b: Chunk)
    requires FeedAll(out) == Ok(p)
    ensures FeedAll(out + [a]) == Feed(p, a)
    ensures Feed(p, a).Ok? ==> FeedAll(out + [a] + [b]) == Feed(Feed(p, a).value, b)
  {
    assert (out + [a])[..|out|] == out;
    assert (out + [a] + [b])[..|out| + 1] == out + [a];
  }

  /** The chunks so far feed to `p`, in step with the adapter and the stories. */
  ghost predicate Tracks(s: Stage, p: Progress, t: Telling, owner: map<int, string>)
  {
    FeedAll(s.out) == Ok(p) && InStep(s, p, t, owner)
  }

  /** After an event: still in step, or refused by the assembler exactly when a story is spoilt. */
  ghost predicate After(s: Stage, t: Telling, p: Progress, owner: map<int, string>)
  {
    if t.spoilt then FeedAll(s.out).Err? else Tracks(s, p, t, owner)
  }

  lemma {:induction false} FirstSpeech(s: Stage, p: Progress, t: Telling, owner: map<int, string>, id: string, reasoning: bool, delta: string)
      returns (q: Progress, owner': map<int, string>)
    requires Tracks(s, p, t, owner) && !t.spoilt && !t.raised && StoryOf(t, id) == Unseen && delta != ""
    ensures After(OnDelta(s, id, if reasoning then ReasoningItem else TextItem, delta), TellSpeech(t, id, reasoning, delta), q, owner')
  {
    hide FeedAll, ItemInStep, AllInStep, Owned;
    var kind := if reasoning then ReasoningItem else TextItem;
    q, owner' := BeginInStep(s, p, t, owner, id, kind);
    var b := Begun(Known(s, id, kind), id, kind);
    var s' := OnDelta(s, id, kind, delta);
    var c := if reasoning then ReasoningDelta(s.next, delta) else TextDelta(s.next, delta);
    FeedTwo(p, s.out, BlockStart(s.next, TypeOf(kind)), c);
    var m := q;
    q := Feed(m, c).value;
    var item := s'.items[id];
    assert item.text == "" + delta == delta;
    assert q.open == m.open[s.next := AddText(Fresh(TypeOf(kind)), delta)];
    assert ItemInStep(item, Speaking(reasoning, delta), q) by { SpeakingItem(item, reasoning, delta, q); }
    FreshInStep(s, p, t, owner, id, item, Speaking(reasoning, delta), s', q, TellSpeech(t, id, reasoning, delta));
  }

  lemma SpeakingItem(item: Item, reasoning: bool, said: string, q: Progress)
    requires item.index.Some? && !item.ended && item.index.value in q.open
    requires q.open[item.index.value].blockType == (if reasoning then Reasoning else Text) && q.open[item.index.value].text == said
    requires item.kind != ToolItem ==> item.text == said && item.kind == if reasoning then ReasoningItem else TextItem
    ensures ItemInStep(item, Speaking(reasoning, said), q)
  {
  }

  lemma {:induction false} MoreSpeech(s: Stage, p: Progress, t: Telling, owner: map<int, string>, id: string, reasoning: bool, delta: string)
      returns (q: Progress)
    requires Tracks(s, p, t, owner) && !t.spoilt && !t.raised && StoryOf(t, id).Speaking? && delta != ""
    ensures After(OnDelta(s, id, if reasoning then ReasoningItem else TextItem, delta), TellSpeech(t, id, reasoning, delta), q, owner)
  {
    hide FeedAll;
    var kind := if reasoning then ReasoningItem else TextItem;
    var item := s.items[id];
    assert ItemInStep(item, StoryOf(t, id), p);
    var n := item.index.value;
    var c := if reasoning then ReasoningDelta(n, delta) else TextDelta(n, delta);
    FeedTwo(p, s.out, c, c);
    q := p;
    var s' := OnDelta(s, id, kind, delta);
    assert s'.out == s.out + [c];
    if StoryOf(t, id).reasoning == reasoning {
      q := Feed(p, c).value;
      var item' := s'.items[id];
      var story := Speaking(reasoning, StoryOf(t, id).said + delta);
      assert ItemInStep(item', story, q);
      MoreInStep(s, p, t, owner, id, item', story, s', q, TellSpeech(t, id, reasoning, delta));
    }
  }

  /** Text for an announced call: its block is started, and then the lookup fails. */
  lemma {:induction false} AnnouncedSpeech(s: Stage, p: Progress, t: Telling, owner: map<int, string>, id: string, reasoning: bool, delta: string)
      returns (q: Progress, owner': map<int, string>)
    requires Tracks(s, p, t, owner) && !t.spoilt && !t.raised && StoryOf(t, id) == Announced && delta != ""
    ensures After(OnDelta(s, id, if reasoning then ReasoningItem else TextItem, delta), TellSpeech(t, id, reasoning, delta), q, owner')
  {
    hide FeedAll, ItemInStep, AllInStep, Owned;
    var kind := if reasoning then ReasoningItem else TextItem;
    q, owner' := BeginInStep(s, p, t, owner, id, kind);
    var b := Begun(Known(s, id, kind), id, kind);
    FeedTwo(p, s.out, BlockStart(s.next, TypeOf(kind)), BlockStart(s.next, TypeOf(kind)));
    var item := b.items[id];
    assert ItemInStep(item, Speaking(reasoning, ""), q) by { SpeakingItem(item, reasoning, "", q); }
    FreshInStep(s, p, t, owner, id, item, Speaking(reasoning, ""), b.(raised := true), q, TellSpeech(t, id, reasoning, delta));
  }

  /** Text for a call that has a block: nothing is sent, and the lookup fails. */
  lemma {:induction false} CallSpeech(s: Stage, p: Progress, t: Telling, owner: map<int, string>, id: string, reasoning: bool, delta: string)
    requires Tracks(s, p, t, owner) && !t.spoilt && !t.raised && (StoryOf(t, id) == Calling || StoryOf(t, id) == CallDone) && delta != ""
    ensures After(OnDelta(s, id, if reasoning then ReasoningItem else TextItem, delta), TellSpeech(t, id, reasoning, delta), p, owner)
  {
    hide FeedAll;
    var item := s.items[id];
    assert ItemInStep(item, StoryOf(t, id), p);
    assert OnDelta(s, id, if reasoning then ReasoningItem else TextItem, delta) == s.(raised := true);
  }

  lemma {:induction false} SpeechAfter(s: Stage, p: Progress, t: Telling, owner: map<int, string>, id: string, reasoning: bool, delta: string)
      returns (q: Progress, owner': map<int, string>)
    requires Tracks(s, p, t, owner) && !t.spoilt && !t.raised
    ensures After(OnDelta(s, id, if reasoning then ReasoningItem else TextItem, delta), TellSpeech(t, id, reasoning, delta), q, owner')
  {
    hide Tracks, OnDelta, After;
    q, owner' := p, owner;
    if delta == "" {
      SilentAfter(s, p, t, owner, id, reasoning);
    } else {
      match StoryOf(t, id)
      case Unseen => q, owner' := FirstSpeech(s, p, t, owner, id, reasoning, delta);
      case Speaking(_, _) => q := MoreSpeech(s, p, t, owner, id, reasoning, delta);
      case Announced => q, owner' := AnnouncedSpeech(s, p, t, owner, id, reasoning, delta);
      case Calling => CallSpeech(s, p, t, owner, id, reasoning, delta);
      case CallDone => CallSpeech(s, p, t, owner, id, reasoning, delta);
    }
  }

  lemma SilentAfter(s: Stage, p: Progress, t: Telling, owner: map<int, string>, id: string, reasoning: bool)
    requires Tracks(s, p, t, owner) && !t.spoilt
    ensures After(OnDelta(s, id, if reasoning then ReasoningItem else TextItem, ""), TellSpeech(t, id, reasoning, ""), p, owner)
  {
    hide Tracks;
  }

  lemma {:induction false} FirstArguments(s: Stage, p: Progress, t: Telling, owner: map<int, string>, id: string, delta: string)
      returns (q: Progress, owner': map<int, string>)
    requires Tracks(s, p, t, owner) && !t.spoilt && !t.raised && (StoryOf(t, id) == Unseen || StoryOf(t, id) == Announced) && delta != ""
    ensures After(OnArguments(s, id, delta), TellArguments(t, id, delta), q, owner')
  {
    hide FeedAll, AllInStep, Owned;
    q, owner' := BeginInStep(s, p, t, owner, id, ToolItem);
    var b := Begun(Known(s, id, ToolItem), id, ToolItem);
    var c := ToolCallDelta(s.next, b.items[id].callId, b.items[id].name, delta);
    FeedTwo(p, s.out, BlockStart(s.next, ToolCall), c);
    q := Feed(q, c).value;
    FreshInStep(s, p, t, owner, id, b.items[id], Calling, OnArguments(s, id, delta), q, TellArguments(t, id, delta));
  }

  lemma {:induction false} MoreArguments(s: Stage, p: Progress, t: Telling, owner: map<int, string>, id: string, delta: string)
      returns (q: Progress)
    requires Tracks(s, p, t, owner) && !t.spoilt && !t.raised && StoryOf(t, id) != Unseen && StoryOf(t, id) != Announced && delta != ""
    ensures After(OnArguments(s, id, delta), TellArguments(t, id, delta), q, owner)
  {
    hide FeedAll, Owned;
    q := p;
    var item := s.items[id];
    assert ItemInStep(item, StoryOf(t, id), p);
    var c := ToolCallDelta(item.index.value, item.callId, item.name, delta);
    FeedTwo(p, s.out, c, c);
    assert OnArguments(s, id, delta).out == s.out + [c];
    if StoryOf(t, id) == Calling {
      q := Feed(p, c).value;
      hide AllInStep;
      MoreInStep(s, p, t, owner, id, item, Calling, OnArguments(s, id, delta), q, TellArguments(t, id, delta));
    }
  }

  lemma {:induction false} ArgumentsAfter(s: Stage, p: Progress, t: Telling, owner: map<int, string>, id: string, delta: string)
      returns (q: Progress, owner': map<int, string>)
    requires Tracks(s, p, t, owner) && !t.spoilt && !t.raised
    ensures After(OnArguments(s, id, delta), TellArguments(t, id, delta), q, owner')
  {
    q, owner' := p, owner;
    StillTracks(s, p, t, owner);
    if delta != "" {
      hide Tracks, After, OnArguments, TellArguments;
      if StoryOf(t, id) == Unseen || StoryOf(t, id) == Announced {
        q, owner' := FirstArguments(s, p, t, owner, id, delta);
      } else {
        q := MoreArguments(s, p, t, owner, id, delta);
      }
    } else {
      hide Tracks, After;
    }
  }

  lemma {:induction false} FirstDone(s: Stage, p: Progress, t: Telling, owner: map<int, string>, id: string, callId: string, name: string, arguments: string)
      returns (q: Progress, owner': map<int, string>)
    requires Tracks(s, p, t, owner) && !t.spoilt && !t.raised && (StoryOf(t, id) == Unseen || StoryOf(t, id) == Announced)
    ensures After(OnDone(s, id, callId, name, arguments), TellDone(t, id), q, owner')
  {
    hide FeedAll, AllInStep, Owned;
    var s' := OnDone(s, id, callId, name, arguments);
    q, owner' := BeginInStep(s, p, t, owner, id, ToolItem);
    var c := BlockEnd(s.next, ToolBlockWire(callId, name, arguments));
    FeedTwo(p, s.out, BlockStart(s.next, ToolCall), c);
    q := Feed(q, c).value;
    FreshInStep(s, p, t, owner, id, s'.items[id], CallDone, s', q, TellDone(t, id));
  }

  lemma {:induction false} LaterDone(s: Stage, p: Progress, t: Telling, owner: map<int, string>, id: string, callId: string, name: string, arguments: string)
      returns (q: Progress)
    requires Tracks(s, p, t, owner) && !t.spoilt && !t.raised && StoryOf(t, id) != Unseen && StoryOf(t, id) != Announced
    ensures After(OnDone(s, id, callId, name, arguments), TellDone(t, id), q, owner)
  {
    hide FeedAll, Owned;
    q := p;
    var s' := OnDone(s, id, callId, name, arguments);
    var item := s.items[id];
    assert ItemInStep(item, StoryOf(t, id), p);
    var c := BlockEnd(item.index.value, ToolBlockWire(callId, name, arguments));
    FeedTwo(p, s.out, c, c);
    assert s'.out == s.out + [c];
    if StoryOf(t, id) == Calling {
      q := Feed(p, c).value;
      hide AllInStep;
      MoreInStep(s, p, t, owner, id, s'.items[id], CallDone, s', q, TellDone(t, id));
    }
  }

  lemma {:induction false} DoneAfter(s: Stage, p: Progress, t: Telling, owner: map<int, string>, id: string, callId: string, name: string, arguments: string)
      returns (q: Progress, owner': map<int, string>)
    requires Tracks(s, p, t, owner) && !t.spoilt && !t.raised
    ensures After(OnDone(s, id, callId, name, arguments), TellDone(t, id), q, owner')
  {
    hide Tracks, After, OnDone, TellDone;
    owner' := owner;
    if StoryOf(t, id) == Unseen || StoryOf(t, id) == Announced {
      q, owner' := FirstDone(s, p, t, owner, id, callId, name, arguments);
    } else {
      q := LaterDone(s, p, t, owner, id, callId, name, arguments);
    }
  }

  /** Being added makes the item known as a call, or only tells the adapter a call's id and name. */
  lemma {:induction false} AddedAfter(s: Stage, p: Progress, t: Telling, owner: map<int, string>, id: string, callId: string, name: string)
    requires Tracks(s, p, t, owner) && !t.spoilt && !t.raised
    ensures After(OnAdded(s, id, callId, name), TellAdded(t, id), p, owner)
  {
    hide FeedAll;
    var s', t' := OnAdded(s, id, callId, name), TellAdded(t, id);
    var item := s'.items[id];
    if id in s.items {
      SeenStory(s, p, t, owner, id);
      assert t' == t && item == s.items[id].(callId := callId, name := name);
      assert ItemInStep(s.items[id], StoryOf(t, id), p);
      NamedItem(s.items[id], item, StoryOf(t, id), p);
      RenamedInStep(s, p, t, owner, id, item, s');
    } else {
      assert item == NewItem(ToolItem).(callId := callId, name := name);
      AnnouncedItem(item, p);
      NewInStep(s, p, t, owner, id, item, s');
    }
  }

  lemma {:induction false} RenamedInStep(s: Stage, p: Progress, t: Telling, owner: map<int, string>, id: string, item: Item, s': Stage)
    requires InStep(s, p, t, owner) && id in s.items && ItemInStep(item, StoryOf(t, id), p)
    requires item == s.items[id].(callId := item.callId, name := item.name)
    requires s' == s.(items := s.items[id := item])
    ensures InStep(s', p, t, owner)
  {
    hide ItemInStep;
    forall x | x in s'.items
      ensures ItemInStep(s'.items[x], StoryOf(t, x), p)
    {
      assert ItemInStep(s.items[x], StoryOf(t, x), p);
    }
  }

  lemma {:induction false} NewInStep(s: Stage, p: Progress, t: Telling, owner: map<int, string>, id: string, item: Item, s': Stage)
    requires InStep(s, p, t, owner) && id !in s.items && ItemInStep(item, Announced, p) && item.index == None
    requires s' == s.(items := s.items[id := item], order := s'.order)
    ensures InStep(s', p, With(t, id, Announced), owner)
  {
    hide ItemInStep;
    forall x | x in s'.items
      ensures ItemInStep(s'.items[x], StoryOf(With(t, id, Announced), x), p)
    {
      assert x in s.items ==> ItemInStep(s.items[x], StoryOf(t, x), p);
    }
  }

  lemma SeenStory(s: Stage, p: Progress, t: Telling, owner: map<int, string>, id: string)
    requires InStep(s, p, t, owner) && id in s.items
    ensures StoryOf(t, id) != Unseen
  {
    assert ItemInStep(s.items[id], StoryOf(t, id), p);
  }

  lemma NamedItem(a: Item, b: Item, story: Story, p: Progress)
    requires ItemInStep(a, story, p) && b == a.(callId := b.callId, name := b.name)
    ensures ItemInStep(b, story, p)
  {
  }

  lemma AnnouncedItem(item: Item, p: Progress)
    requires item.kind == ToolItem && item.index == None && !item.ended
    ensures ItemInStep(item, Announced, p)
  {
  }

  lemma {:induction false} EventAfter(s: Stage, p: Progress, t: Telling, owner: map<int, string>, e: ResponseEvent)
      returns (q: Progress, owner': map<int, string>)
    requires Tracks(s, p, t, owner) && !t.spoilt
    ensures After(OnEvent(s, e), Tell(t, e), q, owner')
  {
    RaisedTogether(s, p, t, owner);
    hide Tracks, OnDelta, OnArguments, OnAdded, OnDone, OnCompleted, TellSpeech, TellArguments, TellAdded, TellDone, After;
    q, owner' := p, owner;
    StillTracks(s, p, t, owner);
    if !t.raised {
      match e
      case TextDeltaEvent(id, delta) => q, owner' := SpeechAfter(s, p, t, owner, id, false, delta);
      case ReasoningDeltaEvent(id, delta) => q, owner' := SpeechAfter(s, p, t, owner, id, true, delta);
      case ArgumentsDeltaEvent(id, delta) => q, owner' := ArgumentsAfter(s, p, t, owner, id, delta);
      case ItemAddedEvent(id, isFunction, callId, name) => if isFunction { AddedAfter(s, p, t, owner, id, callId, name); }
      case ItemDoneEvent(id, isFunction, callId, name, arguments) =>
        if isFunction { q, owner' := DoneAfter(s, p, t, owner, id, callId, name, arguments); }
      case CompletedEvent(usage, completed, incomplete) => CompletedTracks(s, p, t, owner, usage, completed, incomplete);
      case OtherEvent =>
    }
  }

  lemma RaisedTogether(s: Stage, p: Progress, t: Telling, owner: map<int, string>)
    requires Tracks(s, p, t, owner)
    ensures s.raised == t.raised
  {
  }

  lemma StillTracks(s: Stage, p: Progress, t: Telling, owner: map<int, string>)
    requires Tracks(s, p, t, owner) && !t.spoilt
    ensures After(s, t, p, owner)
  {
    hide Tracks;
  }

  lemma CompletedTracks(s: Stage, p: Progress, t: Telling, owner: map<int, string>, usage: Option<Usage>, completed: bool, incomplete: bool)
    requires Tracks(s, p, t, owner) && !t.spoilt
    ensures After(OnCompleted(s, usage, completed, incomplete), t, p, owner)
  {
    hide ItemInStep, FeedAll;
  }

  // ---------------------------------------------------------------------------
  // Whole turns
  // ---------------------------------------------------------------------------

  lemma {:induction false} ErrStays(a: seq<Chunk>, b: seq<Chunk>)
    requires FeedAll(a).Err?
    ensures FeedAll(a + b).Err?
  {
    if b == [] {
      assert a + b == a;
    } else {
      assert (a + b)[..|a + b| - 1] == a + b[..|b| - 1];
      ErrStays(a, b[..|b| - 1]);
    }
  }

  lemma {:induction false} OutGrows(s: Stage, e: ResponseEvent)
    ensures s.out <= OnEvent(s, e).out
  {
  }

  lemma {:induction false} ConsumedAfter(es: seq<ResponseEvent>) returns (p: Progress, owner: map<int, string>)
    ensures After(Consumed(es), Told(es), p, owner)
  {
    p, owner := EMPTY, map[];
    if es != [] {
      var init, e := es[..|es| - 1], es[|es| - 1];
      p, owner := ConsumedAfter(init);
      var s, t := Consumed(init), Told(init);
      if t.spoilt {
        OutGrows(s, e);
        ErrStays(s.out, OnEvent(s, e).out[|s.out|..]);
        assert OnEvent(s, e).out == s.out + OnEvent(s, e).out[|s.out|..];
      } else {
        hide OnEvent, Tell, Tracks;
        p, owner := EventAfter(s, p, t, owner, e);
      }
    }
  }

  /** The order lists every item once. */
  ghost predicate Listed(s: Stage)
  {
    && (forall id :: id in s.items <==> id in s.order)
    && (forall i, j :: 0 <= i < j < |s.order| ==> s.order[i] != s.order[j])
  }

  lemma {:induction false} KnownListed(s: Stage, id: string, kind: ItemKind)
    requires Listed(s)
    ensures Listed(Known(s, id, kind)) && id in Known(s, id, kind).items
  {
    var b := Known(s, id, kind);
    if id !in s.items {
      forall x
        ensures x in b.order <==> x in s.order || x == id
      {
        assert b.order[|s.order|] == id;
      }
      assert id !in s.order;
    }
  }

  /** Being listed depends on the ids alone. */
  lemma SameListed(a: Stage, b: Stage)
    requires Listed(a) && b.items.Keys == a.items.Keys && b.order == a.order
    ensures Listed(b)
  {
  }

  lemma {:induction false} EventListed(s: Stage, e: ResponseEvent)
    requires Listed(s)
    ensures Listed(OnEvent(s, e))
  {
    hide Listed, Known;
    match e
    case TextDeltaEvent(id, delta) =>
      KnownListed(s, id, TextItem);
      if delta != "" && !s.raised { SameListed(Known(s, id, TextItem), OnEvent(s, e)); }
    case ReasoningDeltaEvent(id, delta) =>
      KnownListed(s, id, ReasoningItem);
      if delta != "" && !s.raised { SameListed(Known(s, id, ReasoningItem), OnEvent(s, e)); }
    case ArgumentsDeltaEvent(id, delta) =>
      KnownListed(s, id, ToolItem);
      if delta != "" && !s.raised { SameListed(Known(s, id, ToolItem), OnEvent(s, e)); }
    case ItemAddedEvent(id, isFunction, _, _) =>
      KnownListed(s, id, ToolItem);
      if isFunction && !s.raised { SameListed(Known(s, id, ToolItem), OnEvent(s, e)); }
    case ItemDoneEvent(id, isFunction, _, _, _) =>
      KnownListed(s, id, ToolItem);
      if isFunction && !s.raised { SameListed(Known(s, id, ToolItem), OnEvent(s, e)); }
    case _ => SameListed(s, OnEvent(s, e));
  }

  lemma {:induction false} ConsumedListed(es: seq<ResponseEvent>)
    ensures Listed(Consumed(es))
  {
    hide Listed, OnEvent;
    if es == [] {
      StartListed();
    } else {
      ConsumedListed(es[..|es| - 1]);
      EventListed(Consumed(es[..|es| - 1]), es[|es| - 1]);
    }
  }

  lemma StartListed()
    ensures Listed(START)
  {
  }

  predicate Speaks(t: Telling, id: string)
    ensures Speaks(t, id) ==> StoryOf(t, id).Speaking?
  {
    StoryOf(t, id).Speaking?
  }

  /** The assembler after the tail has closed the speaking items among the first `n`. */
  ghost predicate ClosedTo(s: Stage, p: Progress, t: Telling, owner: map<int, string>, r: Progress, n: nat)
    requires n <= |s.order|
  {
    && r.finish == None && r.pending == r.open.Keys
    && (forall i :: i in r.open <==> i in p.open && !(OwnerOf(owner, i) in s.order[..n] && Speaks(t, OwnerOf(owner, i))))
    && (forall i :: i in r.open ==> r.open[i] == p.open[i])
  }

  lemma {:induction false} SpeakingFacts(s: Stage, p: Progress, t: Telling, owner: map<int, string>, id: string)
    requires InStep(s, p, t, owner) && !s.raised && Speaks(t, id)
    ensures id in s.items && s.items[id].index.Some? && !s.items[id].ended && s.items[id].kind != ToolItem
    ensures var i := s.items[id].index.value;
      && i in p.open && OwnerOf(owner, i) == id
      && TailEnd(s.items[id]) == [BlockEnd(i, if s.items[id].kind == TextItem then TextBlockWire(s.items[id].text) else ThinkingBlockWire(s.items[id].text))]
      && ToWire(p.open[i].blockType) == (if s.items[id].kind == TextItem then TextWire else ThinkingWire)
  {
    assert id in t.stories;
    assert ItemInStep(s.items[id], StoryOf(t, id), p);
  }

  lemma {:induction false} QuietFacts(s: Stage, p: Progress, t: Telling, owner: map<int, string>, id: string)
    requires InStep(s, p, t, owner) && !Speaks(t, id) && id in s.items
    ensures TailEnd(s.items[id]) == []
  {
    assert ItemInStep(s.items[id], StoryOf(t, id), p);
  }

  lemma {:induction false} TailRun(s: Stage, p: Progress, t: Telling, owner: map<int, string>, n: nat) returns (r: Progress)
    requires Tracks(s, p, t, owner) && !s.raised && Listed(s) && n <= |s.order|
    ensures FeedAll(s.out + TailEnds(s.items, s.order[..n])) == Ok(r) && ClosedTo(s, p, t, owner, r, n)
  {
    hide FeedAll, InStep, TailEnd, Speaks, Listed, ClosedTo;
    if n == 0 {
      r := p;
      NothingClosed(s, p, t, owner);
      assert s.out + TailEnds(s.items, s.order[..0]) == s.out;
    } else {
      var id := s.order[n - 1];
      assert s.order[..n][..n - 1] == s.order[..n - 1];
      r := TailRun(s, p, t, owner, n - 1);
      var sent := s.out + TailEnds(s.items, s.order[..n - 1]);
      ListedAt(s, n - 1);
      assert s.out + TailEnds(s.items, s.order[..n]) == sent + TailEnd(s.items[id]);
      r := TailStep(s, p, t, owner, sent, r, n);
    }
  }

  lemma ListedAt(s: Stage, k: nat)
    requires Listed(s) && k < |s.order|
    ensures s.order[k] in s.items && s.order[k] !in s.order[..k]
  {
  }

  lemma NothingClosed(s: Stage, p: Progress, t: Telling, owner: map<int, string>)
    requires InStep(s, p, t, owner)
    ensures ClosedTo(s, p, t, owner, p, 0)
  {
    hide AllInStep, Owned;
  }

  lemma {:induction false} TailStep(s: Stage, p: Progress, t: Telling, owner: map<int, string>, sent: seq<Chunk>, r: Progress, n: nat) returns (r': Progress)
    requires InStep(s, p, t, owner) && !s.raised && 0 < n <= |s.order|
    requires s.order[n - 1] in s.items && s.order[n - 1] !in s.order[..n - 1]
    requires FeedAll(sent) == Ok(r) && ClosedTo(s, p, t, owner, r, n - 1)
    ensures FeedAll(sent + TailEnd(s.items[s.order[n - 1]])) == Ok(r') && ClosedTo(s, p, t, owner, r', n)
  {
    hide FeedAll, InStep, TailEnd, Speaks;
    var id := s.order[n - 1];
    assert s.order[..n] == s.order[..n - 1] + [id];
    if Speaks(t, id) {
      SpeakingFacts(s, p, t, owner, id);
      var item := s.items[id];
      var i := item.index.value;
      var c := BlockEnd(i, if item.kind == TextItem then TextBlockWire(item.text) else ThinkingBlockWire(item.text));
      FeedTwo(r, sent, c, c);
      r' := Feed(r, c).value;
      Unshared(s, p, t, owner, id, i);
      ClosedMore(s, p, t, owner, r, r', n, id, i);
    } else {
      r' := r;
      QuietFacts(s, p, t, owner, id);
      assert sent + [] == sent;
    }
  }

  lemma {:induction false} Unshared(s: Stage, p: Progress, t: Telling, owner: map<int, string>, id: string, i: int)
    requires InStep(s, p, t, owner) && id in s.items && s.items[id].index == Some(i)
    ensures forall x :: x in p.open && OwnerOf(owner, x) == id ==> x == i
  {
    hide AllInStep;
  }

  lemma {:induction false} ClosedMore(s: Stage, p: Progress, t: Telling, owner: map<int, string>, r: Progress, r': Progress, n: nat, id: string, i: int)
    requires 0 < n <= |s.order| && id == s.order[n - 1] && id !in s.order[..n - 1] && Speaks(t, id)
    requires ClosedTo(s, p, t, owner, r, n - 1)
    requires i in p.open && OwnerOf(owner, i) == id && id in s.items && s.items[id].index == Some(i)
    requires forall x :: x in p.open && OwnerOf(owner, x) == id ==> x == i
    requires r' == r.(open := r.open - {i}, pending := r.pending - {i}, blocks := r.blocks[i := Finalize(r.open[i])])
    requires i in r.open
    ensures ClosedTo(s, p, t, owner, r', n)
  {
    hide Speaks, Finalize;
    assert s.order[..n] == s.order[..n - 1] + [id];
  }

  // ---------------------------------------------------------------------------
  // Main results
  // ---------------------------------------------------------------------------

  lemma {:induction false} FinishAfter(q: Progress, out: seq<Chunk>, usage: Option<Usage>, finish: Chunk) returns (r: Progress)
    requires FeedAll(out) == Ok(q) && q.finish == None && finish.Finish?
    ensures FeedAll(out + (if usage.Some? then [UsageChunk(usage.value)] else []) + [finish]) == Ok(r)
    ensures r == q.(usage := r.usage, finish := Some(finish.reason))
  {
    hide FeedAll;
    r := q;
    var sent := out;
    if usage.Some? {
      FeedTwo(q, out, UsageChunk(usage.value), UsageChunk(usage.value));
      r := Feed(q, UsageChunk(usage.value)).value;
      sent := out + [UsageChunk(usage.value)];
    } else {
      assert out + [] == out;
    }
    FeedTwo(r, sent, finish, finish);
    r := Feed(r, finish).value;
  }

  /** An open block belongs to an item that speaks or calls. */
  lemma {:induction false} OpenStory(s: Stage, p: Progress, t: Telling, owner: map<int, string>, i: int)
    requires InStep(s, p, t, owner)
    ensures i in p.open ==> StoryOf(t, OwnerOf(owner, i)) == Calling || StoryOf(t, OwnerOf(owner, i)).Speaking?
  {
    if i in p.open {
      var id := OwnerOf(owner, i);
      assert ItemInStep(s.items[id], StoryOf(t, id), p);
    }
  }

  lemma {:induction false} StoryOpen(s: Stage, p: Progress, t: Telling, owner: map<int, string>, id: string)
    requires InStep(s, p, t, owner) && (StoryOf(t, id) == Calling || StoryOf(t, id).Speaking?)
    ensures id in s.items && s.items[id].index.Some? && s.items[id].index.value in p.open
    ensures OwnerOf(owner, s.items[id].index.value) == id
  {
    assert id in t.stories;
    assert ItemInStep(s.items[id], StoryOf(t, id), p);
  }

  lemma {:induction false} OpenIff(s: Stage, p: Progress, t: Telling, owner: map<int, string>)
    requires InStep(s, p, t, owner)
    ensures p.open.Keys == {} <==> NothingOpen(t)
  {
    hide InStep;
    forall i
      ensures i in p.open ==> StoryOf(t, OwnerOf(owner, i)) == Calling || StoryOf(t, OwnerOf(owner, i)).Speaking?
    {
      OpenStory(s, p, t, owner, i);
    }
    assert (forall i :: i !in p.open) ==> p.open.Keys <= {};
    if !NothingOpen(t) {
      var id :| StoryOf(t, id) == Calling || StoryOf(t, id).Speaking?;
      StoryOpen(s, p, t, owner, id);
      assert s.items[id].index.value in p.open.Keys;
    }
  }

  lemma {:induction false} LeftOpenIff(s: Stage, p: Progress, t: Telling, owner: map<int, string>, r: Progress)
    requires InStep(s, p, t, owner) && Listed(s) && ClosedTo(s, p, t, owner, r, |s.order|)
    ensures r.open.Keys == {} <==> NoCallOpen(t)
  {
    assert s.order[..|s.order|] == s.order;
    hide InStep;
    forall i
      ensures i in r.open ==> StoryOf(t, OwnerOf(owner, i)) == Calling
    {
      OpenStory(s, p, t, owner, i);
      if i in p.open {
        StoryOpen(s, p, t, owner, OwnerOf(owner, i));
      }
    }
    assert (forall i :: i !in r.open) ==> r.open.Keys <= {};
    if !NoCallOpen(t) {
      var id :| StoryOf(t, id) == Calling;
      StoryOpen(s, p, t, owner, id);
      assert s.items[id].index.value in r.open.Keys;
    }
  }

  lemma VerdictIff(r: Progress)
    requires r.finish.Some? && r.pending == r.open.Keys
    ensures Verdict(r) == None <==> r.open.Keys == {}
  {
  }

  /** The assembler takes every chunk of a turn exactly when no item is spoilt, and then the end check says what is open. */
  lemma {:induction false} TakenExactly(es: seq<ResponseEvent>, ending: Ending)
    ensures var t, fed := Told(es), FeedAll(StreamOutput(es, ending));
      && (fed.Ok? <==> !t.spoilt)
      && (fed.Ok? ==> (Verdict(fed.value) == None <==> if t.raised || ending.Failed? then NothingOpen(t) else NoCallOpen(t)))
  {
    hide FeedAll, InStep, Consumed, TailEnds, ClosedTo, Listed, Verdict, NothingOpen, NoCallOpen;
    var s, t, out := Consumed(es), Told(es), StreamOutput(es, ending);
    var p, owner := ConsumedAfter(es);
    ConsumedListed(es);
    if t.spoilt {
      assert s.out <= out;
      ErrStays(s.out, out[|s.out|..]);
      assert out == s.out + out[|s.out|..];
    } else {
      Basics(s, p, t, owner);
      if t.raised || ending.Failed? {
        var finish := ErrorFinish(if t.raised then MISSING_TEXT else ending.error);
        FeedTwo(p, s.out, finish, finish);
        OpenIff(s, p, t, owner);
        VerdictIff(Feed(p, finish).value);
      } else {
        var r := TailRun(s, p, t, owner, |s.order|);
        assert s.order[..|s.order|] == s.order;
        ClosedBasics(s, p, t, owner, r, |s.order|);
        LeftOpenIff(s, p, t, owner, r);
        var final := FinishAfter(r, s.out + TailEnds(s.items, s.order), s.usage, ClosingFinish(s));
        VerdictIff(final);
      }
    }
  }

  /**
   * The exact acceptance condition. No item may be used as two things or after its end; a turn that
   * breaks off, or that sends text for a call, is accepted only with nothing open; any other turn,
   * cancelled ones included, exactly when no call was begun and left without its end.
   */
  lemma {:induction false} AcceptedExactly(es: seq<ResponseEvent>, ending: Ending)
    ensures var t := Told(es);
      Accepts(StreamOutput(es, ending)) <==>
        !t.spoilt && (if t.raised || ending.Failed? then NothingOpen(t) else NoCallOpen(t))
  {
    hide FeedAll, StreamOutput, Told, Verdict, NothingOpen, NoCallOpen;
    TakenExactly(es, ending);
  }

  lemma Basics(s: Stage, p: Progress, t: Telling, owner: map<int, string>)
    requires InStep(s, p, t, owner)
    ensures p.finish == None && p.pending == p.open.Keys && s.raised == t.raised
  {
    hide AllInStep, Owned;
  }

  lemma ClosedBasics(s: Stage, p: Progress, t: Telling, owner: map<int, string>, r: Progress, n: nat)
    requires n <= |s.order| && ClosedTo(s, p, t, owner, r, n)
    ensures r.finish == None && r.pending == r.open.Keys
  {
  }

  function DeltaOf(e: ResponseEvent, id: string, reasoning: bool): string
  {
    match e
    case TextDeltaEvent(x, delta) => if x == id && !reasoning then delta else ""
    case ReasoningDeltaEvent(x, delta) => if x == id && reasoning then delta else ""
    case _ => ""
  }

  /** The text, or the reasoning, that an item's deltas carry, one after the other. */
  function Deltas(es: seq<ResponseEvent>, id: string, reasoning: bool): string
  {
    if es == [] then "" else Deltas(es[..|es| - 1], id, reasoning) + DeltaOf(es[|es| - 1], id, reasoning)
  }

  lemma TroubleStays(t: Telling, e: ResponseEvent)
    ensures t.spoilt ==> Tell(t, e).spoilt
    ensures t.raised ==> Tell(t, e).raised
  {
  }
}
