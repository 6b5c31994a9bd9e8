/**
 * The completions adapter against the stream contract: exactly when its output is accepted,
 * and that an accepted output assembles everything the provider sent.
 */
module AdapterContract {
  import opened Prelude
  import opened StreamChunks
  import opened BlockAssembly
  import opened BlockContract
  import opened CompletionsAdapter

  function At(m: map<int, int>, k: int): int { if k in m then m[k] else 0 }

  // ---------------------------------------------------------------------------
  // What the provider sent, read off the provider stream alone
  // ---------------------------------------------------------------------------

  function Choices(pcs: seq<ProviderChunk>): seq<Choice>
  {
    if pcs == [] then []
    else Choices(pcs[..|pcs| - 1]) + (if pcs[|pcs| - 1].choice.Some? then [pcs[|pcs| - 1].choice.value] else [])
  }

  function ReasoningSent(cs: seq<Choice>): string
  {
    if cs == [] then "" else ReasoningSent(cs[..|cs| - 1]) + cs[|cs| - 1].reasoning
  }

  function TextSent(cs: seq<Choice>): string
  {
    if cs == [] then "" else TextSent(cs[..|cs| - 1]) + cs[|cs| - 1].content
  }

  function ToolsSent(cs: seq<Choice>): seq<ToolDelta>
  {
    if cs == [] then [] else ToolsSent(cs[..|cs| - 1]) + cs[|cs| - 1].toolDeltas
  }

  /** The wire indices a series of deltas addresses; an absent index means "the next free one". */
  function Wires(ds: seq<ToolDelta>): set<int>
    decreases |ds|, 0
  {
    if ds == [] then {} else Wires(ds[..|ds| - 1]) + {Target(ds[..|ds| - 1], ds[|ds| - 1])}
  }

  function Target(before: seq<ToolDelta>, d: ToolDelta): int
    decreases |before|, 1
  {
    if d.index.Some? then d.index.value else |Wires(before)|
  }

  /** What wire index `w` received: its last non-empty id and name, and all its argument text. */
  function Received(ds: seq<ToolDelta>, w: int): (r: (string, string, string))
  {
    if ds == [] then ("", "", "") else
    var (id, name, arguments) := Received(ds[..|ds| - 1], w);
    var d := ds[|ds| - 1];
    if Target(ds[..|ds| - 1], d) != w then (id, name, arguments)
    else (if d.id != "" then d.id else id, if d.name != "" then d.name else name, arguments + d.arguments)
  }

  function Tools(pcs: seq<ProviderChunk>): seq<ToolDelta> { ToolsSent(Choices(pcs)) }

  function IdOf(ds: seq<ToolDelta>, w: int): string { Received(ds, w).0 }

  function NameOf(ds: seq<ToolDelta>, w: int): string { Received(ds, w).1 }

  function ArgumentsOf(ds: seq<ToolDelta>, w: int): string { Received(ds, w).2 }

  /** A block was started for `w`. */
  predicate Started(ds: seq<ToolDelta>, w: int) { IdOf(ds, w) != "" && ArgumentsOf(ds, w) != "" }

  /** Closing `w` looks up a block that never started. */
  predicate Breaks(ds: seq<ToolDelta>, w: int) { IdOf(ds, w) != "" && NameOf(ds, w) != "" && ArgumentsOf(ds, w) == "" }

  /** Every wire index never got an id, or got an id, a name and some arguments. */
  ghost predicate ToolsComplete(ds: seq<ToolDelta>)
  {
    forall w :: IdOf(ds, w) != "" ==> NameOf(ds, w) != "" && ArgumentsOf(ds, w) != ""
  }

  // ---------------------------------------------------------------------------
  // The accumulator holds what was sent
  // ---------------------------------------------------------------------------

  ghost predicate Holds(items: map<int, Entry>, ds: seq<ToolDelta>)
  {
    && items.Keys == Wires(ds)
    && forall w :: Lookup(items, w) == EntryOf(Received(ds, w))
  }

  function EntryOf(r: (string, string, string)): Entry
  {
    Entry(r.0, r.1, r.2, if r.0 != "" then |r.2| else 0)
  }

  lemma {:induction false} ReceivedSnoc(ds: seq<ToolDelta>, d: ToolDelta, w: int)
    ensures Received(ds + [d], w) ==
      if Target(ds, d) != w then Received(ds, w)
      else (if d.id != "" then d.id else IdOf(ds, w), if d.name != "" then d.name else NameOf(ds, w), ArgumentsOf(ds, w) + d.arguments)
  {
    assert (ds + [d])[..|ds|] == ds;
  }

  lemma {:induction false} HoldsStep(items: map<int, Entry>, ds: seq<ToolDelta>, d: ToolDelta)
    requires Holds(items, ds)
    ensures Holds(Accumulate(items, d).0, ds + [d])
  {
    assert (ds + [d])[..|ds|] == ds;
    assert |items| == |items.Keys|;
    var w := WireIndex(items, d);
    var after := Accumulate(items, d).0;
    assert after.Keys == items.Keys + {w};
    forall v
      ensures Lookup(after, v) == EntryOf(Received(ds + [d], v))
    {
      ReceivedSnoc(ds, d, v);
      assert Lookup(items, v) == EntryOf(Received(ds, v));
    }
  }

  lemma {:induction false} ToolsSnoc(cs: seq<Choice>, c: Choice)
    ensures (cs + [c])[..|cs|] == cs
    ensures ReasoningSent(cs + [c]) == ReasoningSent(cs) + c.reasoning
    ensures TextSent(cs + [c]) == TextSent(cs) + c.content
    ensures ToolsSent(cs + [c]) == ToolsSent(cs) + c.toolDeltas
  {
    assert (cs + [c])[..|cs|] == cs;
  }

  // ---------------------------------------------------------------------------
  // Feeding a suffix
  // ---------------------------------------------------------------------------

  function Run(p: Progress, cs: seq<Chunk>): Result<Progress, LLMError>
  {
    if cs == [] then Ok(p) else
    match Run(p, cs[..|cs| - 1])
    case Err(e) => Err(e)
    case Ok(q) => Feed(q, cs[|cs| - 1])
  }

  lemma {:induction false} RunSplit(p: Progress, a: seq<Chunk>, b: seq<Chunk>)
    ensures Run(p, a + b) == if Run(p, a).Ok? then Run(Run(p, a).value, b) else Run(p, a)
  {
    if b == [] {
      assert a + b == a;
    } else {
      var init := b[..|b| - 1];
      assert (a + b)[..|a + b| - 1] == a + init;
      RunSplit(p, a, init);
    }
  }

  lemma {:induction false} FeedAllIsRun(cs: seq<Chunk>)
    ensures FeedAll(cs) == Run(EMPTY, cs)
  {
    if cs != [] {
      FeedAllIsRun(cs[..|cs| - 1]);
    }
  }

  lemma {:induction false} FeedOne(p: Progress, out: seq<Chunk>, c: Chunk)
    requires FeedAll(out) == Ok(p)
    ensures FeedAll(out + [c]) == Feed(p, c)
  {
    assert (out + [c])[..|out|] == out;
  }

  // ---------------------------------------------------------------------------
  // The adapter and the assembler stay in step
  // ---------------------------------------------------------------------------

  ghost predicate ContentInStep(index: Option<int>, sent: string, blockType: BlockType, p: Progress)
  {
    && (index == None ==> sent == "")
    && (index.Some? ==> index.value in p.open && p.open[index.value] == OpenBlock(blockType, sent, "", "", ""))
  }

  /** A tool block is open exactly for the wire indices whose arguments were sent on. */
  ghost predicate ToolsInStep(s: Stage, p: Progress)
  {
    && (forall w :: w in s.toolBlock <==> Lookup(s.items, w).emitted > 0)
    && (forall w :: w in s.toolBlock ==>
          && At(s.toolBlock, w) in p.open
          && p.open[At(s.toolBlock, w)].blockType == ToolCall
          && Lookup(s.items, w).emitted <= |Lookup(s.items, w).arguments|
          && p.open[At(s.toolBlock, w)].arguments == Lookup(s.items, w).arguments[..Lookup(s.items, w).emitted])
  }

  /** Each open block belongs to the reasoning, the text or the one tool call that `wireOf` names. */
  ghost predicate Owned(s: Stage, p: Progress, wireOf: map<int, int>)
  {
    && (forall w :: w in s.toolBlock ==> At(s.toolBlock, w) in wireOf && At(wireOf, At(s.toolBlock, w)) == w)
    && (forall i :: i in p.open ==>
          || Some(i) == s.reasoningIndex
          || Some(i) == s.textIndex
          || (i in wireOf && At(wireOf, i) in s.toolBlock && At(s.toolBlock, At(wireOf, i)) == i))
  }

  ghost predicate InStep(s: Stage, p: Progress, wireOf: map<int, int>)
  {
    && p.finish == None && p.next == s.next && p.blocks == map[] && p.pending == p.open.Keys
    && (forall i :: i in p.open ==> 0 <= i < p.next)
    && 0 <= s.next
    && ContentInStep(s.reasoningIndex, s.reasoning, Reasoning, p)
    && ContentInStep(s.textIndex, s.text, Text, p)
    && ToolsInStep(s, p)
    && Owned(s, p, wireOf)
  }

  lemma {:induction false} StartReasoning(s: Stage, p: Progress, wireOf: map<int, int>)
    requires InStep(s, p, wireOf) && s.reasoningIndex == None
    ensures Feed(p, BlockStart(s.next, Reasoning)).Ok?
    ensures InStep(s.(reasoningIndex := Some(s.next), next := s.next + 1), Feed(p, BlockStart(s.next, Reasoning)).value, wireOf)
  {
  }

  lemma {:induction false} AppendReasoning(s: Stage, p: Progress, wireOf: map<int, int>, fragment: string)
    requires InStep(s, p, wireOf) && s.reasoningIndex.Some?
    ensures Feed(p, ReasoningDelta(s.reasoningIndex.value, fragment)).Ok?
    ensures InStep(s.(reasoning := s.reasoning + fragment), Feed(p, ReasoningDelta(s.reasoningIndex.value, fragment)).value, wireOf)
  {
  }

  lemma {:induction false} StartText(s: Stage, p: Progress, wireOf: map<int, int>)
    requires InStep(s, p, wireOf) && s.textIndex == None
    ensures Feed(p, BlockStart(s.next, Text)).Ok?
    ensures InStep(s.(textIndex := Some(s.next), next := s.next + 1), Feed(p, BlockStart(s.next, Text)).value, wireOf)
  {
  }

  lemma {:induction false} AppendText(s: Stage, p: Progress, wireOf: map<int, int>, fragment: string)
    requires InStep(s, p, wireOf) && s.textIndex.Some?
    ensures Feed(p, TextDelta(s.textIndex.value, fragment)).Ok?
    ensures InStep(s.(text := s.text + fragment), Feed(p, TextDelta(s.textIndex.value, fragment)).value, wireOf)
  {
  }

  /** A delta that only adds to an entry without an emitted prefix leaves the open blocks alone. */
  lemma {:induction false} StoreOnly(s: Stage, p: Progress, wireOf: map<int, int>, d: ToolDelta)
    requires InStep(s, p, wireOf) && Accumulate(s.items, d).1 == None
    ensures InStep(s.(items := Accumulate(s.items, d).0), p, wireOf)
  {
    var w := WireIndex(s.items, d);
    var e, e' := Lookup(s.items, w), Lookup(Accumulate(s.items, d).0, w);
    assert e'.emitted == e.emitted && e.emitted <= |e.arguments| ==> e'.arguments[..e.emitted] == e.arguments[..e.emitted];
  }

  /** More arguments for a wire index whose block is open. */
  lemma {:induction false} SendMore(s: Stage, p: Progress, wireOf: map<int, int>, d: ToolDelta)
    requires InStep(s, p, wireOf) && Accumulate(s.items, d).1.Some? && WireIndex(s.items, d) in s.toolBlock
    ensures var (items, sent) := Accumulate(s.items, d); var f := sent.value;
      var c := ToolCallDelta(At(s.toolBlock, f.wire), f.id, f.name, f.text);
      Feed(p, c).Ok? && InStep(s.(items := items), Feed(p, c).value, wireOf)
  {
    var (items, sent) := Accumulate(s.items, d);
    var e, e' := Lookup(s.items, sent.value.wire), Lookup(items, sent.value.wire);
    assert e'.arguments[..e'.emitted] == e'.arguments == e'.arguments[..e.emitted] + sent.value.text;
    assert e'.arguments[..e.emitted] == e.arguments[..e.emitted];
  }

  /** The first arguments of a wire index: everything received so far, in a block of its own. */
  lemma {:induction false} SendFirst(s: Stage, p: Progress, wireOf: map<int, int>, d: ToolDelta)
    requires InStep(s, p, wireOf) && Accumulate(s.items, d).1.Some? && WireIndex(s.items, d) !in s.toolBlock
    ensures var (items, sent) := Accumulate(s.items, d); var f := sent.value;
      var b, c := BlockStart(s.next, ToolCall), ToolCallDelta(s.next, f.id, f.name, f.text);
      && Feed(p, b).Ok? && Feed(Feed(p, b).value, c).Ok?
      && InStep(s.(items := items, toolBlock := s.toolBlock[f.wire := s.next], next := s.next + 1),
                Feed(Feed(p, b).value, c).value, wireOf[s.next := f.wire])
  {
    var (items, sent) := Accumulate(s.items, d);
    var f := sent.value;
    assert Lookup(s.items, f.wire).emitted == 0;
    var q := Feed(p, BlockStart(s.next, ToolCall)).value;
    var r := Feed(q, ToolCallDelta(s.next, f.id, f.name, f.text)).value;
    assert "" + f.text == f.text;
    FirstInStep(s, p, wireOf, items, f, r);
  }

  lemma {:induction false} FirstInStep(s: Stage, p: Progress, wireOf: map<int, int>, items: map<int, Entry>, f: Fragment, r: Progress)
    requires InStep(s, p, wireOf) && f.wire !in s.toolBlock && f.text != ""
    requires items == s.items[f.wire := Entry(f.id, f.name, f.text, |f.text|)]
    requires r.open == p.open[s.next := OpenBlock(ToolCall, "", f.id, f.name, f.text)]
    requires r == p.(open := r.open, pending := p.pending + {s.next}, next := p.next + 1)
    ensures InStep(s.(items := items, toolBlock := s.toolBlock[f.wire := s.next], next := s.next + 1), r, wireOf[s.next := f.wire])
  {
    FirstToolsInStep(s, p, items, f, r);
    hide ToolsInStep;
  }

  lemma {:induction false} FirstToolsInStep(s: Stage, p: Progress, items: map<int, Entry>, f: Fragment, r: Progress)
    requires ToolsInStep(s, p) && f.wire !in s.toolBlock && f.text != "" && s.next !in p.open
    requires items == s.items[f.wire := Entry(f.id, f.name, f.text, |f.text|)]
    requires r.open == p.open[s.next := OpenBlock(ToolCall, "", f.id, f.name, f.text)]
    ensures ToolsInStep(s.(items := items, toolBlock := s.toolBlock[f.wire := s.next], next := s.next + 1), r)
  {
    var t := s.(items := items, toolBlock := s.toolBlock[f.wire := s.next], next := s.next + 1);
    assert f.text[..|f.text|] == f.text;
    forall w
      ensures w != f.wire ==> Lookup(items, w) == Lookup(s.items, w) && At(t.toolBlock, w) == At(s.toolBlock, w)
    {
    }
  }

  /** The chunks sent so far feed to `p`, and `p` matches the adapter's bookkeeping. */
  ghost predicate Tracks(s: Stage, p: Progress, wireOf: map<int, int>)
  {
    FeedAll(s.out) == Ok(p) && InStep(s, p, wireOf)
  }

  /** Sending one more chunk that the assembler takes. */
  lemma {:induction false} Sends(s: Stage, p: Progress, t: Stage, q: Progress, wireOf: map<int, int>, c: Chunk)
    requires FeedAll(s.out) == Ok(p) && Feed(p, c) == Ok(q) && InStep(t, q, wireOf)
    ensures Tracks(t.(out := s.out + [c]), q, wireOf)
  {
    hide Feed, FeedAll;
    FeedOne(p, s.out, c);
  }

  lemma {:induction false} ReasoningTracks(s: Stage, p: Progress, wireOf: map<int, int>, fragment: string) returns (q: Progress)
    requires Tracks(s, p, wireOf)
    ensures Tracks(OnReasoning(s, fragment), q, wireOf)
  {
    hide InStep, FeedAll, Feed;
    q := p;
    if fragment != "" {
      var t := s;
      if s.reasoningIndex == None {
        StartReasoning(s, p, wireOf);
        var c := BlockStart(s.next, Reasoning);
        q := Feed(p, c).value;
        t := s.(reasoningIndex := Some(s.next), next := s.next + 1);
        Sends(s, p, t, q, wireOf, c);
        t := t.(out := s.out + [c]);
      }
      var d := ReasoningDelta(t.reasoningIndex.value, fragment);
      AppendReasoning(t, q, wireOf, fragment);
      Sends(t, q, t.(reasoning := t.reasoning + fragment), Feed(q, d).value, wireOf, d);
      q := Feed(q, d).value;
    }
  }

  lemma {:induction false} TextTracks(s: Stage, p: Progress, wireOf: map<int, int>, fragment: string) returns (q: Progress)
    requires Tracks(s, p, wireOf)
    ensures Tracks(OnText(s, fragment), q, wireOf)
  {
    hide InStep, FeedAll, Feed;
    q := p;
    if fragment != "" {
      var t := s;
      if s.textIndex == None {
        StartText(s, p, wireOf);
        var c := BlockStart(s.next, Text);
        q := Feed(p, c).value;
        t := s.(textIndex := Some(s.next), next := s.next + 1);
        Sends(s, p, t, q, wireOf, c);
        t := t.(out := s.out + [c]);
      }
      var d := TextDelta(t.textIndex.value, fragment);
      AppendText(t, q, wireOf, fragment);
      Sends(t, q, t.(text := t.text + fragment), Feed(q, d).value, wireOf, d);
      q := Feed(q, d).value;
    }
  }

  lemma {:induction false} ToolTracks(s: Stage, p: Progress, wireOf: map<int, int>, d: ToolDelta)
      returns (q: Progress, wireOf': map<int, int>)
    requires Tracks(s, p, wireOf)
    ensures Tracks(OnToolDelta(s, d), q, wireOf')
  {
    hide InStep, FeedAll, Feed;
    q, wireOf' := p, wireOf;
    var (items, sent) := Accumulate(s.items, d);
    if sent == None {
      StoreOnly(s, p, wireOf, d);
    } else {
      var f := sent.value;
      if f.wire in s.toolBlock {
        SendMore(s, p, wireOf, d);
        var c := ToolCallDelta(At(s.toolBlock, f.wire), f.id, f.name, f.text);
        q := Feed(p, c).value;
        Sends(s, p, s.(items := items), q, wireOf, c);
      } else {
        SendFirst(s, p, wireOf, d);
        var b, c := BlockStart(s.next, ToolCall), ToolCallDelta(s.next, f.id, f.name, f.text);
        var m := Feed(p, b).value;
        FeedOne(p, s.out, b);
        q := Feed(m, c).value;
        wireOf' := wireOf[s.next := f.wire];
        Sends(s.(out := s.out + [b]), m, s.(items := items, toolBlock := s.toolBlock[f.wire := s.next], next := s.next + 1), q, wireOf', c);
      }
    }
  }

  lemma {:induction false} ToolsTrack(s: Stage, p: Progress, wireOf: map<int, int>, ds: seq<ToolDelta>)
      returns (q: Progress, wireOf': map<int, int>)
    requires Tracks(s, p, wireOf)
    ensures Tracks(OnToolDeltas(s, ds), q, wireOf')
  {
    hide InStep, FeedAll, OnToolDelta;
    q, wireOf' := p, wireOf;
    if ds != [] {
      q, wireOf' := ToolsTrack(s, p, wireOf, ds[..|ds| - 1]);
      q, wireOf' := ToolTracks(OnToolDeltas(s, ds[..|ds| - 1]), q, wireOf', ds[|ds| - 1]);
    }
  }

  lemma {:induction false} ChunkTracks(s: Stage, p: Progress, wireOf: map<int, int>, pc: ProviderChunk)
      returns (q: Progress, wireOf': map<int, int>)
    requires Tracks(s, p, wireOf)
    ensures Tracks(OnChunk(s, pc), q, wireOf')
  {
    hide FeedAll, OnToolDeltas, OnText, OnReasoning;
    q, wireOf' := p, wireOf;
    var metered := if pc.usage.Some? then s.(usage := pc.usage) else s;
    assert Tracks(metered, p, wireOf);
    hide InStep;
    if pc.choice.Some? {
      var c := pc.choice.value;
      q := ReasoningTracks(metered, q, wireOf', c.reasoning);
      q := TextTracks(OnReasoning(metered, c.reasoning), q, wireOf', c.content);
      q, wireOf' := ToolsTrack(OnText(OnReasoning(metered, c.reasoning), c.content), q, wireOf', c.toolDeltas);
      FinishReasonIsFree(OnToolDeltas(OnText(OnReasoning(metered, c.reasoning), c.content), c.toolDeltas), q, wireOf', c.finishReason);
    }
  }

  lemma {:induction false} FinishReasonIsFree(s: Stage, p: Progress, wireOf: map<int, int>, finishReason: string)
    requires Tracks(s, p, wireOf)
    ensures Tracks(s.(finishReason := finishReason), p, wireOf)
  {
  }

  /** While the provider streams, the assembler takes every chunk the adapter sends. */
  lemma {:induction false} ConsumedTracks(pcs: seq<ProviderChunk>) returns (p: Progress, wireOf: map<int, int>)
    ensures Tracks(Consumed(pcs), p, wireOf)
  {
    p, wireOf := EMPTY, map[];
    if pcs != [] {
      hide Tracks, OnChunk;
      p, wireOf := ConsumedTracks(pcs[..|pcs| - 1]);
      p, wireOf := ChunkTracks(Consumed(pcs[..|pcs| - 1]), p, wireOf, pcs[|pcs| - 1]);
    }
  }

  lemma {:induction false} ToolsHold(s: Stage, before: seq<ToolDelta>, ds: seq<ToolDelta>)
    requires Holds(s.items, before)
    ensures var t := OnToolDeltas(s, ds);
      Holds(t.items, before + ds) && t.reasoning == s.reasoning && t.text == s.text
  {
    hide Received, Wires, Holds;
    if ds == [] {
      assert before + ds == before;
    } else {
      var init, d := ds[..|ds| - 1], ds[|ds| - 1];
      ToolsHold(s, before, init);
      HoldsStep(OnToolDeltas(s, init).items, before + init, d);
      assert before + ds == (before + init) + [d];
    }
  }

  /** The adapter's totals are exactly the concatenation of the provider's fragments. */
  ghost predicate Totals(s: Stage, cs: seq<Choice>)
  {
    Holds(s.items, ToolsSent(cs)) && s.reasoning == ReasoningSent(cs) && s.text == TextSent(cs)
  }

  lemma {:induction false} ContentTotals(s: Stage, c: Choice)
    ensures var t := OnText(OnReasoning(s, c.reasoning), c.content);
      t.items == s.items && t.reasoning == s.reasoning + c.reasoning && t.text == s.text + c.content
  {
    assert c.reasoning == "" ==> s.reasoning + c.reasoning == s.reasoning;
    assert c.content == "" ==> s.text + c.content == s.text;
  }

  lemma {:induction false} ChoiceTotals(s: Stage, cs: seq<Choice>, c: Choice)
    requires Totals(s, cs)
    ensures Totals(OnToolDeltas(OnText(OnReasoning(s, c.reasoning), c.content), c.toolDeltas), cs + [c])
  {
    ToolsSnoc(cs, c);
    ContentTotals(s, c);
    ToolsHold(OnText(OnReasoning(s, c.reasoning), c.content), ToolsSent(cs), c.toolDeltas);
  }

  lemma {:induction false} ChunkTotals(s: Stage, cs: seq<Choice>, pc: ProviderChunk)
    requires Totals(s, cs)
    ensures Totals(OnChunk(s, pc), cs + if pc.choice.Some? then [pc.choice.value] else [])
  {
    var metered := if pc.usage.Some? then s.(usage := pc.usage) else s;
    if pc.choice.Some? {
      ChoiceTotals(metered, cs, pc.choice.value);
    } else {
      assert cs + [] == cs;
    }
  }

  lemma {:induction false} ConsumedTotals(pcs: seq<ProviderChunk>)
    ensures Totals(Consumed(pcs), Choices(pcs))
  {
    if pcs != [] {
      ConsumedTotals(pcs[..|pcs| - 1]);
      ChunkTotals(Consumed(pcs[..|pcs| - 1]), Choices(pcs[..|pcs| - 1]), pcs[|pcs| - 1]);
    }
  }

  // ---------------------------------------------------------------------------
  // The tail of the stream
  // ---------------------------------------------------------------------------

  /** The wire indices whose blocks the tail closes. */
  ghost function Closed(s: Stage, wires: set<int>): set<int>
    decreases |wires|
  {
    if wires == {} then {} else
    var w := LeastOf(wires);
    if !Identified(Lookup(s.items, w)) then Closed(s, wires - {w})
    else if w !in s.toolBlock then {}
    else {w} + Closed(s, wires - {w})
  }

  /** The tail lookup of `w` raises. */
  predicate Raises(s: Stage, w: int) { Identified(Lookup(s.items, w)) && w !in s.toolBlock }

  lemma {:induction false} ClosedExactly(s: Stage, wires: set<int>, w: int)
    ensures w in Closed(s, wires) <==>
      && w in wires && w in s.toolBlock && Identified(Lookup(s.items, w))
      && forall v :: v in wires && v < w ==> !Raises(s, v)
    decreases |wires|
  {
    if wires != {} {
      var m := LeastOf(wires);
      ClosedExactly(s, wires - {m}, w);
      assert forall v :: v in wires <==> v == m || v in wires - {m};
    }
  }

  lemma {:induction false} RaisedExactly(s: Stage, wires: set<int>)
    ensures ToolEnds(s, Sorted(wires)).1 <==> exists w :: w in wires && Raises(s, w)
    decreases |wires|
  {
    if wires != {} {
      var m := LeastOf(wires);
      RaisedExactly(s, wires - {m});
      assert forall v :: v in wires <==> v == m || v in wires - {m};
    }
  }

  /** The assembler while blocks are being closed: nothing finished yet, tools of `wires` still open. */
  ghost predicate Closing(s: Stage, q: Progress, wires: set<int>, wireOf: map<int, int>)
  {
    && q.finish == None && q.pending == q.open.Keys
    && (forall w :: w in s.toolBlock ==> At(s.toolBlock, w) in wireOf && At(wireOf, At(s.toolBlock, w)) == w)
    && (forall w :: w in wires && w in s.toolBlock ==>
          && At(s.toolBlock, w) in q.open
          && q.open[At(s.toolBlock, w)].blockType == ToolCall
          && q.open[At(s.toolBlock, w)].arguments == Lookup(s.items, w).arguments)
  }

  /** Block `i` was opened for a wire index in `closed`. */
  predicate OpenedFor(s: Stage, wireOf: map<int, int>, closed: set<int>, i: int)
  {
    i in wireOf && At(wireOf, i) in closed && At(wireOf, i) in s.toolBlock && At(s.toolBlock, At(wireOf, i)) == i
  }

  /** `r` is `q` after closing exactly the blocks of `closed`, with their arguments. */
  ghost predicate ClosedFrom(s: Stage, q: Progress, r: Progress, wireOf: map<int, int>, closed: set<int>)
  {
    && r.finish == None && r.pending == r.open.Keys
    && (forall i :: i in r.open <==> i in q.open && !OpenedFor(s, wireOf, closed, i))
    && (forall i :: i in r.open ==> r.open[i] == q.open[i])
    && (forall i :: i in q.blocks && !OpenedFor(s, wireOf, closed, i) ==> i in r.blocks && r.blocks[i] == q.blocks[i])
    && (forall i :: i in r.blocks ==> i in q.blocks || OpenedFor(s, wireOf, closed, i))
    && (forall w :: w in closed ==>
          && w in s.toolBlock && At(s.toolBlock, w) in r.blocks
          && r.blocks[At(s.toolBlock, w)].ToolCallPart?
          && r.blocks[At(s.toolBlock, w)].arguments == Lookup(s.items, w).arguments)
  }

  lemma {:induction false} EndTool(s: Stage, q: Progress, wires: set<int>, wireOf: map<int, int>, w: int)
    requires Closing(s, q, wires, wireOf) && w in wires && w in s.toolBlock
    ensures var e := Lookup(s.items, w); var c := BlockEnd(At(s.toolBlock, w), ToolBlockWire(e.id, e.name, e.arguments));
      && Feed(q, c).Ok?
      && Closing(s, Feed(q, c).value, wires - {w}, wireOf)
      && ClosedFrom(s, q, Feed(q, c).value, wireOf, {w})
  {
  }

  lemma {:induction false} ClosedFromTrans(s: Stage, q: Progress, r: Progress, t: Progress, wireOf: map<int, int>, a: set<int>, b: set<int>)
    requires ClosedFrom(s, q, r, wireOf, a) && ClosedFrom(s, r, t, wireOf, b) && a !! b
    requires forall w :: w in s.toolBlock ==> At(s.toolBlock, w) in wireOf && At(wireOf, At(s.toolBlock, w)) == w
    ensures ClosedFrom(s, q, t, wireOf, a + b)
  {
    assert forall i :: OpenedFor(s, wireOf, a + b, i) <==> OpenedFor(s, wireOf, a, i) || OpenedFor(s, wireOf, b, i);
    assert forall w :: w in a ==> !OpenedFor(s, wireOf, b, At(s.toolBlock, w));
  }

  lemma {:induction false} ToolEndsRun(s: Stage, q: Progress, wires: set<int>, wireOf: map<int, int>) returns (r: Progress)
    requires Closing(s, q, wires, wireOf)
    ensures Run(q, ToolEnds(s, Sorted(wires)).0) == Ok(r)
    ensures ClosedFrom(s, q, r, wireOf, Closed(s, wires))
    decreases |wires|
  {
    r := q;
    if wires != {} {
      var w := LeastOf(wires);
      assert Sorted(wires)[1..] == Sorted(wires - {w});
      if !Identified(Lookup(s.items, w)) {
        r := ToolEndsRun(s, q, wires - {w}, wireOf);
      } else if w in s.toolBlock {
        EndTool(s, q, wires, wireOf, w);
        var e := Lookup(s.items, w);
        var c := BlockEnd(At(s.toolBlock, w), ToolBlockWire(e.id, e.name, e.arguments));
        var m := Feed(q, c).value;
        r := ToolEndsRun(s, m, wires - {w}, wireOf);
        var rest := ToolEnds(s, Sorted(wires - {w})).0;
        RunOne(q, c);
        RunSplit(q, [c], rest);
        ClosedExactly(s, wires - {w}, w);
        ClosedFromTrans(s, q, m, r, wireOf, {w}, Closed(s, wires - {w}));
      }
    }
  }

  lemma {:induction false} RunOne(q: Progress, c: Chunk)
    ensures Run(q, [c]) == Feed(q, c)
  {
    assert [c][..0] == [];
    assert Run(q, []) == Ok(q);
  }

  /** After the content blocks are closed only tool blocks are open. */
  ghost predicate ContentClosed(s: Stage, p: Progress, q: Progress, wireOf: map<int, int>)
  {
    && (forall w :: w in s.toolBlock ==> At(s.toolBlock, w) in wireOf && At(wireOf, At(s.toolBlock, w)) == w)
    && q.finish == None && q.pending == q.open.Keys
    && (forall i :: i in q.open <==> i in p.open && Some(i) != s.reasoningIndex && Some(i) != s.textIndex)
    && (forall i :: i in q.open ==> q.open[i] == p.open[i])
    && (forall i :: i in q.blocks <==> Some(i) == s.reasoningIndex || Some(i) == s.textIndex)
    && (s.reasoningIndex.Some? ==> s.reasoningIndex.value in q.blocks && q.blocks[s.reasoningIndex.value] == ThinkingPart(s.reasoning))
    && (s.textIndex.Some? ==> s.textIndex.value in q.blocks && q.blocks[s.textIndex.value] == TextPart(s.text))
  }

  /** `p` after ending the content block at `index`, if there is one. */
  function WithEnded(p: Progress, index: Option<int>): Progress
  {
    if index.Some? && index.value in p.open then
      p.(open := p.open - {index.value}, pending := p.pending - {index.value},
         blocks := p.blocks[index.value := Finalize(p.open[index.value])])
    else p
  }

  lemma {:induction false} EndContent(p: Progress, index: Option<int>, wire: WireBlock)
    requires p.finish == None
    requires index.Some? ==> index.value in p.open && wire.wireType == ToWire(p.open[index.value].blockType)
    ensures Run(p, if index.Some? then [BlockEnd(index.value, wire)] else []) == Ok(WithEnded(p, index))
  {
    if index.Some? {
      RunOne(p, BlockEnd(index.value, wire));
    }
  }

  lemma {:induction false} ContentEndsRun(s: Stage, p: Progress, wireOf: map<int, int>) returns (q: Progress)
    requires InStep(s, p, wireOf)
    ensures Run(p, ContentEnds(s)) == Ok(q)
    ensures ContentClosed(s, p, q, wireOf)
  {
    var m := WithEnded(p, s.reasoningIndex);
    q := WithEnded(m, s.textIndex);
    EndContent(p, s.reasoningIndex, ThinkingBlockWire(s.reasoning));
    EndContent(m, s.textIndex, TextBlockWire(s.text));
    RunSplit(p, if s.reasoningIndex.Some? then [BlockEnd(s.reasoningIndex.value, ThinkingBlockWire(s.reasoning))] else [],
                if s.textIndex.Some? then [BlockEnd(s.textIndex.value, TextBlockWire(s.text))] else []);
  }

  lemma {:induction false} ToolsStillOpen(s: Stage, p: Progress, q: Progress, wires: set<int>, wireOf: map<int, int>)
    requires InStep(s, p, wireOf) && ContentClosed(s, p, q, wireOf)
    requires forall w :: w in s.toolBlock ==> Lookup(s.items, w).emitted == |Lookup(s.items, w).arguments|
    ensures Closing(s, q, wires, wireOf)
  {
    forall w | w in s.toolBlock
      ensures At(s.toolBlock, w) in q.open && q.open[At(s.toolBlock, w)].blockType == ToolCall
      ensures q.open[At(s.toolBlock, w)].arguments == Lookup(s.items, w).arguments
    {
      var a := Lookup(s.items, w).arguments;
      assert a[..|a|] == a;
      assert p.open[At(s.toolBlock, w)].blockType == ToolCall;
      var i := At(s.toolBlock, w);
      assert i in p.open && Some(i) != s.reasoningIndex && Some(i) != s.textIndex;
      assert i in q.open;
    }
  }

  /** Every chunk before the finish is taken, and exactly the closed blocks are no longer open. */
  lemma {:induction false} TailRun(pcs: seq<ProviderChunk>) returns (p: Progress, q: Progress, r: Progress, wireOf: map<int, int>)
    ensures var s := Consumed(pcs);
      && Tracks(s, p, wireOf)
      && ContentClosed(s, p, q, wireOf)
      && FeedAll(s.out + ContentEnds(s) + ToolEnds(s, Sorted(s.items.Keys)).0) == Ok(r)
      && ClosedFrom(s, q, r, wireOf, Closed(s, s.items.Keys))
  {
    var s := Consumed(pcs);
    p, wireOf := ConsumedTracks(pcs);
    q := ContentEndsRun(s, p, wireOf);
    ConsumedTotals(pcs);
    StartedExactly(pcs);
    ToolsStillOpen(s, p, q, s.items.Keys, wireOf);
    r := ToolEndsRun(s, q, s.items.Keys, wireOf);
    var ends := ToolEnds(s, Sorted(s.items.Keys)).0;
    FeedAllIsRun(s.out);
    RunSplit(EMPTY, s.out, ContentEnds(s));
    RunSplit(EMPTY, s.out + ContentEnds(s), ends);
    FeedAllIsRun(s.out + ContentEnds(s) + ends);
  }

  /** A block was started for exactly the wire indices with an id and arguments. */
  lemma {:induction false} StartedExactly(pcs: seq<ProviderChunk>)
    ensures var s := Consumed(pcs); var ds := Tools(pcs);
      && (forall w :: w in s.toolBlock <==> Started(ds, w))
      && (forall w :: w in s.toolBlock ==> Lookup(s.items, w).emitted == |Lookup(s.items, w).arguments|)
      && (forall w :: Raises(s, w) <==> Breaks(ds, w))
      && (forall w :: Started(ds, w) || Breaks(ds, w) ==> w in s.items)
  {
    var p, wireOf := ConsumedTracks(pcs);
    ConsumedTotals(pcs);
    var s, ds := Consumed(pcs), Tools(pcs);
    forall w
      ensures Lookup(s.items, w) == EntryOf(Received(ds, w))
      ensures w in s.toolBlock <==> Started(ds, w)
      ensures Raises(s, w) <==> Breaks(ds, w)
    {
    }
  }

  /** The finish chunk that ends a stream, whatever happened. */
  ghost function LastChunk(pcs: seq<ProviderChunk>, ending: Ending): Chunk
  {
    var s := Consumed(pcs);
    if ending.Failed? then ErrorFinish("", ending.error)
    else if ToolEnds(s, Sorted(s.items.Keys)).1 then ErrorFinish("", LOOKUP_ERROR)
    else ClosingFinish(s)
  }

  lemma {:induction false} OutputShape(pcs: seq<ProviderChunk>, ending: Ending)
    requires !ending.Failed?
    ensures var s := Consumed(pcs); var (ends, raised) := ToolEnds(s, Sorted(s.items.Keys));
      var usage := if raised then None else s.usage;
      StreamOutput(pcs, ending) ==
        (s.out + ContentEnds(s) + ends) + (if usage.Some? then [UsageChunk(usage.value)] else []) + [LastChunk(pcs, ending)]
  {
  }

  lemma {:induction false} RunFinishes(q: Progress, out: seq<Chunk>, usage: Option<Usage>, finish: Chunk) returns (r: Progress)
    requires FeedAll(out) == Ok(q) && q.finish == None && finish.Finish?
    ensures FeedAll(out + (if usage.Some? then [UsageChunk(usage.value)] else []) + [finish]) == Ok(r)
    ensures r == q.(usage := r.usage, finish := Some(finish.reason))
  {
    r := q;
    var sent := out;
    if usage.Some? {
      FeedOne(q, out, UsageChunk(usage.value));
      r := Feed(q, UsageChunk(usage.value)).value;
      sent := out + [UsageChunk(usage.value)];
    } else {
      assert out + [] == out;
    }
    FeedOne(r, sent, finish);
    r := Feed(r, finish).value;
  }

  /** A stream that does not fail in transit: all chunks are taken, and only unclosed tool blocks stay open. */
  lemma {:induction false} OutputRun(pcs: seq<ProviderChunk>, ending: Ending)
      returns (p: Progress, q: Progress, r: Progress, final: Progress, wireOf: map<int, int>)
    requires !ending.Failed?
    ensures var s := Consumed(pcs);
      && Tracks(s, p, wireOf)
      && ContentClosed(s, p, q, wireOf)
      && ClosedFrom(s, q, r, wireOf, Closed(s, s.items.Keys))
      && FeedAll(StreamOutput(pcs, ending)) == Ok(final)
      && final == r.(usage := final.usage, finish := Some(LastChunk(pcs, ending).reason))
  {
    var s := Consumed(pcs);
    p, q, r, wireOf := TailRun(pcs);
    var (ends, raised) := ToolEnds(s, Sorted(s.items.Keys));
    var sent := s.out + ContentEnds(s) + ends;
    var usage := if raised then None else s.usage;
    final := RunFinishes(r, sent, usage, LastChunk(pcs, ending));
    OutputShape(pcs, ending);
  }

  // ---------------------------------------------------------------------------
  // Main results
  // ---------------------------------------------------------------------------

  /** The provider sent no text, no reasoning, and no tool call far enough to start a block. */
  ghost predicate NothingStarted(pcs: seq<ProviderChunk>)
  {
    && ReasoningSent(Choices(pcs)) == "" && TextSent(Choices(pcs)) == ""
    && forall w :: !Started(Tools(pcs), w)
  }

  /** Every started tool call was named, and no smaller wire index breaks the tail. */
  ghost predicate AllStartedAreClosed(ds: seq<ToolDelta>)
  {
    forall w :: Started(ds, w) ==> NameOf(ds, w) != "" && forall v :: v < w ==> !Breaks(ds, v)
  }

  ghost predicate IndexedIffSent(s: Stage)
  {
    (s.reasoningIndex == None <==> s.reasoning == "") && (s.textIndex == None <==> s.text == "")
  }

  lemma {:induction false} ChunkIndexedIffSent(s: Stage, pc: ProviderChunk)
    requires IndexedIffSent(s)
    ensures IndexedIffSent(OnChunk(s, pc))
  {
    var metered := if pc.usage.Some? then s.(usage := pc.usage) else s;
    if pc.choice.Some? {
      var c := pc.choice.value;
      ContentIndexedIffSent(metered, c);
      var spoken := OnText(OnReasoning(metered, c.reasoning), c.content);
      ToolsKeepContent(spoken, c.toolDeltas);
      var done := OnToolDeltas(spoken, c.toolDeltas);
      assert OnChunk(s, pc) == done.(finishReason := OnChunk(s, pc).finishReason);
    }
  }

  lemma {:induction false} ContentIndexedIffSent(s: Stage, c: Choice)
    requires IndexedIffSent(s)
    ensures IndexedIffSent(OnText(OnReasoning(s, c.reasoning), c.content))
  {
    assert |s.reasoning + c.reasoning| == |s.reasoning| + |c.reasoning|;
    var t := OnReasoning(s, c.reasoning);
    assert IndexedIffSent(t);
    assert |t.text + c.content| == |t.text| + |c.content|;
  }

  lemma {:induction false} IndexIffSent(pcs: seq<ProviderChunk>)
    ensures IndexedIffSent(Consumed(pcs))
  {
    if pcs != [] {
      IndexIffSent(pcs[..|pcs| - 1]);
      ChunkIndexedIffSent(Consumed(pcs[..|pcs| - 1]), pcs[|pcs| - 1]);
    }
  }

  lemma {:induction false} ToolsKeepContent(s: Stage, ds: seq<ToolDelta>)
    ensures var t := OnToolDeltas(s, ds);
      t.reasoning == s.reasoning && t.text == s.text && t.reasoningIndex == s.reasoningIndex && t.textIndex == s.textIndex
  {
    if ds != [] {
      ToolsKeepContent(s, ds[..|ds| - 1]);
    }
  }

  ghost predicate AllIn(s: Stage, closed: set<int>)
  {
    forall w :: w in s.toolBlock ==> w in closed
  }

  ghost predicate AllClosed(s: Stage)
  {
    AllIn(s, Closed(s, s.items.Keys))
  }

  lemma {:induction false} ClosedIffAllStarted(pcs: seq<ProviderChunk>)
    ensures var s := Consumed(pcs);
      AllClosed(s) <==> AllStartedAreClosed(Tools(pcs))
  {
    StartedExactly(pcs);
    var s, ds := Consumed(pcs), Tools(pcs);
    forall w | w in s.toolBlock
      ensures w in Closed(s, s.items.Keys) <==> NameOf(ds, w) != "" && forall v :: v < w ==> !Breaks(ds, v)
    {
      ClosedExactly(s, s.items.Keys, w);
      ConsumedTotals(pcs);
      assert Lookup(s.items, w) == EntryOf(Received(ds, w));
      assert forall v :: Raises(s, v) <==> Breaks(ds, v);
    }
  }

  /**
   * The exact acceptance condition. A stream that fails in transit is accepted only if nothing was
   * started; any other stream, cancelled ones included, is accepted exactly when every tool call
   * that started was also named and no smaller wire index got an id and a name but no arguments.
   */
  lemma {:induction false} AcceptedExactly(pcs: seq<ProviderChunk>, ending: Ending)
    ensures Accepts(StreamOutput(pcs, ending)) <==>
      if ending.Failed? then NothingStarted(pcs) else AllStartedAreClosed(Tools(pcs))
  {
    var s := Consumed(pcs);
    if ending.Failed? {
      var p, wireOf := ConsumedTracks(pcs);
      FeedOne(p, s.out, ErrorFinish("", ending.error));
      OpenIffStarted(pcs, p, wireOf);
      EmptyKeys(p.open);
    } else {
      var p, q, r, final, wireOf := OutputRun(pcs, ending);
      ClosedIffAllStarted(pcs);
      StillOpen(s, p, q, r, wireOf, Closed(s, s.items.Keys));
      EmptyKeys(r.open);
    }
  }

  lemma {:induction false} EmptyKeys(m: map<int, OpenBlock>)
    ensures m.Keys == {} <==> forall i :: i !in m
  {
    assert (forall i :: i !in m) ==> m.Keys <= {};
  }

  lemma {:induction false} OpenIffStarted(pcs: seq<ProviderChunk>, p: Progress, wireOf: map<int, int>)
    requires Tracks(Consumed(pcs), p, wireOf)
    ensures (forall i :: i !in p.open) <==> NothingStarted(pcs)
  {
    var s := Consumed(pcs);
    NoneOpen(s, p, wireOf);
    IndexIffSent(pcs);
    ConsumedTotals(pcs);
    StartedExactly(pcs);
  }

  lemma {:induction false} NoneOpen(s: Stage, p: Progress, wireOf: map<int, int>)
    requires InStep(s, p, wireOf)
    ensures (forall i :: i !in p.open) <==> s.reasoningIndex == None && s.textIndex == None && forall w :: w !in s.toolBlock
  {
    if forall i :: i !in p.open {
      forall w
        ensures w !in s.toolBlock
      {
        assert w in s.toolBlock ==> At(s.toolBlock, w) in p.open;
      }
    } else {
      var i :| i in p.open;
      assert Some(i) == s.reasoningIndex || Some(i) == s.textIndex || At(wireOf, i) in s.toolBlock;
    }
  }

  lemma {:induction false} StillOpen(s: Stage, p: Progress, q: Progress, r: Progress, wireOf: map<int, int>, closed: set<int>)
    requires InStep(s, p, wireOf) && ContentClosed(s, p, q, wireOf) && ClosedFrom(s, q, r, wireOf, closed)
    ensures (forall i :: i !in r.open) <==> AllIn(s, closed)
  {
    if forall i :: i !in r.open {
      forall w | w in s.toolBlock
        ensures w in closed
      {
        var i := At(s.toolBlock, w);
        assert i in p.open && p.open[i].blockType == ToolCall;
        assert Some(i) != s.reasoningIndex && Some(i) != s.textIndex;
        assert i in q.open;
        assert i !in r.open;
      }
    } else {
      var i :| i in r.open;
      assert i in q.open && i in p.open;
      assert At(wireOf, i) in s.toolBlock && At(s.toolBlock, At(wireOf, i)) == i;
      assert At(wireOf, i) !in closed;
    }
  }

  /** The assembled blocks once everything is closed, in terms of the adapter's totals. */
  lemma {:induction false} BlocksAfterClose(s: Stage, p: Progress, q: Progress, r: Progress, wireOf: map<int, int>, closed: set<int>)
    requires InStep(s, p, wireOf) && ContentClosed(s, p, q, wireOf)
    requires ClosedFrom(s, q, r, wireOf, closed) && AllIn(s, closed)
    ensures s.reasoningIndex.Some? ==> (s.reasoningIndex.value in r.blocks && r.blocks[s.reasoningIndex.value] == ThinkingPart(s.reasoning))
    ensures s.textIndex.Some? ==> (s.textIndex.value in r.blocks && r.blocks[s.textIndex.value] == TextPart(s.text))
    ensures forall w :: w in s.toolBlock ==> HoldsArguments(r, At(s.toolBlock, w), Lookup(s.items, w).arguments)
    ensures forall v, w :: v in s.toolBlock && w in s.toolBlock && At(s.toolBlock, v) == At(s.toolBlock, w) ==> v == w
    ensures forall i :: i in r.blocks ==>
      Some(i) == s.reasoningIndex || Some(i) == s.textIndex || exists w :: w in s.toolBlock && At(s.toolBlock, w) == i
  {
    forall i | Some(i) == s.reasoningIndex || Some(i) == s.textIndex
      ensures !OpenedFor(s, wireOf, closed, i)
    {
      var w := At(wireOf, i);
      assert w in s.toolBlock ==> p.open[At(s.toolBlock, w)].blockType == ToolCall;
    }
    if s.reasoningIndex.Some? {
      var i := s.reasoningIndex.value;
      assert i in q.blocks && !OpenedFor(s, wireOf, closed, i);
    }
    if s.textIndex.Some? {
      var i := s.textIndex.value;
      assert i in q.blocks && !OpenedFor(s, wireOf, closed, i);
    }
    forall v, w | v in s.toolBlock && w in s.toolBlock && At(s.toolBlock, v) == At(s.toolBlock, w)
      ensures v == w
    {
      assert At(wireOf, At(s.toolBlock, v)) == v && At(wireOf, At(s.toolBlock, w)) == w;
    }
  }

  ghost predicate HoldsArguments(p: Progress, i: int, arguments: string)
  {
    i in p.blocks && p.blocks[i].ToolCallPart? && p.blocks[i].arguments == arguments
  }

  lemma {:induction false} CompleteIsClosed(pcs: seq<ProviderChunk>)
    requires ToolsComplete(Tools(pcs))
    ensures AllClosed(Consumed(pcs))
    ensures !ToolEnds(Consumed(pcs), Sorted(Consumed(pcs).items.Keys)).1
    ensures forall w :: w in Consumed(pcs).toolBlock <==> IdOf(Tools(pcs), w) != ""
  {
    assert AllStartedAreClosed(Tools(pcs));
    ClosedIffAllStarted(pcs);
    StartedExactly(pcs);
    RaisedExactly(Consumed(pcs), Consumed(pcs).items.Keys);
  }

  /** The last finish reason the provider sent. */
  function LastReason(pcs: seq<ProviderChunk>): string
  {
    if pcs == [] then "unknown"
    else
      var last := pcs[|pcs| - 1].choice;
      if last.Some? && last.value.finishReason != "" then last.value.finishReason else LastReason(pcs[..|pcs| - 1])
  }

  /** The provider sent some text, some reasoning or any tool delta, even one that started nothing. */
  ghost predicate SomethingSent(pcs: seq<ProviderChunk>)
  {
    ReasoningSent(Choices(pcs)) != "" || TextSent(Choices(pcs)) != "" || Tools(pcs) != []
  }

  /** How a completed turn finishes: an unknown reason is forgiven exactly when something was sent. */
  ghost predicate FinishesAs(reason: FinishReason, pcs: seq<ProviderChunk>)
  {
    var sent := LastReason(pcs);
    && reason.raw == sent
    && (reason.kind == ToolCalls <==> sent == "tool_calls")
    && (reason.kind == MaxTokens <==> sent == "length")
    && (reason.kind == Stop <==> sent == "stop" || (sent != "tool_calls" && sent != "length" && SomethingSent(pcs)))
    && (reason.kind == Error <==> reason.failure.Some?)
  }

  lemma {:induction false} ToolsKeepReason(s: Stage, ds: seq<ToolDelta>)
    ensures OnToolDeltas(s, ds).finishReason == s.finishReason
  {
    if ds != [] { ToolsKeepReason(s, ds[..|ds| - 1]); }
  }

  lemma {:induction false} ReasonIsLast(pcs: seq<ProviderChunk>)
    ensures Consumed(pcs).finishReason == LastReason(pcs)
  {
    if pcs != [] {
      var s, pc := Consumed(pcs[..|pcs| - 1]), pcs[|pcs| - 1];
      ReasonIsLast(pcs[..|pcs| - 1]);
      if pc.choice.Some? {
        var metered := if pc.usage.Some? then s.(usage := pc.usage) else s;
        ToolsKeepReason(OnText(OnReasoning(metered, pc.choice.value.reasoning), pc.choice.value.content), pc.choice.value.toolDeltas);
      }
    }
  }

  lemma WiresEmptyIff(items: map<int, Entry>, ds: seq<ToolDelta>)
    requires Holds(items, ds)
    ensures items == map[] <==> ds == []
  {
    if ds != [] { assert Target(ds[..|ds| - 1], ds[|ds| - 1]) in Wires(ds); }
  }

  lemma {:induction false} FinishAsSent(pcs: seq<ProviderChunk>)
    ensures FinishesAs(ClosingFinish(Consumed(pcs)).reason, pcs)
  {
    ReasonIsLast(pcs);
    ConsumedTotals(pcs);
    WiresEmptyIff(Consumed(pcs).items, Tools(pcs));
    hide Consumed, Holds, LastReason, Tools, ReasoningSent, TextSent, ToolsSent, Choices;
  }

  /** Where the assembled blocks of a turn are: at most one of reasoning, one of text, and one per tool call. */
  datatype Placement = Placement(reasoningAt: Option<int>, textAt: Option<int>, toolAt: map<int, int>)

  /** The blocks of `p`, placed by `at`, are exactly the concatenations of the provider's fragments. */
  ghost predicate HoldsEverything(p: Progress, pcs: seq<ProviderChunk>, at: Placement)
  {
    var cs, ds := Choices(pcs), Tools(pcs);
    && (at.reasoningAt == None <==> ReasoningSent(cs) == "")
    && (at.reasoningAt.Some? ==>
          (at.reasoningAt.value in p.blocks && p.blocks[at.reasoningAt.value] == ThinkingPart(ReasoningSent(cs))))
    && (at.textAt == None <==> TextSent(cs) == "")
    && (at.textAt.Some? ==> (at.textAt.value in p.blocks && p.blocks[at.textAt.value] == TextPart(TextSent(cs))))
    && (forall w :: w in at.toolAt <==> IdOf(ds, w) != "")
    && (forall w :: w in at.toolAt ==> HoldsArguments(p, At(at.toolAt, w), ArgumentsOf(ds, w)))
    && (forall v, w :: v in at.toolAt && w in at.toolAt && At(at.toolAt, v) == At(at.toolAt, w) ==> v == w)
    && (forall i :: i in p.blocks ==>
          Some(i) == at.reasoningAt || Some(i) == at.textAt || exists w :: w in at.toolAt && At(at.toolAt, w) == i)
  }

  /**
   * When every wire index never got an id, or got an id, a name and some arguments, the output is
   * accepted and finishes as the provider's last finish reason says, and the assembled blocks hold
   * every text, thinking and argument fragment sent, including arguments that came before the id.
   */
  lemma {:induction false} NothingLost(pcs: seq<ProviderChunk>, ending: Ending) returns (final: Progress, at: Placement)
    requires !ending.Failed? && ToolsComplete(Tools(pcs))
    ensures Accepts(StreamOutput(pcs, ending)) && FeedAll(StreamOutput(pcs, ending)) == Ok(final)
    ensures final.finish.Some? && FinishesAs(final.finish.value, pcs)
    ensures HoldsEverything(final, pcs, at)
  {
    hide FeedAll, Consumed, InStep, ContentClosed, ClosedFrom, Closed, StreamOutput, ToolEnds, Verdict, Accepts, FinishesAs;
    var s, ds := Consumed(pcs), Tools(pcs);
    CompleteIsClosed(pcs);
    FinishAsSent(pcs);
    var p, q, r, last, wireOf := OutputRun(pcs, ending);
    final := last;
    at := Placement(s.reasoningIndex, s.textIndex, s.toolBlock);
    assert Accepts(StreamOutput(pcs, ending)) by {
      ClosedIffAllStarted(pcs);
      AcceptedExactly(pcs, ending);
    }
    assert HoldsEverything(final, pcs, at) by {
      BlocksAfterClose(s, p, q, r, wireOf, Closed(s, s.items.Keys));
      IndexIffSent(pcs);
      ConsumedTotals(pcs);
      forall w | w in s.toolBlock
        ensures Lookup(s.items, w).arguments == ArgumentsOf(ds, w)
      {
        assert Lookup(s.items, w) == EntryOf(Received(ds, w));
      }
    }
  }

  lemma {:induction false} NoEarlierFinish(cs: seq<Chunk>, i: int)
    requires FeedAll(cs).Ok? && 0 <= i < |cs| - 1
    ensures !cs[i].Finish?
  {
    FeedAllIffAllowed(cs);
    var h := cs[..|cs| - 1];
    assert Allowed(h, cs[|cs| - 1]) && h[i] == cs[i];
  }

  /** Whatever happens, the assembler takes every chunk of a turn. */
  lemma {:induction false} TakenWhole(pcs: seq<ProviderChunk>, ending: Ending)
    ensures FeedAll(StreamOutput(pcs, ending)).Ok?
  {
    hide FeedAll, InStep, Consumed, ContentClosed, ClosedFrom;
    if ending.Failed? {
      var p, wireOf := ConsumedTracks(pcs);
      assert p.finish == None by { StepFinish(Consumed(pcs), p, wireOf); }
      FeedOne(p, Consumed(pcs).out, ErrorFinish("", ending.error));
    } else {
      var p, q, r, final, wireOf := OutputRun(pcs, ending);
    }
  }

  lemma {:induction false} StepFinish(s: Stage, p: Progress, wireOf: map<int, int>)
    requires InStep(s, p, wireOf)
    ensures p.finish == None
  {
  }

  /** The output of every turn carries exactly one finish, as its last chunk, and it is never an abort. */
  lemma {:induction false} OneFinishNeverAborted(pcs: seq<ProviderChunk>, ending: Ending)
    ensures var out := StreamOutput(pcs, ending);
      && out != [] && out[|out| - 1].Finish? && out[|out| - 1].reason.kind != Aborted
      && forall i :: 0 <= i < |out| - 1 ==> !out[i].Finish?
  {
    hide Consumed, InStep, ContentEnds, ToolEnds, ContentClosed, ClosedFrom, Closed, Sorted;
    var s, out := Consumed(pcs), StreamOutput(pcs, ending);
    TakenWhole(pcs, ending);
    assert out[|out| - 1] == LastChunk(pcs, ending) by {
      if !ending.Failed? { OutputShape(pcs, ending); }
    }
    forall i | 0 <= i < |out| - 1
      ensures !out[i].Finish?
    {
      NoEarlierFinish(out, i);
    }
  }
}
