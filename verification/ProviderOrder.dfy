/**
 * The projection condition behind the Chat Completions adapter, read off the provider's own stream:
 * which provider turns keep a host and the runner in agreement, whatever way the turn is cut into chunks.
 */
module ProviderOrder {
  import opened Prelude
  import opened StreamChunks
  import opened BlockAssembly
  import opened CompletionsAdapter
  import opened AdapterContract
  import opened Events
  import opened Reasoning
  import opened AttemptFold
  import opened Agreement
  import opened Forwarding
  import opened StreamOrder
  import CompletionsProjection

  // ---------------------------------------------------------------------------
  // What the provider's deltas announce
  // ---------------------------------------------------------------------------

  /** The call a delta announces, under the id and name its wire has by then, if it lets new argument text go out. */
  function Announces(before: seq<ToolDelta>, d: ToolDelta): seq<Named>
  {
    var w := Target(before, d);
    var (id, name, arguments) := Received(before + [d], w);
    if id != "" && |arguments| > (if IdOf(before, w) != "" then |ArgumentsOf(before, w)| else 0) then [Named(id, name)] else []
  }

  function Announcements(ds: seq<ToolDelta>): seq<Named>
  {
    if ds == [] then [] else Announcements(ds[..|ds| - 1]) + Announces(ds[..|ds| - 1], ds[|ds| - 1])
  }

  /** Every wire index with an id got both a name and arguments, or neither. */
  ghost predicate Settled(ds: seq<ToolDelta>)
  {
    forall w :: IdOf(ds, w) != "" ==> (NameOf(ds, w) != "" <==> ArgumentsOf(ds, w) != "")
  }

  /** The calls a provider turn asks for, in the order of their wire indices. */
  ghost function Asked(read: Reader, pcs: seq<ProviderChunk>): seq<Call>
  {
    CallsSent(read, Tools(pcs), Sorted(Wires(Tools(pcs))))
  }

  /** A turn that asks for its calls and gets them: it completes, is not cut short, and all calls can be made. */
  ghost predicate AsksInFull(read: Reader, pcs: seq<ProviderChunk>, ending: CompletionsAdapter.Ending, end: StreamEnd)
  {
    && end == StreamDone && !ending.Failed? && LastReason(pcs) != "length"
    && Settled(Tools(pcs)) && AllObjects(Asked(read, pcs))
  }

  /**
   * No tool call got far enough to be announced; or the turn asks for its calls in full, the calls as
   * first announced are those asked for, under their final ids and names and in the order of their
   * wire indices, and their arguments are legible.
   */
  ghost predicate OrderlyTurn(read: Reader, pcs: seq<ProviderChunk>, ending: CompletionsAdapter.Ending, end: StreamEnd)
  {
    var ds := Tools(pcs);
    || Announcements(ds) == []
    || (&& AsksInFull(read, pcs, ending, end)
        && FirstMentions(Announcements(ds) + Names(Asked(read, pcs))) == Names(Asked(read, pcs))
        && forall w :: Started(ds, w) ==> LegibleText(read, ArgumentsOf(ds, w)))
  }

  // ---------------------------------------------------------------------------
  // The adapter names what the deltas announce
  // ---------------------------------------------------------------------------

  lemma {:induction false} NamedAppend(a: seq<Chunk>, b: seq<Chunk>)
    ensures AllNamed(a + b) == AllNamed(a) + AllNamed(b)
  {
    hide NamedBy;
    if b == [] {
      assert a + b == a && AllNamed(a) + [] == AllNamed(a);
    } else {
      var init, last := b[..|b| - 1], b[|b| - 1];
      assert (a + b)[..|a + b| - 1] == a + init && (a + b)[|a + b| - 1] == last;
      NamedAppend(a, init);
    }
  }

  lemma NamedOne(cs: seq<Chunk>, c: Chunk)
    ensures AllNamed(cs + [c]) == AllNamed(cs) + NamedBy(c)
  {
    assert (cs + [c])[..|cs|] == cs;
  }

  /** The chunks sent so far name what the deltas so far announce. */
  ghost predicate NamesSo(s: Stage, ds: seq<ToolDelta>)
  {
    Holds(s.items, ds) && AllNamed(s.out) == Announcements(ds)
  }

  lemma {:induction false} SpeechNames(s: Stage, c: Choice, ds: seq<ToolDelta>)
    requires NamesSo(s, ds)
    ensures NamesSo(OnText(OnReasoning(s, c.reasoning), c.content), ds)
  {
    hide AllNamed, Announcements, Holds;
    ReasoningNames(s, c.reasoning);
    TextNames(OnReasoning(s, c.reasoning), c.content);
  }

  lemma {:induction false} ReasoningNames(s: Stage, fragment: string)
    ensures AllNamed(OnReasoning(s, fragment).out) == AllNamed(s.out)
  {
    hide AllNamed;
    var index := if s.reasoningIndex.Some? then s.reasoningIndex.value else s.next;
    var started := if s.reasoningIndex.Some? then s.out else s.out + [BlockStart(s.next, Reasoning)];
    NamedOne(s.out, BlockStart(s.next, Reasoning));
    NamedOne(started, ReasoningDelta(index, fragment));
    assert AllNamed(s.out) + [] == AllNamed(s.out);
  }

  lemma {:induction false} TextNames(s: Stage, fragment: string)
    ensures AllNamed(OnText(s, fragment).out) == AllNamed(s.out)
  {
    hide AllNamed;
    var index := if s.textIndex.Some? then s.textIndex.value else s.next;
    var started := if s.textIndex.Some? then s.out else s.out + [BlockStart(s.next, Text)];
    NamedOne(s.out, BlockStart(s.next, Text));
    NamedOne(started, TextDelta(index, fragment));
    assert AllNamed(s.out) + [] == AllNamed(s.out);
  }

  lemma AnnouncementsSnoc(ds: seq<ToolDelta>, d: ToolDelta)
    ensures Announcements(ds + [d]) == Announcements(ds) + Announces(ds, d)
  {
    assert (ds + [d])[..|ds|] == ds;
  }

  /** What the accumulator lets go is what the delta announces. */
  lemma {:induction false} FragmentAnnounces(items: map<int, Entry>, ds: seq<ToolDelta>, d: ToolDelta)
    requires Holds(items, ds)
    ensures var sent := Accumulate(items, d).1;
      Announces(ds, d) == if sent.Some? then [Named(sent.value.id, sent.value.name)] else []
    ensures Accumulate(items, d).1.Some? ==> Accumulate(items, d).1.value.id != ""
  {
    var w := Target(ds, d);
    assert |items| == |items.Keys|;
    assert WireIndex(items, d) == w;
    assert Lookup(items, w) == EntryOf(Received(ds, w));
    ReceivedSnoc(ds, d, w);
  }

  lemma {:induction false} ToolNames(s: Stage, ds: seq<ToolDelta>, d: ToolDelta)
    requires NamesSo(s, ds)
    ensures NamesSo(CompletionsAdapter.OnToolDelta(s, d), ds + [d])
  {
    hide AllNamed, Announcements, Announces, Holds, Accumulate;
    HoldsStep(s.items, ds, d);
    FragmentAnnounces(s.items, ds, d);
    AnnouncementsSnoc(ds, d);
    var sent := Accumulate(s.items, d).1;
    assert AllNamed(s.out) + [] == AllNamed(s.out) && Announcements(ds) + [] == Announcements(ds);
    if sent.Some? {
      var f := sent.value;
      var started := if f.wire in s.toolBlock then s.out else s.out + [BlockStart(s.next, ToolCall)];
      var block := if f.wire in s.toolBlock then s.toolBlock[f.wire] else s.next;
      NamedOne(s.out, BlockStart(s.next, ToolCall));
      NamedOne(started, ToolCallDelta(block, f.id, f.name, f.text));
    }
  }

  lemma {:induction false} ToolsName(s: Stage, before: seq<ToolDelta>, ds: seq<ToolDelta>)
    requires NamesSo(s, before)
    ensures NamesSo(OnToolDeltas(s, ds), before + ds)
  {
    hide NamesSo, CompletionsAdapter.OnToolDelta;
    if ds == [] {
      assert before + ds == before;
    } else {
      var init, d := ds[..|ds| - 1], ds[|ds| - 1];
      ToolsName(s, before, init);
      ToolNames(OnToolDeltas(s, init), before + init, d);
      assert before + ds == (before + init) + [d];
    }
  }

  lemma SameNames(s: Stage, t: Stage, ds: seq<ToolDelta>)
    requires NamesSo(s, ds) && t.items == s.items && t.out == s.out
    ensures NamesSo(t, ds)
  {
  }

  lemma NothingNamed()
    ensures NamesSo(START, [])
  {
  }

  lemma {:induction false} ToolsOfLast(pcs: seq<ProviderChunk>, pc: ProviderChunk)
    ensures Tools(pcs + [pc]) == Tools(pcs) + if pc.choice.Some? then pc.choice.value.toolDeltas else []
  {
    assert (pcs + [pc])[..|pcs|] == pcs;
    if pc.choice.Some? {
      ToolsSnoc(Choices(pcs), pc.choice.value);
    } else {
      assert Choices(pcs) + [] == Choices(pcs) && Tools(pcs) + [] == Tools(pcs);
    }
  }

  lemma {:induction false} ChunkNames(s: Stage, ds: seq<ToolDelta>, pc: ProviderChunk)
    requires NamesSo(s, ds)
    ensures NamesSo(CompletionsAdapter.OnChunk(s, pc), ds + if pc.choice.Some? then pc.choice.value.toolDeltas else [])
  {
    hide NamesSo, OnToolDeltas, OnText, OnReasoning;
    var metered := if pc.usage.Some? then s.(usage := pc.usage) else s;
    SameNames(s, metered, ds);
    if pc.choice.Some? {
      var c := pc.choice.value;
      SpeechNames(metered, c, ds);
      var spoken := OnText(OnReasoning(metered, c.reasoning), c.content);
      ToolsName(spoken, ds, c.toolDeltas);
      SameNames(OnToolDeltas(spoken, c.toolDeltas), CompletionsAdapter.OnChunk(s, pc), ds + c.toolDeltas);
    } else {
      assert ds + [] == ds;
    }
  }

  lemma {:induction false} ConsumedNames(pcs: seq<ProviderChunk>)
    ensures NamesSo(Consumed(pcs), Tools(pcs))
  {
    hide NamesSo, CompletionsAdapter.OnChunk, Tools;
    if pcs == [] {
      NoTools();
      NothingNamed();
    } else {
      var init, pc := pcs[..|pcs| - 1], pcs[|pcs| - 1];
      ConsumedNames(init);
      ChunkNames(Consumed(init), Tools(init), pc);
      ToolsOfLast(init, pc);
      assert init + [pc] == pcs;
    }
  }

  lemma NoTools()
    ensures Tools([]) == []
  {
  }

  lemma {:induction false} NamesAppend(a: seq<Call>, b: seq<Call>)
    ensures Names(a + b) == Names(a) + Names(b)
  {
    if b == [] {
      assert a + b == a && Names(a) + [] == Names(a);
    } else {
      assert (a + b)[..|a + b| - 1] == a + b[..|b| - 1];
      NamesAppend(a, b[..|b| - 1]);
    }
  }

  /** The end of a turn names the calls whose blocks it closes. */
  lemma {:induction false} TailNames(read: Reader, cs: seq<Chunk>)
    requires CompletionsProjection.Tail(cs)
    ensures AllNamed(cs) == Names(CallsStreamed(read, cs))
  {
    if cs != [] {
      var init, c := cs[..|cs| - 1], cs[|cs| - 1];
      assert CompletionsProjection.TailChunk(c);
      TailNames(read, init);
      NamesAppend(CallsStreamed(read, init), CallIn(read, c));
      OneName(read, c);
    }
  }

  lemma OneName(read: Reader, c: Chunk)
    requires CompletionsProjection.TailChunk(c)
    ensures Names(CallIn(read, c)) == NamedBy(c)
  {
    if CallIn(read, c) != [] {
      assert CallIn(read, c)[..0] == [];
      assert [] + NamedBy(c) == NamedBy(c);
    }
  }

  /** The chunks after the provider's last one. */
  ghost function Rest(pcs: seq<ProviderChunk>, ending: CompletionsAdapter.Ending): (r: seq<Chunk>)
    ensures StreamOutput(pcs, ending) == Consumed(pcs).out + r && CompletionsProjection.Tail(r)
  {
    hide Consumed, ToolEnds, Sorted;
    CompletionsProjection.ToolTail(Consumed(pcs), Sorted(Consumed(pcs).items.Keys));
    if ending.Failed? then [ErrorFinish("", ending.error)] else ClosingChunks(Consumed(pcs))
  }

  /** A whole turn names what the deltas announce, then the calls whose blocks end. */
  lemma {:induction false} OutputNames(read: Reader, pcs: seq<ProviderChunk>, ending: CompletionsAdapter.Ending)
    ensures AllNamed(StreamOutput(pcs, ending)) == Announcements(Tools(pcs)) + Names(CallsStreamed(read, StreamOutput(pcs, ending)))
  {
    hide Consumed, StreamOutput, AllNamed, Announcements, Tools, CallsStreamed, Names, Rest;
    var s, r := Consumed(pcs), Rest(pcs, ending);
    ConsumedNames(pcs);
    CompletionsProjection.ConsumedBody(pcs);
    BodyCallsNothing(read, s.out);
    TailNames(read, r);
    NamedAppend(s.out, r);
    CallsAppend(read, s.out, r);
    assert [] + CallsStreamed(read, r) == CallsStreamed(read, r);
  }

  // ---------------------------------------------------------------------------
  // Turns that announce nothing
  // ---------------------------------------------------------------------------

  /** Something was announced exactly when some wire index has an id and arguments. */
  lemma {:induction false} AnnouncedIff(ds: seq<ToolDelta>)
    ensures Announcements(ds) != [] <==> exists w :: Started(ds, w)
  {
    hide Received, Target;
    if ds == [] {
      NothingReceived();
    } else {
      var init, d := ds[..|ds| - 1], ds[|ds| - 1];
      assert ds == init + [d];
      AnnouncedIff(init);
      var t := Target(init, d);
      forall w
        ensures Started(ds, w) <==> Started(init, w) || (w == t && Announces(init, d) != [])
      {
        ReceivedSnoc(init, d, w);
        ReceivedSnoc(init, d, t);
      }
      if Announces(init, d) != [] { assert Started(ds, t); }
      if w :| Started(init, w) { assert Started(ds, w); }
    }
  }

  lemma NothingReceived()
    ensures forall w :: !Started([], w)
  {
  }

  lemma {:induction false} NoBlockNoEnd(s: Stage, wires: seq<int>)
    requires s.toolBlock == map[]
    ensures ToolEnds(s, wires).0 == []
  {
    if wires != [] { NoBlockNoEnd(s, wires[1..]); }
  }

  /** A turn that announces nothing ends no tool block. */
  lemma {:induction false} QuietTurn(read: Reader, pcs: seq<ProviderChunk>, ending: CompletionsAdapter.Ending)
    requires Announcements(Tools(pcs)) == []
    ensures CallsStreamed(read, StreamOutput(pcs, ending)) == []
  {
    hide Consumed, ToolEnds, Sorted, CallsStreamed, Tools, Announcements, Started;
    var s := Consumed(pcs);
    AnnouncedIff(Tools(pcs));
    StartedExactly(pcs);
    assert forall w :: w !in s.toolBlock;
    assert s.toolBlock.Keys <= {};
    NoBlockNoEnd(s, Sorted(s.items.Keys));
    CompletionsProjection.ConsumedBody(pcs);
    BodyCallsNothing(read, s.out);
    var r := if ending.Failed? then [ErrorFinish("", ending.error)] else ClosingChunks(s);
    QuietCallsNothing(read, r);
    CallsAppend(read, s.out, r);
  }

  // ---------------------------------------------------------------------------
  // Turns that succeed
  // ---------------------------------------------------------------------------

  /** No closing lookup fails exactly when no wire index got an id and a name but no arguments. */
  lemma {:induction false} RaisedIffBreaks(pcs: seq<ProviderChunk>)
    ensures ToolEnds(Consumed(pcs), Sorted(Consumed(pcs).items.Keys)).1 <==> exists w :: Breaks(Tools(pcs), w)
  {
    hide Consumed, ToolEnds, Sorted, Tools, Breaks, Started;
    StartedExactly(pcs);
    var s := Consumed(pcs);
    RaisedExactly(s, s.items.Keys);
    if w :| Breaks(Tools(pcs), w) { assert w in s.items.Keys && Raises(s, w); }
  }

  /** When something was announced, the output is accepted and does not fail exactly when the turn is settled. */
  lemma {:induction false} AcceptedIffSettled(pcs: seq<ProviderChunk>, ending: CompletionsAdapter.Ending)
    requires Announcements(Tools(pcs)) != []
    ensures var out := StreamOutput(pcs, ending);
      && (Accepts(out) && !EndsFailing(out) <==> !ending.Failed? && Settled(Tools(pcs)))
      && (Accepts(out) && !EndsFailing(out) ==> (CutShort(out) <==> LastReason(pcs) == "length"))
  {
    hide Consumed, ToolEnds, Sorted, Tools, Announcements, LastReason, Received, Accepts, StreamOutput;
    var ds := Tools(pcs);
    AnnouncedIff(ds);
    assert ds != [] by { NothingReceived(); }
    AcceptedExactly(pcs, ending);
    LastOfOutput(pcs, ending);
    RaisedIffBreaks(pcs);
    FinishAsSent(pcs);
    SettledIff(ds);
    var s := Consumed(pcs);
    hide NothingStarted, SomethingSent, AllStartedAreClosed, Settled, Breaks, Started;
    if !ending.Failed? {
      var w :| Started(ds, w);
      assert SomethingSent(pcs) by { TurnSends(pcs); }
    }
  }

  lemma TurnSends(pcs: seq<ProviderChunk>)
    requires Tools(pcs) != []
    ensures SomethingSent(pcs)
  {
  }

  lemma SettledIff(ds: seq<ToolDelta>)
    ensures Settled(ds) <==> AllStartedAreClosed(ds) && !exists w :: Breaks(ds, w)
  {
    hide Received;
    if Settled(ds) {
      forall w
        ensures !Breaks(ds, w) && (Started(ds, w) ==> NameOf(ds, w) != "")
      {
        assert IdOf(ds, w) != "" ==> (NameOf(ds, w) != "" <==> ArgumentsOf(ds, w) != "");
      }
    } else {
      var w :| IdOf(ds, w) != "" && !(NameOf(ds, w) != "" <==> ArgumentsOf(ds, w) != "");
      assert Breaks(ds, w) || Started(ds, w);
    }
  }

  /** The calls that are asked for are made exactly when the turn asks in full. */
  lemma {:induction false} MadeIffInFull(read: Reader, pcs: seq<ProviderChunk>, ending: CompletionsAdapter.Ending, input: AttemptInput)
    requires Announcements(Tools(pcs)) != [] && input.chunks == StreamOutput(pcs, ending)
    ensures AsksInFull(read, pcs, ending, input.ending) ==> CallsMade(read, input) == Asked(read, pcs) == CallsStreamed(read, input.chunks)
    ensures !AsksInFull(read, pcs, ending, input.ending) ==> CallsMade(read, input) == []
  {
    hide Consumed, ToolEnds, Sorted, Tools, Announcements, LastReason, Received, Accepts, StreamOutput, CallsStreamed, AllObjects, Started, EndsFailing;
    AcceptedIffSettled(pcs, ending);
    SettledIff(Tools(pcs));
    RaisedIffBreaks(pcs);
    if !ending.Failed? && Settled(Tools(pcs)) { OutputCalls(read, pcs, ending); }
  }

  // ---------------------------------------------------------------------------
  // Arguments
  // ---------------------------------------------------------------------------

  /** Every tool block that ends carries some arguments, and they are legible. */
  ghost predicate LegibleEnds(read: Reader, cs: seq<Chunk>)
  {
    forall i :: 0 <= i < |cs| && cs[i].BlockEnd? && cs[i].block.wireType == ToolCallWire ==> LegibleText(read, cs[i].block.arguments)
  }

  ghost predicate FilledEnds(cs: seq<Chunk>)
  {
    forall i :: 0 <= i < |cs| && cs[i].BlockEnd? && cs[i].block.wireType == ToolCallWire ==> cs[i].block.arguments != ""
  }

  lemma {:induction false} ClosingsLegible(read: Reader, cs: seq<Chunk>)
    requires FilledEnds(cs)
    ensures (forall j :: 0 <= j < |Closings(cs)| ==> Legible(read, Closings(cs)[j])) <==> LegibleEnds(read, cs)
  {
    hide Heard, LegibleText;
    if cs != [] {
      var init, c := cs[..|cs| - 1], cs[|cs| - 1];
      ClosingsLegible(read, init);
      if c.BlockEnd? && c.block.wireType == ToolCallWire {
        var e := Ending(c.block.id, c.block.arguments, Heard(init, c.block.id));
        assert Closings(cs) == Closings(init) + [e];
        assert Closings(cs)[|Closings(init)|] == e;
        assert c == cs[|cs| - 1];
        assert Legible(read, e) <==> LegibleText(read, c.block.arguments);
      } else {
        assert Closings(cs) == Closings(init);
      }
      assert LegibleEnds(read, cs) <==> LegibleEnds(read, init) && LegibleEnds(read, [c]) by { EndsSplit(read, init, c); assert cs == init + [c]; }
      if forall j :: 0 <= j < |Closings(cs)| ==> Legible(read, Closings(cs)[j]) {
        forall j | 0 <= j < |Closings(init)|
          ensures Legible(read, Closings(init)[j])
        {
          assert Closings(cs)[j] == Closings(init)[j];
        }
      }
    }
  }

  lemma EndsSplit(read: Reader, cs: seq<Chunk>, c: Chunk)
    ensures LegibleEnds(read, cs + [c]) <==> LegibleEnds(read, cs) && LegibleEnds(read, [c])
  {
    assert (cs + [c])[|cs|] == c == [c][0];
    assert forall i :: 0 <= i < |cs| ==> (cs + [c])[i] == cs[i];
  }

  lemma EndsJoin(read: Reader, a: seq<Chunk>, b: seq<Chunk>)
    ensures LegibleEnds(read, a + b) <==> LegibleEnds(read, a) && LegibleEnds(read, b)
    ensures FilledEnds(a + b) <==> FilledEnds(a) && FilledEnds(b)
  {
    assert forall i :: 0 <= i < |a| ==> (a + b)[i] == a[i];
    assert forall i :: 0 <= i < |b| ==> (a + b)[|a| + i] == b[i];
  }

  lemma {:induction false} ToolEndsLegible(read: Reader, s: Stage, wires: seq<int>)
    requires !ToolEnds(s, wires).1
    requires forall w :: w in wires && Identified(Lookup(s.items, w)) ==> Lookup(s.items, w).arguments != ""
    ensures var ends := ToolEnds(s, wires).0;
      && FilledEnds(ends)
      && (LegibleEnds(read, ends) <==>
            forall w :: w in wires && Identified(Lookup(s.items, w)) ==> LegibleText(read, Lookup(s.items, w).arguments))
  {
    hide LegibleText, Lookup, LegibleEnds, FilledEnds;
    NoToolEnds(read, []);
    if wires != [] {
      var w := wires[0];
      ToolEndsLegible(read, s, wires[1..]);
      assert wires == [w] + wires[1..];
      var e := Lookup(s.items, w);
      if Identified(e) {
        var end := BlockEnd(s.toolBlock[w], ToolBlockWire(e.id, e.name, e.arguments));
        EndsJoin(read, [end], ToolEnds(s, wires[1..]).0);
        OneEnd(read, end);
      }
    }
  }

  lemma OneEnd(read: Reader, c: Chunk)
    requires c.BlockEnd? && c.block.wireType == ToolCallWire
    ensures LegibleEnds(read, [c]) <==> LegibleText(read, c.block.arguments)
    ensures FilledEnds([c]) <==> c.block.arguments != ""
  {
    assert [c][0] == c;
  }

  lemma {:induction false} SortedHas(s: set<int>, w: int)
    ensures w in Sorted(s) <==> w in s
    decreases |s|
  {
    if s != {} {
      SortedHas(s - {LeastOf(s)}, w);
      assert w in s <==> w == LeastOf(s) || w in s - {LeastOf(s)};
    }
  }

  lemma NoToolEnds(read: Reader, cs: seq<Chunk>)
    requires forall i :: 0 <= i < |cs| ==> !(cs[i].BlockEnd? && cs[i].block.wireType == ToolCallWire)
    ensures FilledEnds(cs) && LegibleEnds(read, cs)
  {
  }

  /** In a settled turn the tool blocks that end are legible exactly when the arguments of all started wires are. */
  lemma {:induction false} OutputLegible(read: Reader, pcs: seq<ProviderChunk>, ending: CompletionsAdapter.Ending)
    requires !ending.Failed? && Settled(Tools(pcs))
    ensures var ds, out := Tools(pcs), StreamOutput(pcs, ending);
      FilledEnds(out) && (LegibleEnds(read, out) <==> forall w :: Started(ds, w) ==> LegibleText(read, ArgumentsOf(ds, w)))
  {
    hide LegibleText, FilledEnds, LegibleEnds, Consumed, ToolsSent, Choices, Received, ToolEnds, Sorted;
    var s, ds := Consumed(pcs), Tools(pcs);
    SettledIff(ds);
    RaisedIffBreaks(pcs);
    ConsumedTotals(pcs);
    StartedExactly(pcs);
    CompletionsProjection.ConsumedBody(pcs);
    var wires := Sorted(s.items.Keys);
    forall w
      ensures Lookup(s.items, w) == EntryOf(Received(ds, w))
      ensures w in wires && Identified(Lookup(s.items, w)) <==> Started(ds, w)
    {
      SortedHas(s.items.Keys, w);
    }
    ToolEndsLegible(read, s, wires);
    var content, ends, finish := ContentEnds(s), ToolEnds(s, wires).0, FinishChunks(s);
    BodyNoToolEnds(read, s.out);
    NoToolEnds(read, content);
    NoToolEnds(read, finish);
    EndsJoin(read, content, ends);
    EndsJoin(read, content + ends, finish);
    EndsJoin(read, s.out, content + ends + finish);
  }

  lemma BodyNoToolEnds(read: Reader, cs: seq<Chunk>)
    requires CompletionsProjection.Body(cs)
    ensures FilledEnds(cs) && LegibleEnds(read, cs)
  {
    forall i | 0 <= i < |cs|
      ensures !cs[i].BlockEnd?
    {
      assert CompletionsProjection.BodyChunk(cs[i]);
    }
  }

  // ---------------------------------------------------------------------------
  // The condition on the provider
  // ---------------------------------------------------------------------------

  lemma {:induction false} MentionsEmptyIff(ns: seq<Named>)
    ensures FirstMentions(ns) == [] <==> ns == []
  {
    if ns != [] {
      MentionsEmptyIff(ns[..|ns| - 1]);
      assert !Mentioned([], ns[|ns| - 1].id);
    }
  }

  lemma NoEnds(read: Reader, cs: seq<Chunk>)
    requires CallsStreamed(read, cs) == []
    ensures Closings(cs) == []
    decreases |cs|
  {
    if cs != [] { NoEnds(read, cs[..|cs| - 1]); }
  }

  /** The calls of the stream are orderly exactly when the provider's turn is. */
  lemma {:induction false} CallsOrderlyIff(read: Reader, input: AttemptInput, pcs: seq<ProviderChunk>, ending: CompletionsAdapter.Ending)
    requires input.chunks == StreamOutput(pcs, ending)
    ensures var cs := input.chunks;
      (FirstMentions(AllNamed(cs)) == Names(CallsMade(read, input)) && forall j :: 0 <= j < |Closings(cs)| ==> Legible(read, Closings(cs)[j]))
      <==> OrderlyTurn(read, pcs, ending, input.ending)
  {
    hide StreamOutput, AllNamed, FirstMentions, Closings, Legible, LegibleText, CallsMade, Asked, AsksInFull, Tools, Announcements, CallsStreamed, Received, Started;
    var cs, ds := input.chunks, Tools(pcs);
    OutputNames(read, pcs, ending);
    if Announcements(ds) == [] {
      QuietTurn(read, pcs, ending);
      NoEnds(read, cs);
      MentionsEmptyIff(AllNamed(cs));
      NothingMade(read, input);
    } else {
      MentionsEmptyIff(AllNamed(cs));
      MadeIffInFull(read, pcs, ending, input);
      if AsksInFull(read, pcs, ending, input.ending) {
        InFullSettled(read, pcs, ending, input.ending);
        OutputLegible(read, pcs, ending);
        ClosingsLegible(read, cs);
      }
    }
  }

  lemma NothingMade(read: Reader, input: AttemptInput)
    requires CallsStreamed(read, input.chunks) == []
    ensures CallsMade(read, input) == []
  {
  }

  lemma InFullSettled(read: Reader, pcs: seq<ProviderChunk>, ending: CompletionsAdapter.Ending, end: StreamEnd)
    requires AsksInFull(read, pcs, ending, end)
    ensures !ending.Failed? && Settled(Tools(pcs))
  {
  }

  /**
   * For every provider turn, however it is cut into chunks and however it and the attempt end: a host
   * that folds the events and the runner that writes the context show the provider the same from then
   * on, if and only if the turn is orderly.
   */
  lemma {:induction false} ProviderAgreesIffOrderly(read: Reader, nextId: nat, input: AttemptInput,
                                                    pcs: seq<ProviderChunk>, ending: CompletionsAdapter.Ending)
    requires input.chunks == StreamOutput(pcs, ending)
    ensures var d := RunAttempt(read, nextId, input);
      Interchangeable(Folded(read, d.events).content, d.blocks) <==> OrderlyTurn(read, pcs, ending, input.ending)
  {
    hide RunAttempt, Concluded, Interchangeable, OrderlyTurn, Starts, Ends, Names, Legible, StreamOutput, ReadPart, AllNamed, FirstMentions, Closings, CallsMade,
      OneBlock, Openings, TextStreamed, ThoughtStreamed, HasStart, BufferIn, Heard;
    AttemptAgreesIffOrderly(read, nextId, input);
    CompletionsProjection.CompletionsOrderlyIffCallsAre(read, nextId, input, pcs, ending);
    ConcludedIs(read, nextId, input);
    ConcludedMirrors(read, nextId, input);
    CallsMadeBy(read, nextId, input);
    TakenWhole(pcs, ending);
    AllRead(input.chunks);
    CallsOrderlyIff(read, input, pcs, ending);
    var d := RunAttempt(read, nextId, input);
    assert Starts(d.events) == FirstMentions(AllNamed(input.chunks));
    assert Ends(d.events) == Closings(input.chunks);
    assert CallsBy(d.end) == CallsMade(read, input);
    assert OrderlyCalls(read, d.events, CallsBy(d.end)) <==> OrderlyTurn(read, pcs, ending, input.ending);
  }

  // ---------------------------------------------------------------------------
  // Turns with one call
  // ---------------------------------------------------------------------------

  /** Only wire index `w` gets an id, and it is announced under no other; the call has a name and arguments. */
  ghost predicate OneCall(ds: seq<ToolDelta>, w: int)
  {
    && IdOf(ds, w) != "" && NameOf(ds, w) != "" && ArgumentsOf(ds, w) != ""
    && (forall v :: v != w ==> IdOf(ds, v) == "")
    && forall i :: 0 <= i < |Announcements(ds)| ==> Announcements(ds)[i].id == IdOf(ds, w)
  }

  lemma {:induction false} OneId(ns: seq<Named>, id: string)
    requires ns != [] && forall i :: 0 <= i < |ns| ==> ns[i].id == id
    ensures FirstMentions(ns) == [ns[0]]
  {
    var init := ns[..|ns| - 1];
    if init == [] {
      assert !Mentioned([], id);
      assert FirstMentions([]) == [];
      assert [] + [ns[0]] == [ns[0]];
    } else {
      OneId(init, id);
      assert [ns[0]][0].id == id;
    }
  }

  /** The one call, wherever its wire index stands among the others. */
  lemma {:induction false} OneCallSent(read: Reader, ds: seq<ToolDelta>, w: int, wires: set<int>)
    requires w in wires && IdOf(ds, w) != "" && NameOf(ds, w) != "" && forall v :: v != w ==> IdOf(ds, v) == ""
    ensures CallsSent(read, ds, Sorted(wires)) == [Call(IdOf(ds, w), NameOf(ds, w), ParsedInput(read, ArgumentsOf(ds, w)))]
    decreases |wires|
  {
    hide Received, ParsedInput;
    var m := LeastOf(wires);
    if m == w {
      NoneSent(read, ds, wires - {m});
    } else {
      OneCallSent(read, ds, w, wires - {m});
    }
    assert Sorted(wires)[1..] == Sorted(wires - {m});
  }

  lemma {:induction false} NoneSent(read: Reader, ds: seq<ToolDelta>, wires: set<int>)
    requires forall v :: v in wires ==> IdOf(ds, v) == ""
    ensures CallsSent(read, ds, Sorted(wires)) == []
    decreases |wires|
  {
    hide Received;
    if wires != {} {
      NoneSent(read, ds, wires - {LeastOf(wires)});
      assert Sorted(wires)[1..] == Sorted(wires - {LeastOf(wires)});
    }
  }

  lemma {:induction false} IdentifiedWire(ds: seq<ToolDelta>, w: int)
    requires IdOf(ds, w) != ""
    ensures w in Wires(ds)
  {
    if ds != [] {
      var init := ds[..|ds| - 1];
      if IdOf(init, w) != "" { IdentifiedWire(init, w); }
    }
  }

  lemma ObjectCall(c: Call)
    requires Arguments(c).JObj?
    ensures AllObjects([c]) && Names([c]) == [Named(c.id, c.name)]
  {
    assert [c][..0] == [];
    assert [] + [Named(c.id, c.name)] == [Named(c.id, c.name)];
  }

  /**
   * A turn with one call, in however many deltas, keeps host and runner in agreement exactly when the
   * name was final as soon as the first arguments went out, and the arguments are not a falsy value
   * other than `{}`. A tool name that arrives after the id and the first arguments is enough to break
   * it, and so are the arguments `null`.
   */
  lemma {:induction false} OneCallAgreesIff(read: Reader, nextId: nat, input: AttemptInput, pcs: seq<ProviderChunk>, w: int)
    requires input.chunks == StreamOutput(pcs, CompletionsAdapter.Ending.Completed) && input.ending == StreamDone && LastReason(pcs) != "length"
    requires OneCall(Tools(pcs), w)
    requires Arguments(Call(IdOf(Tools(pcs), w), NameOf(Tools(pcs), w), ParsedInput(read, ArgumentsOf(Tools(pcs), w)))).JObj?
    ensures var d, ds := RunAttempt(read, nextId, input), Tools(pcs);
      && Announcements(ds) != []
      && (Interchangeable(Folded(read, d.events).content, d.blocks)
          <==> Announcements(ds)[0].name == NameOf(ds, w) && LegibleText(read, ArgumentsOf(ds, w)))
  {
    hide RunAttempt, Interchangeable, Folded, StreamOutput, Tools, Announcements, Received, LegibleText, ParsedInput, Arguments, AllObjects, Names, LastReason, FirstMentions;
    var ds := Tools(pcs);
    var c := Call(IdOf(ds, w), NameOf(ds, w), ParsedInput(read, ArgumentsOf(ds, w)));
    ProviderAgreesIffOrderly(read, nextId, input, pcs, CompletionsAdapter.Ending.Completed);
    AnnouncedIff(ds);
    assert Started(ds, w);
    IdentifiedWire(ds, w);
    OneCallSent(read, ds, w, Wires(ds));
    ObjectCall(c);
    OneId(Announcements(ds) + [Named(c.id, c.name)], c.id);
    assert Settled(ds);
    assert (Announcements(ds) + [Named(c.id, c.name)])[0] == Announcements(ds)[0];
  }
}
