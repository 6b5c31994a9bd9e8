/**
 * The Chat Completions adapter: turns a loosely ordered provider stream into block-indexed
 * chunks. Blocks are started by the first non-empty fragment and closed at the end of the stream.
 */
module CompletionsAdapter {
  import opened Prelude
  import opened StreamChunks

  /** One tool-call delta; an empty string stands for an absent field. */
  datatype ToolDelta = ToolDelta(index: Option<int>, id: string, name: string, arguments: string)

  /** The first choice of a provider chunk; an empty string stands for an absent field. */
  datatype Choice = Choice(reasoning: string, content: string, toolDeltas: seq<ToolDelta>, finishReason: string)

  datatype ProviderChunk = ProviderChunk(usage: Option<Usage>, choice: Option<Choice>)

  /** How the provider stream stops: it ends, it is cancelled between two chunks, or it raises. */
  datatype Ending = Completed | Cancelled | Failed(error: LLMError)

  /** What the accumulator keeps for one wire index. */
  datatype Entry = Entry(id: string, name: string, arguments: string, emitted: nat)

  const NO_ENTRY: Entry := Entry("", "", "", 0)

  /** New argument text ready to be sent for a wire index. */
  datatype Fragment = Fragment(wire: int, id: string, name: string, text: string)

  function WireIndex(items: map<int, Entry>, d: ToolDelta): int
  {
    if d.index.Some? then d.index.value else |items|
  }

  function Merged(e: Entry, d: ToolDelta): Entry
  {
    e.(id := if d.id != "" then d.id else e.id,
       name := if d.name != "" then d.name else e.name,
       arguments := e.arguments + d.arguments)
  }

  function Lookup(items: map<int, Entry>, wire: int): Entry
  {
    if wire in items then items[wire] else NO_ENTRY
  }

  /** One `feed` of the accumulator: the new items, and the fragment to emit, if any. */
  function Accumulate(items: map<int, Entry>, d: ToolDelta): (map<int, Entry>, Option<Fragment>)
  {
    var wire := WireIndex(items, d);
    var e := Merged(Lookup(items, wire), d);
    if e.id != "" && |e.arguments| > e.emitted then
      (items[wire := e.(emitted := |e.arguments|)], Some(Fragment(wire, e.id, e.name, e.arguments[e.emitted..])))
    else
      (items[wire := e], None)
  }

  ghost predicate Least(m: int, s: set<int>) { m in s && forall k :: k in s ==> m <= k }

  lemma HasLeast(s: set<int>)
    requires s != {}
    ensures exists m :: Least(m, s)
  {
    var k := SomeMember(s);
    if s == {k} {
      assert Least(k, s);
    } else {
      assert s - {k} == {} ==> s <= {k};
      HasLeast(s - {k});
      var m :| Least(m, s - {k});
      assert forall x :: x in s ==> x == k || x in s - {k};
      assert Least(if m < k then m else k, s);
    }
  }

  ghost function LeastOf(s: set<int>): (m: int)
    requires s != {}
    ensures Least(m, s)
  {
    HasLeast(s);
    var m :| Least(m, s);
    m
  }

  /** The members of a set in ascending order. */
  ghost function Sorted(s: set<int>): seq<int>
    decreases |s|
  {
    if s == {} then [] else [LeastOf(s)] + Sorted(s - {LeastOf(s)})
  }

  class ToolCallAccumulator {
    var items: map<int, Entry>

    constructor ()
      ensures items == map[]
    {
      items := map[];
    }

    method Feed(d: ToolDelta) returns (fragment: Option<Fragment>)
      requires forall w :: w in items ==> items[w].emitted <= |items[w].arguments|
      modifies this
      ensures (items, fragment) == Accumulate(old(items), d)
      ensures forall w :: w in items ==> items[w].emitted <= |items[w].arguments|
    {
      var wire := if d.index.Some? then d.index.value else |items|;
      var entry := if wire in items then items[wire] else NO_ENTRY;
      if d.id != "" { entry := entry.(id := d.id); }
      if d.name != "" { entry := entry.(name := d.name); }
      assert entry.arguments + "" == entry.arguments;
      if d.arguments != "" { entry := entry.(arguments := entry.arguments + d.arguments); }
      if entry.id != "" && |entry.arguments| > entry.emitted {
        var start := entry.emitted;
        entry := entry.(emitted := |entry.arguments|);
        fragment := Some(Fragment(wire, entry.id, entry.name, entry.arguments[start..]));
      } else {
        fragment := None;
      }
      items := items[wire := entry];
    }

    /** The wire indices in ascending order, for closing the blocks. */
    method SortedWires() returns (wires: seq<int>)
      ensures wires == Sorted(items.Keys)
    {
      var left: set<int> := items.Keys;
      wires := [];
      while left != {}
        invariant wires + Sorted(left) == Sorted(items.Keys)
        decreases |left|
      {
        assert (forall k :: k !in left) ==> left <= {};
        var m :| m in left;
        var rest := left - {m};
        while rest != {}
          invariant rest <= left && m in left
          invariant forall k :: k in left && k !in rest ==> m <= k
          decreases |rest|
        {
          assert (forall x :: x !in rest) ==> rest <= {};
          var k :| k in rest;
          if k < m { m := k; }
          rest := rest - {k};
        }
        assert Least(m, left);
        assert m == LeastOf(left);
        assert wires + [m] + Sorted(left - {m}) == wires + Sorted(left);
        wires := wires + [m];
        left := left - {m};
      }
    }
  }

  // ---------------------------------------------------------------------------
  // The stream as a function of what the provider sends
  // ---------------------------------------------------------------------------

  datatype Stage = Stage(
    items: map<int, Entry>,
    toolBlock: map<int, int>,
    reasoning: string,
    text: string,
    reasoningIndex: Option<int>,
    textIndex: Option<int>,
    next: int,
    usage: Option<Usage>,
    finishReason: string,
    out: seq<Chunk>)

  const START: Stage := Stage(map[], map[], "", "", None, None, 0, None, "unknown", [])

  function OnReasoning(s: Stage, fragment: string): Stage
  {
    if fragment == "" then s else
    var started :=
      if s.reasoningIndex.Some? then s
      else s.(reasoningIndex := Some(s.next), next := s.next + 1, out := s.out + [BlockStart(s.next, Reasoning)]);
    started.(reasoning := s.reasoning + fragment,
            out := started.out + [ReasoningDelta(started.reasoningIndex.value, fragment)])
  }

  function OnText(s: Stage, fragment: string): Stage
  {
    if fragment == "" then s else
    var started :=
      if s.textIndex.Some? then s
      else s.(textIndex := Some(s.next), next := s.next + 1, out := s.out + [BlockStart(s.next, Text)]);
    started.(text := s.text + fragment,
            out := started.out + [TextDelta(started.textIndex.value, fragment)])
  }

  function OnToolDelta(s: Stage, d: ToolDelta): Stage
  {
    var (items, fragment) := Accumulate(s.items, d);
    if fragment == None then s.(items := items) else
    var f := fragment.value;
    var started :=
      if f.wire in s.toolBlock then s
      else s.(toolBlock := s.toolBlock[f.wire := s.next], next := s.next + 1,
              out := s.out + [BlockStart(s.next, ToolCall)]);
    started.(items := items,
            out := started.out + [ToolCallDelta(started.toolBlock[f.wire], f.id, f.name, f.text)])
  }

  function OnToolDeltas(s: Stage, ds: seq<ToolDelta>): Stage
  {
    if ds == [] then s else OnToolDelta(OnToolDeltas(s, ds[..|ds| - 1]), ds[|ds| - 1])
  }

  function OnChunk(s: Stage, pc: ProviderChunk): Stage
  {
    var metered := if pc.usage.Some? then s.(usage := pc.usage) else s;
    if pc.choice == None then metered else
    var choice := pc.choice.value;
    var done := OnToolDeltas(OnText(OnReasoning(metered, choice.reasoning), choice.content), choice.toolDeltas);
    if choice.finishReason != "" then done.(finishReason := choice.finishReason) else done
  }

  function Consumed(pcs: seq<ProviderChunk>): Stage
  {
    if pcs == [] then START else OnChunk(Consumed(pcs[..|pcs| - 1]), pcs[|pcs| - 1])
  }

  /** A wire index whose tail block-end is sent, or would be if its block existed. */
  predicate Identified(e: Entry) { e.id != "" && e.name != "" }

  /** The block-ends of the tool calls; `None` at the end when a lookup of a missing block raises. */
  function ToolEnds(s: Stage, wires: seq<int>): (seq<Chunk>, bool)
  {
    if wires == [] then ([], false) else
    var w := wires[0];
    var e := Lookup(s.items, w);
    if !Identified(e) then ToolEnds(s, wires[1..])
    else if w !in s.toolBlock then ([], true)
    else
      var (rest, raised) := ToolEnds(s, wires[1..]);
      ([BlockEnd(s.toolBlock[w], ToolBlockWire(e.id, e.name, e.arguments))] + rest, raised)
  }

  function ContentEnds(s: Stage): seq<Chunk>
  {
    (if s.reasoningIndex.Some? then [BlockEnd(s.reasoningIndex.value, ThinkingBlockWire(s.reasoning))] else [])
    + (if s.textIndex.Some? then [BlockEnd(s.textIndex.value, TextBlockWire(s.text))] else [])
  }

  function KindOf(finishReason: string): Option<FinishKind>
  {
    if finishReason == "stop" then Some(Stop)
    else if finishReason == "tool_calls" then Some(ToolCalls)
    else if finishReason == "length" then Some(MaxTokens)
    else None
  }

  function ErrorFinish(raw: string, error: LLMError): Chunk
  {
    Finish(FinishReason(Error, raw, Some(error)))
  }

  /** The finish a completed stream ends with: an unknown reason is forgiven when there is output. */
  function ClosingFinish(s: Stage): Chunk
  {
    var kind := KindOf(s.finishReason);
    if kind.Some? then Finish(FinishReason(kind.value, s.finishReason, None))
    else if s.reasoning != "" || s.text != "" || s.items != map[] then
      Finish(FinishReason(Stop, s.finishReason, None))
    else ErrorFinish(s.finishReason, LLMError("model stopped: " + s.finishReason, s.finishReason))
  }

  const LOOKUP_ERROR := LLMError("missing tool block", "unknown")

  function FinishChunks(s: Stage): seq<Chunk>
  {
    (if s.usage.Some? then [UsageChunk(s.usage.value)] else []) + [ClosingFinish(s)]
  }

  ghost function ClosingChunks(s: Stage): seq<Chunk>
  {
    var (ends, raised) := ToolEnds(s, Sorted(s.items.Keys));
    if raised then ContentEnds(s) + ends + [ErrorFinish("", LOOKUP_ERROR)]
    else ContentEnds(s) + ends + FinishChunks(s)
  }

  /** Everything one `stream` call yields. A cancelled stream is closed like a completed one. */
  ghost function StreamOutput(pcs: seq<ProviderChunk>, ending: Ending): seq<Chunk>
  {
    var s := Consumed(pcs);
    if ending.Failed? then s.out + [ErrorFinish("", ending.error)] else s.out + ClosingChunks(s)
  }

  // ---------------------------------------------------------------------------
  // The adapter as it runs
  // ---------------------------------------------------------------------------

  /** One provider turn. The fields are the local variables of the generator; `out` is what it yielded. */
  class CompletionsTurn {
    const accumulator: ToolCallAccumulator
    var toolBlockIndex: map<int, int>
    var reasoning: string
    var text: string
    var reasoningIndex: Option<int>
    var textIndex: Option<int>
    var nextIndex: int
    var usage: Option<Usage>
    var finishReason: string
    var out: seq<Chunk>

    ghost function Value(): Stage
      reads this, accumulator
    {
      Stage(accumulator.items, toolBlockIndex, reasoning, text, reasoningIndex, textIndex, nextIndex, usage, finishReason, out)
    }

    ghost predicate Valid()
      reads this, accumulator
    {
      forall w :: w in accumulator.items ==> accumulator.items[w].emitted <= |accumulator.items[w].arguments|
    }

    constructor ()
      ensures Valid() && Value() == START && fresh(accumulator)
    {
      accumulator := new ToolCallAccumulator();
      toolBlockIndex, reasoning, text, reasoningIndex, textIndex := map[], "", "", None, None;
      nextIndex, usage, finishReason, out := 0, None, "unknown", [];
    }

    method TakeReasoning(fragment: string)
      modifies this
      ensures Value() == OnReasoning(old(Value()), fragment)
    {
      if fragment != "" {
        if reasoningIndex == None {
          reasoningIndex := Some(nextIndex);
          nextIndex := nextIndex + 1;
          out := out + [BlockStart(reasoningIndex.value, Reasoning)];
        }
        reasoning := reasoning + fragment;
        out := out + [ReasoningDelta(reasoningIndex.value, fragment)];
      }
    }

    method TakeText(fragment: string)
      modifies this
      ensures Value() == OnText(old(Value()), fragment)
    {
      if fragment != "" {
        if textIndex == None {
          textIndex := Some(nextIndex);
          nextIndex := nextIndex + 1;
          out := out + [BlockStart(textIndex.value, Text)];
        }
        text := text + fragment;
        out := out + [TextDelta(textIndex.value, fragment)];
      }
    }

    method TakeToolDelta(d: ToolDelta)
      requires Valid()
      modifies this, accumulator
      ensures Valid() && Value() == OnToolDelta(old(Value()), d)
    {
      var event := accumulator.Feed(d);
      if event.Some? {
        var f := event.value;
        if f.wire !in toolBlockIndex {
          toolBlockIndex := toolBlockIndex[f.wire := nextIndex];
          nextIndex := nextIndex + 1;
          out := out + [BlockStart(toolBlockIndex[f.wire], ToolCall)];
        }
        out := out + [ToolCallDelta(toolBlockIndex[f.wire], f.id, f.name, f.text)];
      }
    }

    method TakeChunk(chunk: ProviderChunk)
      requires Valid()
      modifies this, accumulator
      ensures Valid() && Value() == OnChunk(old(Value()), chunk)
    {
      if chunk.usage.Some? { usage := chunk.usage; }
      if chunk.choice == None { return; }
      var choice := chunk.choice.value;
      TakeReasoning(choice.reasoning);
      TakeText(choice.content);
      ghost var spoken := Value();
      var ds := choice.toolDeltas;
      for j := 0 to |ds|
        invariant Valid() && Value() == OnToolDeltas(spoken, ds[..j])
      {
        assert ds[..j + 1][..j] == ds[..j];
        TakeToolDelta(ds[j]);
      }
      assert ds[..|ds|] == ds;
      if choice.finishReason != "" { finishReason := choice.finishReason; }
    }

    /** Closes the tool blocks in wire order; `raised` when a block that never started is looked up. */
    method CloseTools(wires: seq<int>) returns (raised: bool)
      modifies this`out
      ensures Value().(out := old(out)) == old(Value())
      ensures out == old(out) + ToolEnds(old(Value()), wires).0
      ensures raised == ToolEnds(old(Value()), wires).1
    {
      ghost var s := Value();
      for i := 0 to |wires|
        invariant Value().(out := s.out) == s
        invariant ToolEnds(s, wires[i..]).1 == ToolEnds(s, wires).1
        invariant out + ToolEnds(s, wires[i..]).0 == s.out + ToolEnds(s, wires).0
      {
        assert wires[i..][1..] == wires[i + 1..];
        var w := wires[i];
        var entry := if w in accumulator.items then accumulator.items[w] else NO_ENTRY;
        if entry.id == "" || entry.name == "" { continue; }
        if w !in toolBlockIndex { return true; }
        out := out + [BlockEnd(toolBlockIndex[w], ToolBlockWire(entry.id, entry.name, entry.arguments))];
      }
      raised := false;
    }

    method CloseContent()
      modifies this`out
      ensures Value() == old(Value()).(out := old(out) + ContentEnds(old(Value())))
    {
      if reasoningIndex.Some? { out := out + [BlockEnd(reasoningIndex.value, ThinkingBlockWire(reasoning))]; }
      if textIndex.Some? { out := out + [BlockEnd(textIndex.value, TextBlockWire(text))]; }
    }

    method SendFinish()
      modifies this`out
      ensures out == old(out) + FinishChunks(old(Value()))
    {
      if usage.Some? { out := out + [UsageChunk(usage.value)]; }
      var kind := KindOf(finishReason);
      if kind.Some? {
        out := out + [Finish(FinishReason(kind.value, finishReason, None))];
      } else if reasoning != "" || text != "" || accumulator.items != map[] {
        out := out + [Finish(FinishReason(Stop, finishReason, None))];
      } else {
        out := out + [ErrorFinish(finishReason, LLMError("model stopped: " + finishReason, finishReason))];
      }
    }

    method Close()
      modifies this`out
      ensures out == old(out) + ClosingChunks(old(Value()))
    {
      ghost var s := Value();
      CloseContent();
      var wires := accumulator.SortedWires();
      ToolEndsIgnoreOut(s, Value(), wires);
      var raised := CloseTools(wires);
      if raised {
        out := out + [ErrorFinish("", LOOKUP_ERROR)];
      } else {
        SendFinish();
      }
    }
  }

  lemma ToolEndsIgnoreOut(s: Stage, t: Stage, wires: seq<int>)
    requires t == s.(out := t.out)
    ensures ToolEnds(s, wires) == ToolEnds(t, wires)
  {
  }

  /** The adapter's `stream`: consumes the provider's chunks, then closes what is open. */
  method Stream(pcs: seq<ProviderChunk>, ending: Ending) returns (out: seq<Chunk>)
    ensures out == StreamOutput(pcs, ending)
  {
    var turn := new CompletionsTurn();
    for i := 0 to |pcs|
      invariant turn.Valid() && turn.Value() == Consumed(pcs[..i])
      invariant fresh(turn) && fresh(turn.accumulator)
    {
      assert pcs[..i + 1][..i] == pcs[..i];
      turn.TakeChunk(pcs[i]);
    }
    assert pcs[..|pcs|] == pcs;
    if ending.Failed? {
      return turn.out + [ErrorFinish("", ending.error)];
    }
    turn.Close();
    out := turn.out;
  }
}
