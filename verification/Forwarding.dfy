/**
 * From the provider to the reply: what a stream says is what the attempt sends and writes, exactly
 * which streams make an attempt succeed, and what that means behind the Chat Completions adapter.
 */
module Forwarding {
  import opened Prelude
  import opened StreamChunks
  import opened BlockAssembly
  import opened Messages
  import opened Events
  import opened Reasoning
  import opened Bracketing
  import opened CompletionsProjection
  import CompletionsAdapter
  import AdapterContract

  // ---------------------------------------------------------------------------
  // What a stream says, read off its chunks alone
  // ---------------------------------------------------------------------------

  function TextIn(c: Chunk): string { if c.TextDelta? then c.text else "" }

  function ThoughtIn(c: Chunk): string { if c.ReasoningDelta? then c.text else "" }

  function CallIn(read: Reader, c: Chunk): seq<Call>
  {
    if c.BlockEnd? && c.block.wireType == ToolCallWire then
      [Call(c.block.id, c.block.name, ParsedInput(read, c.block.arguments))]
    else []
  }

  function TextStreamed(cs: seq<Chunk>): string
  {
    if cs == [] then "" else TextStreamed(cs[..|cs| - 1]) + TextIn(cs[|cs| - 1])
  }

  function ThoughtStreamed(cs: seq<Chunk>): string
  {
    if cs == [] then "" else ThoughtStreamed(cs[..|cs| - 1]) + ThoughtIn(cs[|cs| - 1])
  }

  /** The calls whose blocks ended, in that order. */
  function CallsStreamed(read: Reader, cs: seq<Chunk>): seq<Call>
  {
    if cs == [] then [] else CallsStreamed(read, cs[..|cs| - 1]) + CallIn(read, cs[|cs| - 1])
  }

  predicate FailingFinish(c: Chunk) { c.Finish? && IsFailure(c.reason.kind) }

  predicate EndsFailing(cs: seq<Chunk>) { cs != [] && FailingFinish(cs[|cs| - 1]) }

  predicate CutShort(cs: seq<Chunk>) { cs != [] && cs[|cs| - 1].Finish? && cs[|cs| - 1].reason.kind == MaxTokens }

  /** The calls a stream asks for; those of an answer cut short are not safe to run. */
  function CallsAsked(read: Reader, cs: seq<Chunk>): seq<Call>
  {
    if CutShort(cs) then [] else CallsStreamed(read, cs)
  }

  // ---------------------------------------------------------------------------
  // Reading a stream
  // ---------------------------------------------------------------------------

  lemma {:induction false} TakenForwards(read: Reader, a: Attempt, c: Chunk)
    ensures var b := OnTaken(read, a, c);
      && b.asm == a.asm
      && b.text == a.text + TextIn(c) && b.reasoning == a.reasoning + ThoughtIn(c) && b.calls == a.calls + CallIn(read, c)
      && b.kind == (if c.Finish? && !FailingFinish(c) then Some(c.reason.kind) else a.kind)
  {
    assert a.text + "" == a.text && a.reasoning + "" == a.reasoning && a.calls + [] == a.calls;
  }

  /** The attempt after it has taken exactly the chunks `cs`. */
  ghost predicate HasTaken(read: Reader, a: Attempt, cs: seq<Chunk>)
  {
    && FeedAll(cs) == Ok(a.asm)
    && a.text == TextStreamed(cs) && a.reasoning == ThoughtStreamed(cs) && a.calls == CallsStreamed(read, cs)
    && (a.kind.Some? <==> a.asm.finish.Some? && !IsFailure(a.asm.finish.value.kind))
    && (a.kind.Some? ==> a.kind == Some(a.asm.finish.value.kind))
    && (a.asm.finish.Some? ==> cs != [] && cs[|cs| - 1] == Finish(a.asm.finish.value))
  }

  lemma {:induction false} TakesOne(read: Reader, a: Attempt, cs: seq<Chunk>, c: Chunk)
    requires HasTaken(read, a, cs) && Feed(a.asm, c).Ok?
    ensures HasTaken(read, OnTaken(read, a.(asm := Feed(a.asm, c).value), c), cs + [c])
  {
    hide OnTaken;
    TakenForwards(read, a.(asm := Feed(a.asm, c).value), c);
    assert (cs + [c])[..|cs|] == cs;
    FinishOnly(a.asm, c);
    hide Feed;
  }

  lemma FinishOnly(p: Progress, c: Chunk)
    requires Feed(p, c).Ok?
    ensures p.finish == None && Feed(p, c).value.finish == if c.Finish? then Some(c.reason) else None
  {
  }

  lemma NothingTaken(read: Reader, nextId: nat)
    ensures HasTaken(read, NewAttempt(nextId), [])
  {
  }

  /** The part of a stream that is read: all of it up to the first chunk that breaks the stream contract. */
  function ReadPart(cs: seq<Chunk>): (r: seq<Chunk>)
    ensures FeedAll(r).Ok? && r <= cs
  {
    if FeedAll(cs).Ok? then cs else ReadPart(cs[..|cs| - 1])
  }

  /** The attempt takes exactly the part that is read, and goes on without an error if that is all and no failing finish. */
  lemma {:induction false} ReadsPart(read: Reader, nextId: nat, cs: seq<Chunk>)
    ensures var (a, error) := Consume(read, NewAttempt(nextId), cs);
      HasTaken(read, a, ReadPart(cs)) && (error == None <==> FeedAll(cs).Ok? && !EndsFailing(cs))
  {
    hide OnTaken, Feed, HasTaken;
    if cs == [] {
      NothingTaken(read, nextId);
    } else {
      var init, c := cs[..|cs| - 1], cs[|cs| - 1];
      ReadsPart(read, nextId, init);
      var (b, error) := Consume(read, NewAttempt(nextId), init);
      if FeedAll(init).Ok? {
        TakenIsFed(read, b, init);
        if EndsFailing(init) {
          FailedTakesNoMore(read, b, init, c);
        } else if Feed(b.asm, c).Ok? {
          TakesOne(read, b, init, c);
          assert init + [c] == cs;
        }
      }
    }
  }

  lemma FailedTakesNoMore(read: Reader, a: Attempt, cs: seq<Chunk>, c: Chunk)
    requires HasTaken(read, a, cs) && EndsFailing(cs)
    ensures Feed(a.asm, c).Err?
  {
  }

  lemma TakenIsFed(read: Reader, a: Attempt, cs: seq<Chunk>)
    requires HasTaken(read, a, cs)
    ensures FeedAll(cs) == Ok(a.asm)
  {
  }

  // ---------------------------------------------------------------------------
  // One attempt
  // ---------------------------------------------------------------------------

  lemma {:induction false} ObjectsWriteNothing(a: Attempt, calls: seq<Call>)
    ensures TextWritten(Spoken(a)) == a.text && ThinkingWritten(Spoken(a)) == a.reasoning
    ensures TextWritten(Spoken(a) + CallBlocksOf(calls)) == a.text && ThinkingWritten(Spoken(a) + CallBlocksOf(calls)) == a.reasoning
  {
    SpokenWrites(a);
    CallsWriteNothing(calls);
    WrittenAppend(Spoken(a), CallBlocksOf(calls));
    assert a.text + "" == a.text && a.reasoning + "" == a.reasoning;
  }

  /**
   * Whatever the model streams and however the attempt ends: the text and the thinking of the part
   * that is read, and nothing else, are sent as events and written to the reply.
   */
  lemma {:induction false} SaysWhatWasStreamed(read: Reader, nextId: nat, input: AttemptInput)
    ensures var d, said := RunAttempt(read, nextId, input), ReadPart(input.chunks);
      && TextSent(d.events) == TextStreamed(said) && TextWritten(d.blocks) == TextStreamed(said)
      && ThinkingSent(d.events) == ThoughtStreamed(said) && ThinkingWritten(d.blocks) == ThoughtStreamed(said)
  {
    ReadsPart(read, nextId, input.chunks);
    AttemptSound(read, nextId, input);
    hide Consume, Spoken, CallBlocksOf, AllObjects, AfterEvents, TextSent, ThinkingSent, TextWritten, ThinkingWritten, ModelCalls, Verdict;
    var (a, error) := Consume(read, NewAttempt(nextId), input.chunks);
    ObjectsWriteNothing(a, CallsKept(a));
    ObjectsWriteNothing(CloseThinking(CloseText(a)), []);
  }

  /**
   * The streams that succeed: they end by themselves, meet the stream contract, do not finish as a
   * failure, and ask only for calls whose arguments are objects.
   */
  predicate Succeeds(read: Reader, input: AttemptInput)
  {
    input.ending == StreamDone && Accepts(input.chunks) && !EndsFailing(input.chunks) && AllObjects(CallsAsked(read, input.chunks))
  }

  /** Exactly these attempts succeed. */
  lemma {:induction false} SucceedsIff(read: Reader, nextId: nat, input: AttemptInput)
    ensures RunAttempt(read, nextId, input).end.Succeeded? <==> Succeeds(read, input)
  {
    hide Consume, Spoken, CallBlocksOf, AllObjects, ReadPart;
    var cs := input.chunks;
    ReadsPart(read, nextId, cs);
    var (a, error) := Consume(read, NewAttempt(nextId), cs);
    if error == None {
      AllRead(cs);
      KeptAsked(read, a, cs);
    }
  }

  lemma AllRead(cs: seq<Chunk>)
    requires FeedAll(cs).Ok?
    ensures ReadPart(cs) == cs
  {
  }

  lemma KeptAsked(read: Reader, a: Attempt, cs: seq<Chunk>)
    requires HasTaken(read, a, cs)
    ensures Verdict(a.asm) == None ==> CallsKept(a) == CallsAsked(read, cs) || EndsFailing(cs)
    ensures Accepts(cs) <==> Verdict(a.asm) == None
  {
  }

  /** A successful attempt hands on what the whole stream says. */
  lemma {:induction false} ResultIsWhatWasStreamed(read: Reader, nextId: nat, input: AttemptInput)
    requires RunAttempt(read, nextId, input).end.Succeeded?
    ensures RunAttempt(read, nextId, input).end.result ==
      TurnResult(TextStreamed(input.chunks), ThoughtStreamed(input.chunks), CallsAsked(read, input.chunks), None)
  {
    hide Consume, Spoken, CallBlocksOf, AllObjects, ReadPart;
    var cs := input.chunks;
    ReadsPart(read, nextId, cs);
    AllRead(cs);
    KeptAsked(read, Consume(read, NewAttempt(nextId), cs).0, cs);
  }

  // ---------------------------------------------------------------------------
  // Behind the Chat Completions adapter
  // ---------------------------------------------------------------------------

  lemma {:induction false} TextAppend(a: seq<Chunk>, b: seq<Chunk>)
    ensures TextStreamed(a + b) == TextStreamed(a) + TextStreamed(b)
  {
    hide TextIn;
    if b == [] {
      assert a + b == a && TextStreamed(a) + "" == TextStreamed(a);
    } else {
      var init, last := b[..|b| - 1], b[|b| - 1];
      assert (a + b)[..|a + b| - 1] == a + init && (a + b)[|a + b| - 1] == last;
      TextAppend(a, init);
    }
  }

  lemma {:induction false} ThoughtAppend(a: seq<Chunk>, b: seq<Chunk>)
    ensures ThoughtStreamed(a + b) == ThoughtStreamed(a) + ThoughtStreamed(b)
  {
    hide ThoughtIn;
    if b == [] {
      assert a + b == a && ThoughtStreamed(a) + "" == ThoughtStreamed(a);
    } else {
      var init, last := b[..|b| - 1], b[|b| - 1];
      assert (a + b)[..|a + b| - 1] == a + init && (a + b)[|a + b| - 1] == last;
      ThoughtAppend(a, init);
    }
  }

  lemma {:induction false} CallsAppend(read: Reader, a: seq<Chunk>, b: seq<Chunk>)
    ensures CallsStreamed(read, a + b) == CallsStreamed(read, a) + CallsStreamed(read, b)
  {
    hide CallIn;
    if b == [] {
      assert a + b == a && CallsStreamed(read, a) + [] == CallsStreamed(read, a);
    } else {
      var init, last := b[..|b| - 1], b[|b| - 1];
      assert (a + b)[..|a + b| - 1] == a + init && (a + b)[|a + b| - 1] == last;
      CallsAppend(read, a, init);
    }
  }

  lemma {:induction false} StreamedOne(read: Reader, c: Chunk)
    ensures TextStreamed([c]) == TextIn(c) && ThoughtStreamed([c]) == ThoughtIn(c) && CallsStreamed(read, [c]) == CallIn(read, c)
  {
    assert [c][..0] == [];
    assert "" + TextIn(c) == TextIn(c) && "" + ThoughtIn(c) == ThoughtIn(c);
  }

  lemma {:induction false} BodyCallsNothing(read: Reader, cs: seq<Chunk>)
    requires Body(cs)
    ensures CallsStreamed(read, cs) == []
  {
    if cs != [] {
      BodyCallsNothing(read, cs[..|cs| - 1]);
      assert BodyChunk(cs[|cs| - 1]);
    }
  }

  lemma {:induction false} TailSaysNothing(cs: seq<Chunk>)
    requires CompletionsProjection.Tail(cs)
    ensures TextStreamed(cs) == "" && ThoughtStreamed(cs) == ""
  {
    if cs != [] {
      TailSaysNothing(cs[..|cs| - 1]);
      assert TailChunk(cs[|cs| - 1]);
    }
  }

  /** The adapter's chunks carry its text and reasoning totals. */
  ghost predicate Carries(s: CompletionsAdapter.Stage)
  {
    TextStreamed(s.out) == s.text && ThoughtStreamed(s.out) == s.reasoning
  }

  lemma {:induction false} CarriesOne(s: CompletionsAdapter.Stage, t: CompletionsAdapter.Stage, c: Chunk)
    requires Carries(s) && t.out == s.out + [c] && t.text == s.text + TextIn(c) && t.reasoning == s.reasoning + ThoughtIn(c)
    ensures Carries(t)
  {
    TextAppend(s.out, [c]);
    ThoughtAppend(s.out, [c]);
    StreamedOne(_ => None, c);
  }

  lemma {:induction false} ReasoningCarries(s: CompletionsAdapter.Stage, fragment: string)
    requires Carries(s)
    ensures Carries(CompletionsAdapter.OnReasoning(s, fragment))
  {
    hide Carries;
    if fragment != "" {
      var b := s;
      assert s.text + "" == s.text && s.reasoning + "" == s.reasoning;
      if s.reasoningIndex.None? {
        b := s.(reasoningIndex := Some(s.next), next := s.next + 1, out := s.out + [BlockStart(s.next, Reasoning)]);
        CarriesOne(s, b, BlockStart(s.next, Reasoning));
      }
      CarriesOne(b, CompletionsAdapter.OnReasoning(s, fragment), ReasoningDelta(b.reasoningIndex.value, fragment));
    }
  }

  lemma {:induction false} TextCarries(s: CompletionsAdapter.Stage, fragment: string)
    requires Carries(s)
    ensures Carries(CompletionsAdapter.OnText(s, fragment))
  {
    hide Carries;
    if fragment != "" {
      var b := s;
      assert s.text + "" == s.text && s.reasoning + "" == s.reasoning;
      if s.textIndex.None? {
        b := s.(textIndex := Some(s.next), next := s.next + 1, out := s.out + [BlockStart(s.next, Text)]);
        CarriesOne(s, b, BlockStart(s.next, Text));
      }
      CarriesOne(b, CompletionsAdapter.OnText(s, fragment), TextDelta(b.textIndex.value, fragment));
    }
  }

  lemma {:induction false} ToolCarries(s: CompletionsAdapter.Stage, d: CompletionsAdapter.ToolDelta)
    requires Carries(s)
    ensures Carries(CompletionsAdapter.OnToolDelta(s, d))
  {
    hide Carries, CompletionsAdapter.Accumulate;
    assert s.text + "" == s.text && s.reasoning + "" == s.reasoning;
    var (items, fragment) := CompletionsAdapter.Accumulate(s.items, d);
    SameCarries(s, s.(items := items));
    if fragment.Some? {
      var f := fragment.value;
      var b := s;
      if f.wire !in s.toolBlock {
        b := s.(toolBlock := s.toolBlock[f.wire := s.next], next := s.next + 1, out := s.out + [BlockStart(s.next, ToolCall)]);
        CarriesOne(s, b, BlockStart(s.next, ToolCall));
      }
      CarriesOne(b, CompletionsAdapter.OnToolDelta(s, d), ToolCallDelta(b.toolBlock[f.wire], f.id, f.name, f.text));
    }
  }

  lemma SameCarries(s: CompletionsAdapter.Stage, t: CompletionsAdapter.Stage)
    requires Carries(s) && t.out == s.out && t.text == s.text && t.reasoning == s.reasoning
    ensures Carries(t)
  {
  }

  lemma {:induction false} ToolsCarry(s: CompletionsAdapter.Stage, ds: seq<CompletionsAdapter.ToolDelta>)
    requires Carries(s)
    ensures Carries(CompletionsAdapter.OnToolDeltas(s, ds))
  {
    hide Carries, CompletionsAdapter.OnToolDelta;
    if ds != [] {
      ToolsCarry(s, ds[..|ds| - 1]);
      ToolCarries(CompletionsAdapter.OnToolDeltas(s, ds[..|ds| - 1]), ds[|ds| - 1]);
    }
  }

  lemma {:induction false} ConsumedCarries(pcs: seq<CompletionsAdapter.ProviderChunk>)
    ensures Carries(CompletionsAdapter.Consumed(pcs))
  {
    hide Carries, CompletionsAdapter.OnToolDeltas, CompletionsAdapter.OnText, CompletionsAdapter.OnReasoning;
    if pcs == [] {
      StartCarries();
    } else {
      var s, pc := CompletionsAdapter.Consumed(pcs[..|pcs| - 1]), pcs[|pcs| - 1];
      ConsumedCarries(pcs[..|pcs| - 1]);
      var metered := if pc.usage.Some? then s.(usage := pc.usage) else s;
      SameCarries(s, metered);
      if pc.choice.Some? {
        var c := pc.choice.value;
        ReasoningCarries(metered, c.reasoning);
        TextCarries(CompletionsAdapter.OnReasoning(metered, c.reasoning), c.content);
        var spoken := CompletionsAdapter.OnText(CompletionsAdapter.OnReasoning(metered, c.reasoning), c.content);
        ToolsCarry(spoken, c.toolDeltas);
        SameCarries(CompletionsAdapter.OnToolDeltas(spoken, c.toolDeltas), CompletionsAdapter.OnChunk(s, pc));
      }
    }
  }

  lemma StartCarries()
    ensures Carries(CompletionsAdapter.START)
  {
  }

  lemma {:induction false} OutputCarries(pcs: seq<CompletionsAdapter.ProviderChunk>, ending: CompletionsAdapter.Ending)
    ensures var out, cs := CompletionsAdapter.StreamOutput(pcs, ending), AdapterContract.Choices(pcs);
      TextStreamed(out) == AdapterContract.TextSent(cs) && ThoughtStreamed(out) == AdapterContract.ReasoningSent(cs)
  {
    hide TextStreamed, ThoughtStreamed, CompletionsAdapter.Consumed, CompletionsAdapter.ToolEnds, CompletionsAdapter.Sorted,
      AdapterContract.TextSent, AdapterContract.ReasoningSent, AdapterContract.Choices, AdapterContract.Holds;
    var s := CompletionsAdapter.Consumed(pcs);
    ConsumedCarries(pcs);
    AdapterContract.ConsumedTotals(pcs);
    ToolTail(s, CompletionsAdapter.Sorted(s.items.Keys));
    var tail := if ending.Failed? then [CompletionsAdapter.ErrorFinish("", ending.error)] else CompletionsAdapter.ClosingChunks(s);
    TailSaysNothing(tail);
    TextAppend(s.out, tail);
    ThoughtAppend(s.out, tail);
    assert s.text + "" == s.text && s.reasoning + "" == s.reasoning;
  }

  /**
   * Whatever the provider sends, and whether its stream completes, is cancelled or fails: behind the
   * completions adapter, all its text and all its reasoning, and nothing else, reach the user and the reply.
   */
  lemma {:induction false} ProviderTextIsWritten(read: Reader, nextId: nat, input: AttemptInput,
                                                 pcs: seq<CompletionsAdapter.ProviderChunk>, ending: CompletionsAdapter.Ending)
    requires input.chunks == CompletionsAdapter.StreamOutput(pcs, ending)
    ensures var d, cs := RunAttempt(read, nextId, input), AdapterContract.Choices(pcs);
      && TextSent(d.events) == AdapterContract.TextSent(cs) && TextWritten(d.blocks) == AdapterContract.TextSent(cs)
      && ThinkingSent(d.events) == AdapterContract.ReasoningSent(cs) && ThinkingWritten(d.blocks) == AdapterContract.ReasoningSent(cs)
  {
    hide RunAttempt, TextSent, ThinkingSent, TextWritten, ThinkingWritten, TextStreamed, ThoughtStreamed, CompletionsAdapter.StreamOutput, FeedAll;
    SaysWhatWasStreamed(read, nextId, input);
    AdapterContract.TakenWhole(pcs, ending);
    OutputCarries(pcs, ending);
  }

  // ---------------------------------------------------------------------------
  // The calls the provider asks for
  // ---------------------------------------------------------------------------

  /** The calls of the given wire indices: those with an id and a name, with all their arguments. */
  function CallsSent(read: Reader, ds: seq<CompletionsAdapter.ToolDelta>, wires: seq<int>): seq<Call>
  {
    if wires == [] then []
    else
      var w := wires[0];
      (if AdapterContract.IdOf(ds, w) != "" && AdapterContract.NameOf(ds, w) != "" then
         [Call(AdapterContract.IdOf(ds, w), AdapterContract.NameOf(ds, w), ParsedInput(read, AdapterContract.ArgumentsOf(ds, w)))]
       else []) + CallsSent(read, ds, wires[1..])
  }

  lemma {:induction false} EndsCall(read: Reader, s: CompletionsAdapter.Stage, ds: seq<CompletionsAdapter.ToolDelta>, wires: seq<int>)
    requires AdapterContract.Holds(s.items, ds) && !CompletionsAdapter.ToolEnds(s, wires).1
    ensures CallsStreamed(read, CompletionsAdapter.ToolEnds(s, wires).0) == CallsSent(read, ds, wires)
  {
    hide CallsStreamed, ParsedInput, AdapterContract.Received;
    NoCalls(read);
    if wires != [] {
      var w := wires[0];
      var e := CompletionsAdapter.Lookup(s.items, w);
      assert e == AdapterContract.EntryOf(AdapterContract.Received(ds, w));
      EndsCall(read, s, ds, wires[1..]);
      if CompletionsAdapter.Identified(e) {
        var end := BlockEnd(s.toolBlock[w], ToolBlockWire(e.id, e.name, e.arguments));
        StreamedOne(read, end);
        CallsAppend(read, [end], CompletionsAdapter.ToolEnds(s, wires[1..]).0);
      }
    }
  }

  lemma NoCalls(read: Reader)
    ensures CallsStreamed(read, []) == []
  {
  }

  lemma {:induction false} QuietCallsNothing(read: Reader, cs: seq<Chunk>)
    requires forall i :: 0 <= i < |cs| ==> CallIn(read, cs[i]) == []
    ensures CallsStreamed(read, cs) == []
  {
    if cs != [] { QuietCallsNothing(read, cs[..|cs| - 1]); }
  }

  /** The calls in the output of a turn that closes as it should. */
  lemma {:induction false} OutputCalls(read: Reader, pcs: seq<CompletionsAdapter.ProviderChunk>, ending: CompletionsAdapter.Ending)
    requires !ending.Failed?
    requires var s := CompletionsAdapter.Consumed(pcs); !CompletionsAdapter.ToolEnds(s, CompletionsAdapter.Sorted(s.items.Keys)).1
    ensures var ds := AdapterContract.Tools(pcs);
      CallsStreamed(read, CompletionsAdapter.StreamOutput(pcs, ending)) == CallsSent(read, ds, CompletionsAdapter.Sorted(AdapterContract.Wires(ds)))
  {
    hide CallsStreamed, CallsSent, CompletionsAdapter.Consumed, CompletionsAdapter.ToolEnds, CompletionsAdapter.Sorted,
      AdapterContract.ToolsSent, AdapterContract.Received;
    var s, ds := CompletionsAdapter.Consumed(pcs), AdapterContract.Tools(pcs);
    AdapterContract.ConsumedTotals(pcs);
    ConsumedBody(pcs);
    var wires := CompletionsAdapter.Sorted(s.items.Keys);
    var content, ends, finish := CompletionsAdapter.ContentEnds(s), CompletionsAdapter.ToolEnds(s, wires).0, CompletionsAdapter.FinishChunks(s);
    BodyCallsNothing(read, s.out);
    QuietCallsNothing(read, content);
    EndsCall(read, s, ds, wires);
    QuietCallsNothing(read, finish);
    CallsAppend(read, content, ends);
    CallsAppend(read, content + ends, finish);
    CallsAppend(read, s.out, content + ends + finish);
    assert [] + CallsSent(read, ds, wires) + [] == CallsSent(read, ds, wires);
  }

  /**
   * A successful attempt behind the completions adapter hands on exactly the calls the provider asked
   * for, in the order of their wire indices, each with its last id and name and all its arguments;
   * none if the provider stopped at its token limit.
   */
  lemma {:induction false} ProviderCallsAreMade(read: Reader, nextId: nat, input: AttemptInput,
                                                pcs: seq<CompletionsAdapter.ProviderChunk>, ending: CompletionsAdapter.Ending)
    requires input.chunks == CompletionsAdapter.StreamOutput(pcs, ending) && RunAttempt(read, nextId, input).end.Succeeded?
    ensures var ds := AdapterContract.Tools(pcs);
      RunAttempt(read, nextId, input).end.result.calls ==
        if AdapterContract.LastReason(pcs) == "length" then [] else CallsSent(read, ds, CompletionsAdapter.Sorted(AdapterContract.Wires(ds)))
  {
    hide RunAttempt, CallsSent, CompletionsAdapter.Consumed, CompletionsAdapter.ToolEnds, CompletionsAdapter.Sorted, CallsStreamed,
      AdapterContract.Tools, AdapterContract.Wires, Accepts;
    var s, out := CompletionsAdapter.Consumed(pcs), input.chunks;
    SucceedsIff(read, nextId, input);
    ResultIsWhatWasStreamed(read, nextId, input);
    AdapterContract.OneFinishNeverAborted(pcs, ending);
    LastOfOutput(pcs, ending);
    assert !EndsFailing(out);
    OutputCalls(read, pcs, ending);
    AdapterContract.FinishAsSent(pcs);
  }

  lemma {:induction false} LastOfOutput(pcs: seq<CompletionsAdapter.ProviderChunk>, ending: CompletionsAdapter.Ending)
    ensures var out := CompletionsAdapter.StreamOutput(pcs, ending);
      out != [] && out[|out| - 1] == AdapterContract.LastChunk(pcs, ending)
  {
    hide CompletionsAdapter.Consumed, CompletionsAdapter.ToolEnds, CompletionsAdapter.Sorted, CompletionsAdapter.ContentEnds, CompletionsAdapter.ClosingFinish;
    if !ending.Failed? { AdapterContract.OutputShape(pcs, ending); }
  }
}
