/**
 * From a Responses provider to the reply: what its events say is what the attempt sends and writes,
 * and the calls its items ask for are the calls handed on.
 */
module ResponsesForwarding {
  import opened Prelude
  import opened StreamChunks
  import opened BlockAssembly
  import opened Events
  import opened Reasoning
  import opened Forwarding
  import opened ResponsesAdapter
  import opened ResponsesContract
  import Bracketing

  function VoiceOf(e: ResponseEvent, reasoning: bool): string
  {
    match e
    case TextDeltaEvent(_, delta) => if reasoning then "" else delta
    case ReasoningDeltaEvent(_, delta) => if reasoning then delta else ""
    case _ => ""
  }

  /** All text, or all reasoning, in the order of the events, up to the first that is out of place. */
  function Voiced(es: seq<ResponseEvent>, reasoning: bool): string
  {
    if es == [] then ""
    else
      var before := Voiced(es[..|es| - 1], reasoning);
      if Told(es).spoilt || Told(es).raised then before else before + VoiceOf(es[|es| - 1], reasoning)
  }

  function Streamed(cs: seq<Chunk>, reasoning: bool): string { if reasoning then ThoughtStreamed(cs) else TextStreamed(cs) }

  lemma {:induction false} StreamedAppend(a: seq<Chunk>, b: seq<Chunk>, reasoning: bool)
    ensures Streamed(a + b, reasoning) == Streamed(a, reasoning) + Streamed(b, reasoning)
  {
    TextAppend(a, b);
    ThoughtAppend(a, b);
  }

  lemma StreamedSnoc(cs: seq<Chunk>, c: Chunk, reasoning: bool)
    ensures Streamed(cs + [c], reasoning) == Streamed(cs, reasoning) + if reasoning then ThoughtIn(c) else TextIn(c)
  {
    assert (cs + [c])[..|cs|] == cs;
  }

  /** Each event streams its text, unless it is the one that fails. */
  lemma {:induction false} EventStreams(s: Stage, e: ResponseEvent, reasoning: bool)
    requires !s.raised
    ensures var t := OnEvent(s, e);
      Streamed(t.out, reasoning) == Streamed(s.out, reasoning) + if t.raised then "" else VoiceOf(e, reasoning)
  {
    hide Streamed;
    assert Streamed(s.out, reasoning) + "" == Streamed(s.out, reasoning);
    match e
    case TextDeltaEvent(id, delta) => if delta != "" { BegunStreams(s, id, TextItem, reasoning, TextDelta(IndexOfBegun(s, id, TextItem), delta)); }
    case ReasoningDeltaEvent(id, delta) =>
      if delta != "" { BegunStreams(s, id, ReasoningItem, reasoning, ReasoningDelta(IndexOfBegun(s, id, ReasoningItem), delta)); }
    case ArgumentsDeltaEvent(id, delta) =>
      if delta != "" {
        var b := Begun(Known(s, id, ToolItem), id, ToolItem);
        BegunStreams(s, id, ToolItem, reasoning, ToolCallDelta(b.items[id].index.value, b.items[id].callId, b.items[id].name, delta));
      }
    case ItemDoneEvent(id, isFunction, callId, name, arguments) =>
      if isFunction {
        BegunStreams(s, id, ToolItem, reasoning, BlockEnd(IndexOfBegun(s, id, ToolItem), ToolBlockWire(callId, name, arguments)));
      }
    case _ =>
  }

  function IndexOfBegun(s: Stage, id: string, kind: ItemKind): int { Begun(Known(s, id, kind), id, kind).items[id].index.value }

  lemma {:induction false} BegunStreams(s: Stage, id: string, kind: ItemKind, reasoning: bool, c: Chunk)
    ensures var b := Begun(Known(s, id, kind), id, kind);
      && Streamed(b.out, reasoning) == Streamed(s.out, reasoning)
      && Streamed(b.out + [c], reasoning) == Streamed(s.out, reasoning) + if reasoning then ThoughtIn(c) else TextIn(c)
  {
    hide Streamed;
    StreamedSnoc(s.out, BlockStart(s.next, TypeOf(kind)), reasoning);
    assert Streamed(s.out, reasoning) + "" == Streamed(s.out, reasoning);
    StreamedSnoc(Begun(Known(s, id, kind), id, kind).out, c, reasoning);
  }

  // ---------------------------------------------------------------------------
  // What is read of a turn
  // ---------------------------------------------------------------------------

  lemma {:induction false} ReadNoFurther(a: seq<Chunk>, b: seq<Chunk>)
    requires FeedAll(a).Err?
    ensures ReadPart(a + b) == ReadPart(a)
  {
    if b == [] {
      assert a + b == a;
    } else {
      ErrStays(a, b);
      assert (a + b)[..|a + b| - 1] == a + b[..|b| - 1];
      ReadNoFurther(a, b[..|b| - 1]);
    }
  }

  lemma ReadAllButLast(cs: seq<Chunk>, c: Chunk)
    requires FeedAll(cs).Ok? && FeedAll(cs + [c]).Err?
    ensures ReadPart(cs + [c]) == cs
  {
    assert (cs + [c])[..|cs|] == cs;
  }

  /** An event that spoils an item sends one chunk. */
  lemma {:induction false} SpoilsWithOne(s: Stage, p: Progress, t: Telling, owner: map<int, string>, e: ResponseEvent) returns (c: Chunk)
    requires ResponsesContract.Tracks(s, p, t, owner) && !t.spoilt && !t.raised && Tell(t, e).spoilt
    ensures OnEvent(s, e).out == s.out + [c]
  {
    hide FeedAll;
    var id := e.item;
    assert ItemInStep(s.items[id], StoryOf(t, id), p);
    c := OnEvent(s, e).out[|s.out|];
  }

  lemma {:induction false} ReadVoices(es: seq<ResponseEvent>, reasoning: bool)
    ensures Streamed(ReadPart(Consumed(es).out), reasoning) == Voiced(es, reasoning)
  {
    hide OnEvent, Tell, Streamed, InStep, VoiceOf, ReadPart, FeedAll;
    if es == [] {
      NothingStreamed(reasoning);
    } else {
      var init, e := es[..|es| - 1], es[|es| - 1];
      var s, t := Consumed(init), Told(init);
      ReadVoices(init, reasoning);
      var p, owner := ConsumedAfter(init);
      var p', owner' := ConsumedAfter(es);
      TroubleStays(t, e);
      OutGrows(s, e);
      var more := OnEvent(s, e).out[|s.out|..];
      assert OnEvent(s, e).out == s.out + more;
      assert Voiced(init, reasoning) + "" == Voiced(init, reasoning);
      if t.spoilt {
        ReadNoFurther(s.out, more);
      } else {
        Basics(s, p, t, owner);
        if t.raised {
          RaisedReadsNoMore(s, e);
        } else if Told(es).spoilt {
          var c := SpoilsWithOne(s, p, t, owner, e);
          ReadAllButLast(s.out, c);
          AllRead(s.out);
        } else {
          Basics(Consumed(es), p', Told(es), owner');
          AllRead(s.out);
          AllRead(Consumed(es).out);
          EventStreams(s, e, reasoning);
        }
      }
    }
  }

  lemma RaisedReadsNoMore(s: Stage, e: ResponseEvent)
    requires s.raised
    ensures OnEvent(s, e) == s
  {
  }

  lemma NothingStreamed(reasoning: bool)
    ensures Streamed(ReadPart(START.out), reasoning) == ""
  {
  }

  /** The chunks after the provider's last event. */
  function Tail(s: Stage, ending: Ending): seq<Chunk>
  {
    if s.raised then [ErrorFinish(MISSING_TEXT)]
    else if ending.Failed? then [ErrorFinish(ending.error)]
    else TailEnds(s.items, s.order) + (if s.usage.Some? then [UsageChunk(s.usage.value)] else []) + [ClosingFinish(s)]
  }

  predicate Wordless(c: Chunk) { c.UsageChunk? || c.Finish? || (c.BlockEnd? && c.block.wireType != ToolCallWire) }

  lemma {:induction false} TailWordless(items: map<string, Item>, order: seq<string>)
    ensures forall k :: 0 <= k < |TailEnds(items, order)| ==> Wordless(TailEnds(items, order)[k])
  {
    if order != [] { TailWordless(items, order[..|order| - 1]); }
  }

  lemma {:induction false} WordlessStreams(read: Reader, cs: seq<Chunk>, reasoning: bool)
    requires forall k :: 0 <= k < |cs| ==> Wordless(cs[k])
    ensures Streamed(cs, reasoning) == "" && CallsStreamed(read, cs) == []
  {
    if cs != [] { WordlessStreams(read, cs[..|cs| - 1], reasoning); }
  }

  lemma {:induction false} OutputParts(read: Reader, es: seq<ResponseEvent>, ending: Ending, reasoning: bool)
    ensures var tail := Tail(Consumed(es), ending);
      StreamOutput(es, ending) == Consumed(es).out + tail && Streamed(tail, reasoning) == "" && CallsStreamed(read, tail) == []
  {
    hide Consumed, TailEnds, Streamed, CallsStreamed;
    var s := Consumed(es);
    TailWordless(s.items, s.order);
    WordlessStreams(read, Tail(s, ending), reasoning);
  }

  lemma {:induction false} OutputVoices(es: seq<ResponseEvent>, ending: Ending, reasoning: bool)
    ensures Streamed(ReadPart(StreamOutput(es, ending)), reasoning) == Voiced(es, reasoning)
  {
    hide Consumed, Streamed, Told, Voiced, ReadPart, Tail, StreamOutput, FeedAll, InStep;
    var s := Consumed(es);
    var p, owner := ConsumedAfter(es);
    ReadVoices(es, reasoning);
    TakenExactly(es, ending);
    OutputParts(_ => None, es, ending, reasoning);
    if Told(es).spoilt {
      ReadNoFurther(s.out, Tail(s, ending));
    } else {
      AllRead(StreamOutput(es, ending));
      AllRead(s.out);
      StreamedAppend(s.out, Tail(s, ending), reasoning);
      assert Streamed(s.out, reasoning) + "" == Streamed(s.out, reasoning);
    }
  }

  /**
   * Whatever a Responses provider sends, and however its stream ends: all its text and all its
   * reasoning, up to the first event that is out of place, and nothing else, reach the user and the reply.
   */
  lemma {:induction false} ResponsesTextIsWritten(read: Reader, nextId: nat, input: AttemptInput, es: seq<ResponseEvent>, ending: Ending)
    requires input.chunks == StreamOutput(es, ending)
    ensures var d := RunAttempt(read, nextId, input);
      && Bracketing.TextSent(d.events) == Voiced(es, false) && Bracketing.TextWritten(d.blocks) == Voiced(es, false)
      && Bracketing.ThinkingSent(d.events) == Voiced(es, true) && Bracketing.ThinkingWritten(d.blocks) == Voiced(es, true)
  {
    hide RunAttempt, StreamOutput, Voiced, ReadPart, Bracketing.TextSent, Bracketing.ThinkingSent, Bracketing.TextWritten, Bracketing.ThinkingWritten;
    SaysWhatWasStreamed(read, nextId, input);
    OutputVoices(es, ending, false);
    OutputVoices(es, ending, true);
  }

  // ---------------------------------------------------------------------------
  // The calls the provider asks for
  // ---------------------------------------------------------------------------

  function CallBy(read: Reader, e: ResponseEvent): seq<Call>
  {
    if e.ItemDoneEvent? && e.isFunction then [Call(e.callId, e.name, ParsedInput(read, e.arguments))] else []
  }

  /** The calls of the items that are done, in that order, each as its last event describes it. */
  function CallsDone(read: Reader, es: seq<ResponseEvent>): seq<Call>
  {
    if es == [] then [] else CallsDone(read, es[..|es| - 1]) + CallBy(read, es[|es| - 1])
  }

  /** The last word on completion was that the response is incomplete. */
  predicate Incomplete(es: seq<ResponseEvent>)
  {
    es != [] &&
    var e := es[|es| - 1];
    if e.CompletedEvent? && (e.incomplete || e.completed) then e.incomplete else Incomplete(es[..|es| - 1])
  }

  lemma {:induction false} BegunCalls(read: Reader, s: Stage, id: string, kind: ItemKind, c: Chunk)
    ensures var b := Begun(Known(s, id, kind), id, kind);
      && CallsStreamed(read, b.out) == CallsStreamed(read, s.out)
      && CallsStreamed(read, b.out + [c]) == CallsStreamed(read, s.out) + CallIn(read, c)
  {
    hide CallsStreamed, ParsedInput;
    var start := BlockStart(s.next, TypeOf(kind));
    CallsAppend(read, s.out, [start]);
    StreamedOne(read, start);
    assert CallsStreamed(read, s.out) + [] == CallsStreamed(read, s.out);
    CallsAppend(read, Begun(Known(s, id, kind), id, kind).out, [c]);
    StreamedOne(read, c);
  }

  /** Only the end of an item's call asks for one. */
  lemma {:induction false} EventCalls(read: Reader, s: Stage, e: ResponseEvent)
    requires !OnEvent(s, e).raised
    ensures CallsStreamed(read, OnEvent(s, e).out) == CallsStreamed(read, s.out) + CallBy(read, e)
  {
    hide CallsStreamed, ParsedInput;
    assert CallsStreamed(read, s.out) + [] == CallsStreamed(read, s.out);
    match e
    case TextDeltaEvent(id, delta) => if delta != "" { BegunCalls(read, s, id, TextItem, TextDelta(IndexOfBegun(s, id, TextItem), delta)); }
    case ReasoningDeltaEvent(id, delta) =>
      if delta != "" { BegunCalls(read, s, id, ReasoningItem, ReasoningDelta(IndexOfBegun(s, id, ReasoningItem), delta)); }
    case ArgumentsDeltaEvent(id, delta) =>
      if delta != "" {
        var b := Begun(Known(s, id, ToolItem), id, ToolItem);
        BegunCalls(read, s, id, ToolItem, ToolCallDelta(b.items[id].index.value, b.items[id].callId, b.items[id].name, delta));
      }
    case ItemDoneEvent(id, isFunction, callId, name, arguments) =>
      if isFunction {
        BegunCalls(read, s, id, ToolItem, BlockEnd(IndexOfBegun(s, id, ToolItem), ToolBlockWire(callId, name, arguments)));
      }
    case _ =>
  }

  lemma {:induction false} ConsumedCalls(read: Reader, es: seq<ResponseEvent>)
    requires !Consumed(es).raised
    ensures CallsStreamed(read, Consumed(es).out) == CallsDone(read, es)
    ensures Consumed(es).finishKind == Some(MaxTokens) <==> Incomplete(es)
    ensures Consumed(es).finishKind.Some? ==> Consumed(es).finishKind.value in {MaxTokens, Stop, ToolCalls}
  {
    hide CallsStreamed, CallBy;
    if es == [] {
      NoCalls(read);
    } else {
      var init, e := es[..|es| - 1], es[|es| - 1];
      assert !Consumed(init).raised;
      ConsumedCalls(read, init);
      EventCalls(read, Consumed(init), e);
      EventFinishes(Consumed(init), e);
      hide OnEvent;
    }
  }

  lemma EventFinishes(s: Stage, e: ResponseEvent)
    requires !OnEvent(s, e).raised
    ensures var before, after := s.finishKind, OnEvent(s, e).finishKind;
      && (after == Some(MaxTokens) <==> if e.CompletedEvent? && (e.incomplete || e.completed) then e.incomplete else before == Some(MaxTokens))
      && (after == before || after == Some(MaxTokens) || after == Some(Stop) || after == Some(FinishKind.ToolCalls))
  {
  }

  /**
   * A successful attempt behind the Responses adapter hands on exactly the calls of the items that were
   * done, in that order, each with the id, name and arguments it was done with; none if the response
   * came out incomplete.
   */
  lemma {:induction false} ResponsesCallsAreMade(read: Reader, nextId: nat, input: AttemptInput, es: seq<ResponseEvent>, ending: Ending)
    requires input.chunks == StreamOutput(es, ending) && RunAttempt(read, nextId, input).end.Succeeded?
    ensures RunAttempt(read, nextId, input).end.result.calls == if Incomplete(es) then [] else CallsDone(read, es)
  {
    hide RunAttempt, Consumed, CallsStreamed, Accepts, TailEnds, CallsDone, Incomplete;
    var s, out := Consumed(es), input.chunks;
    SucceedsIff(read, nextId, input);
    ResultIsWhatWasStreamed(read, nextId, input);
    OutputParts(read, es, ending, false);
    CallsAppend(read, s.out, Tail(s, ending));
    assert out[|out| - 1] == Tail(s, ending)[|Tail(s, ending)| - 1];
    assert !s.raised && !ending.Failed? && s.finishKind.Some?;
    ConsumedCalls(read, es);
    assert CallsStreamed(read, s.out) + [] == CallsStreamed(read, s.out);
  }
}
