/**
 * What a model call reports at its end, from the provider to the events: the token usage of the call,
 * and the error it fails with.
 */
module Reporting {
  import opened Prelude
  import opened StreamChunks
  import opened BlockAssembly
  import opened Events
  import opened Reasoning
  import opened Forwarding
  import opened AdapterContract
  import CompletionsAdapter
  import CompletionsProjection
  import Retries

  /** The numbers of tokens a call has used. */
  datatype Report = Report(prompt: int, completion: int, total: int)

  /** The reports among the events. */
  function Reports(es: seq<Event>): seq<Report>
  {
    if es == [] then []
    else
      var e := es[|es| - 1];
      Reports(es[..|es| - 1]) + (if e.ModelCallEnded? then [Report(e.prompt, e.completion, e.total)] else [])
  }

  /** The usage told last. */
  function LastUsage(cs: seq<Chunk>): Option<Usage>
  {
    if cs == [] then None
    else if cs[|cs| - 1].UsageChunk? then Some(cs[|cs| - 1].usage) else LastUsage(cs[..|cs| - 1])
  }

  /** A usage is reported if all three numbers are known. */
  function ReportOf(usage: Option<Usage>): seq<Report>
  {
    match usage
    case Some(Usage(Some(prompt), Some(completion), Some(total))) => [Report(prompt, completion, total)]
    case _ => []
  }

  predicate EndsWell(cs: seq<Chunk>)
  {
    cs != [] && cs[|cs| - 1].Finish? && cs[|cs| - 1].reason.kind !in {FinishKind.Error, FinishKind.Aborted}
  }

  function UsageTold(cs: seq<Chunk>): seq<Report> { if EndsWell(cs) then ReportOf(LastUsage(cs)) else [] }

  // ---------------------------------------------------------------------------
  // From the chunks to the events
  // ---------------------------------------------------------------------------

  lemma {:induction false} ReportsSnoc(es: seq<Event>, e: Event)
    ensures Reports(es + [e]) == Reports(es) + if e.ModelCallEnded? then [Report(e.prompt, e.completion, e.total)] else []
  {
    assert (es + [e])[..|es|] == es;
  }

  lemma {:induction false} ClosingReportsNothing(a: Attempt)
    ensures Reports(CloseText(a).events) == Reports(a.events) && Reports(CloseThinking(a).events) == Reports(a.events)
    ensures CloseText(a).usage == a.usage && CloseThinking(a).usage == a.usage
  {
    hide Reports;
    if a.textOpen.Some? { ReportsSnoc(a.events, TextEnded(a.textOpen.value)); }
    if a.thinkingOpen.Some? { ReportsSnoc(a.events, ThinkingEnded(a.thinkingOpen.value)); }
  }

  lemma {:induction false} DeltaReportsNothing(a: Attempt, text: string)
    ensures Reports(OnTextDelta(a, text).events) == Reports(a.events) && Reports(OnReasoningDelta(a, text).events) == Reports(a.events)
  {
    hide Reports;
    ReportsSnoc(a.events, TextStarted(a.nextId));
    ReportsSnoc(a.events, ThinkingStarted(a.nextId));
    var t := if a.textOpen.Some? then a.events else a.events + [TextStarted(a.nextId)];
    ReportsSnoc(t, TextGrown(if a.textOpen.Some? then a.textOpen.value else a.nextId, text));
    var k := if a.thinkingOpen.Some? then a.events else a.events + [ThinkingStarted(a.nextId)];
    ReportsSnoc(k, ThinkingGrown(if a.thinkingOpen.Some? then a.thinkingOpen.value else a.nextId, text));
  }

  lemma {:induction false} ToolReportsNothing(read: Reader, a: Attempt, id: string, name: string, delta: string, w: WireBlock)
    ensures Reports(OnToolDelta(a, id, name, delta).events) == Reports(a.events) && Reports(OnToolEnd(read, a, w).events) == Reports(a.events)
  {
    hide Reports, ParsedInput;
    ReportsSnoc(a.events, CallStarted(id, name));
    ReportsSnoc(Announced(a, id, name).events, CallGrown(id, delta));
    ReportsSnoc(a.events, CallStarted(w.id, w.name));
    ReportsSnoc(Announced(a, w.id, w.name).events, CallEnded(w.id, w.arguments));
  }

  lemma {:induction false} FinishReports(a: Attempt, kind: FinishKind)
    ensures Reports(OnFinish(a, kind).events) == Reports(a.events) + ReportOf(a.usage)
  {
    hide Reports, CloseText, CloseThinking;
    var marked := a.(kind := Some(kind));
    ClosingReportsNothing(marked);
    ClosingReportsNothing(CloseText(marked));
    var b := CloseThinking(CloseText(marked));
    assert Reports(b.events) + [] == Reports(b.events);
    if CompleteUsage(a.usage) {
      var u := a.usage.value;
      ReportsSnoc(b.events, ModelCallEnded(u.prompt.value, u.completion.value, u.total.value));
    }
  }

  lemma {:induction false} TakenReports(read: Reader, a: Attempt, c: Chunk)
    ensures var b := OnTaken(read, a, c);
      && Reports(b.events) == Reports(a.events) + (if EndsWell([c]) then ReportOf(a.usage) else [])
      && b.usage == (if c.UsageChunk? then Some(c.usage) else a.usage)
  {
    hide Reports, OnTextDelta, OnReasoningDelta, OnToolDelta, OnToolEnd, OnFinish, CloseText, CloseThinking;
    assert Reports(a.events) + [] == Reports(a.events);
    UsageKept(read, a, c);
    match c
    case TextDelta(_, text) => DeltaReportsNothing(a, text);
    case ReasoningDelta(_, text) => DeltaReportsNothing(a, text);
    case ToolCallDelta(_, id, name, delta) => ToolReportsNothing(read, a, id, name, delta, TextBlockWire(""));
    case BlockEnd(_, w) =>
      ToolReportsNothing(read, a, "", "", "", w);
      ClosingReportsNothing(a);
    case Finish(r) => FinishReports(a, r.kind);
    case _ =>
  }

  lemma UsageKept(read: Reader, a: Attempt, c: Chunk)
    ensures OnTaken(read, a, c).usage == (if c.UsageChunk? then Some(c.usage) else a.usage)
  {
  }

  lemma {:induction false} ConsumeReports(read: Reader, nextId: nat, cs: seq<Chunk>)
    ensures var a := Consume(read, NewAttempt(nextId), cs).0; var part := ReadPart(cs);
      a.usage == LastUsage(part) && Reports(a.events) == UsageTold(part)
  {
    hide OnTaken, Feed, HasTaken, Reports;
    if cs == [] {
      NothingReported(nextId);
    } else {
      var init, c := cs[..|cs| - 1], cs[|cs| - 1];
      ConsumeReports(read, nextId, init);
      ReadsPart(read, nextId, init);
      var (b, error) := Consume(read, NewAttempt(nextId), init);
      if FeedAll(init).Ok? {
        TakenIsFed(read, b, init);
        if EndsFailing(init) {
          FailedTakesNoMore(read, b, init, c);
        } else if Feed(b.asm, c).Ok? {
          TakenReports(read, b.(asm := Feed(b.asm, c).value), c);
          if EndsWell(init) { FinishedTakesNoMore(read, b, init, c); }
          assert ReportOf(LastUsage(init)) == ReportOf(LastUsage(init)) + [];
        }
      }
    }
  }

  lemma NothingReported(nextId: nat)
    ensures Reports(NewAttempt(nextId).events) == []
  {
    assert [ModelCallStarted][..0] == [];
  }

  lemma FinishedTakesNoMore(read: Reader, a: Attempt, cs: seq<Chunk>, c: Chunk)
    requires HasTaken(read, a, cs) && EndsWell(cs)
    ensures Feed(a.asm, c).Err?
  {
  }

  /**
   * For every stream, however the attempt ends: one usage report is sent if the part that is read ends
   * with a finish that is no failure and the last usage before it has all three numbers, and it carries
   * these numbers; otherwise none is sent.
   */
  lemma {:induction false} UsageIsReported(read: Reader, nextId: nat, input: AttemptInput)
    ensures Reports(RunAttempt(read, nextId, input).events) == UsageTold(ReadPart(input.chunks))
  {
    hide Consume, FailureAfter, Spoken, CloseText, CloseThinking, CallBlocksOf, Reports, ReadPart, UsageTold;
    ConsumeReports(read, nextId, input.chunks);
    var a := Consume(read, NewAttempt(nextId), input.chunks).0;
    ClosingReportsNothing(a);
    ClosingReportsNothing(CloseText(a));
  }

  // ---------------------------------------------------------------------------
  // From the provider to the chunks
  // ---------------------------------------------------------------------------

  /** The usage the provider sent last. */
  function UsageSent(pcs: seq<CompletionsAdapter.ProviderChunk>): Option<Usage>
  {
    if pcs == [] then None
    else if pcs[|pcs| - 1].usage.Some? then pcs[|pcs| - 1].usage else UsageSent(pcs[..|pcs| - 1])
  }

  lemma {:induction false} ToolsKeepUsage(s: CompletionsAdapter.Stage, ds: seq<CompletionsAdapter.ToolDelta>)
    ensures CompletionsAdapter.OnToolDeltas(s, ds).usage == s.usage
  {
    if ds != [] { ToolsKeepUsage(s, ds[..|ds| - 1]); }
  }

  lemma {:induction false} MeteredIsSent(pcs: seq<CompletionsAdapter.ProviderChunk>)
    ensures CompletionsAdapter.Consumed(pcs).usage == UsageSent(pcs)
  {
    hide CompletionsAdapter.OnToolDeltas;
    if pcs != [] {
      var init, pc := pcs[..|pcs| - 1], pcs[|pcs| - 1];
      MeteredIsSent(init);
      var s := CompletionsAdapter.Consumed(init);
      var metered := if pc.usage.Some? then s.(usage := pc.usage) else s;
      if pc.choice.Some? {
        ToolsKeepUsage(CompletionsAdapter.OnText(CompletionsAdapter.OnReasoning(metered, pc.choice.value.reasoning), pc.choice.value.content),
                       pc.choice.value.toolDeltas);
      }
    }
  }

  ghost predicate NoUsage(cs: seq<Chunk>) { forall i :: 0 <= i < |cs| ==> !cs[i].UsageChunk? }

  lemma {:induction false} NoUsageTold(cs: seq<Chunk>)
    requires NoUsage(cs)
    ensures LastUsage(cs) == None
  {
    if cs != [] { NoUsageTold(cs[..|cs| - 1]); }
  }

  lemma {:induction false} ToolEndsNoUsage(s: CompletionsAdapter.Stage, wires: seq<int>)
    ensures NoUsage(CompletionsAdapter.ToolEnds(s, wires).0)
  {
    if wires != [] { ToolEndsNoUsage(s, wires[1..]); }
  }

  lemma {:induction false} BeforeUsage(pcs: seq<CompletionsAdapter.ProviderChunk>)
    ensures var s := CompletionsAdapter.Consumed(pcs);
      NoUsage(s.out) && NoUsage(s.out + CompletionsAdapter.ContentEnds(s) + CompletionsAdapter.ToolEnds(s, CompletionsAdapter.Sorted(s.items.Keys)).0)
  {
    hide CompletionsAdapter.Consumed, CompletionsAdapter.ToolEnds, CompletionsAdapter.Sorted;
    CompletionsProjection.ConsumedBody(pcs);
    var s := CompletionsAdapter.Consumed(pcs);
    forall i | 0 <= i < |s.out|
      ensures !s.out[i].UsageChunk?
    {
      assert CompletionsProjection.BodyChunk(s.out[i]);
    }
    ToolEndsNoUsage(s, CompletionsAdapter.Sorted(s.items.Keys));
  }

  lemma {:induction false} UsageBeforeLast(cs: seq<Chunk>, usage: Option<Usage>, last: Chunk)
    requires NoUsage(cs) && last.Finish?
    ensures LastUsage(cs + (if usage.Some? then [UsageChunk(usage.value)] else []) + [last]) == usage
  {
    var told := if usage.Some? then [UsageChunk(usage.value)] else [];
    assert (cs + told + [last])[..|cs + told|] == cs + told;
    if usage.Some? { assert (cs + told)[..|cs|] == cs; } else { assert cs + [] == cs; }
    NoUsageTold(cs);
  }

  /** The provider's call fails in transit, a tail lookup fails, or an unknown reason comes with nothing else. */
  ghost function ProvidedFailure(pcs: seq<CompletionsAdapter.ProviderChunk>, ending: CompletionsAdapter.Ending): Option<LLMError>
  {
    match ending
    case Failed(error) => Some(error)
    case _ =>
      if exists w :: Breaks(Tools(pcs), w) then Some(LLMError("missing tool block", "unknown"))
      else if LastReason(pcs) !in {"stop", "tool_calls", "length"} && !SomethingSent(pcs) then
        Some(LLMError("model stopped: " + LastReason(pcs), LastReason(pcs)))
      else None
  }

  /** What the last chunk of a turn says. */
  lemma {:induction false} LastChunkSays(pcs: seq<CompletionsAdapter.ProviderChunk>, ending: CompletionsAdapter.Ending)
    ensures var last, failure := LastChunk(pcs, ending), ProvidedFailure(pcs, ending);
      && last.Finish? && last.reason.failure == failure && last.reason.kind != FinishKind.Aborted
      && (last.reason.kind == FinishKind.Error <==> failure.Some?)
    ensures var out := CompletionsAdapter.StreamOutput(pcs, ending);
      && out != [] && out[|out| - 1] == LastChunk(pcs, ending)
      && (ProvidedFailure(pcs, ending) == None ==> LastUsage(out) == UsageSent(pcs))
  {
    hide CompletionsAdapter.Consumed, CompletionsAdapter.ToolEnds, CompletionsAdapter.Sorted, CompletionsAdapter.ContentEnds, Tools, SomethingSent, LastReason,
      Breaks, LastUsage, UsageSent, Raises;
    var s := CompletionsAdapter.Consumed(pcs);
    if !ending.Failed? {
      OutputShape(pcs, ending);
      StartedExactly(pcs);
      RaisedExactly(s, s.items.Keys);
      RaisesIff(s, pcs);
      FinishAsSent(pcs);
      ReasonIsLast(pcs);
      MeteredIsSent(pcs);
      BeforeUsage(pcs);
      var ends := CompletionsAdapter.ToolEnds(s, CompletionsAdapter.Sorted(s.items.Keys)).0;
      UsageBeforeLast(s.out + CompletionsAdapter.ContentEnds(s) + ends, s.usage, LastChunk(pcs, ending));
    }
  }

  lemma {:induction false} RaisesIff(s: CompletionsAdapter.Stage, pcs: seq<CompletionsAdapter.ProviderChunk>)
    requires s == CompletionsAdapter.Consumed(pcs)
    requires forall w :: Raises(s, w) <==> Breaks(Tools(pcs), w)
    requires forall w :: Started(Tools(pcs), w) || Breaks(Tools(pcs), w) ==> w in s.items
    ensures (exists w :: w in s.items.Keys && Raises(s, w)) <==> exists w :: Breaks(Tools(pcs), w)
  {
    hide CompletionsAdapter.Consumed, Tools, Raises, Breaks, Started;
    if w :| Breaks(Tools(pcs), w) { assert w in s.items.Keys && Raises(s, w); }
    if w :| w in s.items.Keys && Raises(s, w) { assert Breaks(Tools(pcs), w); }
  }

  /**
   * Whatever the provider sends and however its stream stops: behind the completions adapter the usage
   * it sent last is reported, if it is complete and the turn does not fail.
   */
  lemma {:induction false} ProviderUsageIsReported(read: Reader, nextId: nat, input: AttemptInput,
                                                   pcs: seq<CompletionsAdapter.ProviderChunk>, ending: CompletionsAdapter.Ending)
    requires input.chunks == CompletionsAdapter.StreamOutput(pcs, ending)
    ensures Reports(RunAttempt(read, nextId, input).events) == if ProvidedFailure(pcs, ending) == None then ReportOf(UsageSent(pcs)) else []
  {
    hide RunAttempt, Reports, CompletionsAdapter.StreamOutput, ProvidedFailure, LastChunk, LastUsage, ReportOf, FeedAll;
    UsageIsReported(read, nextId, input);
    TakenWhole(pcs, ending);
    LastChunkSays(pcs, ending);
  }

  /** The error a provider's turn ends with is the error the attempt fails with. */
  lemma {:induction false} ProviderFailureIsKept(read: Reader, nextId: nat, input: AttemptInput,
                                                 pcs: seq<CompletionsAdapter.ProviderChunk>, ending: CompletionsAdapter.Ending)
    requires input.chunks == CompletionsAdapter.StreamOutput(pcs, ending) && ProvidedFailure(pcs, ending).Some?
    ensures RunAttempt(read, nextId, input).end == FailedWith(ProvidedFailure(pcs, ending).value)
  {
    hide RunAttempt, CompletionsAdapter.StreamOutput, ProvidedFailure, LastChunk, LastUsage, FeedAll;
    Retries.EndsAsStreamed(read, nextId, input);
    TakenWhole(pcs, ending);
    LastChunkSays(pcs, ending);
  }
}
