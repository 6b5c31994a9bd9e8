/**
 * How a turn behind the Responses adapter ends: which finish its events call for, which usage is
 * reported, and with which error the attempt fails.
 */
module ResponsesReporting {
  import opened Prelude
  import opened StreamChunks
  import opened BlockAssembly
  import opened Events
  import opened Reasoning
  import opened Forwarding
  import opened ResponsesAdapter
  import opened Reporting
  import ResponsesContract
  import ResponsesForwarding
  import Retries

  // ---------------------------------------------------------------------------
  // The finish
  // ---------------------------------------------------------------------------

  /** The call id the item was last announced with. */
  function AnnouncedId(es: seq<ResponseEvent>, item: string): string
  {
    if es == [] then ""
    else
      var e := es[|es| - 1];
      if e.ItemAddedEvent? && e.isFunction && e.item == item then e.callId else AnnouncedId(es[..|es| - 1], item)
  }

  /** At `k` a call with an id is done: its own, or the one it was announced with. */
  predicate CallDoneAt(es: seq<ResponseEvent>, k: int)
  {
    && 0 <= k < |es| && es[k].ItemDoneEvent? && es[k].isFunction
    && (es[k].callId != "" || AnnouncedId(es[..k], es[k].item) != "")
  }

  predicate IncompleteAt(es: seq<ResponseEvent>, k: int) { 0 <= k < |es| && es[k].CompletedEvent? && es[k].incomplete }

  predicate CompleteAt(es: seq<ResponseEvent>, k: int) { 0 <= k < |es| && es[k].CompletedEvent? && es[k].completed && !es[k].incomplete }

  /** Cut off: the response was incomplete, and was not complete after that. */
  ghost predicate CutOff(es: seq<ResponseEvent>)
  {
    exists k :: IncompleteAt(es, k) && forall j :: k < j ==> !CompleteAt(es, j)
  }

  /** Calls decide: one was done before the response was complete, and it was never incomplete. */
  ghost predicate CallsDecide(es: seq<ResponseEvent>)
  {
    (forall j :: !IncompleteAt(es, j)) && exists k :: CallDoneAt(es, k) && forall j :: j < k ==> !CompleteAt(es, j)
  }

  ghost predicate SomethingDecides(es: seq<ResponseEvent>)
  {
    exists k :: IncompleteAt(es, k) || CompleteAt(es, k) || CallDoneAt(es, k)
  }

  /** The kind of finish the events call for, if they call for any. */
  ghost function FinishCalled(es: seq<ResponseEvent>): Option<FinishKind>
  {
    if CutOff(es) then Some(MaxTokens)
    else if CallsDecide(es) then Some(FinishKind.ToolCalls)
    else if SomethingDecides(es) then Some(Stop)
    else None
  }

  lemma {:induction false} DoneStays(es: seq<ResponseEvent>, e: ResponseEvent, k: int)
    requires k < |es|
    ensures CallDoneAt(es + [e], k) <==> CallDoneAt(es, k)
    ensures IncompleteAt(es + [e], k) <==> IncompleteAt(es, k)
    ensures CompleteAt(es + [e], k) <==> CompleteAt(es, k)
  {
    hide AnnouncedId;
    if 0 <= k { assert (es + [e])[..k] == es[..k]; }
  }

  lemma {:induction false} CutOffSnoc(es: seq<ResponseEvent>, e: ResponseEvent)
    ensures var n := |es|; CutOff(es + [e]) <==> IncompleteAt(es + [e], n) || (CutOff(es) && !CompleteAt(es + [e], n))
  {
    hide CallDoneAt;
    var all := es + [e];
    forall k | k < |es|
      ensures IncompleteAt(all, k) <==> IncompleteAt(es, k)
      ensures CompleteAt(all, k) <==> CompleteAt(es, k)
    {
      DoneStays(es, e, k);
    }
    if CutOff(all) {
      var k :| IncompleteAt(all, k) && forall j :: k < j ==> !CompleteAt(all, j);
      if k < |es| {
        assert IncompleteAt(es, k) && forall j :: k < j ==> !CompleteAt(es, j);
      }
    }
    if IncompleteAt(all, |es|) {
      assert forall j :: |es| < j ==> !CompleteAt(all, j);
    }
    if CutOff(es) && !CompleteAt(all, |es|) {
      var k :| IncompleteAt(es, k) && forall j :: k < j ==> !CompleteAt(es, j);
      assert IncompleteAt(all, k) && forall j :: k < j ==> !CompleteAt(all, j);
    }
  }

  ghost predicate NeverIncomplete(es: seq<ResponseEvent>) { forall j :: !IncompleteAt(es, j) }

  ghost predicate NeverComplete(es: seq<ResponseEvent>) { forall j :: !CompleteAt(es, j) }

  lemma {:induction false} NeverSnoc(es: seq<ResponseEvent>, e: ResponseEvent)
    ensures NeverIncomplete(es + [e]) <==> NeverIncomplete(es) && !IncompleteAt(es + [e], |es|)
    ensures NeverComplete(es + [e]) <==> NeverComplete(es) && !CompleteAt(es + [e], |es|)
    ensures SomethingDecides(es + [e]) <==>
      SomethingDecides(es) || IncompleteAt(es + [e], |es|) || CompleteAt(es + [e], |es|) || CallDoneAt(es + [e], |es|)
  {
    hide CallDoneAt, IncompleteAt, CompleteAt;
    var all := es + [e];
    forall k | k < |es|
      ensures IncompleteAt(all, k) <==> IncompleteAt(es, k)
      ensures CompleteAt(all, k) <==> CompleteAt(es, k)
      ensures CallDoneAt(all, k) <==> CallDoneAt(es, k)
    {
      DoneStays(es, e, k);
    }
    forall k | k > |es|
      ensures !IncompleteAt(all, k) && !CompleteAt(all, k) && !CallDoneAt(all, k)
    {
      BeyondEnd(all, k);
    }
    forall k | k >= |es|
      ensures !IncompleteAt(es, k) && !CompleteAt(es, k) && !CallDoneAt(es, k)
    {
      BeyondEnd(es, k);
    }
    if SomethingDecides(es) {
      var k :| IncompleteAt(es, k) || CompleteAt(es, k) || CallDoneAt(es, k);
      assert IncompleteAt(all, k) || CompleteAt(all, k) || CallDoneAt(all, k);
    }
    if SomethingDecides(all) {
      var k :| IncompleteAt(all, k) || CompleteAt(all, k) || CallDoneAt(all, k);
      assert k < |es| ==> IncompleteAt(es, k) || CompleteAt(es, k) || CallDoneAt(es, k);
    }
  }

  lemma BeyondEnd(es: seq<ResponseEvent>, k: int)
    requires k >= |es|
    ensures !IncompleteAt(es, k) && !CompleteAt(es, k) && !CallDoneAt(es, k)
  {
  }

  ghost predicate DoneFirst(es: seq<ResponseEvent>) { exists k :: CallDoneAt(es, k) && forall j :: j < k ==> !CompleteAt(es, j) }

  lemma {:induction false} DoneFirstSnoc(es: seq<ResponseEvent>, e: ResponseEvent)
    ensures DoneFirst(es + [e]) <==> DoneFirst(es) || (CallDoneAt(es + [e], |es|) && NeverComplete(es))
  {
    hide CallDoneAt, CompleteAt, IncompleteAt;
    var all := es + [e];
    forall k | k < |es|
      ensures CompleteAt(all, k) <==> CompleteAt(es, k)
      ensures CallDoneAt(all, k) <==> CallDoneAt(es, k)
    {
      DoneStays(es, e, k);
    }
    forall k | k >= |es|
      ensures !CompleteAt(es, k) && !CallDoneAt(es, k) && (k > |es| ==> !CallDoneAt(all, k))
    {
      BeyondEnd(es, k);
      if k > |es| { BeyondEnd(all, k); }
    }
    if DoneFirst(all) {
      var k :| CallDoneAt(all, k) && forall j :: j < k ==> !CompleteAt(all, j);
      if k < |es| {
        assert CallDoneAt(es, k) && forall j :: j < k ==> !CompleteAt(es, j);
      } else {
        assert forall j :: j < |es| ==> !CompleteAt(all, j);
      }
    }
    if DoneFirst(es) {
      var k :| CallDoneAt(es, k) && forall j :: j < k ==> !CompleteAt(es, j);
      assert k < |es|;
      assert CallDoneAt(all, k) && forall j :: j < k ==> !CompleteAt(all, j);
    }
    if CallDoneAt(all, |es|) && NeverComplete(es) {
      assert forall j :: j < |es| ==> !CompleteAt(all, j);
    }
  }

  function KnownId(s: Stage, item: string): string { if item in s.items then s.items[item].callId else "" }

  lemma {:induction false} EventKeepsIds(s: Stage, e: ResponseEvent, item: string)
    requires !OnEvent(s, e).raised
    ensures KnownId(OnEvent(s, e), item) == if !s.raised && e.ItemAddedEvent? && e.isFunction && e.item == item then e.callId else KnownId(s, item)
  {
  }

  /** The adapter knows each item by the id it was last announced with. */
  lemma {:induction false} ItemsAnnounced(es: seq<ResponseEvent>, item: string)
    requires !Consumed(es).raised
    ensures KnownId(Consumed(es), item) == AnnouncedId(es, item)
  {
    hide OnEvent, KnownId;
    if es == [] {
      NothingAnnounced(item);
    } else {
      var init, e := es[..|es| - 1], es[|es| - 1];
      RaisedStays(Consumed(init), e);
      ItemsAnnounced(init, item);
      EventKeepsIds(Consumed(init), e, item);
    }
  }

  lemma NothingAnnounced(item: string)
    ensures KnownId(START, item) == ""
  {
  }

  /** How the event at `k` changes the finish. */
  ghost function NextFinish(before: Option<FinishKind>, es: seq<ResponseEvent>, k: int): Option<FinishKind>
  {
    if IncompleteAt(es, k) then Some(MaxTokens)
    else if CompleteAt(es, k) then (if before == Some(FinishKind.ToolCalls) then before else Some(Stop))
    else if CallDoneAt(es, k) && before == None then Some(FinishKind.ToolCalls)
    else before
  }

  lemma {:induction false} FinishStep(s: Stage, es: seq<ResponseEvent>, e: ResponseEvent)
    requires !OnEvent(s, e).raised && forall item :: KnownId(s, item) == AnnouncedId(es, item)
    ensures OnEvent(s, e).finishKind == NextFinish(s.finishKind, es + [e], |es|)
  {
    hide AnnouncedId;
    assert (es + [e])[..|es|] == es;
    match e
    case ItemDoneEvent(id, isFunction, callId, name, arguments) =>
      assert KnownId(s, id) == AnnouncedId(es, id);
    case _ =>
  }

  lemma {:induction false} FinishIsCalled(es: seq<ResponseEvent>)
    requires !Consumed(es).raised
    ensures Consumed(es).finishKind == FinishCalled(es)
  {
    hide OnEvent, CutOff, SomethingDecides, IncompleteAt, CompleteAt, CallDoneAt, AnnouncedId, KnownId;
    if es == [] {
      NothingCalled();
    } else {
      var init, e := es[..|es| - 1], es[|es| - 1];
      assert es == init + [e];
      RaisedStays(Consumed(init), e);
      FinishIsCalled(init);
      forall item
        ensures KnownId(Consumed(init), item) == AnnouncedId(init, item)
      {
        ItemsAnnounced(init, item);
      }
      FinishStep(Consumed(init), init, e);
      CalledSnoc(init, e);
    }
  }

  lemma RaisedStays(s: Stage, e: ResponseEvent)
    ensures s.raised ==> OnEvent(s, e).raised
  {
  }

  lemma {:induction false} NothingCalled()
    ensures FinishCalled([]) == None
  {
  }

  /** How one more event changes the finish that is called for. */
  lemma {:induction false} CalledSnoc(es: seq<ResponseEvent>, e: ResponseEvent)
    ensures FinishCalled(es + [e]) == NextFinish(FinishCalled(es), es + [e], |es|)
  {
    hide IncompleteAt, CompleteAt, CallDoneAt, AnnouncedId, CutOff, SomethingDecides;
    CutOffSnoc(es, e);
    NeverSnoc(es, e);
    DoneFirstSnoc(es, e);
    DecideIs(es);
    DecideIs(es + [e]);
    NotBoth(es + [e], |es|);
  }

  lemma NotBoth(es: seq<ResponseEvent>, k: int)
    ensures !(IncompleteAt(es, k) && CompleteAt(es, k)) && !(IncompleteAt(es, k) && CallDoneAt(es, k)) && !(CompleteAt(es, k) && CallDoneAt(es, k))
  {
  }

  /** The parts of the decision. */
  lemma {:induction false} DecideIs(es: seq<ResponseEvent>)
    ensures CallsDecide(es) <==> NeverIncomplete(es) && DoneFirst(es)
    ensures CutOff(es) ==> !NeverIncomplete(es)
    ensures !NeverIncomplete(es) && !CutOff(es) ==> !NeverComplete(es)
    ensures SomethingDecides(es) <==> !NeverIncomplete(es) || !NeverComplete(es) || SomeDone(es)
    ensures NeverComplete(es) && SomeDone(es) ==> DoneFirst(es)
    ensures DoneFirst(es) ==> SomeDone(es)
  {
    hide IncompleteAt, CompleteAt, CallDoneAt;
  }

  ghost predicate SomeDone(es: seq<ResponseEvent>) { exists k :: CallDoneAt(es, k) }

  // ---------------------------------------------------------------------------
  // Usage and failure
  // ---------------------------------------------------------------------------

  /** The usage of the last event that says how the response came out. */
  function UsageGiven(es: seq<ResponseEvent>): Option<Usage>
  {
    if es == [] then None
    else if es[|es| - 1].CompletedEvent? then es[|es| - 1].usage else UsageGiven(es[..|es| - 1])
  }

  lemma {:induction false} UsageIsGiven(es: seq<ResponseEvent>)
    requires !Consumed(es).raised
    ensures Consumed(es).usage == UsageGiven(es)
  {
    if es != [] {
      var init, e := es[..|es| - 1], es[|es| - 1];
      assert !Consumed(init).raised;
      UsageIsGiven(init);
      hide Consumed;
    }
  }

  lemma {:induction false} BegunNoUsage(s: Stage, id: string, kind: ItemKind)
    requires NoUsage(s.out)
    ensures NoUsage(Begun(Known(s, id, kind), id, kind).out)
  {
  }

  lemma {:induction false} EventNoUsage(s: Stage, e: ResponseEvent)
    requires NoUsage(s.out)
    ensures NoUsage(OnEvent(s, e).out)
  {
    hide Begun, Known;
    match e
    case TextDeltaEvent(id, _) => BegunNoUsage(s, id, TextItem);
    case ReasoningDeltaEvent(id, _) => BegunNoUsage(s, id, ReasoningItem);
    case ArgumentsDeltaEvent(id, _) => BegunNoUsage(s, id, ToolItem);
    case ItemAddedEvent(id, _, _, _) => KnownNoUsage(s, id);
    case ItemDoneEvent(id, _, _, _, _) => BegunNoUsage(s, id, ToolItem);
    case _ =>
  }

  lemma KnownNoUsage(s: Stage, id: string)
    ensures Known(s, id, ToolItem).out == s.out
  {
  }

  lemma {:induction false} EventsNoUsage(es: seq<ResponseEvent>)
    ensures NoUsage(Consumed(es).out)
  {
    hide OnEvent;
    if es != [] {
      EventsNoUsage(es[..|es| - 1]);
      EventNoUsage(Consumed(es[..|es| - 1]), es[|es| - 1]);
    }
  }

  lemma {:induction false} TailNoUsage(items: map<string, Item>, order: seq<string>)
    ensures NoUsage(TailEnds(items, order))
  {
    if order != [] { TailNoUsage(items, order[..|order| - 1]); }
  }

  /** Text came for a call, the stream broke, or nothing in it says how it ended. */
  ghost function GivenFailure(es: seq<ResponseEvent>, ending: Ending): Option<LLMError>
  {
    if ResponsesContract.Told(es).raised then Some(LLMError("missing item text", "unknown"))
    else match ending
         case Failed(error) => Some(error)
         case Ended => if FinishCalled(es) == None then Some(LLMError("responses stream ended with status 'unknown'", "UNKNOWN_FINISH")) else None
  }

  /** What the last chunk of a turn says. */
  lemma {:induction false} LastChunkSays(es: seq<ResponseEvent>, ending: Ending)
    requires !ResponsesContract.Told(es).spoilt
    ensures var out, failure := StreamOutput(es, ending), GivenFailure(es, ending);
      && out != [] && out[|out| - 1].Finish?
      && (failure.Some? ==> out[|out| - 1].reason.kind == FinishKind.Error && out[|out| - 1].reason.failure == failure)
      && (failure == None ==> out[|out| - 1].reason.failure == None && Some(out[|out| - 1].reason.kind) == FinishCalled(es))
      && (failure == None ==> LastUsage(out) == UsageGiven(es))
  {
    hide Consumed, TailEnds, FinishCalled, ResponsesContract.Told, LastUsage, UsageGiven;
    var s := Consumed(es);
    RaisedAsTold(es);
    if !s.raised && !ending.Failed? {
      FinishIsCalled(es);
      UsageIsGiven(es);
      EventsNoUsage(es);
      TailNoUsage(s.items, s.order);
      UsageBeforeLast(s.out + TailEnds(s.items, s.order), s.usage, ClosingFinish(s));
    }
  }

  lemma {:induction false} RaisedAsTold(es: seq<ResponseEvent>)
    requires !ResponsesContract.Told(es).spoilt
    ensures Consumed(es).raised == ResponsesContract.Told(es).raised
  {
    hide Consumed, ResponsesContract.Told, ResponsesContract.AllInStep, ResponsesContract.Owned, FeedAll;
    var p, owner := ResponsesContract.ConsumedAfter(es);
  }

  /** A turn that is read whole reports the usage its last word on completion carries, if it is complete and the turn does not fail. */
  lemma {:induction false} ResponsesUsageIsReported(read: Reader, nextId: nat, input: AttemptInput, es: seq<ResponseEvent>, ending: Ending)
    requires input.chunks == StreamOutput(es, ending) && !ResponsesContract.Told(es).spoilt
    ensures Reports(RunAttempt(read, nextId, input).events) == if GivenFailure(es, ending) == None then ReportOf(UsageGiven(es)) else []
  {
    hide RunAttempt, Reports, StreamOutput, GivenFailure, LastUsage, ReportOf, FeedAll, ResponsesContract.Told, FinishCalled;
    UsageIsReported(read, nextId, input);
    ResponsesContract.TakenExactly(es, ending);
    LastChunkSays(es, ending);
    CalledIsNoFailure(es);
  }

  lemma CalledIsNoFailure(es: seq<ResponseEvent>)
    ensures FinishCalled(es).Some? ==> FinishCalled(es).value in {MaxTokens, FinishKind.ToolCalls, Stop}
  {
    hide CutOff, CallsDecide, SomethingDecides;
  }

  /** The failure of the turn is the failure of the attempt. */
  lemma {:induction false} ResponsesFailureIsKept(read: Reader, nextId: nat, input: AttemptInput, es: seq<ResponseEvent>, ending: Ending)
    requires input.chunks == StreamOutput(es, ending) && !ResponsesContract.Told(es).spoilt && GivenFailure(es, ending).Some?
    ensures RunAttempt(read, nextId, input).end == FailedWith(GivenFailure(es, ending).value)
  {
    hide RunAttempt, StreamOutput, GivenFailure, LastUsage, FeedAll, ResponsesContract.Told, FinishCalled;
    Retries.EndsAsStreamed(read, nextId, input);
    ResponsesContract.TakenExactly(es, ending);
    LastChunkSays(es, ending);
  }

  /** A turn that is accepted and does not fail finishes as its events call for. */
  lemma {:induction false} ResponsesFinishAsCalled(es: seq<ResponseEvent>, ending: Ending)
    requires !ResponsesContract.Told(es).spoilt && GivenFailure(es, ending) == None
    ensures var out := StreamOutput(es, ending); out != [] && out[|out| - 1].Finish? && Some(out[|out| - 1].reason.kind) == FinishCalled(es)
  {
    hide StreamOutput, GivenFailure, ResponsesContract.Told, FinishCalled;
    LastChunkSays(es, ending);
  }
}
