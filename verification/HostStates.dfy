/**
 * What a host shows of an agent's calls and results over whole lives: which calls ask, which are finished
 * and with what results, against the inputs and against the context the runner keeps.
 */
module HostStates {
  import opened Prelude
  import opened Messages
  import opened Events
  import opened Context
  import opened Ledger
  import opened Reasoning
  import opened Runner
  import opened Balance
  import opened Safety
  import opened AttemptFold
  import opened Rebuild
  import opened Projection
  import opened Showing
  import Agreement
  import Anchors
  import Confluence
  import Endings
  import Licence
  import Retries

  // ---------------------------------------------------------------------------
  // One message
  // ---------------------------------------------------------------------------

  /**
   * What the events tell of a call against the blocks the runner has written: a written call is finished
   * if the message has a result for it, asks if it was asked about, and is pending otherwise.
   */
  ghost predicate MirrorsCall(es: seq<Event>, bs: seq<Block>, asked: set<string>, id: string)
  {
    && (ResultBegun(es, id) <==> id in ResultIds(bs))
    && (HasCall(bs, id) ==>
          StateTold(es, id) == Some(if id in ResultIds(bs) then CallState.Finished else if id in asked then Asking else Pending))
    && (!HasCall(bs, id) ==>
          StateTold(es, id) == None || StateTold(es, id) == Some(Pending) || (StateTold(es, id) == Some(CallState.Finished) && id in ResultIds(bs)))
  }

  ghost predicate Mirrors(es: seq<Event>, bs: seq<Block>, asked: set<string>)
  {
    ResultsTold(es) == Results(bs) && forall id :: MirrorsCall(es, bs, asked, id)
  }

  /** The same calls and the same results. */
  ghost predicate SameFacts(a: seq<Block>, b: seq<Block>)
  {
    Results(a) == Results(b) && ResultIds(a) == ResultIds(b) && forall id :: HasCall(a, id) <==> HasCall(b, id)
  }

  lemma FactsMirror(es: seq<Event>, a: seq<Block>, b: seq<Block>, asked: set<string>)
    requires Mirrors(es, a, asked) && SameFacts(a, b)
    ensures Mirrors(es, b, asked)
  {
    hide ResultBegun, StateTold, ResultIds, HasCall, Results, ResultsTold;
    forall id
      ensures MirrorsCall(es, b, asked, id)
    {
      assert MirrorsCall(es, a, asked, id);
    }
  }

  lemma NothingMirrors(bs: seq<Block>, asked: set<string>)
    requires Results(bs) == [] && ResultIds(bs) == {} && forall id :: !HasCall(bs, id)
    ensures Mirrors([], bs, asked)
  {
  }

  /** An event that starts no call and speaks of no result and no confirmation. */
  predicate Quietly(e: Event)
  {
    !e.CallStarted? && !e.ConfirmRequired? && !e.ConfirmAnswered? && !e.ResultStarted? && !e.ResultEnded?
  }

  lemma {:induction false} QuietMirrors(es: seq<Event>, bs: seq<Block>, asked: set<string>, e: Event)
    requires Mirrors(es, bs, asked) && Quietly(e)
    ensures Mirrors(es + [e], bs, asked)
  {
    hide ResultBegun, StateTold, ResultIds, HasCall, Results, ResultsTold;
    ToldSnoc(es, e, "");
    forall id
      ensures MirrorsCall(es + [e], bs, asked, id)
    {
      ToldSnoc(es, e, id);
      assert MirrorsCall(es, bs, asked, id);
    }
  }

  lemma {:induction false} ConfirmMirrors(es: seq<Event>, bs: seq<Block>, asked: set<string>, id: string, name: string)
    requires Mirrors(es, bs, asked) && HasCall(bs, id) && id !in ResultIds(bs)
    ensures Mirrors(es + [ConfirmRequired(id, name)], bs, asked + {id})
  {
    hide ResultBegun, StateTold, ResultIds, HasCall, Results, ResultsTold;
    var e := ConfirmRequired(id, name);
    ToldSnoc(es, e, "");
    forall x
      ensures MirrorsCall(es + [e], bs, asked + {id}, x)
    {
      ToldSnoc(es, e, x);
      assert MirrorsCall(es, bs, asked, x);
    }
  }

  lemma {:induction false} EntryIds(bs: seq<Block>, id: string)
    ensures id in ResultIds(bs) <==> exists i :: 0 <= i < |Results(bs)| && Results(bs)[i].id == id
  {
    hide Results, EntryOf;
    if bs == [] {
      NoResults();
      NoCalls();
    } else {
      var init, b := bs[..|bs| - 1], bs[|bs| - 1];
      assert bs == init + [b];
      EntryIds(init, id);
      ResultsSnoc(init, b);
      OneEntry(b);
      if i :| 0 <= i < |Results(init)| && Results(init)[i].id == id { assert Results(bs)[i].id == id; }
      if b.ToolResultBlock? && b.resultId == id { assert Results(bs)[|Results(init)|].id == id; }
      if i :| 0 <= i < |Results(bs)| && Results(bs)[i].id == id { assert i < |Results(init)| ==> Results(init)[i].id == id; }
    }
  }

  lemma OneEntry(b: Block)
    ensures EntryOf(b) == if b.ToolResultBlock? then [Entry(b.resultId, b.resultName, b.resultState)] else []
  {
  }

  /** The events of a new result tell of the call it belongs to and of the result, and of nothing else. */
  lemma {:induction false} ResultTells(es: seq<Event>, id: string, name: string, text: string, state: ResultState, x: string)
    requires forall i :: 0 <= i < |ResultsTold(es)| ==> ResultsTold(es)[i].id != id
    ensures var all := es + ResultEvents(id, name, text, state);
      && (ResultBegun(all, x) <==> ResultBegun(es, x) || x == id)
      && StateTold(all, x) == (if x == id && StateTold(es, x).Some? then Some(CallState.Finished) else StateTold(es, x))
      && ResultsTold(all) == ResultsTold(es) + [Entry(id, name, state)]
  {
    hide ResultBegun, StateTold, ResultsTold, Ended;
    var started, grown, ended := ResultStarted(id, name), ResultGrown(id, text), ResultEnded(id, state);
    ToldSnoc(es, started, x);
    var begun := es + [started];
    ToldSnoc(begun, grown, x);
    var all := begun + (if text == "" then [] else [grown]);
    assert text == "" ==> all == begun;
    ToldSnoc(all, ended, x);
    EndedSnoc(ResultsTold(es), Entry(id, name, Running), id, state);
    assert all + [ended] == es + ResultEvents(id, name, text, state);
  }

  lemma {:induction false} ResultMirrors(es: seq<Event>, bs: seq<Block>, asked: set<string>, b: Block, text: string)
    requires Mirrors(es, bs, asked) && b.ToolResultBlock? && b.resultId !in ResultIds(bs)
    ensures Mirrors(es + ResultEvents(b.resultId, b.resultName, text, b.resultState), bs + [b], asked)
  {
    hide ResultBegun, StateTold, ResultIds, HasCall, Results, ResultsTold, ResultEvents;
    var all := es + ResultEvents(b.resultId, b.resultName, text, b.resultState);
    EntryIds(bs, b.resultId);
    ResultsSnoc(bs, b);
    StatesSnoc(bs, b);
    ResultTells(es, b.resultId, b.resultName, text, b.resultState, "");
    forall x
      ensures MirrorsCall(all, bs + [b], asked, x)
    {
      ResultTells(es, b.resultId, b.resultName, text, b.resultState, x);
      assert MirrorsCall(es, bs, asked, x);
      HasCallIff(bs, x);
      HasCallIff(bs + [b], x);
    }
  }

  // ---------------------------------------------------------------------------
  // Speech
  // ---------------------------------------------------------------------------

  /** Events that speak of no result and no confirmation. */
  ghost predicate Speaks(es: seq<Event>)
  {
    forall i :: 0 <= i < |es| ==> es[i].CallStarted? || Quietly(es[i])
  }

  ghost predicate Announces(es: seq<Event>, id: string)
  {
    exists i :: 0 <= i < |es| && es[i].CallStarted? && es[i].callId == id
  }

  lemma {:induction false} SpeechTells(es: seq<Event>, more: seq<Event>, id: string)
    requires Speaks(more)
    ensures ResultBegun(es + more, id) <==> ResultBegun(es, id)
    ensures StateTold(es + more, id) == if StateTold(es, id) == None && Announces(more, id) then Some(Pending) else StateTold(es, id)
    ensures ResultsTold(es + more) == ResultsTold(es)
  {
    hide ResultBegun, StateTold, ResultsTold;
    if more == [] {
      assert es + more == es;
    } else {
      var init, e := more[..|more| - 1], more[|more| - 1];
      SpeechTells(es, init, id);
      assert es + more == (es + init) + [e];
      ToldSnoc(es + init, e, id);
      if i :| 0 <= i < |init| && init[i].CallStarted? && init[i].callId == id { assert more[i].CallStarted?; }
      if i :| 0 <= i < |more| && more[i].CallStarted? && more[i].callId == id { assert i < |init| ==> init[i].CallStarted?; }
    }
  }

  lemma {:induction false} ToollessResults(bs: seq<Block>)
    requires Toolless(bs)
    ensures Results(bs) == []
  {
    if bs != [] { ToollessResults(bs[..|bs| - 1]); }
  }

  lemma {:induction false} ResultsAppend(a: seq<Block>, b: seq<Block>)
    ensures Results(a + b) == Results(a) + Results(b)
  {
    hide EntryOf;
    if b == [] {
      assert a + b == a;
    } else {
      assert (a + b)[..|a + b| - 1] == a + b[..|b| - 1];
      ResultsAppend(a, b[..|b| - 1]);
    }
  }

  lemma {:induction false} CallsHaveNoResults(calls: seq<Call>)
    ensures Results(CallBlocksOf(calls)) == []
  {
    if calls != [] {
      var c := calls[|calls| - 1];
      CallsHaveNoResults(calls[..|calls| - 1]);
      ResultsSnoc(CallBlocksOf(calls[..|calls| - 1]), ToolCallBlock(c.id, c.name, Arguments(c), Pending));
    }
  }

  /** What a turn writes adds its calls and no results. */
  lemma {:induction false} WroteFacts(live: seq<Block>, blocks: seq<Block>, calls: seq<Call>)
    requires Wrote(blocks, calls) && DistinctIds(calls)
    ensures Results(live + blocks) == Results(live) && ResultIds(live + blocks) == ResultIds(live)
    ensures forall id :: HasCall(live + blocks, id) <==> HasCall(live, id) || id in IdSet(calls)
  {
    hide Toolless, CallBlocksOf, Results, ResultIds, HasCall, States, Opened, IdSet;
    WroteLedger(blocks, calls);
    OpenedIs(calls);
    StatesAppend(live, blocks);
    var speech :| Toolless(speech) && blocks == speech + CallBlocksOf(calls);
    ToollessResults(speech);
    CallsHaveNoResults(calls);
    ResultsAppend(speech, CallBlocksOf(calls));
    ResultsAppend(live, blocks);
    forall id
      ensures HasCall(live + blocks, id) <==> HasCall(live, id) || id in IdSet(calls)
    {
      HasCallIff(live, id);
      HasCallIff(live + blocks, id);
    }
  }

  lemma {:induction false} SpeechMirrors(es: seq<Event>, live: seq<Block>, asked: set<string>, more: seq<Event>, blocks: seq<Block>, calls: seq<Call>)
    requires Mirrors(es, live, asked) && Speaks(more) && Wrote(blocks, calls) && DistinctIds(calls)
    requires forall id :: id in IdSet(calls) ==> Announces(more, id) && id !in asked && id !in ResultIds(live)
    ensures Mirrors(es + more, live + blocks, asked)
  {
    hide ResultBegun, StateTold, ResultsTold, Results, ResultIds, HasCall, IdSet, Speaks, Announces, Wrote, DistinctIds;
    WroteFacts(live, blocks, calls);
    SpeechTells(es, more, "");
    forall id
      ensures MirrorsCall(es + more, live + blocks, asked, id)
    {
      SpeechTells(es, more, id);
      assert MirrorsCall(es, live, asked, id);
    }
  }

  // ---------------------------------------------------------------------------
  // The runner's moves
  // ---------------------------------------------------------------------------

  /** Every message the host has mirrors the one the runner writes. */
  ghost predicate Mirrored(r: Run, asked: set<string>)
  {
    forall id: MsgId :: MessageMirrors(r, asked, id)
  }

  ghost predicate MessageMirrors(r: Run, asked: set<string>, id: MsgId)
  {
    Mirrors(SentTo(r.sent, id), Live(r.context, id), asked)
  }

  /** The current message has the blocks `bs` more, the others are as they were, up to what is no call or result. */
  ghost predicate Gained(r: Run, s: Run, bs: seq<Block>)
  {
    forall id :: SameFacts(if id == r.messageId then Live(r.context, id) + bs else Live(r.context, id), Live(s.context, id))
  }

  lemma {:induction false} Told(r: Run, s: Run, es: seq<Event>, bs: seq<Block>, asked: set<string>, after: set<string>)
    requires Mirrored(r, asked) && s.sent == r.sent + Addressed(r.messageId, es) && Gained(r, s, bs)
    requires Mirrors(SentTo(r.sent, r.messageId) + es, Live(r.context, r.messageId) + bs, after)
    requires forall id, x :: id != r.messageId && (x in after) != (x in asked) ==> !HasCall(Live(r.context, id), x)
    ensures Mirrored(s, after)
  {
    hide Live, SameFacts, SentTo, Addressed, HasCall, Mirrors;
    forall id
      ensures MessageMirrors(s, after, id)
    {
      SentToAppend(r.sent, Addressed(r.messageId, es), id);
      SentToAddressed(r.messageId, es, id);
      if id == r.messageId {
        FactsMirror(SentTo(s.sent, id), Live(r.context, id) + bs, Live(s.context, id), after);
      } else {
        assert SentTo(s.sent, id) == SentTo(r.sent, id);
        assert MessageMirrors(r, asked, id);
        AskedElsewhere(SentTo(r.sent, id), Live(r.context, id), asked, after);
        FactsMirror(SentTo(s.sent, id), Live(r.context, id), Live(s.context, id), after);
      }
    }
  }

  /** Asking about calls that a message does not have makes no difference to it. */
  lemma AskedElsewhere(es: seq<Event>, bs: seq<Block>, asked: set<string>, after: set<string>)
    requires Mirrors(es, bs, asked) && forall x :: (x in after) != (x in asked) ==> !HasCall(bs, x)
    ensures Mirrors(es, bs, after)
  {
    hide ResultBegun, StateTold, ResultsTold, Results, ResultIds, HasCall;
    forall id
      ensures MirrorsCall(es, bs, after, id)
    {
      assert MirrorsCall(es, bs, asked, id);
    }
  }

  lemma SameFactsSelf(bs: seq<Block>)
    ensures SameFacts(bs, bs)
  {
  }

  lemma SameFactsTrans(a: seq<Block>, b: seq<Block>, c: seq<Block>)
    requires SameFacts(a, b) && SameFacts(b, c)
    ensures SameFacts(a, c)
  {
    hide HasCall, Results, ResultIds;
  }

  lemma {:induction false} SameFactsSnoc(a: seq<Block>, b: seq<Block>, last: Block)
    requires SameFacts(a, b)
    ensures SameFacts(a + [last], b + [last])
  {
    hide HasCall, Results, ResultIds, States, EntryOf;
    ResultsSnoc(a, last);
    ResultsSnoc(b, last);
    StatesSnoc(a, last);
    StatesSnoc(b, last);
    forall id
      ensures HasCall(a + [last], id) <==> HasCall(b + [last], id)
    {
      HasCallIff(a, id);
      HasCallIff(b, id);
      HasCallIff(a + [last], id);
      HasCallIff(b + [last], id);
    }
  }

  lemma {:induction false} SetFacts(bs: seq<Block>, call: string, state: CallState)
    ensures SameFacts(bs, WithCallState(bs, call, state))
  {
    hide HasCall, Results, ResultIds, States, WithCallState;
    ResultsSet(bs, call, state);
    SetStates(bs, call, state);
    forall id
      ensures HasCall(bs, id) <==> HasCall(WithCallState(bs, call, state), id)
    {
      HasCallIff(bs, id);
      HasCallIff(WithCallState(bs, call, state), id);
    }
  }

  /** Setting the state of a call changes no message but in that state. */
  lemma {:induction false} SetStateFacts(context: seq<Msg>, call: string, state: CallState, id: MsgId)
    ensures SameFacts(Live(context, id), Live(SetState(context, call, state), id))
  {
    hide FindReply, WithCallState, SameFacts, Owner;
    SetStateAt(context, call, state);
    var i := Owner(context, call);
    SameFactsSelf(Live(context, id));
    if i < |context| {
      FindReplyLike(context, SetState(context, call, state), id);
      SetFacts(context[i].content, call, state);
    }
  }

  lemma {:induction false} MarkGains(r: Run, call: string, state: CallState)
    ensures Gained(r, Mark(r, call, state), [])
  {
    hide Live, SetState, SameFacts;
    forall id
      ensures SameFacts(if id == r.messageId then Live(r.context, id) + [] else Live(r.context, id), Live(Mark(r, call, state).context, id))
    {
      assert Live(r.context, id) + [] == Live(r.context, id);
      SetStateFacts(r.context, call, state, id);
    }
  }

  lemma GainedAlike(r: Run, s: Run, t: Run, bs: seq<Block>)
    requires Gained(r, s, bs) && t.context == s.context
    ensures Gained(r, t, bs)
  {
    hide Live, SameFacts;
  }

  lemma {:induction false} WriteGains(r: Run, s: Run, bs: seq<Block>)
    requires s.context == AppendReply(r.context, r.messageId, bs)
    ensures Gained(r, s, bs)
  {
    hide Live, AppendReply, SameFacts;
    forall id
      ensures SameFacts(if id == r.messageId then Live(r.context, id) + bs else Live(r.context, id), Live(s.context, id))
    {
      LiveAppend(r.context, r.messageId, bs, id);
      SameFactsSelf(Live(s.context, id));
    }
  }

  lemma {:induction false} MarkThenWriteGains(r: Run, s: Run, call: string, state: CallState, b: Block)
    requires s.context == AppendReply(SetState(r.context, call, state), r.messageId, [b])
    ensures Gained(r, s, [b])
  {
    hide Live, AppendReply, SetState, SameFacts;
    var marked := SetState(r.context, call, state);
    forall id
      ensures SameFacts(if id == r.messageId then Live(r.context, id) + [b] else Live(r.context, id), Live(s.context, id))
    {
      SetStateFacts(r.context, call, state, id);
      LiveAppend(marked, r.messageId, [b], id);
      SameFactsSnoc(Live(r.context, id), Live(marked, id), b);
    }
  }

  lemma {:induction false} WriteThenMarkGains(r: Run, s: Run, call: string, state: CallState, b: Block)
    requires s.context == SetState(AppendReply(r.context, r.messageId, [b]), call, state)
    ensures Gained(r, s, [b])
  {
    hide Live, AppendReply, SetState, SameFacts;
    forall id
      ensures SameFacts(if id == r.messageId then Live(r.context, id) + [b] else Live(r.context, id), Live(s.context, id))
    {
      LiveAppend(r.context, r.messageId, [b], id);
      SetStateFacts(AppendReply(r.context, r.messageId, [b]), call, state, id);
    }
  }

  /** A result in the current message is one in the context. */
  lemma {:induction false} LiveAnswered(context: seq<Msg>, id: MsgId, call: string)
    requires call in ResultIds(Live(context, id))
    ensures call in AnsweredIds(context)
  {
    hide FindReply, ResultIds, AllBlocks;
    var i := FindReply(context, id);
    if i < |context| {
      assert context == context[..i] + [context[i]] + context[i + 1..];
      AllBlocksAppend(context[..i] + [context[i]], context[i + 1..]);
      AllBlocksAppend(context[..i], [context[i]]);
      AllBlocksOne(context[i]);
      StatesAppend(AllBlocks(context[..i]) + context[i].content, AllBlocks(context[i + 1..]));
      StatesAppend(AllBlocks(context[..i]), context[i].content);
    } else {
      NoCalls();
    }
  }

  /** An event that tells nothing of calls or results, and blocks that are neither. */
  lemma {:induction false} SilentMirrored(r: Run, s: Run, e: Event, bs: seq<Block>, asked: set<string>)
    requires Mirrored(r, asked) && Quietly(e) && s.sent == r.sent + [Sent(r.messageId, e)] && s.context == AppendReply(r.context, r.messageId, bs)
    requires bs == [] || (|bs| == 1 && bs[0].HintBlock?)
    ensures Mirrored(s, asked)
  {
    hide Live, AppendReply, SameFacts, Mirrors, Results, ResultIds, HasCall, States, SentTo;
    var live := Live(r.context, r.messageId);
    AddressedOne(r.messageId, e);
    WriteGains(r, s, bs);
    assert MessageMirrors(r, asked, r.messageId);
    QuietMirrors(SentTo(r.sent, r.messageId), live, asked, e);
    HintFacts(live, bs);
    FactsMirror(SentTo(r.sent, r.messageId) + [e], live, live + bs, asked);
    Told(r, s, [e], bs, asked, asked);
  }

  lemma {:induction false} HintFacts(live: seq<Block>, bs: seq<Block>)
    requires bs == [] || (|bs| == 1 && bs[0].HintBlock?)
    ensures SameFacts(live, live + bs)
  {
    hide Results, ResultIds, HasCall, States;
    if bs == [] {
      assert live + bs == live;
    } else {
      assert bs == [bs[0]];
      ResultsSnoc(live, bs[0]);
      StatesSnoc(live, bs[0]);
      forall id
        ensures HasCall(live, id) <==> HasCall(live + bs, id)
      {
        HasCallIff(live, id);
        HasCallIff(live + bs, id);
      }
    }
  }

  lemma {:induction false} HintMirrored(r: Run, hint: string, asked: set<string>)
    requires Mirrored(r, asked)
    ensures Mirrored(PutHint(r, hint), asked)
  {
    hide AppendReply, Mirrored;
    SilentMirrored(r, PutHint(r, hint), HintGiven(r.nextId, hint), [HintBlock(r.nextId, hint)], asked);
  }

  lemma {:induction false} HintsMirrored(r: Run, hints: seq<string>, asked: set<string>)
    requires Mirrored(r, asked)
    ensures Mirrored(PutHints(r, hints), asked)
  {
    hide PutHint, Mirrored;
    if hints != [] {
      HintsMirrored(r, hints[..|hints| - 1], asked);
      HintMirrored(PutHints(r, hints[..|hints| - 1]), hints[|hints| - 1], asked);
    }
  }

  lemma {:induction false} EmitMirrored(r: Run, e: Event, asked: set<string>)
    requires Mirrored(r, asked) && Quietly(e)
    ensures Mirrored(Emit(r, e), asked)
  {
    hide AppendReply, Mirrored;
    AppendNothing(r.context, r.messageId);
    SilentMirrored(r, Emit(r, e), e, [], asked);
  }

  /** Only what is sent and what the context holds counts. */
  lemma SameMirrored(r: Run, s: Run, asked: set<string>)
    requires Mirrored(r, asked) && s.sent == r.sent && s.context == r.context
    ensures Mirrored(s, asked)
  {
    hide Mirrors;
    forall id
      ensures MessageMirrors(s, asked, id)
    {
      assert MessageMirrors(r, asked, id);
    }
  }

  lemma {:induction false} FinishMirrored(r: Run, reason: EndReason, asked: set<string>)
    requires Mirrored(r, asked)
    ensures Mirrored(Finish(r, reason), asked)
  {
    hide Mirrored;
    SameMirrored(r, r.(status := Over(reason)), asked);
    EmitMirrored(r.(status := Over(reason)), ReplyEnded(reason), asked);
  }

  lemma {:induction false} MarkMirrored(r: Run, call: string, state: CallState, asked: set<string>)
    requires Mirrored(r, asked)
    ensures Mirrored(Mark(r, call, state), asked)
  {
    hide Mirrors, SetState, Gained, SentTo, Live;
    MarkGains(r, call, state);
    AddressedOne(r.messageId, ReplyStarted);
    assert r.sent + [] == r.sent;
    assert MessageMirrors(r, asked, r.messageId);
    assert SentTo(r.sent, r.messageId) + [] == SentTo(r.sent, r.messageId) && Live(r.context, r.messageId) + [] == Live(r.context, r.messageId);
    Told(r, Mark(r, call, state), [], [], asked, asked);
  }

  /** One result is written and its events are sent, in whatever order the context changes. */
  lemma {:induction false} ResultMirrored(r: Run, s: Run, b: Block, text: string, asked: set<string>)
    requires Mirrored(r, asked) && b.ToolResultBlock? && b.resultId !in AnsweredIds(r.context) && Gained(r, s, [b])
    requires s.sent == r.sent + Addressed(r.messageId, ResultEvents(b.resultId, b.resultName, text, b.resultState))
    ensures Mirrored(s, asked)
  {
    hide Mirrors, Gained, SentTo, Live, AnsweredIds, Addressed, ResultEvents, ResultIds;
    assert MessageMirrors(r, asked, r.messageId);
    if b.resultId in ResultIds(Live(r.context, r.messageId)) { LiveAnswered(r.context, r.messageId, b.resultId); }
    var es := ResultEvents(b.resultId, b.resultName, text, b.resultState);
    ResultMirrors(SentTo(r.sent, r.messageId), Live(r.context, r.messageId), asked, b, text);
    Told(r, s, es, [b], asked, asked);
  }

  lemma {:induction false} PutResultMirrored(r: Run, c: Call, result: ToolResult, asked: set<string>)
    requires Mirrored(r, asked) && c.id !in AnsweredIds(r.context)
    ensures Mirrored(PutResult(r, c, result), asked)
  {
    hide Mirrored, Gained, AnsweredIds, AppendReply, SetState, Addressed, ResultEvents, Placeholder;
    var state := StateFor(result.failed);
    var text := if result.text == "" then Placeholder(c.name) else result.text;
    var b := ToolResultBlock(c.id, c.name, Plain(text), state);
    MarkThenWriteGains(r, PutResult(r, c, result), c.id, CallState.Finished, b);
    if result.text == "" { AddressedEmpty(r.messageId, c.id, c.name, state); } else { AddressedResult(r.messageId, c.id, c.name, result.text, state); }
    ResultMirrored(r, PutResult(r, c, result), b, result.text, asked);
  }

  lemma {:induction false} PutDeniedMirrored(r: Run, c: Call, asked: set<string>)
    requires Mirrored(r, asked) && c.id !in AnsweredIds(r.context)
    ensures Mirrored(PutDenied(r, c), asked)
  {
    hide Mirrored, Gained, AnsweredIds, AppendReply, SetState, Addressed, ResultEvents;
    var text := DeniedText(c.name);
    assert text[0] == '[';
    var b := ToolResultBlock(c.id, c.name, Plain(text), Denied);
    WriteThenMarkGains(r, PutDenied(r, c), c.id, CallState.Finished, b);
    AddressedResult(r.messageId, c.id, c.name, text, Denied);
    ResultMirrored(r, PutDenied(r, c), b, text, asked);
  }

  lemma {:induction false} PutResultsMirrored(r: Run, calls: seq<Call>, results: seq<ToolResult>, asked: set<string>)
    requires Mirrored(r, asked) && UniqueCalls(r.context) && |calls| == |results| && DistinctIds(calls)
    requires forall i :: 0 <= i < |calls| ==> calls[i].id !in AnsweredIds(r.context)
    ensures Mirrored(PutResults(r, calls, results), asked)
  {
    hide Mirrored, PutResult, CallStates, AnsweredIds, UniqueCalls, IdSet;
    if calls != [] {
      var n := |calls| - 1;
      PutResultsMirrored(r, calls[..n], results[..n], asked);
      PutResultsSettle(r, calls[..n], results[..n]);
      InIdSet(calls[..n], calls[n].id);
      PutResultMirrored(PutResults(r, calls[..n], results[..n]), calls[n], results[n], asked);
    }
  }

  lemma {:induction false} PutAllDeniedMirrored(r: Run, calls: seq<Call>, asked: set<string>)
    requires Mirrored(r, asked) && UniqueCalls(r.context) && DistinctIds(calls)
    requires forall i :: 0 <= i < |calls| ==> calls[i].id !in AnsweredIds(r.context)
    ensures Mirrored(PutAllDenied(r, calls), asked)
  {
    hide Mirrored, PutDenied, CallStates, AnsweredIds, UniqueCalls, IdSet;
    if calls != [] {
      var n := |calls| - 1;
      PutAllDeniedMirrored(r, calls[..n], asked);
      PutAllDeniedSettles(r, calls[..n]);
      InIdSet(calls[..n], calls[n].id);
      PutDeniedMirrored(PutAllDenied(r, calls[..n]), calls[n], asked);
    }
  }

  lemma {:induction false} ExecuteMirrored(r: Run, calls: seq<Call>, env: Env, asked: set<string>)
    requires Mirrored(r, asked) && UniqueCalls(r.context) && DistinctIds(calls)
    requires forall i :: 0 <= i < |calls| ==> calls[i].id !in AnsweredIds(r.context)
    ensures Mirrored(Execute(r, calls, env).0, asked)
  {
    hide Mirrored, PutResults, PutHints, AnsweredIds, UniqueCalls, CallsInState, GatherAll, DistinctIds;
    SpawnLogs(r, calls);
    var spawned := Spawn(r, calls);
    SameMirrored(r, spawned, asked);
    GatherLength(calls, env.outcomes, env.toolsCancelled);
    var results := GatherAll(calls, env.outcomes, env.toolsCancelled);
    PutResultsMirrored(spawned, calls, results, asked);
    HintsMirrored(PutResults(spawned, calls, results), HintsOf(results), asked);
  }

  // ---------------------------------------------------------------------------
  // Asking
  // ---------------------------------------------------------------------------

  /** The calls of a batch that the permission engine says to ask about. */
  function AskedOf(calls: seq<Call>, decide: Call -> Behavior): set<string>
  {
    if calls == [] then {}
    else AskedOf(calls[..|calls| - 1], decide) + if decide(calls[|calls| - 1]) == Ask then {calls[|calls| - 1].id} else {}
  }

  lemma {:induction false} HoldOneMirrored(r: Run, c: Call, asked: set<string>)
    requires Mirrored(r, asked) && UniqueCalls(r.context) && Anchors.Holds(r.context, r.messageId, c.id) && c.id !in AnsweredIds(r.context)
    ensures Mirrored(Emit(Mark(r, c.id, Asking), ConfirmRequired(c.id, c.name)), asked + {c.id})
  {
    hide Mirrors, SetState, Gained, SentTo, Live, AnsweredIds, UniqueCalls, HasCall, Owner, ResultIds;
    var e := ConfirmRequired(c.id, c.name);
    var es, live := SentTo(r.sent, r.messageId), Live(r.context, r.messageId);
    MarkGains(r, c.id, Asking);
    GainedAlike(r, Mark(r, c.id, Asking), Emit(Mark(r, c.id, Asking), e), []);
    AddressedOne(r.messageId, e);
    assert MessageMirrors(r, asked, r.messageId);
    if c.id in ResultIds(live) { LiveAnswered(r.context, r.messageId, c.id); }
    ConfirmMirrors(es, live, asked, c.id, c.name);
    assert live + [] == live;
    Anchors.HoldsOwner(r.context, r.messageId, c.id);
    forall id, x | id != r.messageId && (x in asked + {c.id}) != (x in asked)
      ensures !HasCall(Live(r.context, id), x)
    {
      if Anchors.Holds(r.context, id, c.id) { Anchors.HoldsOwner(r.context, id, c.id); }
    }
    Told(r, Emit(Mark(r, c.id, Asking), e), [e], [], asked, asked + {c.id});
  }

  lemma {:induction false} HoldKeeps(r: Run, asOf: seq<Msg>, decide: Call -> Behavior, calls: seq<Call>, id: MsgId, x: string)
    requires UniqueCalls(r.context)
    ensures var s := HoldAsked(r, asOf, decide, calls);
      && s.messageId == r.messageId && UniqueCalls(s.context) && AnsweredIds(s.context) == AnsweredIds(r.context)
      && CallStates(s.context).Keys == CallStates(r.context).Keys
      && (Anchors.Holds(s.context, id, x) <==> Anchors.Holds(r.context, id, x))
  {
    hide CallStates, AnsweredIds, UniqueCalls, SetState, Classify, Anchors.Holds;
    if calls != [] {
      var init, c := calls[..|calls| - 1], calls[|calls| - 1];
      HoldKeeps(r, asOf, decide, init, id, x);
      var before := HoldAsked(r, asOf, decide, init);
      MarkLedger(before.context, c.id, Asking);
      Anchors.SetStateHolds(before.context, c.id, Asking, id, x);
    }
  }

  lemma {:induction false} HoldMirrored(r: Run, asOf: seq<Msg>, decide: Call -> Behavior, calls: seq<Call>, asked: set<string>)
    requires Mirrored(r, asked) && UniqueCalls(r.context) && Anchors.HoldsAll(r.context, r.messageId, calls)
    requires forall i :: 0 <= i < |calls| ==> calls[i].id !in AnsweredIds(r.context) && Classify(asOf, decide, calls[i]) == decide(calls[i])
    ensures Mirrored(HoldAsked(r, asOf, decide, calls), asked + AskedOf(calls, decide))
  {
    hide Mirrored, AnsweredIds, UniqueCalls, SetState, Classify, CallStates, Anchors.Holds;
    if calls == [] {
      assert asked + {} == asked;
    } else {
      var init, c := calls[..|calls| - 1], calls[|calls| - 1];
      assert forall i :: 0 <= i < |init| ==> init[i] == calls[i];
      HoldMirrored(r, asOf, decide, init, asked);
      HoldKeeps(r, asOf, decide, init, r.messageId, c.id);
      var before := HoldAsked(r, asOf, decide, init);
      if decide(c) == Ask {
        assert asked + AskedOf(calls, decide) == asked + AskedOf(init, decide) + {c.id};
        HoldOneMirrored(before, c, asked + AskedOf(init, decide));
      } else {
        assert AskedOf(calls, decide) == AskedOf(init, decide);
      }
    }
  }

  /** The confirmations that are required for a batch: one for each call to ask about, in order, with its name. */
  function Questions(calls: seq<Call>, decide: Call -> Behavior): seq<Event>
  {
    if calls == [] then []
    else
      var c := calls[|calls| - 1];
      Questions(calls[..|calls| - 1], decide) + (if decide(c) == Ask then [ConfirmRequired(c.id, c.name)] else [])
  }

  lemma {:induction false} HoldSends(r: Run, asOf: seq<Msg>, decide: Call -> Behavior, calls: seq<Call>)
    requires forall i :: 0 <= i < |calls| ==> Classify(asOf, decide, calls[i]) == decide(calls[i])
    ensures var s := HoldAsked(r, asOf, decide, calls);
      s.sent == r.sent + Addressed(r.messageId, Questions(calls, decide)) && s.messageId == r.messageId && s.requests == r.requests
  {
    hide Classify, SetState, Addressed;
    AddressedOne(r.messageId, ReplyStarted);
    if calls == [] {
      assert r.sent + [] == r.sent;
    } else {
      var init, c := calls[..|calls| - 1], calls[|calls| - 1];
      assert forall i :: 0 <= i < |init| ==> init[i] == calls[i];
      HoldSends(r, asOf, decide, init);
      AddressedAppend(r.messageId, Questions(init, decide), [ConfirmRequired(c.id, c.name)]);
      AddressedOne(r.messageId, ConfirmRequired(c.id, c.name));
      assert Questions(init, decide) + [] == Questions(init, decide);
    }
  }

  /** A batch that may not run as a whole tells the host which calls to confirm, and nothing else. */
  lemma {:induction false} HeldBatchAsks(r: Run, calls: seq<Call>, env: Env)
    requires Untouched(calls, CallStates(r.context), AnsweredIds(r.context)) && !Endings.AllAllow(calls, env.decide)
    ensures var after := ActRound(r, calls, env).run;
      after.sent == r.sent + Addressed(r.messageId, Questions(calls, env.decide)) && after.messageId == r.messageId && after.log == r.log
  {
    hide Untouched, HoldAsked, AllAllowed, AnyAsk, Classify, Execute, Addressed, CallStates, AnsweredIds, Endings.AllAllow;
    Endings.UntouchedAllowedIff(r, calls, env.decide);
    forall i | 0 <= i < |calls|
      ensures Classify(r.context, env.decide, calls[i]) == env.decide(calls[i])
    {
      Licence.UntouchedDecides(r, calls, env.decide, i);
    }
    HoldSends(r, r.context, env.decide, calls);
    HoldLogs(r, r.context, env.decide, calls);
  }

  // ---------------------------------------------------------------------------
  // Reasoning
  // ---------------------------------------------------------------------------

  lemma {:induction false} SpeaksAppend(a: seq<Event>, b: seq<Event>)
    requires Speaks(a) && Speaks(b)
    ensures Speaks(a + b)
  {
  }

  lemma AnnouncesAppend(a: seq<Event>, b: seq<Event>, id: string)
    requires Announces(a, id) || Announces(b, id)
    ensures Announces(a + b, id)
  {
    if i :| 0 <= i < |a| && a[i].CallStarted? && a[i].callId == id { assert (a + b)[i].CallStarted?; }
    if i :| 0 <= i < |b| && b[i].CallStarted? && b[i].callId == id { assert (a + b)[|a| + i] == b[i]; }
  }

  lemma {:induction false} StartAnnounces(es: seq<Event>, id: string)
    requires HasStart(es, id)
    ensures Announces(es, id)
  {
    StartCreated(es, id);
    var i :| 0 <= i < |es| && Creates(es[i]) == Some(CallKey(id));
    assert es[i].CallStarted?;
  }

  /** An attempt speaks of no result and no confirmation, and announces the calls it hands on. */
  lemma {:induction false} AttemptSpeaks(read: Reader, nextId: nat, input: AttemptInput)
    ensures var d := RunAttempt(read, nextId, input); Speaks(d.events) && forall id :: id in IdSet(CallsBy(d.end)) ==> Announces(d.events, id)
  {
    hide RunAttempt, Agreement.Concluded, Local, Spoke, Lists, HasStart, IdSet, Announces, Ends;
    Agreement.ConcludedIs(read, nextId, input);
    Agreement.ConcludedTracked(read, nextId, input);
    var (a, kept) := Agreement.Concluded(read, nextId, input);
    Agreement.LocalSpeech(a.events, nextId, a.nextId);
    forall i | 0 <= i < |a.events|
      ensures a.events[i].CallStarted? || Quietly(a.events[i])
    {
      assert Speech(a.events[i]);
    }
    forall id | id in IdSet(kept)
      ensures Announces(a.events, id)
    {
      InIdSet(kept, id);
      var j :| 0 <= j < |kept| && kept[j].id == id;
      assert HasStart(a.events, Ends(a.events)[j].id);
      StartAnnounces(a.events, id);
    }
  }

  lemma {:induction false} BeforeSpeaks(read: Reader, hint: Option<string>, nextId: nat, inputs: nat -> AttemptInput, k: nat)
    ensures Speaks(Retries.Before(read, hint, nextId, inputs, k).sent)
  {
    hide RunAttempt, Retries.Outcome;
    if k > 0 {
      BeforeSpeaks(read, hint, nextId, inputs, k - 1);
      AttemptSpeaks(read, Retries.Before(read, hint, nextId, inputs, k - 1).nextId, inputs(k - 1));
    }
  }

  lemma {:induction false} ReasonSpeaks(read: Reader, hint: Option<string>, maxRetries: nat, nextId: nat, inputs: nat -> AttemptInput)
    ensures var d := Reason(read, hint, maxRetries, nextId, inputs);
      Speaks(d.events) && forall id :: id in IdSet(CallsIn(d.end)) ==> Announces(d.events, id)
  {
    hide RunAttempt, Retries.Outcome, Reason, Retries.Before, IdSet, Announces, Retries.AnnouncesRetry, Retries.Retries, Retries.Cancelled, Speaks;
    var last := Retries.ReasonIsItsAttempts(read, hint, maxRetries, nextId, inputs);
    var d, s := Reason(read, hint, maxRetries, nextId, inputs), Retries.Before(read, hint, nextId, inputs, last);
    var attempt := RunAttempt(read, s.nextId, inputs(last));
    BeforeSpeaks(read, hint, nextId, inputs, last);
    AttemptSpeaks(read, s.nextId, inputs(last));
    Retries.EndsAsStreamed(read, s.nextId, inputs(last));
    var tail := d.events[|s.sent + attempt.events|..];
    assert d.events == s.sent + attempt.events + tail;
    assert Speaks(tail) by { TailSpeaks(tail); }
    SpeaksAppend(s.sent, attempt.events);
    SpeaksAppend(s.sent + attempt.events, tail);
    NoIds();
    forall id | id in IdSet(CallsIn(d.end))
      ensures Announces(d.events, id)
    {
      AnnouncesAppend(s.sent, attempt.events, id);
      AnnouncesAppend(s.sent + attempt.events, tail, id);
    }
  }

  lemma NoIds()
    ensures IdSet([]) == {}
  {
  }

  lemma TailSpeaks(es: seq<Event>)
    requires es == [] || (|es| == 1 && es[0].Retrying?)
    ensures Speaks(es)
  {
  }

  lemma {:induction false} ReasonedMirrored(c: Config, r: Run, hint: Option<string>, env: Env, asked: set<string>)
    requires Mirrored(r, asked) && asked <= CallStates(r.context).Keys
    requires FreshCalls(CallsIn(Reason(c.read, hint, c.maxRetries, r.nextId, env.attempts).end), UsedIds(r.context))
    ensures Mirrored(Reasoned(r, Reason(c.read, hint, c.maxRetries, r.nextId, env.attempts)), asked)
  {
    hide Mirrors, Gained, SentTo, Live, AnsweredIds, CallStates, Addressed, AppendReply, Snapshots, Reason, IdSet, Announces, Speaks, Wrote, DistinctIds, ResultIds;
    var d := Reason(c.read, hint, c.maxRetries, r.nextId, env.attempts);
    var calls := CallsIn(d.end);
    ReasonSpeaks(c.read, hint, c.maxRetries, r.nextId, env.attempts);
    ReasonWrote(c.read, hint, c.maxRetries, r.nextId, env.attempts);
    WriteGains(r, Reasoned(r, d), d.blocks);
    assert MessageMirrors(r, asked, r.messageId);
    forall id | id in IdSet(calls)
      ensures id !in ResultIds(Live(r.context, r.messageId))
    {
      if id in ResultIds(Live(r.context, r.messageId)) { LiveAnswered(r.context, r.messageId, id); }
    }
    SpeechMirrors(SentTo(r.sent, r.messageId), Live(r.context, r.messageId), asked, d.events, d.blocks, calls);
    Told(r, Reasoned(r, d), d.events, d.blocks, asked, asked);
  }

  // ---------------------------------------------------------------------------
  // Host messages
  // ---------------------------------------------------------------------------

  lemma {:induction false} ToollessFacts(bs: seq<Block>)
    requires Toolless(bs)
    ensures SameFacts([], bs)
  {
    hide Results, ResultIds, HasCall, States, Toolless;
    ToollessResults(bs);
    ToollessLedger(bs);
    NoResults();
    NoCalls();
    forall id
      ensures HasCall([], id) <==> HasCall(bs, id)
    {
      HasCallIff([], id);
      HasCallIff(bs, id);
    }
  }

  lemma {:induction false} AddRawMirrored(r: Run, m: HostMsg, asked: set<string>)
    requires Mirrored(r, asked) && Anchors.Rooted(r.context, r.nextId) && Toolless(m.blocks)
    ensures Mirrored(AddRaw(r, m), asked)
  {
    hide Mirrors, SentTo, Live, Toolless, KnownId, SameFacts;
    var s := AddRaw(r, m);
    if s.context == r.context {
      SameMirrored(r, s, asked);
    } else {
      var added := s.context[|r.context|];
      assert s.context == r.context + [added];
      forall i | 0 <= i < |r.context|
        ensures r.context[i].id != added.id
      {
        if added.id.Host? { Anchors.UnknownIds(r.context, added.id, i); } else { assert Below(r.context[i].id, r.nextId); }
      }
      NewLive(r.context, added.id);
      ToollessFacts(m.blocks);
      forall id
        ensures MessageMirrors(s, asked, id)
      {
        LiveSnoc(r.context, added, id);
        assert MessageMirrors(r, asked, id);
        if id == added.id && added.role == Assistant { FactsMirror(SentTo(r.sent, id), [], m.blocks, asked); }
      }
    }
  }

  lemma {:induction false} AddRawsMirrored(r: Run, ms: seq<HostMsg>, asked: set<string>)
    requires Mirrored(r, asked) && Anchors.Rooted(r.context, r.nextId) && AllToolless(ms)
    ensures Mirrored(AddRaws(r, ms), asked)
  {
    hide Mirrored, Anchors.Rooted, AddRaw, Toolless;
    if ms != [] {
      AddRawsMirrored(r, ms[..|ms| - 1], asked);
      Anchors.AddRawsRooted(r, ms[..|ms| - 1]);
      AddRawMirrored(AddRaws(r, ms[..|ms| - 1]), ms[|ms| - 1], asked);
    }
  }

  // ---------------------------------------------------------------------------
  // Rounds
  // ---------------------------------------------------------------------------

  /** The host mirrors the runner, and what was asked about is a call of the context. */
  ghost predicate Follows(r: Run, asked: set<string>)
  {
    Mirrored(r, asked) && asked <= CallStates(r.context).Keys
  }

  /** The ids a batch asks about are ids of its calls. */
  lemma {:induction false} AskedAreCalls(calls: seq<Call>, decide: Call -> Behavior, id: string)
    ensures id in AskedOf(calls, decide) <==> exists i :: 0 <= i < |calls| && calls[i].id == id && decide(calls[i]) == Ask
  {
    if calls != [] {
      var init := calls[..|calls| - 1];
      AskedAreCalls(init, decide, id);
      if i :| 0 <= i < |init| && init[i].id == id && decide(init[i]) == Ask { assert calls[i].id == id && decide(calls[i]) == Ask; }
      if i :| 0 <= i < |calls| && calls[i].id == id && decide(calls[i]) == Ask { assert i < |init| ==> init[i] == calls[i]; }
    }
  }

  lemma {:induction false} AskModelFollows(c: Config, r: Run, hint: Option<string>, env: Env, asked: set<string>)
    requires Follows(r, asked) && UniqueCalls(r.context) && FreshTurn(r.context, AskModel(c, r, hint, env).phase)
    ensures Follows(AskModel(c, r, hint, env).run, asked)
  {
    hide Mirrored, CallStates, AnsweredIds, UniqueCalls, AppendReply, Reason, Addressed, Snapshots, Wrote, FreshCalls, UsedIds;
    NoFreshCalls(UsedIds(r.context));
    var d := Reason(c.read, hint, c.maxRetries, r.nextId, env.attempts);
    ReasonedMirrored(c, r, hint, env, asked);
    ReasonedCalls(r, d, c, hint, env);
    if d.end.TurnCancelled? { FinishMirrored(Reasoned(r, d), EndReason.Interrupted, asked); }
  }

  lemma {:induction false} ReasonedCalls(r: Run, d: ReasonDone, c: Config, hint: Option<string>, env: Env)
    requires d == Reason(c.read, hint, c.maxRetries, r.nextId, env.attempts) && UniqueCalls(r.context)
    requires FreshCalls(CallsIn(d.end), UsedIds(r.context))
    ensures CallStates(r.context).Keys <= CallStates(Reasoned(r, d).context).Keys
  {
    hide CallStates, AnsweredIds, UniqueCalls, AppendReply, Reason, Addressed, Snapshots, Wrote, IdSet, Opened, DistinctIds;
    ReasonWrote(c.read, hint, c.maxRetries, r.nextId, env.attempts);
    WroteLedger(d.blocks, CallsIn(d.end));
    OpenedIs(CallsIn(d.end));
    AppendLedger(r.context, r.messageId, d.blocks);
  }

  lemma {:induction false} ReasonRoundFollows(c: Config, r: Run, hint: Option<string>, env: Env, asked: set<string>)
    requires Follows(r, asked) && UniqueCalls(r.context) && Anchors.Rooted(r.context, r.nextId)
    requires env.hook.HookMessages? ==> AllToolless(env.hook.messages)
    requires FreshTurn(r.context, ReasonRound(c, r, hint, env).phase)
    ensures Follows(ReasonRound(c, r, hint, env).run, asked)
  {
    hide Mirrored, CallStates, AnsweredIds, UniqueCalls, AskModel, AddRaws, FindReply, HasUser, AllToolless, FreshCalls, Anchors.Rooted;
    var counted := r.(iteration := r.iteration + 1);
    SameMirrored(r, counted, asked);
    match env.hook
    case HookMessages(ms) =>
      AddRawsMirrored(counted, ms, asked);
      AddRawsLedger(counted, ms);
      var ready := Rotate(AddRaws(counted, ms), ms);
      SameMirrored(AddRaws(counted, ms), ready, asked);
      AskModelFollows(c, ready, hint, env, asked);
    case HookCancelled => FinishMirrored(counted, EndReason.Interrupted, asked);
    case HookRaised => FinishMirrored(counted, Failure, asked);
  }

  lemma {:induction false} ExecuteFollows(r: Run, calls: seq<Call>, env: Env, asked: set<string>)
    requires Follows(r, asked) && UniqueCalls(r.context) && DistinctIds(calls)
    requires forall i :: 0 <= i < |calls| ==> calls[i].id !in AnsweredIds(r.context)
    ensures Follows(Execute(r, calls, env).0, asked) && UniqueCalls(Execute(r, calls, env).0.context)
  {
    hide Mirrored, CallStates, AnsweredIds, UniqueCalls, Execute, IdSet, DistinctIds, CallsInState;
    ExecuteMirrored(r, calls, env, asked);
    SpawnLogs(r, calls);
    ExecuteSettles(r, calls, env);
  }

  lemma {:induction false} AllAllowedAskNothing(calls: seq<Call>, decide: Call -> Behavior)
    requires forall i :: 0 <= i < |calls| ==> decide(calls[i]) == Allow
    ensures AskedOf(calls, decide) == {}
  {
    if calls != [] {
      var init := calls[..|calls| - 1];
      assert forall i :: 0 <= i < |init| ==> init[i] == calls[i];
      AllAllowedAskNothing(init, decide);
    }
  }

  lemma {:induction false} ActFollows(r: Run, calls: seq<Call>, env: Env, asked: set<string>)
    requires Follows(r, asked) && UniqueCalls(r.context) && Untouched(calls, CallStates(r.context), AnsweredIds(r.context))
    requires Anchors.HoldsAll(r.context, r.messageId, calls)
    ensures Follows(ActRound(r, calls, env).run, asked + AskedOf(calls, env.decide))
  {
    hide Mirrored, CallStates, AnsweredIds, UniqueCalls, Execute, HoldAsked, AllAllowed, AnyAsk, Classify, Anchors.HoldsAll, DistinctIds, AskedOf, Endings.AllAllow;
    var after, all := Act(r, calls, env).0, asked + AskedOf(calls, env.decide);
    forall i | 0 <= i < |calls|
      ensures Classify(r.context, env.decide, calls[i]) == env.decide(calls[i])
    {
      Licence.UntouchedDecides(r, calls, env.decide, i);
    }
    if AllAllowed(r.context, env.decide, calls) {
      forall i | 0 <= i < |calls|
        ensures env.decide(calls[i]) == Allow
      {
        Licence.AllAllowedEach(r.context, env.decide, calls, i);
      }
      AllAllowedAskNothing(calls, env.decide);
      assert all == asked;
      ExecuteFollows(r, calls, env, asked);
    } else {
      HoldMirrored(r, r.context, env.decide, calls, asked);
      HoldKeeps(r, r.context, env.decide, calls, r.messageId, "");
      forall id | id in AskedOf(calls, env.decide)
        ensures id in CallStates(r.context)
      {
        AskedAreCalls(calls, env.decide, id);
      }
    }
    SameMirrored(after, after.(status := Paused), all);
    FinishMirrored(after, EndReason.Interrupted, all);
  }

  lemma {:induction false} ExitFollows(r: Run, reason: EndReason, env: Env, asked: set<string>)
    requires Follows(r, asked) && UniqueCalls(r.context)
    ensures Follows(ExitRound(r, reason, env).run, asked)
  {
    hide Mirrored, CallStates, AnsweredIds, UniqueCalls, PutHint;
    FinishMirrored(r, reason, asked);
    FinishMirrored(r, EndReason.Interrupted, asked);
    FinishMirrored(r, Failure, asked);
    if env.stop.Continue? {
      var more := r.(continuations := r.continuations + 1);
      SameMirrored(r, more, asked);
      HintMirrored(more, env.stop.prompt, asked);
      PutHintSettles(more, env.stop.prompt);
    }
  }

  /** The calls a turn asks about: those of the batch in hand, unless the last turn failed. */
  function AskedIn(prev: Option<TurnResult>, decide: Call -> Behavior): set<string>
  {
    if Endings.Batch(prev) then AskedOf(prev.value.calls, decide) else {}
  }

  lemma {:induction false} RoundFollows(c: Config, m: Machine, env: Env, asked: set<string>)
    requires Safe(m) && Anchors.Anchored(m) && m.phase.Loop? && Fair(c, m, Turn(env)) && Follows(m.run, asked)
    ensures Follows(Round(c, m.run, m.phase.prev, env).run, asked + AskedIn(m.phase.prev, env.decide))
  {
    hide Follows, CallStates, AnsweredIds, UniqueCalls, SafeLog, LedgerSafe, NoneIs, ReasonRound, ActRound, ExitRound, AllToolless, FreshCalls, UsedIds, Safe,
      Anchors.Rooted, Anchors.HoldsAll, Anchors.HoldsWaiting, Untouched, AskedOf;
    SafeMeans(m);
    var (action, decided) := Decide(c, m.run, m.phase.prev);
    SameFollows(m.run, decided, asked);
    assert asked + {} == asked;
    match action
    case Reasoning(hint, _) => ReasonRoundFollows(c, decided, hint, env, asked);
    case Acting(calls) => ActFollows(decided, calls, env, asked);
    case Exiting(reason) => ExitFollows(decided, reason, env, asked);
  }

  lemma SameFollows(r: Run, s: Run, asked: set<string>)
    requires Follows(r, asked) && s.sent == r.sent && s.context == r.context
    ensures Follows(s, asked)
  {
    hide Mirrored;
    SameMirrored(r, s, asked);
  }

  // ---------------------------------------------------------------------------
  // New replies and answers
  // ---------------------------------------------------------------------------

  lemma {:induction false} StartFollows(m: Machine, ms: seq<HostMsg>, maxContinuations: nat, asked: set<string>)
    requires Follows(m.run, asked) && UniqueCalls(m.run.context) && Anchors.Rooted(m.run.context, m.run.nextId) && AllToolless(ms)
    ensures Follows(Start(m.run, ms, maxContinuations).run, asked)
  {
    hide Mirrored, CallStates, AnsweredIds, UniqueCalls, AddRaws, CallsInState, AllToolless, Anchors.Rooted;
    var reset := m.run.(status := Active, iteration := 0, emptyRetries := 0, inFinalization := false,
                        continuations := 0, maxContinuations := maxContinuations, requests := []);
    SameMirrored(m.run, reset, asked);
    AddRawsMirrored(reset, ms, asked);
    AddRawsLedger(reset, ms);
    var added := AddRaws(reset, ms);
    var named := added.(messageId := Drawn(added.nextId), nextId := added.nextId + 1);
    SameMirrored(added, named, asked);
    EmitMirrored(named, ReplyStarted, asked);
  }

  lemma {:induction false} AcceptFollows(r: Run, id: string, approved: bool, asked: set<string>)
    requires Follows(r, asked)
    ensures Follows(Accept(r, id, approved).0, asked)
  {
    hide Mirrored, CallStates, SetState, StateOf, Owner, CallsInState;
    var owner := Owner(r.context, id);
    if owner < |r.context| {
      var at := r.(messageId := r.context[owner].id);
      SameMirrored(r, at, asked);
      MarkMirrored(at, id, if approved then Allowed else CallState.Finished, asked);
      MarkLedger(r.context, id, if approved then Allowed else CallState.Finished);
    }
  }

  lemma {:induction false} ResumeFollows(r: Run, env: Env, asked: set<string>)
    requires Follows(r, asked) && UniqueCalls(r.context)
    ensures Follows(Resume(r, env).0, asked)
  {
    hide Mirrored, CallStates, AnsweredIds, UniqueCalls, Execute, PutAllDenied, Unanswered, Split, DistinctIds, IdSet;
    var pending := PendingCalls(r.context);
    var allowed, denied := Split(pending, true), Split(pending, false);
    PendingFacts(r.context);
    DeniedFacts(r.context);
    InIds(allowed);
    InIds(denied);
    var done := if allowed == [] then r else Execute(r, allowed, env).0;
    if allowed != [] {
      ExecuteFollows(r, allowed, env, asked);
      ExecuteSettles(r, allowed, env);
      SpawnLogs(r, allowed);
    }
    PutAllDeniedMirrored(done, denied, asked);
    PutAllDeniedSettles(done, denied);
  }

  lemma {:induction false} AnsweredFollows(m: Machine, id: string, approved: bool, maxContinuations: nat, env: Env, asked: set<string>)
    requires Safe(m) && Follows(m.run, asked)
    ensures Follows(Answered(m.run, id, approved, maxContinuations, env).run, asked)
  {
    hide Mirrored, CallStates, AnsweredIds, UniqueCalls, Accept, Resume, SafeLog, LedgerSafe, NoneIs;
    var r := m.run.(continuations := 0, maxContinuations := maxContinuations);
    SameMirrored(m.run, r, asked);
    AcceptFollows(r, id, approved, asked);
    AcceptSafe(r, id, approved);
    var (at, acceptance) := Accept(r, id, approved);
    SameMirrored(at, at.(status := Paused), asked);
    if acceptance.Complete? {
      var active := at.(status := Active);
      SameMirrored(at, active, asked);
      ResumeFollows(active, env, asked);
      FinishMirrored(Resume(active, env).0, Failure, asked);
    }
  }

  // ---------------------------------------------------------------------------
  // Whole lives
  // ---------------------------------------------------------------------------

  /** The calls the permission engine has said to ask about, in all batches that came up. */
  function AskedIds(c: Config, m: Machine, inputs: seq<Input>): set<string>
  {
    if inputs == [] then {}
    else
      var init := inputs[..|inputs| - 1];
      var now := Life(c, m, init);
      match inputs[|inputs| - 1]
      case Turn(env) => AskedIds(c, m, init) + if now.phase.Loop? then AskedIn(now.phase.prev, env.decide) else {}
      case _ => AskedIds(c, m, init)
  }

  /** Those of them that the user has not answered since. */
  function WaitingIds(c: Config, m: Machine, inputs: seq<Input>): set<string>
  {
    if inputs == [] then {}
    else
      var init := inputs[..|inputs| - 1];
      var now := Life(c, m, init);
      match inputs[|inputs| - 1]
      case Turn(env) => WaitingIds(c, m, init) + if now.phase.Loop? then AskedIn(now.phase.prev, env.decide) else {}
      case Answer(id, _, _, _) => if now.phase.AtRest? then WaitingIds(c, m, init) - {id} else WaitingIds(c, m, init)
      case StartReply(_, _) => WaitingIds(c, m, init)
  }

  lemma {:induction false} AdvanceFollows(c: Config, m: Machine, input: Input, asked: set<string>)
    requires Safe(m) && Anchors.Anchored(m) && Fair(c, m, input) && Follows(m.run, asked)
    ensures Follows(Advance(c, m, input).run, asked + if input.Turn? && m.phase.Loop? then AskedIn(m.phase.prev, input.env.decide) else {})
  {
    hide Safe, Follows, Start, Answered, Round, AllToolless, FreshTurn, AskedIn, Anchors.Rooted, UniqueCalls, CallStates, AnsweredIds;
    assert asked + {} == asked;
    match input
    case StartReply(ms, maxContinuations) =>
      if m.phase.AtRest? {
        Licence.SafeRunOf(m);
        StartFollows(m, ms, maxContinuations, asked);
      }
    case Answer(id, approved, maxContinuations, env) =>
      if m.phase.AtRest? { AnsweredFollows(m, id, approved, maxContinuations, env, asked); }
    case Turn(env) => if m.phase.Loop? { RoundFollows(c, m, env, asked); }
  }

  lemma {:induction false} AlwaysFollows(c: Config, m: Machine, inputs: seq<Input>)
    requires Safe(m) && Anchors.Anchored(m) && Follows(m.run, {}) && FairLife(c, m, inputs)
    ensures Follows(Life(c, m, inputs).run, AskedIds(c, m, inputs))
  {
    hide Safe, Anchors.Anchored, Follows, Fair, Advance, AskedIn;
    if inputs != [] {
      var init, last := inputs[..|inputs| - 1], inputs[|inputs| - 1];
      AlwaysFollows(c, m, init);
      AlwaysSafe(c, m, init);
      Anchors.AlwaysAnchored(c, m, init);
      AdvanceFollows(c, Life(c, m, init), last, AskedIds(c, m, init));
      assert AskedIds(c, m, init) + {} == AskedIds(c, m, init);
    }
  }

  lemma {:induction false} NewFollows(m: Machine)
    requires m.run.context == [] && m.run.sent == []
    ensures Follows(m.run, {})
  {
    hide Results, HasCall, ResultIds;
    NoResults();
    NoCalls();
    forall id
      ensures MessageMirrors(m.run, {}, id)
    {
      assert SentTo([], id) == [];
      forall x
        ensures !HasCall([], x)
      {
        HasCallIff([], x);
      }
      NothingMirrors([], {});
    }
  }

  // ---------------------------------------------------------------------------
  // The calls that ask in the context
  // ---------------------------------------------------------------------------

  lemma NothingAsks(context: seq<Msg>)
    requires NoneIs(CallStates(context), Asking)
    ensures Confluence.AskingIds(context) == {}
  {
    hide CallStates;
  }

  lemma {:induction false} HoldAsks(r: Run, asOf: seq<Msg>, decide: Call -> Behavior, calls: seq<Call>)
    requires forall i :: 0 <= i < |calls| ==> calls[i].id in CallStates(r.context) && Classify(asOf, decide, calls[i]) == decide(calls[i])
    ensures CallStates(HoldAsked(r, asOf, decide, calls).context).Keys == CallStates(r.context).Keys
    ensures Confluence.AskingIds(HoldAsked(r, asOf, decide, calls).context) == Confluence.AskingIds(r.context) + AskedOf(calls, decide)
  {
    hide CallStates, Classify, SetState;
    if calls == [] {
      assert Confluence.AskingIds(r.context) + {} == Confluence.AskingIds(r.context);
    } else {
      var init, c := calls[..|calls| - 1], calls[|calls| - 1];
      assert forall i :: 0 <= i < |init| ==> init[i] == calls[i];
      HoldAsks(r, asOf, decide, init);
      var before := HoldAsked(r, asOf, decide, init);
      MarkLedger(before.context, c.id, Asking);
      if decide(c) == Ask {
        assert Confluence.AskingIds(Mark(before, c.id, Asking).context) == Confluence.AskingIds(before.context) + {c.id};
        assert AskedOf(calls, decide) == AskedOf(init, decide) + {c.id};
      }
    }
  }

  lemma {:induction false} ActAsks(r: Run, calls: seq<Call>, env: Env)
    requires SafeRun(r) && Quiet(CallStates(r.context)) && Untouched(calls, CallStates(r.context), AnsweredIds(r.context))
    ensures Confluence.AskingIds(ActRound(r, calls, env).run.context) == AskedOf(calls, env.decide)
  {
    hide CallStates, AnsweredIds, UniqueCalls, SafeLog, LedgerSafe, Execute, HoldAsked, AllAllowed, AnyAsk, Classify, DistinctIds, AskedOf, NoneIs, Confluence.AskingIds;
    forall i | 0 <= i < |calls|
      ensures Classify(r.context, env.decide, calls[i]) == env.decide(calls[i])
    {
      Licence.UntouchedDecides(r, calls, env.decide, i);
    }
    NothingAsks(r.context);
    if AllAllowed(r.context, env.decide, calls) {
      forall i | 0 <= i < |calls|
        ensures env.decide(calls[i]) == Allow
      {
        Licence.AllAllowedEach(r.context, env.decide, calls, i);
      }
      AllAllowedAskNothing(calls, env.decide);
      ActAllAllowedSafe(r, calls, env);
      NothingAsks(Execute(r, calls, env).0.context);
    } else {
      HoldAsks(r, r.context, env.decide, calls);
    }
  }

  lemma {:induction false} RoundAsks(c: Config, m: Machine, env: Env)
    requires Safe(m) && m.phase.Loop? && Fair(c, m, Turn(env))
    ensures Confluence.AskingIds(m.run.context) == {}
    ensures Confluence.AskingIds(Round(c, m.run, m.phase.prev, env).run.context) == AskedIn(m.phase.prev, env.decide)
  {
    hide CallStates, AnsweredIds, UniqueCalls, SafeLog, LedgerSafe, NoneIs, ReasonRound, ActRound, ExitRound, AllToolless, FreshCalls, UsedIds, Safe,
      Untouched, AskedOf, Confluence.AskingIds;
    SafeMeans(m);
    NothingAsks(m.run.context);
    var (action, decided) := Decide(c, m.run, m.phase.prev);
    match action
    case Reasoning(hint, _) =>
      ReasonRoundSafe(c, decided, hint, env);
      NothingAsks(ReasonRound(c, decided, hint, env).run.context);
    case Acting(calls) => ActAsks(decided, calls, env);
    case Exiting(reason) =>
      ExitRoundSafe(decided, reason, env);
      NothingAsks(ExitRound(decided, reason, env).run.context);
  }

  lemma {:induction false} AcceptAsks(r: Run, id: string, approved: bool)
    ensures Confluence.AskingIds(Accept(r, id, approved).0.context) == Confluence.AskingIds(r.context) - {id}
      || (Confluence.AskingIds(Accept(r, id, approved).0.context) == Confluence.AskingIds(r.context) && id !in Confluence.AskingIds(r.context))
  {
    hide CallStates, SetState, StateOf, Owner, CallsInState;
    StateOfLedger(r.context, id);
    MarkLedger(r.context, id, if approved then Allowed else CallState.Finished);
  }

  lemma {:induction false} AnsweredAsks(m: Machine, id: string, approved: bool, maxContinuations: nat, env: Env)
    requires Safe(m)
    ensures Confluence.AskingIds(Answered(m.run, id, approved, maxContinuations, env).run.context) == Confluence.AskingIds(m.run.context) - {id}
  {
    hide CallStates, AnsweredIds, UniqueCalls, Accept, Resume, SafeLog, LedgerSafe, NoneIs, Confluence.AskingIds;
    var r := m.run.(continuations := 0, maxContinuations := maxContinuations);
    AcceptAsks(r, id, approved);
    AcceptSafe(r, id, approved);
    var (at, acceptance) := Accept(r, id, approved);
    if acceptance.Complete? {
      var active := at.(status := Active);
      NothingAsks(active.context);
      ResumeSafe(active, env);
      NothingAsks(Resume(active, env).0.context);
    }
  }

  lemma {:induction false} StartAsks(m: Machine, ms: seq<HostMsg>, maxContinuations: nat)
    requires Safe(m) && AllToolless(ms)
    ensures Confluence.AskingIds(Start(m.run, ms, maxContinuations).run.context) == Confluence.AskingIds(m.run.context)
  {
    hide CallStates, AnsweredIds, UniqueCalls, AddRaws, CallsInState, AllToolless, SafeLog, LedgerSafe, NoneIs;
    AddRawsLedger(m.run.(status := Active, iteration := 0, emptyRetries := 0, inFinalization := false,
                         continuations := 0, maxContinuations := maxContinuations, requests := []), ms);
  }

  /** The calls that wait in the context are those asked about and not answered by the user since. */
  lemma {:induction false} WaitingAsk(c: Config, m: Machine, inputs: seq<Input>)
    requires Safe(m) && m.run.context == [] && FairLife(c, m, inputs)
    ensures Confluence.AskingIds(Life(c, m, inputs).run.context) == WaitingIds(c, m, inputs)
  {
    hide Safe, Round, Start, Answered, AskedIn, AllToolless, FreshTurn, Confluence.AskingIds;
    if inputs == [] {
      assert AllBlocks([]) == [];
      NoCalls();
      NothingAsks([]);
    } else {
      var init, last := inputs[..|inputs| - 1], inputs[|inputs| - 1];
      WaitingAsk(c, m, init);
      AlwaysSafe(c, m, init);
      var now := Life(c, m, init);
      match last
      case StartReply(ms, maxContinuations) => if now.phase.AtRest? { StartAsks(now, ms, maxContinuations); }
      case Answer(id, approved, maxContinuations, env) => if now.phase.AtRest? { AnsweredAsks(now, id, approved, maxContinuations, env); }
      case Turn(env) =>
        if now.phase.Loop? {
          RoundAsks(c, now, env);
        } else {
          assert WaitingIds(c, m, init) + {} == WaitingIds(c, m, init);
        }
    }
  }

  // ---------------------------------------------------------------------------
  // What a host shows
  // ---------------------------------------------------------------------------

  /** What the host shows of message `id` after a life: its blocks, folded from the events sent to it. */
  function HostView(c: Config, m: Machine, inputs: seq<Input>, id: MsgId): seq<Block>
  {
    RebuiltOf(c.read, Life(c, m, inputs).run.sent, id).content
  }

  function RunnerView(c: Config, m: Machine, inputs: seq<Input>, id: MsgId): seq<Block>
  {
    Live(Life(c, m, inputs).run.context, id)
  }

  lemma {:induction false} LifeMirrors(c: Config, m: Machine, inputs: seq<Input>, id: MsgId)
    requires m.run.context == [] && m.run.log == [] && m.run.requests == [] && m.run.sent == [] && m.phase == AtRest
    requires FairLife(c, m, inputs)
    ensures Mirrors(SentTo(Life(c, m, inputs).run.sent, id), RunnerView(c, m, inputs, id), AskedIds(c, m, inputs))
  {
    hide Safe, Anchors.Anchored, Life, FairLife, Mirrors, Live, SentTo, CallStates, AskedIds;
    NewIsSafe(m);
    Anchors.NewIsAnchored(m);
    NewFollows(m);
    AlwaysFollows(c, m, inputs);
    assert MessageMirrors(Life(c, m, inputs).run, AskedIds(c, m, inputs), id);
  }

  /**
   * For every life of a new agent whose host writes no calls and whose providers reuse no call id, and for
   * every message and call: if the runner has written the call to the message, the host shows it finished
   * once the message has its result, asking if the permission engine said to ask about it, and pending
   * otherwise. A call the runner has not written, announced by an attempt that failed, never asks. No call
   * ever shows as allowed or submitted.
   */
  lemma {:induction false} HostShowsCalls(c: Config, m: Machine, inputs: seq<Input>, id: MsgId, call: string)
    requires m.run.context == [] && m.run.log == [] && m.run.requests == [] && m.run.sent == [] && m.phase == AtRest
    requires FairLife(c, m, inputs)
    ensures var shown, written := Shown(HostView(c, m, inputs, id), call), RunnerView(c, m, inputs, id);
      && (HasCall(written, call) ==>
            shown == Some(if call in ResultIds(written) then CallState.Finished
                          else if call in AskedIds(c, m, inputs) then Asking else Pending))
      && (!HasCall(written, call) ==> shown == None || shown == Some(Pending) || (shown == Some(CallState.Finished) && call in ResultIds(written)))
  {
    hide Life, FairLife, Live, SentTo, AskedIds, HasCall, ResultIds, StateTold, Shown, ResultBegun;
    LifeMirrors(c, m, inputs, id);
    var es := SentTo(Life(c, m, inputs).run.sent, id);
    assert MirrorsCall(es, RunnerView(c, m, inputs, id), AskedIds(c, m, inputs), call);
    FoldShowsTold(c.read, es, call);
  }

  /** The results a host shows are those the runner has written: the same calls, names and states, in the same order. */
  lemma {:induction false} HostShowsResults(c: Config, m: Machine, inputs: seq<Input>, id: MsgId)
    requires m.run.context == [] && m.run.log == [] && m.run.requests == [] && m.run.sent == [] && m.phase == AtRest
    requires FairLife(c, m, inputs)
    ensures Results(HostView(c, m, inputs, id)) == Results(RunnerView(c, m, inputs, id))
  {
    hide Life, FairLife, Live, SentTo, AskedIds, Results, ResultsTold;
    LifeMirrors(c, m, inputs, id);
    FoldShowsResults(c.read, SentTo(Life(c, m, inputs).run.sent, id));
  }

  /**
   * Host and runner agree on what waits. The calls that ask in the context are exactly those asked about
   * and not answered by the user since; each of them shows as asking in the message that holds it. A call
   * shows as asking without waiting if and only if the user has answered it and no result of it has been
   * written to its message, since an answer sends no event of its own.
   */
  lemma {:induction false} HostShowsWhatWaits(c: Config, m: Machine, inputs: seq<Input>, id: MsgId, call: string)
    requires m.run.context == [] && m.run.log == [] && m.run.requests == [] && m.run.sent == [] && m.phase == AtRest
    requires FairLife(c, m, inputs)
    ensures StateOf(Life(c, m, inputs).run.context, call) == Some(Asking) <==> call in WaitingIds(c, m, inputs)
    ensures StateOf(Life(c, m, inputs).run.context, call) == Some(Asking) && HasCall(RunnerView(c, m, inputs, id), call) <==>
      Shown(HostView(c, m, inputs, id), call) == Some(Asking) && call in WaitingIds(c, m, inputs)
    ensures Shown(HostView(c, m, inputs, id), call) == Some(Asking) && StateOf(Life(c, m, inputs).run.context, call) != Some(Asking) <==>
      && HasCall(RunnerView(c, m, inputs, id), call) && call !in ResultIds(RunnerView(c, m, inputs, id))
      && call in AskedIds(c, m, inputs) && call !in WaitingIds(c, m, inputs)
  {
    hide Safe, Life, FairLife, Live, SentTo, AskedIds, WaitingIds, HasCall, ResultIds, Shown, CallStates, AnsweredIds, StateOf, UniqueCalls, SafeLog;
    NewIsSafe(m);
    AlwaysSafe(c, m, inputs);
    WaitingAsk(c, m, inputs);
    StateOfLedger(Life(c, m, inputs).run.context, call);
    HostShowsCalls(c, m, inputs, id, call);
    if call in WaitingIds(c, m, inputs) {
      WaitingWereAsked(c, m, inputs, call);
      WaitsUnanswered(Life(c, m, inputs), call);
      if call in ResultIds(RunnerView(c, m, inputs, id)) { LiveAnswered(Life(c, m, inputs).run.context, id, call); }
    }
  }

  lemma WaitsUnanswered(m: Machine, call: string)
    requires Safe(m) && call in CallStates(m.run.context) && CallStates(m.run.context)[call] == Asking
    ensures call !in AnsweredIds(m.run.context)
  {
    hide CallStates, AnsweredIds, UniqueCalls, SafeLog, NoneIs;
  }

  lemma {:induction false} WaitingWereAsked(c: Config, m: Machine, inputs: seq<Input>, call: string)
    requires call in WaitingIds(c, m, inputs)
    ensures call in AskedIds(c, m, inputs)
  {
    hide Life, AskedIn;
    if inputs != [] {
      var init := inputs[..|inputs| - 1];
      if call in WaitingIds(c, m, init) { WaitingWereAsked(c, m, init, call); }
    }
  }
}
