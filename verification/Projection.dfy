/**
 * The projection theorem: along every life of an agent, a host that folds the emitted events and the
 * runner that writes the context directly hold messages the provider cannot tell apart.
 */
module Projection {
  import opened Prelude
  import opened Messages
  import opened Events
  import opened Context
  import opened Flatten
  import opened Balance
  import opened Ledger
  import opened Reasoning
  import opened Runner
  import opened Safety
  import opened Views
  import opened AttemptFold
  import opened Agreement
  import opened Rebuild

  /** The content of the reply `id` in the context. */
  function Live(context: seq<Msg>, id: MsgId): seq<Block>
  {
    var i := FindReply(context, id);
    if i < |context| then context[i].content else []
  }

  /** What a host has of the message `id`. */
  function RebuiltOf(read: Reader, sent: seq<Sent>, id: MsgId): Rebuilt
  {
    ApplyAll(read, Rebuilt([], map[]), SentTo(sent, id))
  }

  ghost predicate Agrees(read: Reader, r: Run, id: MsgId)
  {
    Agree(RebuiltOf(read, r.sent, id), Live(r.context, id), r.nextId, CallStates(r.context).Keys, AnsweredIds(r.context))
  }

  ghost predicate ToollessAt(context: seq<Msg>, id: MsgId)
  {
    forall i :: 0 <= i < |context| && context[i].id == id ==> Toolless(context[i].content)
  }

  /** A message of the host: no events, no calls, no results. */
  ghost predicate HostOwned(r: Run, id: MsgId)
  {
    SentTo(r.sent, id) == [] && ToollessAt(r.context, id)
  }

  ghost predicate Kept(read: Reader, r: Run, id: MsgId)
  {
    HostOwned(r, id) || (id.Drawn? && Agrees(read, r, id))
  }

  predicate Below(id: MsgId, n: nat) { id.Drawn? ==> id.n < n }

  /** Ids are drawn from the counter. */
  ghost predicate Bounded(r: Run)
  {
    && (forall i :: 0 <= i < |r.context| ==> Below(r.context[i].id, r.nextId))
    && (forall i :: 0 <= i < |r.sent| ==> Below(r.sent[i].to, r.nextId))
  }

  ghost predicate Consistent(read: Reader, r: Run)
  {
    Bounded(r) && forall id :: Kept(read, r, id)
  }

  /** The current message is one of the runner's own. */
  ghost predicate Speaking(read: Reader, r: Run)
  {
    r.messageId.Drawn? && r.messageId.n < r.nextId && Agrees(read, r, r.messageId)
  }

  // ---------------------------------------------------------------------------
  // Looking messages up
  // ---------------------------------------------------------------------------

  lemma {:induction false} FindReplySnoc(context: seq<Msg>, m: Msg, id: MsgId)
    ensures FindReply(context + [m], id) ==
      if m.role == Assistant && m.id == id then |context|
      else if FindReply(context, id) < |context| then FindReply(context, id) else |context| + 1
  {
    assert (context + [m])[..|context|] == context;
  }

  lemma {:induction false} LiveSnoc(context: seq<Msg>, m: Msg, id: MsgId)
    ensures Live(context + [m], id) == if m.role == Assistant && m.id == id then m.content else Live(context, id)
  {
    hide FindReply;
    FindReplySnoc(context, m, id);
  }

  /** Same messages, up to the states of calls and results. */
  ghost predicate CtxLike(a: seq<Msg>, b: seq<Msg>)
  {
    |a| == |b| && forall i :: 0 <= i < |a| ==> MsgLike(a[i], b[i])
  }

  ghost predicate MsgLike(a: Msg, b: Msg) { a.id == b.id && a.role == b.role && SameBare(a.content, b.content) }

  lemma {:induction false} FindReplyLike(a: seq<Msg>, b: seq<Msg>, id: MsgId)
    requires |a| == |b| && forall i :: 0 <= i < |a| ==> a[i].id == b[i].id && a[i].role == b[i].role
    ensures FindReply(a, id) == FindReply(b, id)
  {
    if a != [] {
      var n := |a| - 1;
      FindReplyLike(a[..n], b[..n], id);
    }
  }

  lemma {:induction false} LiveLike(a: seq<Msg>, b: seq<Msg>, id: MsgId)
    requires CtxLike(a, b)
    ensures SameBare(Live(a, id), Live(b, id))
  {
    hide FindReply;
    assert forall i :: 0 <= i < |a| ==> MsgLike(a[i], b[i]);
    FindReplyLike(a, b, id);
  }

  lemma {:induction false} LiveUpdate(context: seq<Msg>, i: nat, bs: seq<Block>, id: MsgId)
    requires i < |context| && i == FindReply(context, context[i].id)
    ensures Live(context[i := context[i].(content := bs)], id) == if id == context[i].id then bs else Live(context, id)
  {
    hide FindReply;
    FindReplyLike(context, context[i := context[i].(content := bs)], id);
  }

  lemma {:induction false} LiveAppend(context: seq<Msg>, to: MsgId, bs: seq<Block>, id: MsgId)
    ensures Live(AppendReply(context, to, bs), id) == if id == to then Live(context, id) + bs else Live(context, id)
  {
    hide FindReply;
    var i := FindReply(context, to);
    if bs == [] {
      assert Live(context, id) + bs == Live(context, id);
    } else if i < |context| {
      LiveUpdate(context, i, context[i].content + bs, id);
    } else {
      LiveSnoc(context, Msg(to, Assistant, bs), id);
      assert id == to ==> [] + bs == bs;
    }
  }

  /** Appending to a reply leaves the messages with other ids alone. */
  lemma {:induction false} AppendOthers(context: seq<Msg>, to: MsgId, bs: seq<Block>, i: nat)
    requires i < |AppendReply(context, to, bs)|
    ensures AppendReply(context, to, bs)[i].id == to || (i < |context| && AppendReply(context, to, bs)[i] == context[i])
  {
    hide FindReply;
  }

  lemma {:induction false} SetStateLike(context: seq<Msg>, id: string, state: CallState)
    ensures CtxLike(context, SetState(context, id, state))
  {
    hide Owner, WithCallState, SameBare;
    SetStateAt(context, id, state);
    var i := Owner(context, id);
    forall bs: seq<Block>
      ensures SameBare(bs, bs)
    {
      SameBareSelf(bs);
    }
    if i < |context| { SetStateBare(context[i].content, id, state); }
  }

  lemma SameBareSelf(bs: seq<Block>)
    ensures SameBare(bs, bs)
  {
  }

  lemma {:induction false} AppendLike(a: seq<Msg>, b: seq<Msg>, to: MsgId, bs: seq<Block>)
    requires CtxLike(a, b)
    ensures CtxLike(AppendReply(a, to, bs), AppendReply(b, to, bs))
  {
    hide FindReply, SameBare;
    assert forall i :: 0 <= i < |a| ==> MsgLike(a[i], b[i]);
    FindReplyLike(a, b, to);
    var i := FindReply(a, to);
    if i < |a| {
      assert MsgLike(a[i], b[i]);
      SameBareAppend(a[i].content, b[i].content, bs);
    } else {
      SameBareSelf(bs);
    }
  }

  lemma SameBareAppend(a: seq<Block>, b: seq<Block>, c: seq<Block>)
    requires SameBare(a, b)
    ensures SameBare(a + c, b + c)
  {
  }

  lemma {:induction false} ToollessBare(a: seq<Block>, b: seq<Block>)
    requires SameBare(a, b) && Toolless(a)
    ensures Toolless(b)
  {
    if a != [] {
      var n := |a| - 1;
      assert Bare(a[n]) == Bare(b[n]);
      ToollessBare(a[..n], b[..n]);
    }
  }

  lemma {:induction false} SentToAddressed(to: MsgId, es: seq<Event>, id: MsgId)
    ensures SentTo(Addressed(to, es), id) == if to == id then es else []
  {
    if es != [] { SentToAddressed(to, es[..|es| - 1], id); }
  }

  lemma {:induction false} AddressedTo(to: MsgId, es: seq<Event>)
    ensures forall i :: 0 <= i < |Addressed(to, es)| ==> Addressed(to, es)[i].to == to
  {
    if es != [] { AddressedTo(to, es[..|es| - 1]); }
  }

  // ---------------------------------------------------------------------------
  // One move of the runner
  // ---------------------------------------------------------------------------

  /** The runner sends events about its message and appends blocks to it; states may change anywhere. */
  ghost predicate Moves(r: Run, s: Run, es: seq<Event>, bs: seq<Block>)
  {
    && s.messageId == r.messageId && r.nextId <= s.nextId
    && s.sent == r.sent + Addressed(r.messageId, es)
    && CtxLike(AppendReply(r.context, r.messageId, bs), s.context)
    && CallStates(r.context).Keys <= CallStates(s.context).Keys
    && AnsweredIds(r.context) <= AnsweredIds(s.context)
  }

  lemma {:induction false} RebuiltMoves(read: Reader, r: Run, s: Run, es: seq<Event>, bs: seq<Block>, id: MsgId)
    requires Moves(r, s, es, bs)
    ensures SentTo(s.sent, id) == SentTo(r.sent, id) + if id == r.messageId then es else []
    ensures RebuiltOf(read, s.sent, id) == if id == r.messageId then ApplyAll(read, RebuiltOf(read, r.sent, id), es) else RebuiltOf(read, r.sent, id)
  {
    hide CallStates, AnsweredIds, AppendReply, CtxLike, Apply;
    SentToAppend(r.sent, Addressed(r.messageId, es), id);
    SentToAddressed(r.messageId, es, id);
    if id == r.messageId {
      ApplyAllAppend(read, Rebuilt([], map[]), SentTo(r.sent, id), es);
    } else {
      assert SentTo(r.sent, id) + [] == SentTo(r.sent, id);
    }
  }

  lemma {:induction false} LiveMoves(r: Run, s: Run, es: seq<Event>, bs: seq<Block>, id: MsgId)
    requires Moves(r, s, es, bs)
    ensures SameBare(if id == r.messageId then Live(r.context, id) + bs else Live(r.context, id), Live(s.context, id))
  {
    hide CallStates, AnsweredIds, AppendReply, CtxLike, Live, SameBare;
    LiveAppend(r.context, r.messageId, bs, id);
    LiveLike(AppendReply(r.context, r.messageId, bs), s.context, id);
  }

  lemma {:induction false} ToollessMoves(r: Run, s: Run, es: seq<Event>, bs: seq<Block>, id: MsgId)
    requires Moves(r, s, es, bs) && id != r.messageId && ToollessAt(r.context, id)
    ensures ToollessAt(s.context, id)
  {
    hide CallStates, AnsweredIds, AppendReply, SameBare, Toolless;
    var mid := AppendReply(r.context, r.messageId, bs);
    forall i | 0 <= i < |s.context| && s.context[i].id == id
      ensures Toolless(s.context[i].content)
    {
      AppendOthers(r.context, r.messageId, bs, i);
      assert MsgLike(mid[i], s.context[i]);
      ToollessBare(mid[i].content, s.context[i].content);
    }
  }

  lemma {:induction false} BoundedMoves(r: Run, s: Run, es: seq<Event>, bs: seq<Block>)
    requires Moves(r, s, es, bs) && Bounded(r) && Below(r.messageId, r.nextId)
    ensures Bounded(s)
  {
    hide CallStates, AnsweredIds, AppendReply, SameBare;
    var mid := AppendReply(r.context, r.messageId, bs);
    forall i | 0 <= i < |s.context|
      ensures Below(s.context[i].id, s.nextId)
    {
      assert MsgLike(mid[i], s.context[i]);
      AppendOthers(r.context, r.messageId, bs, i);
    }
    AddressedTo(r.messageId, es);
  }

  lemma {:induction false} KeptMoves(read: Reader, r: Run, s: Run, es: seq<Event>, bs: seq<Block>, id: MsgId)
    requires Moves(r, s, es, bs) && id != r.messageId && Kept(read, r, id)
    ensures Kept(read, s, id)
  {
    hide AppendReply, CtxLike, SameBare, Agree, RebuiltOf, Live, CallStates, AnsweredIds, ToollessAt;
    RebuiltMoves(read, r, s, es, bs, id);
    if HostOwned(r, id) {
      ToollessMoves(r, s, es, bs, id);
    } else {
      LiveMoves(r, s, es, bs, id);
      var b := RebuiltOf(read, s.sent, id);
      LiveAgrees(b, Live(r.context, id), Live(s.context, id), r.nextId, CallStates(r.context).Keys, AnsweredIds(r.context));
      AgreeMore(b, Live(s.context, id), r.nextId, s.nextId, CallStates(r.context).Keys, CallStates(s.context).Keys,
                AnsweredIds(r.context), AnsweredIds(s.context));
    }
  }

  /** A move that keeps the current message in agreement keeps everything in agreement. */
  lemma {:induction false} Moved(read: Reader, r: Run, s: Run, es: seq<Event>, bs: seq<Block>)
    requires Consistent(read, r) && Speaking(read, r) && Moves(r, s, es, bs)
    requires Agree(ApplyAll(read, RebuiltOf(read, r.sent, r.messageId), es), Live(r.context, r.messageId) + bs,
                   s.nextId, CallStates(s.context).Keys, AnsweredIds(s.context))
    ensures Consistent(read, s) && Speaking(read, s)
  {
    BoundedMoves(r, s, es, bs);
    hide AppendReply, CtxLike, SameBare, Agree, RebuiltOf, Live, CallStates, AnsweredIds, HostOwned, Bounded;
    var id := r.messageId;
    RebuiltMoves(read, r, s, es, bs, id);
    LiveMoves(r, s, es, bs, id);
    LiveAgrees(RebuiltOf(read, s.sent, id), Live(r.context, id) + bs, Live(s.context, id), s.nextId, CallStates(s.context).Keys, AnsweredIds(s.context));
    forall x
      ensures Kept(read, s, x)
    {
      if x != id {
        assert Kept(read, r, x);
        KeptMoves(read, r, s, es, bs, x);
      }
    }
  }

  // ---------------------------------------------------------------------------
  // The runner's moves
  // ---------------------------------------------------------------------------

  /** The context has unique calls, the current message is the runner's, and everything agrees. */
  ghost predicate Joined(read: Reader, r: Run)
  {
    Consistent(read, r) && Speaking(read, r) && UniqueCalls(r.context)
  }

  lemma CtxLikeSelf(a: seq<Msg>)
    ensures CtxLike(a, a)
  {
    forall i | 0 <= i < |a|
      ensures MsgLike(a[i], a[i])
    {
      SameBareSelf(a[i].content);
    }
  }

  lemma {:induction false} AddressedAppend(to: MsgId, a: seq<Event>, b: seq<Event>)
    ensures Addressed(to, a + b) == Addressed(to, a) + Addressed(to, b)
  {
    if b == [] {
      assert a + b == a;
    } else {
      assert (a + b)[..|a + b| - 1] == a + b[..|b| - 1];
      AddressedAppend(to, a, b[..|b| - 1]);
    }
  }

  lemma {:induction false} AddressedOne(to: MsgId, e: Event)
    ensures Addressed(to, [e]) == [Sent(to, e)] && Addressed(to, []) == []
  {
    assert [e][..0] == [];
  }

  lemma {:induction false} OneEvent(read: Reader, r: Rebuilt, e: Event)
    ensures ApplyAll(read, r, [e]) == Apply(read, r, e)
  {
    assert [e][..0] == [];
  }

  lemma {:induction false} SilentMoved(read: Reader, r: Run, e: Event)
    requires Joined(read, r) && (e.ReplyStarted? || e.ReplyEnded?)
    ensures Joined(read, Emit(r, e))
  {
    hide AppendReply, Agree, RebuiltOf, Live, CallStates, AnsweredIds, Consistent, CtxLike, UniqueCalls, ApplyAll;
    var s := Emit(r, e);
    AddressedOne(r.messageId, e);
    CtxLikeSelf(r.context);
    AppendNothing(r.context, r.messageId);
    var b := RebuiltOf(read, r.sent, r.messageId);
    SilentAgrees(read, b, Live(r.context, r.messageId), r.nextId, [], e, CallStates(r.context).Keys, AnsweredIds(r.context)) by {
      NoEvents(read, b);
    }
    assert [] + [e] == [e];
    assert Live(r.context, r.messageId) + [] == Live(r.context, r.messageId);
    Moved(read, r, s, [e], []);
  }

  lemma AppendNothing(context: seq<Msg>, id: MsgId)
    ensures AppendReply(context, id, []) == context
  {
  }

  lemma NoEvents(read: Reader, r: Rebuilt)
    ensures ApplyAll(read, r, []) == r
  {
  }

  lemma {:induction false} HintMoved(read: Reader, r: Run, hint: string)
    requires Joined(read, r)
    ensures Joined(read, PutHint(r, hint)) && PutHint(r, hint).messageId == r.messageId
  {
    hide AppendReply, Agree, RebuiltOf, Live, CallStates, AnsweredIds, Consistent, CtxLike, UniqueCalls, Apply;
    var s := PutHint(r, hint);
    var e, b := HintGiven(r.nextId, hint), HintBlock(r.nextId, hint);
    PutHintSettles(r, hint);
    AddressedOne(r.messageId, e);
    CtxLikeSelf(s.context);
    var before, live := RebuiltOf(read, r.sent, r.messageId), Live(r.context, r.messageId);
    var calls, results := CallStates(r.context).Keys, AnsweredIds(r.context);
    HintAgrees(read, before, live, r.nextId, r.nextId, hint, calls, results);
    AgreeMore(Apply(read, before, e), live + [b], r.nextId, s.nextId, calls, CallStates(s.context).Keys, results, AnsweredIds(s.context));
    OneEvent(read, before, e);
    Moved(read, r, s, [e], [b]);
  }

  lemma {:induction false} HintsMoved(read: Reader, r: Run, hints: seq<string>)
    requires Joined(read, r)
    ensures Joined(read, PutHints(r, hints))
  {
    hide Joined, PutHint;
    if hints != [] {
      HintsMoved(read, r, hints[..|hints| - 1]);
      HintMoved(read, PutHints(r, hints[..|hints| - 1]), hints[|hints| - 1]);
    }
  }

  lemma {:induction false} AddressedResult(to: MsgId, id: string, name: string, text: string, state: ResultState)
    requires text != ""
    ensures Addressed(to, ResultEvents(id, name, text, state)) ==
      [Sent(to, ResultStarted(id, name)), Sent(to, ResultGrown(id, text)), Sent(to, ResultEnded(id, state))]
  {
    hide Addressed;
    AddressedOne(to, ResultStarted(id, name));
    AddressedOne(to, ResultGrown(id, text));
    AddressedOne(to, ResultEnded(id, state));
    AddressedAppend(to, [ResultStarted(id, name)], [ResultGrown(id, text)]);
    AddressedAppend(to, [ResultStarted(id, name)] + [ResultGrown(id, text)], [ResultEnded(id, state)]);
  }

  /** Any way of writing one result with text, in one step with its events. */
  lemma {:induction false} ResultMoved(read: Reader, r: Run, s: Run, id: string, name: string, text: string, state: ResultState)
    requires Joined(read, r) && text != "" && id !in AnsweredIds(r.context)
    requires s.messageId == r.messageId && s.nextId == r.nextId
    requires s.sent == r.sent + [Sent(r.messageId, ResultStarted(id, name)), Sent(r.messageId, ResultGrown(id, text)), Sent(r.messageId, ResultEnded(id, state))]
    requires CtxLike(AppendReply(r.context, r.messageId, [ToolResultBlock(id, name, Plain(text), state)]), s.context)
    requires Safety.Settled(r.(log := s.log), s, {id})
    ensures Joined(read, s)
  {
    hide AppendReply, Agree, RebuiltOf, Live, CallStates, AnsweredIds, Consistent, CtxLike, UniqueCalls, ApplyAll, ResultEvents;
    var es := ResultEvents(id, name, text, state);
    var b := ToolResultBlock(id, name, Plain(text), state);
    AddressedResult(r.messageId, id, name, text, state);
    var before, live := RebuiltOf(read, r.sent, r.messageId), Live(r.context, r.messageId);
    ResultAgrees(read, before, live, r.nextId, id, name, text, state, state, CallStates(r.context).Keys, AnsweredIds(r.context));
    Moved(read, r, s, es, [b]);
  }

  lemma {:induction false} PutResultMoved(read: Reader, r: Run, c: Call, result: ToolResult)
    requires Joined(read, r) && result.text != "" && c.id !in AnsweredIds(r.context)
    ensures Joined(read, PutResult(r, c, result))
  {
    hide AppendReply, SetState, CallStates, AnsweredIds, Consistent, Speaking, CtxLike, UniqueCalls;
    PutResultSettles(r, c, result);
    SetStateLike(r.context, c.id, CallState.Finished);
    AppendLike(r.context, SetState(r.context, c.id, CallState.Finished), r.messageId, [ToolResultBlock(c.id, c.name, Plain(result.text), StateFor(result.failed))]);
    ResultMoved(read, r, PutResult(r, c, result), c.id, c.name, result.text, StateFor(result.failed));
  }

  /** The events of an empty result. */
  lemma {:induction false} AddressedEmpty(to: MsgId, id: string, name: string, state: ResultState)
    ensures Addressed(to, ResultEvents(id, name, "", state)) == [Sent(to, ResultStarted(id, name)), Sent(to, ResultEnded(id, state))]
  {
    hide Addressed;
    AddressedOne(to, ResultStarted(id, name));
    AddressedOne(to, ResultEnded(id, state));
    AddressedAppend(to, [ResultStarted(id, name)], [ResultEnded(id, state)]);
    assert [ResultStarted(id, name)] + [] + [ResultEnded(id, state)] == [ResultStarted(id, name)] + [ResultEnded(id, state)];
  }

  lemma {:induction false} EmptyResultMoves(r: Run, c: Call, result: ToolResult)
    requires UniqueCalls(r.context) && result.text == ""
    ensures Moves(r, PutResult(r, c, result), ResultEvents(c.id, c.name, "", StateFor(result.failed)),
                  [ToolResultBlock(c.id, c.name, Plain(Placeholder(c.name)), StateFor(result.failed))])
  {
    hide AppendReply, SetState, CallStates, AnsweredIds, CtxLike, UniqueCalls, ResultEvents, Placeholder;
    AddressedEmpty(r.messageId, c.id, c.name, StateFor(result.failed));
    PutResultSettles(r, c, result);
    SetStateLike(r.context, c.id, CallState.Finished);
    AppendLike(r.context, SetState(r.context, c.id, CallState.Finished), r.messageId,
               [ToolResultBlock(c.id, c.name, Plain(Placeholder(c.name)), StateFor(result.failed))]);
  }

  /** Two messages that said the same so far, with one result more each, say the same only if the results do. */
  lemma {:induction false} ResultsTell(host: seq<Block>, live: seq<Block>, a: Block, b: Block)
    requires ViewOf(host) == ViewOf(live) && a.ToolResultBlock? && b.ToolResultBlock?
    ensures Flat(host + [a], Assistant) == Flat(live + [b], Assistant) <==> BreakMessage(a) == BreakMessage(b)
  {
    hide ViewOf, Flat, Sealed, BreakMessage;
    ViewAfterBreak(host, a);
    ViewAfterBreak(live, b);
    FlatIsSealed(host + [a]);
    FlatIsSealed(live + [b]);
    var out := Sealed(ViewOf(host));
    SealedNothing(out + [BreakMessage(a)]);
    SealedNothing(out + [BreakMessage(b)]);
    assert (out + [BreakMessage(a)])[|out|] == BreakMessage(a) && (out + [BreakMessage(b)])[|out|] == BreakMessage(b);
  }

  lemma SealedNothing(out: seq<Message>)
    ensures Sealed(View(out, NOTHING)) == out
  {
  }

  lemma {:induction false} FlatBare(a: seq<Block>, b: seq<Block>)
    requires SameBare(a, b)
    ensures Flat(a, Assistant) == Flat(b, Assistant)
  {
    hide ViewOf, Flat, SameBare;
    ViewBare(a, b);
    FlatIsSealed(a);
    FlatIsSealed(b);
  }

  lemma {:induction false} EmptyResultTells(read: Reader, r: Run, c: Call, result: ToolResult)
    requires Joined(read, r) && c.id !in AnsweredIds(r.context) && result.text == ""
    ensures var s := PutResult(r, c, result);
      Flat(RebuiltOf(read, s.sent, r.messageId).content, Assistant) != Flat(Live(s.context, r.messageId), Assistant)
  {
    hide AppendReply, SetState, CallStates, AnsweredIds, Consistent, CtxLike, UniqueCalls, ResultEvents, RebuiltOf, Live, ViewOf, Has, Flat, SameBare, PutResult, Moves, ApplyAll;
    var s, state := PutResult(r, c, result), StateFor(result.failed);
    var before, live := RebuiltOf(read, r.sent, r.messageId), Live(r.context, r.messageId);
    var es, b := ResultEvents(c.id, c.name, "", state), ToolResultBlock(c.id, c.name, Plain(Placeholder(c.name)), state);
    var rebuilt := ToolResultBlock(c.id, c.name, Blocks([]), state);
    EmptyResultMoves(r, c, result);
    RebuiltMoves(read, r, s, es, [b], r.messageId);
    LiveMoves(r, s, es, [b], r.messageId);
    ResultRebuilt(read, before, c.id, c.name, "", state);
    FlatBare(ApplyAll(read, before, es).content, before.content + [rebuilt]);
    FlatBare(live + [b], Live(s.context, r.messageId));
    ResultsTell(before.content, live, rebuilt, b);
    OneText("");
    assert Placeholder(c.name)[0] == '[';
  }

  /**
   * After a result of a call not answered before, what the host has rebuilt and what the runner has
   * written say the same to the provider if and only if the tool returned some text.
   */
  lemma {:induction false} ResultAgreesIff(read: Reader, r: Run, c: Call, result: ToolResult)
    requires Joined(read, r) && c.id !in AnsweredIds(r.context)
    ensures var s := PutResult(r, c, result);
      Flat(RebuiltOf(read, s.sent, r.messageId).content, Assistant) == Flat(Live(s.context, r.messageId), Assistant) <==> result.text != ""
  {
    hide AnsweredIds, Consistent, UniqueCalls, RebuiltOf, Live, ViewOf, Flat, PutResult, Tidy, CallStates;
    var s := PutResult(r, c, result);
    if result.text == "" {
      EmptyResultTells(read, r, c, result);
    } else {
      PutResultMoved(read, r, c, result);
      PutResultKeepsId(r, c, result);
      FlatIsSealed(RebuiltOf(read, s.sent, r.messageId).content);
      FlatIsSealed(Live(s.context, r.messageId));
    }
  }

  lemma PutResultKeepsId(r: Run, c: Call, result: ToolResult)
    ensures PutResult(r, c, result).messageId == r.messageId
  {
  }

  lemma {:induction false} PutDeniedMoved(read: Reader, r: Run, c: Call)
    requires Joined(read, r) && c.id !in AnsweredIds(r.context)
    ensures Joined(read, PutDenied(r, c))
  {
    hide AppendReply, SetState, CallStates, AnsweredIds, Consistent, Speaking, CtxLike, UniqueCalls;
    var text := DeniedText(c.name);
    assert text[0] == '[';
    PutDeniedSettles(r, c);
    SetStateLike(AppendReply(r.context, r.messageId, [ToolResultBlock(c.id, c.name, Plain(text), Denied)]), c.id, CallState.Finished);
    ResultMoved(read, r, PutDenied(r, c), c.id, c.name, text, Denied);
  }

  /** Every tool comes back with some text. */
  ghost predicate Textful(outcomes: string -> ToolOutcome)
  {
    forall id :: outcomes(id).Returned? ==> outcomes(id).text != ""
  }

  lemma {:induction false} GatheredTextful(calls: seq<Call>, outcomes: string -> ToolOutcome, cancelled: bool)
    requires Textful(outcomes)
    ensures |GatherAll(calls, outcomes, cancelled)| == |calls|
    ensures forall i :: 0 <= i < |calls| ==> GatherAll(calls, outcomes, cancelled)[i].text != ""
  {
    if calls != [] {
      GatheredTextful(calls[..|calls| - 1], outcomes, cancelled);
      assert |INTERRUPTED_TEXT| > 0;
    }
  }

  lemma {:induction false} PutResultsMoved(read: Reader, r: Run, calls: seq<Call>, results: seq<ToolResult>)
    requires Joined(read, r) && |calls| == |results| && DistinctIds(calls)
    requires forall i :: 0 <= i < |calls| ==> results[i].text != "" && calls[i].id !in AnsweredIds(r.context)
    ensures Joined(read, PutResults(r, calls, results))
  {
    hide Consistent, Speaking, PutResult, CallStates, AnsweredIds, UniqueCalls, IdSet;
    if calls != [] {
      var n := |calls| - 1;
      PutResultsMoved(read, r, calls[..n], results[..n]);
      PutResultsSettle(r, calls[..n], results[..n]);
      InIdSet(calls[..n], calls[n].id);
      PutResultMoved(read, PutResults(r, calls[..n], results[..n]), calls[n], results[n]);
    }
  }

  lemma {:induction false} PutAllDeniedMoved(read: Reader, r: Run, calls: seq<Call>)
    requires Joined(read, r) && DistinctIds(calls)
    requires forall i :: 0 <= i < |calls| ==> calls[i].id !in AnsweredIds(r.context)
    ensures Joined(read, PutAllDenied(r, calls))
  {
    hide Consistent, Speaking, PutDenied, CallStates, AnsweredIds, UniqueCalls, IdSet;
    if calls != [] {
      var n := |calls| - 1;
      PutAllDeniedMoved(read, r, calls[..n]);
      PutAllDeniedSettles(r, calls[..n]);
      InIdSet(calls[..n], calls[n].id);
      PutDeniedMoved(read, PutAllDenied(r, calls[..n]), calls[n]);
    }
  }

  /** Only the trace changes. */
  lemma NotedJoined(read: Reader, r: Run, log: seq<Execution>)
    requires Joined(read, r)
    ensures Joined(read, r.(log := log))
  {
    hide AppendReply, Agree, RebuiltOf, Live, CallStates, AnsweredIds, UniqueCalls, ToollessAt;
    forall id
      ensures Kept(read, r.(log := log), id)
    {
      assert Kept(read, r, id);
    }
  }

  lemma {:induction false} ExecuteMoved(read: Reader, r: Run, calls: seq<Call>, env: Env)
    requires Joined(read, r) && DistinctIds(calls) && Textful(env.outcomes)
    requires forall i :: 0 <= i < |calls| ==> calls[i].id !in AnsweredIds(r.context)
    ensures Joined(read, Execute(r, calls, env).0)
  {
    hide Joined, PutResults, PutHints, AnsweredIds, CallsInState, GatherAll, Textful, DistinctIds;
    SpawnLogs(r, calls);
    var spawned := Spawn(r, calls);
    NotedJoined(read, r, spawned.log);
    GatherLength(calls, env.outcomes, env.toolsCancelled);
    GatheredTextful(calls, env.outcomes, env.toolsCancelled);
    var results := GatherAll(calls, env.outcomes, env.toolsCancelled);
    PutResultsMoved(read, spawned, calls, results);
    HintsMoved(read, PutResults(spawned, calls, results), HintsOf(results));
  }

  lemma {:induction false} HoldOneMoved(read: Reader, r: Run, c: Call)
    requires Joined(read, r)
    ensures Joined(read, Emit(Mark(r, c.id, Asking), ConfirmRequired(c.id, c.name)))
  {
    hide AppendReply, SetState, Agree, RebuiltOf, Live, CallStates, AnsweredIds, Consistent, CtxLike, UniqueCalls, Apply;
    var s := Emit(Mark(r, c.id, Asking), ConfirmRequired(c.id, c.name));
    var e := ConfirmRequired(c.id, c.name);
    MarkLedger(r.context, c.id, Asking);
    SetStateLike(r.context, c.id, Asking);
    AppendNothing(r.context, r.messageId);
    AddressedOne(r.messageId, e);
    var before, live := RebuiltOf(read, r.sent, r.messageId), Live(r.context, r.messageId);
    var calls, results := CallStates(r.context).Keys, AnsweredIds(r.context);
    ConfirmAgrees(read, before, live, r.nextId, c.id, c.name, calls, results);
    AgreeMore(Apply(read, before, e), live, r.nextId, s.nextId, calls, CallStates(s.context).Keys, results, AnsweredIds(s.context));
    OneEvent(read, before, e);
    assert live + [] == live;
    Moved(read, r, s, [e], []);
  }

  lemma {:induction false} HoldMoved(read: Reader, r: Run, asOf: seq<Msg>, decide: Call -> Behavior, calls: seq<Call>)
    requires Joined(read, r)
    ensures Joined(read, HoldAsked(r, asOf, decide, calls))
  {
    hide Joined, Classify;
    if calls != [] {
      HoldMoved(read, r, asOf, decide, calls[..|calls| - 1]);
      HoldOneMoved(read, HoldAsked(r, asOf, decide, calls[..|calls| - 1]), calls[|calls| - 1]);
    }
  }

  /** An action of the acting phase keeps everything in agreement. */
  lemma {:induction false} ActMoved(read: Reader, r: Run, calls: seq<Call>, env: Env)
    requires Joined(read, r) && DistinctIds(calls) && Textful(env.outcomes)
    requires forall i :: 0 <= i < |calls| ==> calls[i].id !in AnsweredIds(r.context)
    ensures Joined(read, Act(r, calls, env).0)
  {
    hide Joined, Execute, HoldAsked, AllAllowed, AnyAsk, Textful, DistinctIds, AnsweredIds;
    if AllAllowed(r.context, env.decide, calls) {
      ExecuteMoved(read, r, calls, env);
    } else {
      HoldMoved(read, r, r.context, env.decide, calls);
    }
  }

  // ---------------------------------------------------------------------------
  // Reasoning
  // ---------------------------------------------------------------------------

  lemma {:induction false} AttemptNextId(read: Reader, nextId: nat, input: AttemptInput)
    ensures nextId <= RunAttempt(read, nextId, input).nextId
  {
    hide RunAttempt, Concluded, Tracked, Spoke;
    ConcludedIs(read, nextId, input);
    ConcludedTracked(read, nextId, input);
    TrackedLocal(read, Concluded(read, nextId, input).0, nextId);
  }

  lemma {:induction false} AttemptsNextId(read: Reader, k: nat, max: nat, so: ReasonDone, inputs: nat -> AttemptInput)
    requires k < max
    ensures so.nextId <= RunAttempts(read, k, max, so, inputs).nextId
    decreases max - k
  {
    hide RunAttempt, Unretryable;
    var input := inputs(k);
    var d := RunAttempt(read, so.nextId, input);
    AttemptNextId(read, so.nextId, input);
    if d.end.FailedWith? && input.waiting == Undisturbed && ShouldRetry(d.end.error, input.advice, k == max - 1) {
      var now := ReasonDone(so.events + d.events, so.blocks + d.blocks, d.nextId, TurnCancelled, so.snapshots + [so.blocks]);
      AttemptsNextId(read, k + 1, max, now.(events := now.events + [Retrying(d.end.error.code, k + 1)]), inputs);
    }
  }

  lemma {:induction false} ReasonNextId(read: Reader, hint: Option<string>, maxRetries: nat, nextId: nat, inputs: nat -> AttemptInput)
    ensures nextId <= Reason(read, hint, maxRetries, nextId, inputs).nextId
  {
    hide RunAttempts;
    AttemptsNextId(read, 0, 1 + maxRetries, ReasonStart(hint, nextId), inputs);
  }

  /** A reasoning action of orderly attempts with new calls keeps everything in agreement. */
  lemma {:induction false} ReasonedMoved(c: Config, read: Reader, r: Run, hint: Option<string>, env: Env)
    requires Joined(read, r) && c.read == read && OrderlyReason(read, hint, c.maxRetries, r.nextId, env.attempts)
    requires FreshCalls(CallsIn(Reason(read, hint, c.maxRetries, r.nextId, env.attempts).end), UsedIds(r.context))
    ensures Joined(read, Reasoned(r, Reason(read, hint, c.maxRetries, r.nextId, env.attempts)))
  {
    hide AppendReply, Agree, RebuiltOf, Live, CallStates, AnsweredIds, Consistent, CtxLike, UniqueCalls, ApplyAll, Reason, Wrote, OrderlyReason, IdSet, Snapshots, Addressed, DistinctIds;
    var d := Reason(read, hint, c.maxRetries, r.nextId, env.attempts);
    var calls := CallsIn(d.end);
    var s := Reasoned(r, d);
    ReasonWrote(read, hint, c.maxRetries, r.nextId, env.attempts);
    ReasonNextId(read, hint, c.maxRetries, r.nextId, env.attempts);
    WroteLedger(d.blocks, calls);
    OpenedIs(calls);
    AppendLedger(r.context, r.messageId, d.blocks);
    CtxLikeSelf(s.context);
    ReasonAgrees(read, hint, c.maxRetries, r.nextId, env.attempts, RebuiltOf(read, r.sent, r.messageId), Live(r.context, r.messageId),
                 CallStates(r.context).Keys, AnsweredIds(r.context));
    assert CallStates(s.context).Keys == CallStates(r.context).Keys + IdSet(calls);
    assert AnsweredIds(s.context) == AnsweredIds(r.context) + {} == AnsweredIds(r.context);
    Moved(read, r, s, d.events, d.blocks);
  }

  // ---------------------------------------------------------------------------
  // Host messages and new replies
  // ---------------------------------------------------------------------------

  ghost predicate Steady(read: Reader, r: Run) { Consistent(read, r) && UniqueCalls(r.context) }

  lemma {:induction false} KnownIdIff(context: seq<Msg>, id: MsgId)
    ensures KnownId(context, id) <==> exists i :: 0 <= i < |context| && context[i].id == id
  {
    if context != [] {
      KnownIdIff(context[..|context| - 1], id);
      if i :| 0 <= i < |context| && context[i].id == id {
        assert i < |context| - 1 ==> context[..|context| - 1][i].id == id;
      }
    }
  }

  lemma {:induction false} NoneSent(sent: seq<Sent>, id: MsgId)
    requires forall i :: 0 <= i < |sent| ==> sent[i].to != id
    ensures SentTo(sent, id) == []
  {
    if sent != [] { NoneSent(sent[..|sent| - 1], id); }
  }

  /** A new message that nobody has spoken about yet. */
  ghost predicate NewId(r: Run, id: MsgId)
  {
    && (forall i :: 0 <= i < |r.context| ==> r.context[i].id != id)
    && SentTo(r.sent, id) == []
  }

  lemma {:induction false} DrawnIsNew(r: Run)
    requires Bounded(r)
    ensures NewId(r, Drawn(r.nextId))
  {
    hide SentTo;
    NoneSent(r.sent, Drawn(r.nextId));
  }

  lemma {:induction false} HostIsNew(read: Reader, r: Run, name: string)
    requires Consistent(read, r) && !KnownId(r.context, Host(name))
    ensures NewId(r, Host(name))
  {
    hide SentTo, Agrees, Bounded, ToollessAt, KnownId;
    KnownIdIff(r.context, Host(name));
    assert Kept(read, r, Host(name));
  }

  /** Adding a host message with a new id. */
  lemma {:induction false} AddedKept(read: Reader, r: Run, s: Run, m: Msg)
    requires Consistent(read, r) && NewId(r, m.id) && Toolless(m.content) && Below(m.id, s.nextId)
    requires s.context == r.context + [m] && s.sent == r.sent && r.nextId <= s.nextId && SameLedger(r, s)
    ensures Consistent(read, s)
  {
    hide SentTo, Agree, RebuiltOf, Live, CallStates, AnsweredIds, UniqueCalls, Toolless;
    forall id
      ensures Kept(read, s, id)
    {
      assert Kept(read, r, id);
      LiveSnoc(r.context, m, id);
      if id == m.id {
        assert ToollessAt(s.context, id);
      } else if HostOwned(r, id) {
        assert ToollessAt(s.context, id);
      } else {
        AgreeMore(RebuiltOf(read, r.sent, id), Live(r.context, id), r.nextId, s.nextId, CallStates(r.context).Keys, CallStates(s.context).Keys,
                  AnsweredIds(r.context), AnsweredIds(s.context));
      }
    }
  }

  lemma {:induction false} AddRawSteady(read: Reader, r: Run, m: HostMsg)
    requires Steady(read, r) && Toolless(m.blocks)
    ensures Steady(read, AddRaw(r, m))
  {
    hide CallStates, AnsweredIds, UniqueCalls, Toolless, Consistent, KnownId, NewId, SameLedger;
    AddRawLedger(r, m);
    var s := AddRaw(r, m);
    SameLedgerUnique(r, s);
    if s.context != r.context {
      var added := s.context[|r.context|];
      assert s.context == r.context + [added];
      ConsistentBounded(read, r);
      if m.id.Some? && m.id.value != "" {
        HostIsNew(read, r, m.id.value);
      } else {
        DrawnIsNew(r);
      }
      AddedKept(read, r, s, added);
    }
  }

  lemma SameLedgerUnique(a: Run, b: Run)
    requires SameLedger(a, b)
    ensures UniqueCalls(b.context)
  {
  }

  lemma ConsistentBounded(read: Reader, r: Run)
    requires Consistent(read, r)
    ensures Bounded(r)
  {
  }

  lemma {:induction false} AddRawsSteady(read: Reader, r: Run, ms: seq<HostMsg>)
    requires Steady(read, r) && AllToolless(ms)
    ensures Steady(read, AddRaws(r, ms))
  {
    hide Steady, AddRaw, Toolless;
    if ms != [] {
      AddRawsSteady(read, r, ms[..|ms| - 1]);
      AddRawSteady(read, AddRaws(r, ms[..|ms| - 1]), ms[|ms| - 1]);
    }
  }

  lemma {:induction false} NewLive(context: seq<Msg>, id: MsgId)
    requires forall i :: 0 <= i < |context| ==> context[i].id != id
    ensures Live(context, id) == []
  {
    hide FindReply;
  }

  lemma {:induction false} NothingAgrees(nextId: nat, calls: set<string>, results: set<string>)
    ensures Agree(Rebuilt([], map[]), [], nextId, calls, results)
  {
  }

  /** The runner moves on to a new reply message. */
  lemma {:induction false} DrawnJoined(read: Reader, r: Run)
    requires Steady(read, r)
    ensures Joined(read, r.(messageId := Drawn(r.nextId), nextId := r.nextId + 1))
  {
    hide Agree, Live, CallStates, AnsweredIds, UniqueCalls, ToollessAt, SentTo;
    var id, s := Drawn(r.nextId), r.(messageId := Drawn(r.nextId), nextId := r.nextId + 1);
    DrawnIsNew(r);
    NewLive(r.context, id);
    NoEvents(read, Rebuilt([], map[]));
    NothingAgrees(s.nextId, CallStates(s.context).Keys, AnsweredIds(s.context));
    forall x
      ensures Kept(read, s, x)
    {
      assert Kept(read, r, x);
      if !HostOwned(r, x) {
        AgreeMore(RebuiltOf(read, r.sent, x), Live(r.context, x), r.nextId, s.nextId, CallStates(r.context).Keys, CallStates(r.context).Keys,
                  AnsweredIds(r.context), AnsweredIds(r.context));
      }
    }
  }

  /** Fields that messages do not depend on. */
  lemma SameMessages(read: Reader, r: Run, s: Run)
    requires s.context == r.context && s.sent == r.sent && s.nextId == r.nextId
    ensures Steady(read, r) ==> Steady(read, s)
    ensures Joined(read, r) && s.messageId == r.messageId ==> Joined(read, s)
  {
    hide Agree, Live, CallStates, AnsweredIds, UniqueCalls, ToollessAt, SentTo;
    if Consistent(read, r) {
      forall x
        ensures Kept(read, s, x)
      {
        assert Kept(read, r, x);
      }
    }
  }

  lemma {:induction false} StartMoved(read: Reader, r: Run, ms: seq<HostMsg>, maxContinuations: nat)
    requires Steady(read, r) && AllToolless(ms)
    ensures var m := Start(r, ms, maxContinuations); if m.phase.Loop? then Joined(read, m.run) else m.run == r
  {
    hide Steady, Joined, AddRaws, CallsInState, AllToolless;
    var reset := r.(status := Active, iteration := 0, emptyRetries := 0, inFinalization := false,
                    continuations := 0, maxContinuations := maxContinuations, requests := []);
    SameMessages(read, r, reset);
    AddRawsSteady(read, reset, ms);
    var added := AddRaws(reset, ms);
    DrawnJoined(read, added);
    SilentMoved(read, added.(messageId := Drawn(added.nextId), nextId := added.nextId + 1), ReplyStarted);
  }

  lemma {:induction false} FinishMoved(read: Reader, r: Run, reason: EndReason)
    requires Joined(read, r)
    ensures Joined(read, Finish(r, reason))
  {
    hide Joined;
    SameMessages(read, r, r.(status := Over(reason)));
    SilentMoved(read, r.(status := Over(reason)), ReplyEnded(reason));
  }

  lemma {:induction false} AddRawJoined(read: Reader, r: Run, m: HostMsg)
    requires Joined(read, r) && Toolless(m.blocks)
    ensures Joined(read, AddRaw(r, m)) && AddRaw(r, m).messageId == r.messageId
  {
    hide CallStates, AnsweredIds, UniqueCalls, Toolless, Consistent, KnownId, Agree, RebuiltOf, Live;
    AddRawSteady(read, r, m);
    AddRawLedger(r, m);
    var s := AddRaw(r, m);
    if s.context != r.context {
      var added := s.context[|r.context|];
      assert s.context == r.context + [added];
      LiveSnoc(r.context, added, r.messageId);
    }
    AgreeMore(RebuiltOf(read, r.sent, r.messageId), Live(r.context, r.messageId), r.nextId, s.nextId,
              CallStates(r.context).Keys, CallStates(s.context).Keys, AnsweredIds(r.context), AnsweredIds(s.context));
  }

  lemma {:induction false} AddRawsJoined(read: Reader, r: Run, ms: seq<HostMsg>)
    requires Joined(read, r) && AllToolless(ms)
    ensures Joined(read, AddRaws(r, ms)) && AddRaws(r, ms).messageId == r.messageId
  {
    hide Joined, AddRaw, Toolless;
    if ms != [] {
      AddRawsJoined(read, r, ms[..|ms| - 1]);
      AddRawJoined(read, AddRaws(r, ms[..|ms| - 1]), ms[|ms| - 1]);
    }
  }

  lemma {:induction false} RotateJoined(read: Reader, r: Run, ms: seq<HostMsg>)
    requires Joined(read, r)
    ensures Joined(read, Rotate(r, ms))
  {
    hide Consistent, Speaking, FindReply, HasUser;
    DrawnJoined(read, r);
  }

  // ---------------------------------------------------------------------------
  // Rounds
  // ---------------------------------------------------------------------------

  /** The run as it asks the model. */
  function Ready(r: Run, ms: seq<HostMsg>): Run { Rotate(AddRaws(r.(iteration := r.iteration + 1), ms), ms) }

  /**
   * What is asked of the outside in one turn: orderly streams when the model is asked, and some
   * text from every tool when tools run.
   */
  ghost predicate ClearTurn(c: Config, r: Run, prev: Option<TurnResult>, env: Env)
  {
    var (action, decided) := Decide(c, r, prev);
    match action
    case Reasoning(hint, _) =>
      env.hook.HookMessages? ==>
        OrderlyReason(c.read, hint, c.maxRetries, Ready(decided, env.hook.messages).nextId, env.attempts)
    case Acting(_) => Textful(env.outcomes)
    case Exiting(_) => true
  }

  ghost predicate ClearInput(c: Config, m: Machine, input: Input)
  {
    match input
    case StartReply(_, _) => true
    case Answer(_, _, _, env) => Textful(env.outcomes)
    case Turn(env) => m.phase.Loop? ==> ClearTurn(c, m.run, m.phase.prev, env)
  }

  lemma {:induction false} AskModelMoved(c: Config, r: Run, hint: Option<string>, env: Env)
    requires Joined(c.read, r) && OrderlyReason(c.read, hint, c.maxRetries, r.nextId, env.attempts)
    requires FreshTurn(r.context, AskModel(c, r, hint, env).phase)
    ensures Joined(c.read, AskModel(c, r, hint, env).run)
  {
    hide Joined, Reason, OrderlyReason, FreshCalls, UsedIds, Reasoned;
    NoFreshCalls(UsedIds(r.context));
    ReasonedMoved(c, c.read, r, hint, env);
    var d := Reason(c.read, hint, c.maxRetries, r.nextId, env.attempts);
    if d.end.TurnCancelled? { FinishMoved(c.read, Reasoned(r, d), EndReason.Interrupted); }
  }

  lemma {:induction false} ReasonRoundMoved(c: Config, r: Run, hint: Option<string>, env: Env)
    requires Joined(c.read, r) && UniqueCalls(r.context)
    requires env.hook.HookMessages? ==> AllToolless(env.hook.messages)
    requires env.hook.HookMessages? ==> OrderlyReason(c.read, hint, c.maxRetries, Ready(r, env.hook.messages).nextId, env.attempts)
    requires FreshTurn(r.context, ReasonRound(c, r, hint, env).phase)
    ensures Joined(c.read, ReasonRound(c, r, hint, env).run)
  {
    hide Joined, AskModel, AddRaws, Rotate, AllToolless, FreshCalls, OrderlyReason, UniqueCalls, CallStates, AnsweredIds;
    var counted := r.(iteration := r.iteration + 1);
    SameMessages(c.read, r, counted);
    match env.hook
    case HookMessages(ms) =>
      AddRawsJoined(c.read, counted, ms);
      AddRawsLedger(counted, ms);
      RotateJoined(c.read, AddRaws(counted, ms), ms);
      RotateContext(AddRaws(counted, ms), ms);
      AskModelMoved(c, Ready(r, ms), hint, env);
    case _ =>
      FinishMoved(c.read, counted, EndReason.Interrupted);
      FinishMoved(c.read, counted, Failure);
  }

  lemma RotateContext(r: Run, ms: seq<HostMsg>)
    ensures Rotate(r, ms).context == r.context
  {
  }

  lemma {:induction false} ActRoundMoved(read: Reader, r: Run, calls: seq<Call>, env: Env)
    requires Joined(read, r) && Untouched(calls, CallStates(r.context), AnsweredIds(r.context)) && Textful(env.outcomes)
    ensures Joined(read, ActRound(r, calls, env).run)
  {
    hide Joined, Act, Textful, CallStates, AnsweredIds, DistinctIds;
    ActMoved(read, r, calls, env);
    var after := Act(r, calls, env).0;
    SameMessages(read, after, after.(status := Paused));
    FinishMoved(read, after, EndReason.Interrupted);
  }

  lemma {:induction false} ExitRoundMoved(read: Reader, r: Run, reason: EndReason, env: Env)
    requires Joined(read, r)
    ensures Joined(read, ExitRound(r, reason, env).run)
  {
    hide Joined, PutHint;
    FinishMoved(read, r, reason);
    FinishMoved(read, r, EndReason.Interrupted);
    FinishMoved(read, r, Failure);
    if env.stop.Continue? {
      var more := r.(continuations := r.continuations + 1);
      SameMessages(read, r, more);
      HintMoved(read, more, env.stop.prompt);
    }
  }

  lemma {:induction false} RoundMoved(c: Config, m: Machine, env: Env)
    requires Safe(m) && m.phase.Loop? && Joined(c.read, m.run)
    requires env.hook.HookMessages? ==> AllToolless(env.hook.messages)
    requires FreshTurn(m.run.context, Round(c, m.run, m.phase.prev, env).phase)
    requires ClearTurn(c, m.run, m.phase.prev, env)
    ensures Joined(c.read, Round(c, m.run, m.phase.prev, env).run)
  {
    hide Safe, Consistent, Speaking, CallStates, AnsweredIds, UniqueCalls, SafeRun, Quiet, ReasonRound, ActRound, ExitRound, AllToolless, FreshCalls, Textful, OrderlyReason, Untouched, Ready;
    SafeMeans(m);
    var (action, decided) := Decide(c, m.run, m.phase.prev);
    DecideKeeps(c, m.run, m.phase.prev);
    SameMessages(c.read, m.run, decided);
    match action
    case Reasoning(hint, _) => ReasonRoundMoved(c, decided, hint, env);
    case Acting(calls) => ActRoundMoved(c.read, decided, calls, env);
    case Exiting(reason) => ExitRoundMoved(c.read, decided, reason, env);
  }

  lemma DecideKeeps(c: Config, r: Run, prev: Option<TurnResult>)
    ensures var (action, decided) := Decide(c, r, prev);
      && decided.context == r.context && decided.sent == r.sent && decided.nextId == r.nextId && decided.messageId == r.messageId
      && (action.Acting? ==> prev.Some? && action.calls == prev.value.calls)
  {
  }

  // ---------------------------------------------------------------------------
  // Answers
  // ---------------------------------------------------------------------------

  lemma {:induction false} ToollessHasNone(bs: seq<Block>, id: string)
    requires Toolless(bs)
    ensures !HasCall(bs, id)
  {
    if bs != [] { ToollessHasNone(bs[..|bs| - 1], id); }
  }

  /** The message that holds a call is one of the runner's own. */
  lemma {:induction false} OwnerJoined(read: Reader, r: Run, id: string)
    requires Steady(read, r) && Owner(r.context, id) < |r.context|
    ensures Joined(read, r.(messageId := r.context[Owner(r.context, id)].id))
  {
    hide Agree, Live, CallStates, AnsweredIds, UniqueCalls, SentTo, Toolless, HasCall;
    var i := Owner(r.context, id);
    var to := r.context[i].id;
    assert Kept(read, r, to);
    if HostOwned(r, to) {
      assert Toolless(r.context[i].content);
      ToollessHasNone(r.context[i].content, id);
      assert false;
    }
    assert Below(r.context[i].id, r.nextId);
    SameMessages(read, r, r.(messageId := to));
  }

  lemma {:induction false} MarkedJoined(read: Reader, r: Run, id: string, state: CallState)
    requires Joined(read, r)
    ensures Joined(read, Mark(r, id, state))
  {
    hide AppendReply, SetState, Agree, RebuiltOf, Live, CallStates, AnsweredIds, Consistent, CtxLike, UniqueCalls, ApplyAll;
    var s := Mark(r, id, state);
    MarkLedger(r.context, id, state);
    SetStateLike(r.context, id, state);
    AppendNothing(r.context, r.messageId);
    AddressedOne(r.messageId, ReplyStarted);
    assert r.sent + [] == r.sent;
    var live := Live(r.context, r.messageId);
    assert live + [] == live;
    NoEvents(read, RebuiltOf(read, r.sent, r.messageId));
    AgreeMore(RebuiltOf(read, r.sent, r.messageId), live, r.nextId, s.nextId, CallStates(r.context).Keys, CallStates(s.context).Keys,
              AnsweredIds(r.context), AnsweredIds(s.context));
    Moved(read, r, s, [], []);
  }

  lemma {:induction false} AcceptMoved(read: Reader, r: Run, id: string, approved: bool)
    requires Steady(read, r)
    ensures var (at, acceptance) := Accept(r, id, approved);
      Steady(read, at) && (!acceptance.Rejected? ==> Joined(read, at))
  {
    hide Consistent, Speaking, UniqueCalls, SetState, CallsInState, StateOf, Owner;
    var owner := Owner(r.context, id);
    if owner < |r.context| {
      OwnerJoined(read, r, id);
      var at := r.(messageId := r.context[owner].id);
      var expected := if approved then Allowed else CallState.Finished;
      MarkedJoined(read, at, id, expected);
    }
  }

  lemma {:induction false} DeniedFacts(context: seq<Msg>)
    requires UniqueCalls(context)
    ensures var calls := Split(PendingCalls(context), false);
      PendingIs(IdSet(calls), CallStates(context), AnsweredIds(context), false) && DistinctIds(calls)
  {
    PendingPart(AllBlocks(context), AnsweredIds(context), false);
  }

  lemma {:induction false} InIds(calls: seq<Call>)
    ensures forall i :: 0 <= i < |calls| ==> calls[i].id in IdSet(calls)
  {
    forall i | 0 <= i < |calls|
      ensures calls[i].id in IdSet(calls)
    {
      InIdSet(calls, calls[i].id);
    }
  }

  lemma {:induction false} ResumeMoved(read: Reader, r: Run, env: Env)
    requires Joined(read, r) && Textful(env.outcomes)
    ensures Joined(read, Resume(r, env).0)
  {
    hide Consistent, Speaking, CallStates, AnsweredIds, UniqueCalls, Execute, PutAllDenied, Unanswered, Split, DistinctIds, Textful, IdSet;
    var pending := PendingCalls(r.context);
    var allowed, denied := Split(pending, true), Split(pending, false);
    PendingFacts(r.context);
    DeniedFacts(r.context);
    InIds(allowed);
    InIds(denied);
    var done := if allowed == [] then r else Execute(r, allowed, env).0;
    if allowed != [] {
      ExecuteMoved(read, r, allowed, env);
      ExecuteSettles(r, allowed, env);
      SpawnLogs(r, allowed);
    }
    PutAllDeniedMoved(read, done, denied);
  }

  lemma {:induction false} AnsweredMoved(read: Reader, r: Run, id: string, approved: bool, maxContinuations: nat, env: Env)
    requires Steady(read, r) && Textful(env.outcomes)
    ensures var m := Answered(r, id, approved, maxContinuations, env);
      Steady(read, m.run) && (m.phase.Loop? ==> Joined(read, m.run))
  {
    hide Consistent, Speaking, UniqueCalls, Accept, Resume, Textful;
    var fresh' := r.(continuations := 0, maxContinuations := maxContinuations);
    SameMessages(read, r, fresh');
    AcceptMoved(read, fresh', id, approved);
    var (at, acceptance) := Accept(fresh', id, approved);
    SameMessages(read, at, at.(status := Paused));
    if acceptance.Complete? {
      SameMessages(read, at, at.(status := Active));
      ResumeMoved(read, at.(status := Active), env);
      FinishMoved(read, Resume(at.(status := Active), env).0, Failure);
    }
  }

  // ---------------------------------------------------------------------------
  // Whole lives
  // ---------------------------------------------------------------------------

  /** Host and runner agree on every message, and the runner's own message is the current one inside a run. */
  ghost predicate Projected(read: Reader, m: Machine)
  {
    Steady(read, m.run) && (m.phase.Loop? ==> Joined(read, m.run))
  }

  ghost predicate ClearLife(c: Config, m: Machine, inputs: seq<Input>)
  {
    inputs == [] || (ClearLife(c, m, inputs[..|inputs| - 1]) && ClearInput(c, Life(c, m, inputs[..|inputs| - 1]), inputs[|inputs| - 1]))
  }

  lemma JoinedIsSteady(read: Reader, r: Run)
    requires Joined(read, r)
    ensures Steady(read, r)
  {
    hide Consistent, UniqueCalls, Speaking;
  }

  lemma {:induction false} AdvanceProjected(c: Config, m: Machine, input: Input)
    requires Safe(m) && Projected(c.read, m) && Fair(c, m, input) && ClearInput(c, m, input)
    ensures Projected(c.read, Advance(c, m, input))
  {
    hide Safe, Steady, Joined, Start, Answered, Round, AllToolless, FreshTurn, Textful, ClearTurn;
    match input
    case StartReply(ms, maxContinuations) =>
      if m.phase.AtRest? {
        StartMoved(c.read, m.run, ms, maxContinuations);
        var s := Start(m.run, ms, maxContinuations);
        if s.phase.Loop? { JoinedIsSteady(c.read, s.run); }
      }
    case Answer(id, approved, maxContinuations, env) =>
      if m.phase.AtRest? { AnsweredMoved(c.read, m.run, id, approved, maxContinuations, env); }
    case Turn(env) =>
      if m.phase.Loop? {
        RoundMoved(c, m, env);
        JoinedIsSteady(c.read, Round(c, m.run, m.phase.prev, env).run);
      }
  }

  lemma {:induction false} AlwaysProjected(c: Config, m: Machine, inputs: seq<Input>)
    requires Safe(m) && Projected(c.read, m) && FairLife(c, m, inputs) && ClearLife(c, m, inputs)
    ensures Projected(c.read, Life(c, m, inputs))
  {
    hide Safe, Projected, Fair, ClearInput, Advance;
    if inputs != [] {
      var before := inputs[..|inputs| - 1];
      AlwaysProjected(c, m, before);
      AlwaysSafe(c, m, before);
      AdvanceProjected(c, Life(c, m, before), inputs[|inputs| - 1]);
    }
  }

  lemma {:induction false} NewIsProjected(c: Config, m: Machine)
    requires m.run.context == [] && m.run.sent == [] && m.phase == AtRest
    ensures Projected(c.read, m)
  {
    assert AllBlocks([]) == [];
    forall id
      ensures Kept(c.read, m.run, id)
    {
      assert SentTo([], id) == [];
    }
  }

  /**
   * For every life of a new agent whose host writes no calls, whose providers reuse no call id and
   * send orderly streams, and whose tools return some text: for every message the runner has spoken
   * about, what a host rebuilds from the events flattens to the same provider messages as what the
   * runner wrote into the context.
   */
  lemma {:induction false} EventsProjectContext(c: Config, m: Machine, inputs: seq<Input>, id: MsgId)
    requires m.run.context == [] && m.run.sent == [] && m.run.log == [] && m.phase == AtRest
    requires FairLife(c, m, inputs) && ClearLife(c, m, inputs)
    requires SentTo(Life(c, m, inputs).run.sent, id) != []
    ensures var r := Life(c, m, inputs).run;
      Flat(RebuiltOf(c.read, r.sent, id).content, Assistant) == Flat(Live(r.context, id), Assistant)
  {
    hide Safe, Life, FairLife, ClearLife, Live, RebuiltOf, Tidy, ViewOf, Flat, SentTo, ToollessAt, Bounded, UniqueCalls, CallStates, AnsweredIds;
    NewIsSafe(m);
    NewIsProjected(c, m);
    AlwaysProjected(c, m, inputs);
    var r := Life(c, m, inputs).run;
    assert Kept(c.read, r, id);
    FlatIsSealed(RebuiltOf(c.read, r.sent, id).content);
    FlatIsSealed(Live(r.context, id));
  }
}
