/**
 * Where calls and results live: in every fair life each message keeps its shape, reply ids name one
 * message each, the calls in hand and the calls that wait belong to the current reply.
 */
module Anchors {
  import opened Prelude
  import opened Messages
  import opened Events
  import opened Context
  import opened Balance
  import opened Loss
  import opened Ledger
  import opened Reasoning
  import opened Runner
  import opened Safety
  import opened Views
  import opened Projection
  import Licence
  import Confluence
  import RunBalance

  /** Each reply id names one assistant message. */
  ghost predicate OneReplyEach(context: seq<Msg>)
  {
    forall i, j :: 0 <= i < j < |context| && context[i].role == Assistant && context[j].role == Assistant ==> context[i].id != context[j].id
  }

  ghost predicate Rooted(context: seq<Msg>, nextId: nat)
  {
    Shaped(context) && OneReplyEach(context) && forall i :: 0 <= i < |context| ==> Below(context[i].id, nextId)
  }

  /** The reply `id` holds the call. */
  ghost predicate Holds(context: seq<Msg>, id: MsgId, call: string) { HasCall(Live(context, id), call) }

  ghost predicate HoldsAll(context: seq<Msg>, id: MsgId, calls: seq<Call>)
  {
    forall i :: 0 <= i < |calls| ==> Holds(context, id, calls[i].id)
  }

  ghost predicate HoldsWaiting(context: seq<Msg>, id: MsgId)
  {
    forall x :: x in Confluence.AskingIds(context) ==> Holds(context, id, x)
  }

  ghost predicate Anchored(m: Machine)
  {
    && Rooted(m.run.context, m.run.nextId)
    && (forall i :: 0 <= i < |m.run.requests| ==> Shaped(m.run.requests[i]))
    && (m.phase.Loop? ==> Below(m.run.messageId, m.run.nextId))
    && (m.phase.Loop? && m.phase.prev.Some? ==> HoldsAll(m.run.context, m.run.messageId, m.phase.prev.value.calls))
    && (m.phase.AtRest? ==> exists id :: HoldsWaiting(m.run.context, id))
  }

  // ---------------------------------------------------------------------------
  // One write
  // ---------------------------------------------------------------------------

  lemma {:induction false} NoReply(context: seq<Msg>, id: MsgId, i: nat)
    requires FindReply(context, id) == |context| && i < |context|
    ensures !(context[i].role == Assistant && context[i].id == id)
  {
    if i < |context| - 1 { NoReply(context[..|context| - 1], id, i); }
  }

  /** The blocks do not begin with a result, or they follow something. */
  ghost predicate Follows(bs: seq<Block>, live: seq<Block>)
  {
    bs != [] && bs[0].ToolResultBlock? ==> live != []
  }

  lemma {:induction false} AppendShaped(context: seq<Msg>, id: MsgId, bs: seq<Block>)
    requires Shaped(context) && Follows(bs, Live(context, id))
    ensures Shaped(AppendReply(context, id, bs))
  {
    hide FindReply;
    var i := FindReply(context, id);
    if bs != [] && i < |context| {
      assert ShapedMsg(context[i]);
      assert (context[i].content + bs)[0] == if context[i].content == [] then bs[0] else context[i].content[0];
    }
  }

  lemma {:induction false} AppendRooted(context: seq<Msg>, id: MsgId, bs: seq<Block>, nextId: nat)
    requires Rooted(context, nextId) && Below(id, nextId) && Follows(bs, Live(context, id))
    ensures Rooted(AppendReply(context, id, bs), nextId)
  {
    hide FindReply, Shaped, Follows, Live;
    AppendShaped(context, id, bs);
    if FindReply(context, id) == |context| {
      forall i | 0 <= i < |context|
        ensures !(context[i].role == Assistant && context[i].id == id)
      {
        NoReply(context, id, i);
      }
    }
  }

  lemma {:induction false} SetStateRooted(context: seq<Msg>, call: string, state: CallState, nextId: nat)
    requires Rooted(context, nextId)
    ensures Rooted(SetState(context, call, state), nextId)
  {
    hide Owner, SetState, Toolless, HasCall;
    SetStateAt(context, call, state);
    var i := Owner(context, call);
    if i < |context| {
      var m := context[i];
      assert ShapedMsg(m);
      if m.role != Assistant { ToollessHasNone(m.content, call); }
      assert ShapedMsg(m.(content := WithCallState(m.content, call, state)));
    }
  }

  lemma {:induction false} AddRawRooted(r: Run, m: HostMsg)
    requires Rooted(r.context, r.nextId) && Toolless(m.blocks)
    ensures var s := AddRaw(r, m); Rooted(s.context, s.nextId) && r.nextId <= s.nextId && s.messageId == r.messageId && s.requests == r.requests
  {
    hide KnownId, Toolless;
    var s := AddRaw(r, m);
    if s.context != r.context {
      var added := s.context[|r.context|];
      assert s.context == r.context + [added];
      if m.blocks != [] { ToollessFirst(m.blocks); }
      assert ShapedMsg(added);
      forall i | 0 <= i < |r.context|
        ensures r.context[i].id != added.id
      {
        if added.id.Host? { UnknownIds(r.context, added.id, i); } else { assert Below(r.context[i].id, r.nextId); }
      }
    }
  }

  lemma {:induction false} UnknownIds(context: seq<Msg>, id: MsgId, i: nat)
    requires !KnownId(context, id) && i < |context|
    ensures context[i].id != id
  {
    if i < |context| - 1 { UnknownIds(context[..|context| - 1], id, i); }
  }

  lemma {:induction false} AddRawsRooted(r: Run, ms: seq<HostMsg>)
    requires Rooted(r.context, r.nextId) && AllToolless(ms)
    ensures var s := AddRaws(r, ms); Rooted(s.context, s.nextId) && r.nextId <= s.nextId && s.messageId == r.messageId && s.requests == r.requests
  {
    hide Rooted, AddRaw, Toolless;
    if ms != [] {
      AddRawsRooted(r, ms[..|ms| - 1]);
      AddRawRooted(AddRaws(r, ms[..|ms| - 1]), ms[|ms| - 1]);
    }
  }

  // ---------------------------------------------------------------------------
  // What a reply holds it keeps
  // ---------------------------------------------------------------------------

  lemma {:induction false} AppendHolds(context: seq<Msg>, to: MsgId, bs: seq<Block>, id: MsgId, call: string)
    requires Holds(context, id, call)
    ensures Holds(AppendReply(context, to, bs), id, call)
  {
    hide Live, AppendReply, HasCall, States;
    LiveAppend(context, to, bs, id);
    HasCallIff(Live(context, id), call);
    HasCallIff(Live(context, id) + bs, call);
    StatesAppend(Live(context, id), bs);
  }

  lemma {:induction false} BareHasCall(a: seq<Block>, b: seq<Block>, call: string)
    requires SameBare(a, b)
    ensures HasCall(a, call) <==> HasCall(b, call)
  {
    if a != [] {
      var n := |a| - 1;
      BareHasCall(a[..n], b[..n], call);
      assert Bare(a[n]) == Bare(b[n]);
    }
  }

  lemma {:induction false} SetStateHolds(context: seq<Msg>, other: string, state: CallState, id: MsgId, call: string)
    ensures Holds(SetState(context, other, state), id, call) <==> Holds(context, id, call)
    ensures |Live(SetState(context, other, state), id)| == |Live(context, id)|
  {
    hide Live, SetState, HasCall, CtxLike;
    SetStateLike(context, other, state);
    LiveLike(context, SetState(context, other, state), id);
    BareHasCall(Live(context, id), Live(SetState(context, other, state), id), call);
  }

  /** From `r` to `s` the current reply has gone on: roots, ids and holdings are kept. */
  ghost predicate GoesOn(r: Run, s: Run)
  {
    && s.messageId == r.messageId && r.nextId <= s.nextId && s.requests == r.requests
    && Rooted(s.context, s.nextId) && Live(s.context, s.messageId) != []
    && forall id, call :: Holds(r.context, id, call) ==> Holds(s.context, id, call)
  }

  lemma GoesOnTrans(r: Run, s: Run, t: Run)
    requires GoesOn(r, s) && GoesOn(s, t)
    ensures GoesOn(r, t)
  {
    hide Rooted, Live, Holds;
  }

  /** A run whose current reply has begun. */
  ghost predicate Begun(r: Run)
  {
    Rooted(r.context, r.nextId) && Below(r.messageId, r.nextId) && Live(r.context, r.messageId) != []
  }

  lemma BegunStays(r: Run, s: Run)
    requires Begun(r) && GoesOn(r, s)
    ensures Begun(s)
  {
    hide Rooted, Live, Holds;
  }

  lemma BegunGoesOn(r: Run)
    requires Begun(r)
    ensures GoesOn(r, r)
  {
    hide Rooted, Live, Holds;
  }

  lemma {:induction false} RootedLater(context: seq<Msg>, n: nat, later: nat)
    requires Rooted(context, n) && n <= later
    ensures Rooted(context, later)
  {
    hide Shaped, OneReplyEach;
    forall i | 0 <= i < |context|
      ensures Below(context[i].id, later)
    {
      assert Below(context[i].id, n);
    }
  }

  lemma {:induction false} WriteGoesOn(r: Run, b: Block, s: Run)
    requires Begun(r) && s.context == AppendReply(r.context, r.messageId, [b]) && s.messageId == r.messageId && s.requests == r.requests && r.nextId <= s.nextId
    ensures GoesOn(r, s)
  {
    hide Live, AppendReply, Holds, Rooted;
    AppendRooted(r.context, r.messageId, [b], r.nextId);
    RootedLater(s.context, r.nextId, s.nextId);
    LiveAppend(r.context, r.messageId, [b], r.messageId);
    forall id, call | Holds(r.context, id, call)
      ensures Holds(s.context, id, call)
    {
      AppendHolds(r.context, r.messageId, [b], id, call);
    }
  }

  lemma {:induction false} MarkGoesOn(r: Run, call: string, state: CallState, s: Run)
    requires Begun(r) && s.context == SetState(r.context, call, state) && s.messageId == r.messageId && s.requests == r.requests && s.nextId == r.nextId
    ensures GoesOn(r, s)
  {
    hide Live, SetState, Holds, Rooted;
    SetStateRooted(r.context, call, state, r.nextId);
    SetStateHolds(r.context, call, state, r.messageId, call);
    forall id, x | Holds(r.context, id, x)
      ensures Holds(s.context, id, x)
    {
      SetStateHolds(r.context, call, state, id, x);
    }
  }

  lemma {:induction false} PutResultGoesOn(r: Run, c: Call, result: ToolResult)
    requires Begun(r)
    ensures GoesOn(r, PutResult(r, c, result))
  {
    hide Begun, GoesOn, AppendReply, SetState;
    var s := Mark(r, c.id, CallState.Finished);
    var text := if result.text == "" then Placeholder(c.name) else result.text;
    MarkGoesOn(r, c.id, CallState.Finished, s);
    BegunStays(r, s);
    WriteGoesOn(s, ToolResultBlock(c.id, c.name, Plain(text), StateFor(result.failed)), PutResult(r, c, result));
    GoesOnTrans(r, s, PutResult(r, c, result));
  }

  lemma {:induction false} PutResultsGoOn(r: Run, calls: seq<Call>, results: seq<ToolResult>)
    requires Begun(r) && |calls| == |results|
    ensures GoesOn(r, PutResults(r, calls, results))
  {
    hide Begun, GoesOn, PutResult;
    if calls == [] {
      BegunGoesOn(r);
    } else {
      var n := |calls| - 1;
      var before := PutResults(r, calls[..n], results[..n]);
      PutResultsGoOn(r, calls[..n], results[..n]);
      BegunStays(r, before);
      PutResultGoesOn(before, calls[n], results[n]);
      GoesOnTrans(r, before, PutResults(r, calls, results));
    }
  }

  lemma {:induction false} PutHintsGoOn(r: Run, hints: seq<string>)
    requires Begun(r)
    ensures GoesOn(r, PutHints(r, hints))
  {
    hide Begun, GoesOn, AppendReply;
    if hints == [] {
      BegunGoesOn(r);
    } else {
      var before := PutHints(r, hints[..|hints| - 1]);
      PutHintsGoOn(r, hints[..|hints| - 1]);
      BegunStays(r, before);
      WriteGoesOn(before, HintBlock(before.nextId, hints[|hints| - 1]), PutHints(r, hints));
      GoesOnTrans(r, before, PutHints(r, hints));
    }
  }

  lemma {:induction false} ExecuteGoesOn(r: Run, calls: seq<Call>, env: Env)
    requires Begun(r)
    ensures GoesOn(r, Execute(r, calls, env).0)
  {
    hide GoesOn, Begun, PutResults, PutHints, GatherAll, CallsInState, Executions, Spawn;
    GatherLength(calls, env.outcomes, env.toolsCancelled);
    var results := GatherAll(calls, env.outcomes, env.toolsCancelled);
    var spawned := Spawn(r, calls);
    SpawnLogs(r, calls);
    LogGoesOn(r, spawned);
    BegunStays(r, spawned);
    var written := PutResults(spawned, calls, results);
    PutResultsGoOn(spawned, calls, results);
    BegunStays(spawned, written);
    PutHintsGoOn(written, HintsOf(results));
    GoesOnTrans(r, spawned, written);
    GoesOnTrans(r, written, Execute(r, calls, env).0);
  }

  lemma LogGoesOn(r: Run, s: Run)
    requires Begun(r) && s == r.(log := s.log)
    ensures GoesOn(r, s)
  {
    hide Rooted, Live, Holds;
  }

  lemma {:induction false} PutDeniedGoesOn(r: Run, c: Call)
    requires Begun(r)
    ensures GoesOn(r, PutDenied(r, c))
  {
    hide Begun, GoesOn, AppendReply, SetState;
    var b := ToolResultBlock(c.id, c.name, Plain(DeniedText(c.name)), Denied);
    var w := Write(r, [b]);
    WriteGoesOn(r, b, w);
    BegunStays(r, w);
    MarkGoesOn(w, c.id, CallState.Finished, PutDenied(r, c));
    GoesOnTrans(r, w, PutDenied(r, c));
  }

  lemma {:induction false} PutAllDeniedGoesOn(r: Run, calls: seq<Call>)
    requires Begun(r)
    ensures GoesOn(r, PutAllDenied(r, calls))
  {
    hide Begun, GoesOn, PutDenied;
    if calls == [] {
      BegunGoesOn(r);
    } else {
      var before := PutAllDenied(r, calls[..|calls| - 1]);
      PutAllDeniedGoesOn(r, calls[..|calls| - 1]);
      BegunStays(r, before);
      PutDeniedGoesOn(before, calls[|calls| - 1]);
      GoesOnTrans(r, before, PutAllDenied(r, calls));
    }
  }

  lemma {:induction false} HoldGoesOn(r: Run, asOf: seq<Msg>, decide: Call -> Behavior, calls: seq<Call>)
    requires Begun(r)
    ensures GoesOn(r, HoldAsked(r, asOf, decide, calls))
  {
    hide Begun, GoesOn, SetState, Classify;
    if calls == [] {
      BegunGoesOn(r);
    } else {
      var before := HoldAsked(r, asOf, decide, calls[..|calls| - 1]);
      HoldGoesOn(r, asOf, decide, calls[..|calls| - 1]);
      if Classify(asOf, decide, calls[|calls| - 1]) == Ask {
        BegunStays(r, before);
        MarkGoesOn(before, calls[|calls| - 1].id, Asking, HoldAsked(r, asOf, decide, calls));
        GoesOnTrans(r, before, HoldAsked(r, asOf, decide, calls));
      }
    }
  }

  lemma {:induction false} ResumeGoesOn(r: Run, env: Env)
    requires Begun(r)
    ensures GoesOn(r, Resume(r, env).0)
  {
    hide Begun, GoesOn, Execute, PutAllDenied, PendingCalls, Split;
    var pending := PendingCalls(r.context);
    var allowed, denied := Split(pending, true), Split(pending, false);
    var done := if allowed == [] then r else Execute(r, allowed, env).0;
    if allowed == [] { BegunGoesOn(r); } else { ExecuteGoesOn(r, allowed, env); }
    BegunStays(r, done);
    PutAllDeniedGoesOn(done, denied);
    GoesOnTrans(r, done, PutAllDenied(done, denied));
  }

  // ---------------------------------------------------------------------------
  // Rounds
  // ---------------------------------------------------------------------------

  lemma {:induction false} HoldsBegins(context: seq<Msg>, id: MsgId, call: string)
    requires Holds(context, id, call)
    ensures Live(context, id) != []
  {
    hide Live;
  }

  /** With nothing waiting, any reply holds all that waits. */
  lemma QuietHolds(context: seq<Msg>, id: MsgId)
    requires Quiet(CallStates(context))
    ensures HoldsWaiting(context, id)
  {
    hide CallStates, Holds;
  }

  lemma {:induction false} ActAnchored(r: Run, calls: seq<Call>, env: Env)
    requires SafeRun(r) && Quiet(CallStates(r.context)) && Untouched(calls, CallStates(r.context), AnsweredIds(r.context))
    requires Anchored(Machine(r, Loop(None))) && HoldsAll(r.context, r.messageId, calls) && calls != []
    ensures Anchored(ActRound(r, calls, env))
  {
    hide CallStates, AnsweredIds, UniqueCalls, SafeLog, LedgerSafe, AllAllowed, AnyAsk, Classify, Execute, HoldAsked, Untouched, Rooted, Holds, Live;
    assert Holds(r.context, r.messageId, calls[0].id);
    HoldsBegins(r.context, r.messageId, calls[0].id);
    var after := Act(r, calls, env).0;
    if AllAllowed(r.context, env.decide, calls) {
      ExecuteGoesOn(r, calls, env);
      ActAllAllowedSafe(r, calls, env);
      QuietHolds(after.context, r.messageId);
    } else {
      HoldGoesOn(r, r.context, env.decide, calls);
      forall x | x in Confluence.AskingIds(after.context)
        ensures Holds(after.context, r.messageId, x)
      {
        Licence.HeldStates(r, r.context, env.decide, calls, x);
        var i :| 0 <= i < |calls| && calls[i].id == x && Classify(r.context, env.decide, calls[i]) == Ask;
        assert Holds(r.context, r.messageId, calls[i].id);
      }
      assert HoldsWaiting(after.context, r.messageId);
    }
  }

  lemma {:induction false} ExitAnchored(r: Run, reason: EndReason, env: Env)
    requires SafeRun(r) && Quiet(CallStates(r.context)) && Anchored(Machine(r, Loop(None)))
    ensures Anchored(ExitRound(r, reason, env))
  {
    hide CallStates, AnsweredIds, UniqueCalls, SafeLog, LedgerSafe, Rooted, Holds, Live, AppendReply;
    QuietHolds(r.context, r.messageId);
    if env.stop.Continue? {
      var more := r.(continuations := r.continuations + 1);
      var bs := [HintBlock(more.nextId, env.stop.prompt)];
      AppendRooted(r.context, r.messageId, bs, r.nextId);
      RootedLater(AppendReply(r.context, r.messageId, bs), r.nextId, r.nextId + 1);
    }
  }

  /** What a turn writes does not begin with a result. */
  lemma {:induction false} WroteStarts(blocks: seq<Block>, calls: seq<Call>, live: seq<Block>)
    requires Wrote(blocks, calls)
    ensures Follows(blocks, live)
  {
    var speech: seq<Block> :| Toolless(speech) && blocks == speech + CallBlocksOf(calls);
    hide Toolless;
    if speech != [] { ToollessFirst(speech); }
    CallsStart(calls);
  }

  lemma {:induction false} CallsStart(calls: seq<Call>)
    ensures forall i :: 0 <= i < |CallBlocksOf(calls)| ==> CallBlocksOf(calls)[i].ToolCallBlock?
  {
    if calls != [] { CallsStart(calls[..|calls| - 1]); }
  }

  lemma {:induction false} WroteHolds(context: seq<Msg>, id: MsgId, blocks: seq<Block>, calls: seq<Call>)
    requires Wrote(blocks, calls) && DistinctIds(calls)
    ensures HoldsAll(AppendReply(context, id, blocks), id, calls)
  {
    hide Wrote, DistinctIds, Live, AppendReply, HasCall, States, Opened;
    WroteLedger(blocks, calls);
    OpenedIs(calls);
    LiveAppend(context, id, blocks, id);
    StatesAppend(Live(context, id), blocks);
    forall i | 0 <= i < |calls|
      ensures Holds(AppendReply(context, id, blocks), id, calls[i].id)
    {
      InIdSet(calls, calls[i].id);
      HasCallIff(Live(context, id) + blocks, calls[i].id);
    }
  }

  lemma {:induction false} SnapshotsShaped(r: Run, snapshots: seq<seq<Block>>)
    requires Shaped(r.context) && RunBalance.AllToollessBlocks(snapshots)
    ensures forall i :: 0 <= i < |Snapshots(r, snapshots)| ==> Shaped(Snapshots(r, snapshots)[i])
  {
    hide Shaped, AppendReply, Toolless, Live;
    if snapshots != [] {
      var last := snapshots[|snapshots| - 1];
      SnapshotsShaped(r, snapshots[..|snapshots| - 1]);
      if last != [] { ToollessFirst(last); }
      AppendShaped(r.context, r.messageId, last);
    }
  }

  lemma {:induction false} AskModelAnchored(c: Config, r: Run, hint: Option<string>, env: Env)
    requires SafeRun(r) && Quiet(CallStates(r.context)) && Anchored(Machine(r, Loop(None)))
    requires FreshTurn(r.context, AskModel(c, r, hint, env).phase)
    ensures Anchored(AskModel(c, r, hint, env))
  {
    hide CallStates, AnsweredIds, UniqueCalls, AppendReply, SafeLog, LedgerSafe, Reason, Snapshots, Addressed, Wrote, Holds, Live, Shaped, OneReplyEach,
      RunBalance.AllToollessBlocks, UsedIds, HoldsWaiting, DistinctIds;
    var d := Reason(c.read, hint, c.maxRetries, r.nextId, env.attempts);
    ReasonWrote(c.read, hint, c.maxRetries, r.nextId, env.attempts);
    RunBalance.ReasonSnapshots(c.read, hint, c.maxRetries, r.nextId, env.attempts);
    ReasonNextId(c.read, hint, c.maxRetries, r.nextId, env.attempts);
    WroteStarts(d.blocks, CallsIn(d.end), Live(r.context, r.messageId));
    AppendRooted(r.context, r.messageId, d.blocks, r.nextId);
    RootedLater(AppendReply(r.context, r.messageId, d.blocks), r.nextId, d.nextId);
    SnapshotsShaped(r, d.snapshots);
    AskModelSafe(c, r, hint, env);
    if d.end.TurnDone? { WroteHolds(r.context, r.messageId, d.blocks, CallsIn(d.end)); } else {
      QuietHolds(AskModel(c, r, hint, env).run.context, r.messageId);
    }
  }

  lemma {:induction false} ReasonAnchored(c: Config, r: Run, hint: Option<string>, env: Env)
    requires SafeRun(r) && Quiet(CallStates(r.context)) && Anchored(Machine(r, Loop(None)))
    requires env.hook.HookMessages? ==> AllToolless(env.hook.messages)
    requires FreshTurn(r.context, ReasonRound(c, r, hint, env).phase)
    ensures Anchored(ReasonRound(c, r, hint, env))
  {
    hide CallStates, AnsweredIds, UniqueCalls, SafeLog, LedgerSafe, NoneIs, AskModel, AddRaws, FindReply, HasUser, AllToolless, FreshCalls, UsedIds, Rooted, Holds, Live,
      HoldsWaiting;
    var counted := r.(iteration := r.iteration + 1);
    QuietHolds(r.context, r.messageId);
    match env.hook
    case HookMessages(ms) =>
      AddRawsLedger(counted, ms);
      AddRawsRooted(counted, ms);
      var ready := Rotate(AddRaws(counted, ms), ms);
      SameLedgerSafe(counted, ready);
      RootedLater(ready.context, AddRaws(counted, ms).nextId, ready.nextId);
      AskModelAnchored(c, ready, hint, env);
    case _ =>
  }

  lemma {:induction false} RoundAnchored(c: Config, m: Machine, env: Env)
    requires Safe(m) && m.phase.Loop? && Anchored(m) && Fair(c, m, Turn(env))
    ensures Anchored(Round(c, m.run, m.phase.prev, env))
  {
    hide CallStates, AnsweredIds, UniqueCalls, SafeLog, LedgerSafe, NoneIs, ReasonRound, ActRound, ExitRound, AllToolless, FreshCalls, UsedIds, Safe, Rooted, Live, Untouched,
      HoldsWaiting, Quiet, Holds;
    SafeMeans(m);
    var (action, decided) := Decide(c, m.run, m.phase.prev);
    assert Anchored(Machine(decided, Loop(None)));
    match action
    case Reasoning(hint, _) => ReasonAnchored(c, decided, hint, env);
    case Acting(calls) => ActAnchored(decided, calls, env);
    case Exiting(reason) => ExitAnchored(decided, reason, env);
  }

  // ---------------------------------------------------------------------------
  // New replies and answers
  // ---------------------------------------------------------------------------

  lemma {:induction false} StartAnchored(m: Machine, ms: seq<HostMsg>, maxContinuations: nat)
    requires Safe(m) && m.phase.AtRest? && Anchored(m) && AllToolless(ms)
    ensures Anchored(Start(m.run, ms, maxContinuations))
  {
    hide Safe, CallStates, CallsInState, AddRaws, AllToolless, Rooted, HoldsWaiting, Shaped, HoldsAll;
    if CallsInState(m.run.context, Asking) == [] {
      var reset := m.run.(status := Active, iteration := 0, emptyRetries := 0, inFinalization := false,
                          continuations := 0, maxContinuations := maxContinuations, requests := []);
      AddRawsRooted(reset, ms);
      var added := AddRaws(reset, ms);
      RootedLater(added.context, added.nextId, added.nextId + 1);
    }
  }

  lemma {:induction false} LastReply(context: seq<Msg>, i: nat)
    requires OneReplyEach(context) && i < |context| && context[i].role == Assistant
    ensures FindReply(context, context[i].id) == i
  {
    if i < |context| - 1 {
      assert context[|context| - 1].role == Assistant ==> context[|context| - 1].id != context[i].id;
      LastReply(context[..|context| - 1], i);
    }
  }

  /** The message that owns a call is the reply of its id. */
  lemma {:induction false} OwnerHolds(context: seq<Msg>, nextId: nat, call: string)
    requires Rooted(context, nextId) && Owner(context, call) < |context|
    ensures Holds(context, context[Owner(context, call)].id, call)
    ensures Below(context[Owner(context, call)].id, nextId)
  {
    hide Owner, HasCall, Toolless, FindReply, OneReplyEach;
    var i := Owner(context, call);
    assert ShapedMsg(context[i]);
    if context[i].role != Assistant { ToollessHasNone(context[i].content, call); }
    LastReply(context, i);
  }

  /** A call that a reply holds is owned by the message of that reply. */
  lemma {:induction false} HoldsOwner(context: seq<Msg>, id: MsgId, call: string)
    requires UniqueCalls(context) && Holds(context, id, call)
    ensures Owner(context, call) < |context| && context[Owner(context, call)].id == id
  {
    hide UniqueCalls, Owner, HasCall, FindReply;
    var i := FindReply(context, id);
    if i < |context| { RunBalance.OwnerIs(context, i, call); } else { RunBalance.NoCallInNothing(call); }
  }

  lemma {:induction false} AcceptAnchored(r: Run, call: string, approved: bool)
    requires SafeRun(r) && Anchored(Machine(r, AtRest))
    ensures var (at, acceptance) := Accept(r, call, approved);
      && Anchored(Machine(at, AtRest)) && (!acceptance.Rejected? ==> Begun(at))
  {
    hide CallStates, AnsweredIds, UniqueCalls, SafeLog, LedgerSafe, SetState, NoneIs, CallsInState, StateOf, Rooted, Owner, Holds, Live;
    var owner := Owner(r.context, call);
    if owner < |r.context| {
      OwnerHolds(r.context, r.nextId, call);
      HoldsBegins(r.context, r.context[owner].id, call);
      var at := r.(messageId := r.context[owner].id);
      var expected := if approved then Allowed else CallState.Finished;
      MarkGoesOn(at, call, expected, Mark(at, call, expected));
      BegunStays(at, Mark(at, call, expected));
      MarkLedger(r.context, call, expected);
      var id :| HoldsWaiting(r.context, id);
      forall x | x in Confluence.AskingIds(SetState(r.context, call, expected))
        ensures Holds(SetState(r.context, call, expected), id, x)
      {
        assert x in Confluence.AskingIds(r.context);
      }
      assert HoldsWaiting(SetState(r.context, call, expected), id);
    }
  }

  lemma {:induction false} AnsweredAnchored(m: Machine, call: string, approved: bool, maxContinuations: nat, env: Env)
    requires Safe(m) && m.phase.AtRest? && Anchored(m)
    ensures Anchored(Answered(m.run, call, approved, maxContinuations, env))
  {
    hide CallStates, AnsweredIds, UniqueCalls, SafeLog, LedgerSafe, NoneIs, Accept, Resume, Rooted, Holds, Live, HoldsWaiting;
    var r := m.run.(continuations := 0, maxContinuations := maxContinuations);
    AcceptSafe(r, call, approved);
    AcceptAnchored(r, call, approved);
    var (at, acceptance) := Accept(r, call, approved);
    if acceptance.Complete? {
      var active := at.(status := Active);
      ResumeGoesOn(active, env);
      ResumeSafe(active, env);
      QuietHolds(Resume(active, env).0.context, at.messageId);
    }
  }

  // ---------------------------------------------------------------------------
  // Whole lives
  // ---------------------------------------------------------------------------

  lemma {:induction false} AdvanceAnchored(c: Config, m: Machine, input: Input)
    requires Safe(m) && Anchored(m) && Fair(c, m, input)
    ensures Anchored(Advance(c, m, input))
  {
    hide Safe, Anchored, Start, Answered, Round, AllToolless, FreshTurn;
    match input
    case StartReply(ms, maxContinuations) => if m.phase.AtRest? { StartAnchored(m, ms, maxContinuations); }
    case Answer(id, approved, maxContinuations, env) =>
      if m.phase.AtRest? { AnsweredAnchored(m, id, approved, maxContinuations, env); }
    case Turn(env) => if m.phase.Loop? { RoundAnchored(c, m, env); }
  }

  lemma {:induction false} AlwaysAnchored(c: Config, m: Machine, inputs: seq<Input>)
    requires Safe(m) && Anchored(m) && FairLife(c, m, inputs)
    ensures Anchored(Life(c, m, inputs))
  {
    hide Safe, Anchored, Fair, Advance;
    if inputs != [] {
      var before := inputs[..|inputs| - 1];
      AlwaysAnchored(c, m, before);
      AlwaysSafe(c, m, before);
      AdvanceAnchored(c, Life(c, m, before), inputs[|inputs| - 1]);
    }
  }

  lemma {:induction false} NewIsAnchored(m: Machine)
    requires m.run.context == [] && m.run.requests == [] && m.phase == AtRest
    ensures Anchored(m)
  {
    NoCalls();
    assert AllBlocks([]) == [];
    assert HoldsWaiting(m.run.context, m.run.messageId);
  }

  /** Whenever a new agent rests in a fair life, all calls that wait for the user are in one message. */
  lemma {:induction false} WaitingInOneMessage(c: Config, m: Machine, inputs: seq<Input>) returns (id: MsgId)
    requires m.run.context == [] && m.run.log == [] && m.run.requests == [] && m.phase == AtRest
    requires FairLife(c, m, inputs) && Life(c, m, inputs).phase.AtRest?
    ensures Confluence.OneMessage(Life(c, m, inputs).run.context, id) && UniqueCalls(Life(c, m, inputs).run.context)
  {
    hide Safe, Life, FairLife, Rooted, Holds, UniqueCalls, Owner, Confluence.AskingIds;
    NewIsSafe(m);
    NewIsAnchored(m);
    AlwaysSafe(c, m, inputs);
    AlwaysAnchored(c, m, inputs);
    var now := Life(c, m, inputs);
    RunBalance.SafeUnique(now);
    id :| HoldsWaiting(now.run.context, id);
    forall x | x in Confluence.AskingIds(now.run.context)
      ensures Owner(now.run.context, x) < |now.run.context| && now.run.context[Owner(now.run.context, x)].id == id
    {
      HoldsOwner(now.run.context, id, x);
    }
  }

  /**
   * Confirmations are confluent wherever an agent can get to: two users who answer the waiting calls of
   * a fair life with the same decisions, in different orders and with different repetitions, bring the
   * agent to the same phase, context, call states, events, counters and executions.
   */
  lemma {:induction false} AnswersAreConfluent(c: Config, m: Machine, inputs: seq<Input>, xs: seq<string>, ys: seq<string>,
                                               v: Confluence.Verdict, maxContinuations: nat, env: Env)
    requires m.run.context == [] && m.run.log == [] && m.run.requests == [] && m.phase == AtRest
    requires FairLife(c, m, inputs) && Life(c, m, inputs).phase.AtRest?
    requires var asking := Confluence.AskingIds(Life(c, m, inputs).run.context);
      Confluence.JustComplete(xs, asking) && Confluence.JustComplete(ys, asking)
    ensures var now := Life(c, m, inputs);
      Life(c, now, Confluence.Answers(xs, v, maxContinuations, env)) == Life(c, now, Confluence.Answers(ys, v, maxContinuations, env))
  {
    hide Life, FairLife, Confluence.AskingIds, Confluence.Answers, Confluence.OneMessage, Confluence.JustComplete, UniqueCalls;
    var id := WaitingInOneMessage(c, m, inputs);
    Confluence.AnswersAreConfluent(c, Life(c, m, inputs), xs, ys, v, maxContinuations, env, id);
  }

  /**
   * In every fair life each request loses a call or a result on its way to the provider if and only if
   * the context it shows is not balanced.
   */
  lemma {:induction false} RequestsLoseIffUnbalanced(c: Config, m: Machine, inputs: seq<Input>, i: nat, prompt: string, keepReasoning: bool)
    requires m.run.context == [] && m.run.log == [] && m.run.requests == [] && m.phase == AtRest
    requires FairLife(c, m, inputs) && i < |Life(c, m, inputs).run.requests|
    ensures var request := Life(c, m, inputs).run.requests[i];
      Lost(prompt, request, keepReasoning) == 0 <==> BalancedContext(request)
  {
    hide Safe, Life, FairLife, Rooted, Lost, BalancedContext, Shaped;
    NewIsSafe(m);
    NewIsAnchored(m);
    AlwaysAnchored(c, m, inputs);
    LosesNothingIffBalanced(prompt, Life(c, m, inputs).run.requests[i], keepReasoning);
  }
}
