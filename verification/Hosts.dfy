/**
 * What the host contributes to a turn and what the turn shows the model: which host messages join, when
 * a new reply begins, and the context of every request.
 */
module Hosts {
  import opened Prelude
  import opened Messages
  import opened Events
  import opened Context
  import opened Reasoning
  import opened Runner
  import opened Projection
  import RequestLoss
  import Retries
  import Terminal

  predicate Named(h: HostMsg) { h.id.Some? && h.id.value != "" }

  ghost predicate Present(context: seq<Msg>, id: MsgId) { exists i :: 0 <= i < |context| && context[i].id == id }

  /** The message brings an id that the context or an earlier message already has. */
  ghost predicate Skipped(context: seq<Msg>, ms: seq<HostMsg>, j: int)
  {
    && 0 <= j < |ms| && Named(ms[j])
    && (Present(context, Host(ms[j].id.value)) || exists i :: 0 <= i < j && Named(ms[i]) && ms[i].id == ms[j].id)
  }

  /** A message of the context as the host gave it; roles other than the three count as assistant. */
  ghost predicate JoinsAs(m: Msg, h: HostMsg)
  {
    && m.role == (if h.role in {User, Assistant, System} then h.role else Assistant)
    && m.content == h.blocks
    && (if Named(h) then m.id == Host(h.id.value) else m.id.Drawn?)
  }

  /** The messages `js` of `ms` have joined `before`, in order, with new ids where the host gave none. */
  ghost predicate Joined(before: seq<Msg>, lo: nat, after: seq<Msg>, hi: nat, ms: seq<HostMsg>, js: seq<int>)
  {
    && |after| == |before| + |js| && before <= after && lo <= hi
    && (forall k, l :: 0 <= k < l < |js| ==> js[k] < js[l])
    && (forall j :: j in js <==> 0 <= j < |ms| && !Skipped(before, ms, j))
    && (forall k :: 0 <= k < |js| ==> 0 <= js[k] < |ms| && JoinsAs(after[|before| + k], ms[js[k]]))
    && (forall k :: |before| <= k < |after| && after[k].id.Drawn? ==> lo <= after[k].id.n < hi)
    && (forall k, l :: |before| <= k < l < |after| && after[k].id.Drawn? ==> after[k].id != after[l].id)
  }

  lemma {:induction false} SkippedPrefix(context: seq<Msg>, ms: seq<HostMsg>, j: int)
    requires ms != [] && j < |ms| - 1
    ensures Skipped(context, ms[..|ms| - 1], j) <==> Skipped(context, ms, j)
  {
    hide Present;
    var init := ms[..|ms| - 1];
    if 0 <= j {
      assert init[j] == ms[j];
      if i :| 0 <= i < j && Named(init[i]) && init[i].id == ms[j].id { assert Named(ms[i]) && ms[i].id == ms[j].id; }
      if i :| 0 <= i < j && Named(ms[i]) && ms[i].id == ms[j].id { assert Named(init[i]) && init[i].id == ms[j].id; }
    }
  }

  /** Every name the host gave is in the context afterwards. */
  ghost predicate NamesKnown(context: seq<Msg>, ms: seq<HostMsg>)
  {
    forall j :: 0 <= j < |ms| && Named(ms[j]) ==> Present(context, Host(ms[j].id.value))
  }

  lemma {:induction false} KnownIff(before: seq<Msg>, lo: nat, after: seq<Msg>, hi: nat, ms: seq<HostMsg>, js: seq<int>)
    requires ms != [] && Named(ms[|ms| - 1]) && Joined(before, lo, after, hi, ms[..|ms| - 1], js) && NamesKnown(after, ms[..|ms| - 1])
    ensures KnownId(after, Host(ms[|ms| - 1].id.value)) <==> Skipped(before, ms, |ms| - 1)
  {
    var n, name := |ms| - 1, Host(ms[|ms| - 1].id.value);
    var init := ms[..n];
    KnownIdIff(after, name);
    if i :| 0 <= i < |after| && after[i].id == name {
      if i < |before| {
        assert before[i] == after[i];
      } else {
        var k := i - |before|;
        assert js[k] in js;
        assert JoinsAs(after[|before| + k], init[js[k]]);
        assert Named(ms[js[k]]) && ms[js[k]].id == ms[n].id;
      }
    }
    if Present(before, name) {
      var i :| 0 <= i < |before| && before[i].id == name;
      assert after[i].id == name;
    }
    if i :| 0 <= i < n && Named(ms[i]) && ms[i].id == ms[n].id {
      assert Named(init[i]);
      assert Present(after, name);
    }
  }

  lemma {:induction false} PresentGrows(a: seq<Msg>, b: seq<Msg>, id: MsgId)
    requires a <= b && Present(a, id)
    ensures Present(b, id)
  {
    var i :| 0 <= i < |a| && a[i].id == id;
    assert b[i].id == id;
  }

  lemma {:induction false} NamesGrow(after: seq<Msg>, later: seq<Msg>, ms: seq<HostMsg>)
    requires ms != [] && NamesKnown(after, ms[..|ms| - 1]) && after <= later
    requires Named(ms[|ms| - 1]) ==> Present(later, Host(ms[|ms| - 1].id.value))
    ensures NamesKnown(later, ms)
  {
    hide Present;
    forall j | 0 <= j < |ms| && Named(ms[j])
      ensures Present(later, Host(ms[j].id.value))
    {
      if j < |ms| - 1 {
        assert ms[..|ms| - 1][j] == ms[j];
        PresentGrows(after, later, Host(ms[j].id.value));
      }
    }
  }

  /** One message more that joins. */
  lemma {:induction false} JoinOne(before: seq<Msg>, lo: nat, after: seq<Msg>, hi: nat, ms: seq<HostMsg>, js: seq<int>, m: Msg, hi': nat)
    requires ms != [] && Joined(before, lo, after, hi, ms[..|ms| - 1], js) && !Skipped(before, ms, |ms| - 1)
    requires JoinsAs(m, ms[|ms| - 1]) && hi <= hi' && (m.id.Drawn? ==> hi <= m.id.n < hi')
    ensures Joined(before, lo, after + [m], hi', ms, js + [|ms| - 1])
  {
    hide Skipped;
    var n := |ms| - 1;
    var all, later := js + [n], after + [m];
    forall j
      ensures j in all <==> 0 <= j < |ms| && !Skipped(before, ms, j)
    {
      if j < n { SkippedPrefix(before, ms, j); }
      assert j in all <==> j in js || j == n;
    }
    forall k | 0 <= k < |all|
      ensures 0 <= all[k] < |ms| && JoinsAs(later[|before| + k], ms[all[k]])
    {
      if k < |js| {
        assert js[k] in js;
        assert ms[..n][js[k]] == ms[js[k]];
      }
    }
    forall k, l | 0 <= k < l < |all|
      ensures all[k] < all[l]
    {
      assert js[k] in js;
    }
  }

  lemma {:induction false} JoinNone(before: seq<Msg>, lo: nat, after: seq<Msg>, hi: nat, ms: seq<HostMsg>, js: seq<int>)
    requires ms != [] && Joined(before, lo, after, hi, ms[..|ms| - 1], js) && Skipped(before, ms, |ms| - 1)
    ensures Joined(before, lo, after, hi, ms, js)
  {
    hide Skipped;
    var n := |ms| - 1;
    forall j
      ensures j in js <==> 0 <= j < |ms| && !Skipped(before, ms, j)
    {
      if j < n { SkippedPrefix(before, ms, j); }
    }
    forall k | 0 <= k < |js|
      ensures 0 <= js[k] < |ms| && JoinsAs(after[|before| + k], ms[js[k]])
    {
      assert js[k] in js;
      assert ms[..n][js[k]] == ms[js[k]];
    }
  }

  /**
   * The host's messages join the context in the order given, each with its role and blocks; a message
   * stays out exactly when it brings an id that is already there, from the context or from an earlier
   * one. Messages without an id get new ones, all different. Nothing else changes.
   */
  lemma {:induction false} HostsJoin(r: Run, ms: seq<HostMsg>) returns (js: seq<int>)
    ensures var s := AddRaws(r, ms); Joined(r.context, r.nextId, s.context, s.nextId, ms, js) && s == r.(context := s.context, nextId := s.nextId)
    ensures NamesKnown(AddRaws(r, ms).context, ms)
  {
    hide Joined, NamesKnown, Skipped, KnownId, JoinsAs, Present;
    if ms == [] {
      js := [];
      NothingJoins(r.context, r.nextId);
    } else {
      var n := |ms| - 1;
      var h := ms[n];
      js := HostsJoin(r, ms[..n]);
      var before := AddRaws(r, ms[..n]);
      var after := AddRaw(before, h);
      if Named(h) { KnownIff(r.context, r.nextId, before.context, before.nextId, ms, js); } else { UnnamedJoins(r.context, ms); }
      OneIsKnown(before, h);
      NamesGrow(before.context, after.context, ms);
      if Skipped(r.context, ms, n) {
        JoinNone(r.context, r.nextId, before.context, before.nextId, ms, js);
      } else {
        AddedJoins(before, h);
        JoinOne(r.context, r.nextId, before.context, before.nextId, ms, js, after.context[|before.context|], after.nextId);
        js := js + [n];
      }
    }
  }

  lemma NothingJoins(context: seq<Msg>, n: nat)
    ensures Joined(context, n, context, n, [], []) && NamesKnown(context, [])
  {
  }

  lemma UnnamedJoins(context: seq<Msg>, ms: seq<HostMsg>)
    requires ms != [] && !Named(ms[|ms| - 1])
    ensures !Skipped(context, ms, |ms| - 1)
  {
  }

  lemma {:induction false} OneIsKnown(r: Run, h: HostMsg)
    ensures var s := AddRaw(r, h); r.context <= s.context && (Named(h) ==> Present(s.context, Host(h.id.value)))
  {
    hide KnownId;
    if Named(h) {
      KnownIdIff(r.context, Host(h.id.value));
      if !KnownId(r.context, Host(h.id.value)) { assert AddRaw(r, h).context[|r.context|].id == Host(h.id.value); }
    }
  }

  lemma {:induction false} AddedJoins(r: Run, h: HostMsg)
    requires Named(h) ==> !KnownId(r.context, Host(h.id.value))
    ensures var s := AddRaw(r, h);
      && |s.context| == |r.context| + 1 && s.context == r.context + [s.context[|r.context|]] && JoinsAs(s.context[|r.context|], h)
      && r.nextId <= s.nextId && (s.context[|r.context|].id.Drawn? ==> r.nextId <= s.context[|r.context|].id.n < s.nextId)
      && s == r.(context := s.context, nextId := s.nextId)
  {
    hide KnownId;
  }

  // ---------------------------------------------------------------------------
  // New replies
  // ---------------------------------------------------------------------------

  /** The reply `id` stands in the context. */
  ghost predicate HasBegun(context: seq<Msg>, id: MsgId)
  {
    exists i :: 0 <= i < |context| && context[i].role == Assistant && context[i].id == id
  }

  ghost predicate UserSpoke(ms: seq<HostMsg>) { exists j :: 0 <= j < |ms| && ms[j].role == User }

  lemma {:induction false} BegunIff(context: seq<Msg>, id: MsgId)
    ensures FindReply(context, id) < |context| <==> HasBegun(context, id)
  {
    if context != [] {
      var init := context[..|context| - 1];
      BegunIff(init, id);
      if i :| 0 <= i < |init| && init[i].role == Assistant && init[i].id == id { assert context[i].id == id; }
      if i :| 0 <= i < |context| && context[i].role == Assistant && context[i].id == id { assert i < |init| ==> init[i].id == id; }
    }
  }

  lemma {:induction false} SpokeIff(ms: seq<HostMsg>)
    ensures HasUser(ms) <==> UserSpoke(ms)
  {
    if ms != [] {
      var init := ms[..|ms| - 1];
      SpokeIff(init);
      if j :| 0 <= j < |init| && init[j].role == User { assert ms[j].role == User; }
      if j :| 0 <= j < |ms| && ms[j].role == User { assert j < |init| ==> init[j].role == User; }
    }
  }

  /** The run as it asks the model in a turn with the host's messages `ms`. */
  function Asking(r: Run, ms: seq<HostMsg>): Run { Rotate(AddRaws(r.(iteration := r.iteration + 1), ms), ms) }

  /**
   * A turn speaks in a new message exactly when its reply has begun and the user has spoken since;
   * otherwise it goes on with the reply it has.
   */
  lemma {:induction false} NewReplyIff(r: Run, ms: seq<HostMsg>)
    ensures var s, joined := Asking(r, ms), AddRaws(r.(iteration := r.iteration + 1), ms);
      && s.context == joined.context && s.sent == r.sent && s.requests == r.requests
      && s.messageId == (if HasBegun(joined.context, r.messageId) && UserSpoke(ms) then Drawn(joined.nextId) else r.messageId)
  {
    hide HasBegun, UserSpoke, FindReply, HasUser, AddRaws;
    var counted := r.(iteration := r.iteration + 1);
    BegunIff(AddRaws(counted, ms).context, r.messageId);
    SpokeIff(ms);
    Terminal.HostsSendNothing(counted, ms);
    HostsKeepReply(counted, ms);
  }

  lemma {:induction false} HostsKeepReply(r: Run, ms: seq<HostMsg>)
    ensures AddRaws(r, ms).messageId == r.messageId
  {
    hide KnownId;
    if ms != [] { HostsKeepReply(r, ms[..|ms| - 1]); }
  }

  // ---------------------------------------------------------------------------
  // Requests
  // ---------------------------------------------------------------------------

  /** `after` is `context` with `bs` at the end of the reply `id`, and nothing else changed. */
  ghost predicate ReplyGrew(context: seq<Msg>, id: MsgId, bs: seq<Block>, after: seq<Msg>)
  {
    && (forall x :: Live(after, x) == Live(context, x) + if x == id then bs else [])
    && |context| <= |after| <= |context| + 1
    && (forall i :: 0 <= i < |context| ==>
          after[i].id == context[i].id && after[i].role == context[i].role
          && (after[i].role != Assistant || after[i].id != id ==> after[i] == context[i]))
    && (|context| < |after| ==> after[|context|] == Msg(id, Assistant, bs))
  }

  lemma {:induction false} AppendGrows(context: seq<Msg>, id: MsgId, bs: seq<Block>)
    ensures ReplyGrew(context, id, bs, AppendReply(context, id, bs))
  {
    hide FindReply, Live;
    var after := AppendReply(context, id, bs);
    forall x
      ensures Live(after, x) == Live(context, x) + if x == id then bs else []
    {
      LiveAppend(context, id, bs, x);
      assert Live(context, x) + [] == Live(context, x);
    }
  }

  /**
   * A turn makes one request for each attempt. Request `k` shows the context with the host's messages
   * and, at the end of the reply, what the turn had written before that attempt; what the turn has
   * written in the end stands there too.
   */
  lemma {:induction false} RequestsShow(c: Config, r: Run, hint: Option<string>, env: Env, k: nat)
    requires env.hook.HookMessages?
    requires k < |Reason(c.read, hint, c.maxRetries, Asking(r, env.hook.messages).nextId, env.attempts).snapshots|
    ensures var s, after := Asking(r, env.hook.messages), ReasonRound(c, r, hint, env).run;
      var d := Reason(c.read, hint, c.maxRetries, s.nextId, env.attempts);
      && |after.requests| == |r.requests| + |d.snapshots| && r.requests <= after.requests
      && ReplyGrew(s.context, s.messageId, Retries.Before(c.read, hint, s.nextId, env.attempts, k).written, after.requests[|r.requests| + k])
      && ReplyGrew(s.context, s.messageId, d.blocks, after.context)
  {
    hide Reason, RunAttempt, Retries.Before, Retries.Outcome, Retries.AnnouncesRetry, Retries.Retries, Retries.Cancelled, AppendReply, Addressed, ReplyGrew, AddRaws, Rotate;
    var s := Asking(r, env.hook.messages);
    NewReplyIff(r, env.hook.messages);
    var d := Reason(c.read, hint, c.maxRetries, s.nextId, env.attempts);
    var last := Retries.ReasonIsItsAttempts(c.read, hint, c.maxRetries, s.nextId, env.attempts);
    RequestLoss.SnapshotAt(s, d.snapshots, k);
    AppendGrows(s.context, s.messageId, d.snapshots[k]);
    AppendGrows(s.context, s.messageId, d.blocks);
  }
}
