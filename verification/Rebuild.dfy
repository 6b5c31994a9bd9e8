/**
 * Rebuilding goes on: an attempt's events act on a message already rebuilt exactly as on an empty
 * one, appended; so a host that agreed with the runner before an orderly attempt agrees after it.
 */
module Rebuild {
  import opened Prelude
  import opened StreamChunks
  import opened Messages
  import opened Events
  import opened Reasoning
  import opened Views
  import opened Bracketing
  import opened AttemptFold
  import opened Agreement
  import opened StreamOrder

  // ---------------------------------------------------------------------------
  // Which blocks a message has
  // ---------------------------------------------------------------------------

  predicate Has(bs: seq<Block>, key: Key) { Find(bs, key) < |bs| }

  /** The block an event creates. */
  function Creates(e: Event): Option<Key>
  {
    match e
    case TextStarted(id) => Some(TextKey(id))
    case ThinkingStarted(id) => Some(ThinkingKey(id))
    case HintGiven(id, _) => Some(HintKey(id))
    case CallStarted(id, _) => Some(CallKey(id))
    case ResultStarted(id, _) => Some(ResultKey(id))
    case _ => None
  }

  lemma {:induction false} FindUpdate(bs: seq<Block>, i: nat, b: Block, key: Key)
    requires i < |bs| && KeyOf(b) == KeyOf(bs[i])
    ensures Find(bs[i := b], key) == Find(bs, key)
    decreases |bs|
  {
    hide Find;
    var n := |bs| - 1;
    assert bs == bs[..n] + [bs[n]];
    FindSnoc(bs[..n], bs[n], key);
    if i < n {
      assert bs[i := b] == bs[..n][i := b] + [bs[n]];
      FindUpdate(bs[..n], i, b, key);
      FindSnoc(bs[..n][i := b], bs[n], key);
    } else {
      assert bs[i := b] == bs[..n] + [b];
      FindSnoc(bs[..n], b, key);
    }
  }

  lemma {:induction false} FindPast(a: seq<Block>, b: seq<Block>, key: Key)
    ensures Find(a + b, key) == if Has(a, key) then Find(a, key) else |a| + Find(b, key)
  {
    hide Find;
    if b == [] {
      assert a + b == a;
      EmptyFind(key, KeyKind(key));
    } else {
      var n := |b| - 1;
      assert a + b == (a + b[..n]) + [b[n]] && b == b[..n] + [b[n]];
      FindPast(a, b[..n], key);
      FindSnoc(a + b[..n], b[n], key);
      FindSnoc(b[..n], b[n], key);
    }
  }

  lemma {:induction false} AddHas(bs: seq<Block>, b: Block, key: Key)
    ensures Has(bs + [b], key) <==> Has(bs, key) || KeyOf(b) == key
  {
    hide Find;
    FindSnoc(bs, b, key);
  }

  lemma {:induction false} UpdateHas(bs: seq<Block>, i: nat, b: Block, key: Key)
    requires i < |bs| && KeyOf(b) == KeyOf(bs[i])
    ensures Has(bs[i := b], key) <==> Has(bs, key)
  {
    hide Find;
    FindUpdate(bs, i, b, key);
  }

  lemma {:induction false} SetStateHas(bs: seq<Block>, id: string, state: CallState, key: Key)
    ensures Has(WithCallState(bs, id, state), key) <==> Has(bs, key)
  {
    hide Find, Has;
    var i := Find(bs, CallKey(id));
    if i < |bs| { UpdateHas(bs, i, bs[i].(state := state), key); }
  }

  lemma {:induction false} CreatingHas(read: Reader, r: Rebuilt, e: Event, key: Key)
    requires Creates(e).Some?
    ensures Has(Apply(read, r, e).content, key) <==> Has(r.content, key) || Creates(e) == Some(key)
  {
    hide Find, Has;
    var bs := r.content;
    match e
    case TextStarted(id) => AddHas(bs, TextBlock(id, ""), key);
    case ThinkingStarted(id) => AddHas(bs, ThinkingBlock(id, ""), key);
    case CallStarted(id, name) => AddHas(bs, ToolCallBlock(id, name, NO_ARGUMENTS, Pending), key);
    case HintGiven(id, hint) => AddHas(bs, HintBlock(id, hint), key);
    case ResultStarted(id, name) => AddHas(bs, ToolResultBlock(id, name, Blocks([]), Running), key);
  }

  lemma {:induction false} GrowingHas(read: Reader, r: Rebuilt, e: Event, key: Key)
    requires e.TextGrown? || e.ThinkingGrown? || e.CallEnded? || e.ResultGrown?
    ensures Has(Apply(read, r, e).content, key) <==> Has(r.content, key)
  {
    hide Find, Has, ReadArguments, GrowOutput;
    var bs := r.content;
    match e
    case TextGrown(id, delta) =>
      var i := Find(bs, TextKey(id));
      if i < |bs| { UpdateHas(bs, i, bs[i].(text := bs[i].text + delta), key); }
    case ThinkingGrown(id, delta) =>
      var i := Find(bs, ThinkingKey(id));
      if i < |bs| { UpdateHas(bs, i, bs[i].(thinking := bs[i].thinking + delta), key); }
    case CallEnded(id, arguments) =>
      var i := Find(bs, CallKey(id));
      if i < |bs| {
        var raw := if arguments != "" then arguments else Buffered(r, id);
        UpdateHas(bs, i, bs[i].(arguments := ReadArguments(read, raw)), key);
      }
    case ResultGrown(id, delta) =>
      var i := Find(bs, ResultKey(id));
      if i < |bs| { UpdateHas(bs, i, bs[i].(output := GrowOutput(bs[i].output, delta)), key); }
  }

  /** An event adds the block it creates and no other. */
  lemma {:induction false} ApplyHas(read: Reader, r: Rebuilt, e: Event, key: Key)
    ensures Has(Apply(read, r, e).content, key) <==> Has(r.content, key) || Creates(e) == Some(key)
  {
    hide Find, Has, WithCallState;
    var bs := r.content;
    if Creates(e).Some? {
      CreatingHas(read, r, e, key);
    } else if e.TextGrown? || e.ThinkingGrown? || e.CallEnded? || e.ResultGrown? {
      GrowingHas(read, r, e, key);
    } else {
      match e
      case ResultEnded(id, state) =>
        var i := Find(bs, ResultKey(id));
        if i < |bs| {
          UpdateHas(bs, i, bs[i].(resultState := state), key);
          SetStateHas(bs[i := bs[i].(resultState := state)], id, CallState.Finished, key);
        }
      case ConfirmRequired(id, _) => SetStateHas(bs, id, Asking, key);
      case ConfirmAnswered(id, approved) => SetStateHas(bs, id, if approved then Allowed else CallState.Finished, key);
      case _ =>
    }
  }

  ghost predicate Created(es: seq<Event>, key: Key)
  {
    exists i :: 0 <= i < |es| && Creates(es[i]) == Some(key)
  }

  lemma {:induction false} ApplyAllHas(read: Reader, r: Rebuilt, es: seq<Event>, key: Key)
    ensures Has(ApplyAll(read, r, es).content, key) <==> Has(r.content, key) || Created(es, key)
  {
    hide Has, Apply;
    if es != [] {
      var init, e := es[..|es| - 1], es[|es| - 1];
      ApplyAllHas(read, r, init, key);
      ApplyHas(read, ApplyAll(read, r, init), e, key);
      if Created(init, key) {
        var i :| 0 <= i < |init| && Creates(init[i]) == Some(key);
        assert Creates(es[i]) == Some(key);
      }
      if i :| 0 <= i < |es| && Creates(es[i]) == Some(key) {
        assert i < |init| ==> Creates(init[i]) == Some(key);
      }
    }
  }

  // ---------------------------------------------------------------------------
  // An attempt on top of a message
  // ---------------------------------------------------------------------------

  /** The event does not touch any block of `bs`. */
  predicate Away(bs: seq<Block>, e: Event)
  {
    match EventKind(e)
    case TextKind => !Has(bs, TextKey(e.blockId))
    case ThinkingKind => !Has(bs, ThinkingKey(e.blockId))
    case CallKind => !Has(bs, CallKey(e.callId))
    case OtherKind => true
  }

  /** `big` is `small` on top of `below`. */
  ghost predicate OnTop(below: seq<Block>, big: Rebuilt, small: Rebuilt)
  {
    && big.content == below + small.content
    && forall id :: !Has(below, CallKey(id)) ==> Buffered(big, id) == Buffered(small, id)
  }

  lemma UpdatePast(below: seq<Block>, bs: seq<Block>, i: nat, b: Block)
    requires i < |bs|
    ensures (below + bs)[|below| + i := b] == below + bs[i := b]
    ensures (below + bs)[|below| + i] == bs[i]
  {
  }

  lemma {:induction false} GrowOnTop(read: Reader, below: seq<Block>, big: Rebuilt, small: Rebuilt, e: Event)
    requires OnTop(below, big, small) && (e.TextGrown? || e.ThinkingGrown?) && Away(below, e)
    ensures OnTop(below, Apply(read, big, e), Apply(read, small, e))
  {
    hide Find;
    match e
    case TextGrown(id, delta) =>
      FindPast(below, small.content, TextKey(id));
      var i := Find(small.content, TextKey(id));
      if i < |small.content| { UpdatePast(below, small.content, i, small.content[i].(text := small.content[i].text + delta)); }
    case ThinkingGrown(id, delta) =>
      FindPast(below, small.content, ThinkingKey(id));
      var i := Find(small.content, ThinkingKey(id));
      if i < |small.content| { UpdatePast(below, small.content, i, small.content[i].(thinking := small.content[i].thinking + delta)); }
  }

  lemma {:induction false} EndOnTop(read: Reader, below: seq<Block>, big: Rebuilt, small: Rebuilt, e: Event)
    requires OnTop(below, big, small) && e.CallEnded? && Away(below, e)
    ensures OnTop(below, Apply(read, big, e), Apply(read, small, e))
  {
    hide Find, ReadArguments;
    FindPast(below, small.content, CallKey(e.callId));
    var i := Find(small.content, CallKey(e.callId));
    assert Buffered(big, e.callId) == Buffered(small, e.callId);
    if i < |small.content| {
      var raw := if e.arguments != "" then e.arguments else Buffered(small, e.callId);
      UpdatePast(below, small.content, i, small.content[i].(arguments := ReadArguments(read, raw)));
    }
  }

  lemma {:induction false} StartOnTop(below: seq<Block>, big: Rebuilt, small: Rebuilt, b: Block)
    requires OnTop(below, big, small)
    ensures big.content + [b] == below + (small.content + [b])
  {
  }

  lemma {:induction false} ApplyOnTop(read: Reader, below: seq<Block>, big: Rebuilt, small: Rebuilt, e: Event)
    requires OnTop(below, big, small) && Speech(e) && Away(below, e)
    ensures OnTop(below, Apply(read, big, e), Apply(read, small, e))
  {
    hide Find, ReadArguments, Has;
    match e
    case TextGrown(_, _) => GrowOnTop(read, below, big, small, e);
    case ThinkingGrown(_, _) => GrowOnTop(read, below, big, small, e);
    case CallEnded(_, _) => EndOnTop(read, below, big, small, e);
    case CallGrown(id, delta) => assert Buffered(big, id) == Buffered(small, id);
    case TextStarted(id) => StartOnTop(below, big, small, TextBlock(id, ""));
    case ThinkingStarted(id) => StartOnTop(below, big, small, ThinkingBlock(id, ""));
    case CallStarted(id, name) => StartOnTop(below, big, small, ToolCallBlock(id, name, NO_ARGUMENTS, Pending));
    case _ =>
  }

  lemma {:induction false} ApplyAllOnTop(read: Reader, r: Rebuilt, es: seq<Event>)
    requires forall id :: id in r.buffers ==> Has(r.content, CallKey(id))
    requires AllSpeech(es) && forall i :: 0 <= i < |es| ==> Away(r.content, es[i])
    ensures OnTop(r.content, ApplyAll(read, r, es), Folded(read, es))
  {
    hide Has, Apply, Away;
    if es != [] {
      var init, e := es[..|es| - 1], es[|es| - 1];
      assert es == init + [e];
      ApplyAllOnTop(read, r, init);
      FoldedSnoc(read, init, e);
      assert Speech(es[|es| - 1]) && Away(r.content, es[|es| - 1]);
      ApplyOnTop(read, r.content, ApplyAll(read, r, init), Folded(read, init), e);
    } else {
      assert r.content + [] == r.content;
    }
  }

  lemma {:induction false} BufferKeys(read: Reader, r: Rebuilt, es: seq<Event>, id: string)
    requires AllSpeech(es) && id in ApplyAll(read, r, es).buffers
    ensures id in r.buffers || exists i :: 0 <= i < |es| && EventKind(es[i]) == CallKind && es[i].callId == id
  {
    hide Find, ReadArguments;
    if es != [] {
      var init, e := es[..|es| - 1], es[|es| - 1];
      assert es == init + [e];
      assert Speech(es[|es| - 1]);
      if id in ApplyAll(read, r, init).buffers {
        BufferKeys(read, r, init, id);
        if id !in r.buffers {
          var i :| 0 <= i < |init| && EventKind(init[i]) == CallKind && init[i].callId == id;
          assert es[i] == init[i];
        }
      } else {
        assert EventKind(e) == CallKind && e.callId == id;
      }
    }
  }

  // ---------------------------------------------------------------------------
  // Agreement goes on
  // ---------------------------------------------------------------------------

  /** Block ids below the counter, calls and results among the known ones, no stray argument text. */
  ghost predicate Tidy(r: Rebuilt, nextId: nat, calls: set<string>, results: set<string>)
  {
    && (forall k: nat :: k >= nextId ==> !Has(r.content, TextKey(k)) && !Has(r.content, ThinkingKey(k)))
    && (forall id :: Has(r.content, CallKey(id)) ==> id in calls)
    && (forall id :: Has(r.content, ResultKey(id)) ==> id in results)
    && (forall id :: id in r.buffers ==> Has(r.content, CallKey(id)))
  }

  /** A rebuilt message and a live one: the provider cannot tell them apart. */
  ghost predicate Agree(r: Rebuilt, live: seq<Block>, nextId: nat, calls: set<string>, results: set<string>)
  {
    ViewOf(r.content) == ViewOf(live) && Tidy(r, nextId, calls, results)
  }

  lemma {:induction false} LocalAway(r: Rebuilt, es: seq<Event>, lo: nat, hi: nat, calls: set<string>, results: set<string>)
    requires Tidy(r, lo, calls, results) && Local(es, lo, hi)
    requires forall id :: HasStart(es, id) ==> id !in calls
    ensures forall i :: 0 <= i < |es| ==> Away(r.content, es[i])
  {
    hide Has, HasStart;
    forall i | 0 <= i < |es|
      ensures Away(r.content, es[i])
    {
      assert LocalEvent(es, es[i], lo, hi);
    }
  }

  lemma {:induction false} LocalCreated(es: seq<Event>, lo: nat, hi: nat, key: Key)
    requires Local(es, lo, hi) && Created(es, key)
    ensures key.TextKey? || key.ThinkingKey? || key.CallKey?
    ensures key.TextKey? || key.ThinkingKey? ==> lo <= key.n < hi
    ensures key.CallKey? ==> HasStart(es, key.s)
  {
    hide HasStart;
    var i :| 0 <= i < |es| && Creates(es[i]) == Some(key);
    assert LocalEvent(es, es[i], lo, hi);
  }

  lemma {:induction false} StartCreated(es: seq<Event>, id: string)
    requires HasStart(es, id)
    ensures Created(es, CallKey(id))
  {
    if es != [] {
      var init, e := es[..|es| - 1], es[|es| - 1];
      assert es == init + [e];
      HasStartSnoc(init, e, id);
      if HasStart(init, id) {
        StartCreated(init, id);
        var i :| 0 <= i < |init| && Creates(init[i]) == Some(CallKey(id));
        assert Creates(es[i]) == Some(CallKey(id));
      } else {
        assert Creates(es[|es| - 1]) == Some(CallKey(id));
      }
    }
  }

  lemma {:induction false} TidyAfterSpeech(read: Reader, r: Rebuilt, es: seq<Event>, lo: nat, hi: nat, calls: set<string>, more: set<string>, results: set<string>)
    requires Tidy(r, lo, calls, results) && Local(es, lo, hi) && lo <= hi
    requires forall id :: HasStart(es, id) ==> id in more
    ensures Tidy(ApplyAll(read, r, es), hi, calls + more, results)
  {
    hide Has, HasStart, Created;
    var after := ApplyAll(read, r, es);
    LocalSpeech(es, lo, hi);
    forall key
      ensures Has(after.content, key) <==> Has(r.content, key) || Created(es, key)
      ensures Created(es, key) ==> key.TextKey? || key.ThinkingKey? || key.CallKey?
      ensures Created(es, key) && (key.TextKey? || key.ThinkingKey?) ==> lo <= key.n < hi
      ensures Created(es, key) && key.CallKey? ==> HasStart(es, key.s)
    {
      ApplyAllHas(read, r, es, key);
      if Created(es, key) { LocalCreated(es, lo, hi, key); }
    }
    forall id | id in after.buffers
      ensures Has(after.content, CallKey(id))
    {
      BufferKeys(read, r, es, id);
      if id !in r.buffers {
        var i :| 0 <= i < |es| && EventKind(es[i]) == CallKind && es[i].callId == id;
        assert LocalEvent(es, es[i], lo, hi);
        StartCreated(es, id);
      }
    }
  }

  lemma {:induction false} StartsAreKept(es: seq<Event>, kept: seq<Call>, id: string)
    requires Starts(es) == Names(kept) && HasStart(es, id)
    ensures id in IdSet(kept)
  {
    hide Starts;
    NamesAt(kept);
    var i :| 0 <= i < |Starts(es)| && Starts(es)[i].id == id;
    assert kept[i].id == id;
    InIdSet(kept, id);
  }

  /** After an orderly attempt with new calls, host and runner still agree. */
  lemma {:induction false} AttemptAgrees(read: Reader, r: Rebuilt, live: seq<Block>, nextId: nat, input: AttemptInput, calls: set<string>, results: set<string>)
    requires Agree(r, live, nextId, calls, results)
    requires var d := RunAttempt(read, nextId, input);
      Orderly(read, d.events, CallsBy(d.end)) && IdSet(CallsBy(d.end)) !! calls
    ensures var d := RunAttempt(read, nextId, input);
      Agree(ApplyAll(read, r, d.events), live + d.blocks, d.nextId, calls + IdSet(CallsBy(d.end)), results)
  {
    hide RunAttempt, Concluded, Tidy, Local, HasStart, ViewOf, SaidIn, Tracked, Starts, Ends, IdSet, Names, Legible, OneBlock, Away, Has, Spoke, Faithful, AllSpeech;
    var d := RunAttempt(read, nextId, input);
    var (a, kept) := Concluded(read, nextId, input);
    ConcludedIs(read, nextId, input);
    ConcludedTracked(read, nextId, input);
    AttemptSaysIffOrderly(read, nextId, input);
    TrackedLocal(read, a, nextId);
    LocalSpeech(d.events, nextId, a.nextId);
    forall id | HasStart(d.events, id)
      ensures id in IdSet(kept) && id !in calls
    {
      StartsAreKept(d.events, kept, id);
    }
    TidyBuffers(r, nextId, calls, results);
    LocalAway(r, d.events, nextId, a.nextId, calls, results);
    ApplyAllOnTop(read, r, d.events);
    SpokenRun(Folded(read, d.events).content);
    SpokenRun(d.blocks);
    ViewAfterRun(r.content, Folded(read, d.events).content);
    ViewAfterRun(live, d.blocks);
    TidyAfterSpeech(read, r, d.events, nextId, a.nextId, calls, IdSet(kept), results);
    TidyLater(ApplyAll(read, r, d.events), a.nextId, d.nextId, calls + IdSet(kept), results);
  }

  lemma TrackedLocal(read: Reader, a: Attempt, lo: nat)
    requires Tracked(read, a, lo)
    ensures Local(a.events, lo, a.nextId) && lo <= a.nextId
  {
  }

  lemma TidyBuffers(r: Rebuilt, nextId: nat, calls: set<string>, results: set<string>)
    requires Tidy(r, nextId, calls, results)
    ensures forall id :: id in r.buffers ==> Has(r.content, CallKey(id))
  {
  }

  lemma TidyLater(r: Rebuilt, nextId: nat, nextId': nat, calls: set<string>, results: set<string>)
    requires Tidy(r, nextId, calls, results) && nextId <= nextId'
    ensures Tidy(r, nextId', calls, results)
  {
  }

  // ---------------------------------------------------------------------------
  // Whole reasoning actions
  // ---------------------------------------------------------------------------

  /** One more request is recorded by every attempt that is made. */
  lemma {:induction false} AttemptsCount(read: Reader, k: nat, max: nat, so: ReasonDone, inputs: nat -> AttemptInput)
    requires k < max
    ensures |so.snapshots| < |RunAttempts(read, k, max, so, inputs).snapshots|
    decreases max - k
  {
    hide RunAttempt, Unretryable;
    var input := inputs(k);
    var d := RunAttempt(read, so.nextId, input);
    var now := ReasonDone(so.events + d.events, so.blocks + d.blocks, d.nextId, TurnCancelled, so.snapshots + [so.blocks]);
    if d.end.FailedWith? && input.waiting == Undisturbed && ShouldRetry(d.end.error, input.advice, k == max - 1) {
      AttemptsCount(read, k + 1, max, now.(events := now.events + [Retrying(d.end.error.code, k + 1)]), inputs);
    }
  }

  /** An event without effect on messages. */
  lemma {:induction false} SilentAgrees(read: Reader, r: Rebuilt, live: seq<Block>, nextId: nat, es: seq<Event>, e: Event, calls: set<string>, results: set<string>)
    requires Agree(ApplyAll(read, r, es), live, nextId, calls, results)
    requires e.Retrying? || e.ReplyStarted? || e.ReplyEnded?
    ensures Agree(ApplyAll(read, r, es + [e]), live, nextId, calls, results)
  {
    hide Agree;
    assert (es + [e])[..|es|] == es;
  }

  lemma {:induction false} HintAgrees(read: Reader, r: Rebuilt, live: seq<Block>, nextId: nat, id: nat, hint: string, calls: set<string>, results: set<string>)
    requires Agree(r, live, nextId, calls, results)
    ensures Agree(Apply(read, r, HintGiven(id, hint)), live + [HintBlock(id, hint)], nextId, calls, results)
  {
    hide ViewOf, Find, Has;
    var b := HintBlock(id, hint);
    ViewAfterBreak(r.content, b);
    ViewAfterBreak(live, b);
    forall key
      ensures Has(r.content + [b], key) <==> Has(r.content, key) || KeyOf(b) == key
    {
      AddHas(r.content, b, key);
    }
  }

  lemma {:induction false} AttemptsAgree(read: Reader, k: nat, max: nat, so: ReasonDone, inputs: nat -> AttemptInput,
                                         r: Rebuilt, live: seq<Block>, calls: set<string>, results: set<string>)
    requires k < max && |so.snapshots| == k
    requires forall j :: k <= j < |RunAttempts(read, k, max, so, inputs).snapshots| ==> OrderlyStream(read, inputs(j))
    requires Agree(ApplyAll(read, r, so.events), live + so.blocks, so.nextId, calls, results)
    requires IdSet(CallsIn(RunAttempts(read, k, max, so, inputs).end)) !! calls
    ensures var d := RunAttempts(read, k, max, so, inputs);
      Agree(ApplyAll(read, r, d.events), live + d.blocks, d.nextId, calls + IdSet(CallsIn(d.end)), results)
    decreases max - k
  {
    hide RunAttempt, Agree, Orderly, OrderlyStream, ApplyAll, IdSet, Unretryable;
    var input := inputs(k);
    AttemptsCount(read, k, max, so, inputs);
    OrderlyIffStream(read, so.nextId, input);
    var d := RunAttempt(read, so.nextId, input);
    var now := ReasonDone(so.events + d.events, so.blocks + d.blocks, d.nextId, TurnCancelled, so.snapshots + [so.blocks]);
    NoIds();
    AttemptAgrees(read, ApplyAll(read, r, so.events), live + so.blocks, so.nextId, input, calls, results);
    ApplyAllAppend(read, r, so.events, d.events);
    assert live + (so.blocks + d.blocks) == (live + so.blocks) + d.blocks;
    assert calls + {} == calls;
    if d.end.FailedWith? && input.waiting != CancelledInHook && ShouldRetry(d.end.error, input.advice, k == max - 1) {
      var e := Retrying(d.end.error.code, k + 1);
      SilentAgrees(read, r, live + now.blocks, now.nextId, now.events, e, calls, results);
      if input.waiting != CancelledInSleep {
        AttemptsAgree(read, k + 1, max, now.(events := now.events + [e]), inputs, r, live, calls, results);
      }
    }
  }

  lemma NoIds()
    ensures IdSet([]) == {}
  {
  }

  function ReasonStart(hint: Option<string>, nextId: nat): ReasonDone
  {
    if hint.Some? then ReasonDone([HintGiven(nextId, hint.value)], [HintBlock(nextId, hint.value)], nextId + 1, TurnCancelled, [])
    else ReasonDone([], [], nextId, TurnCancelled, [])
  }

  /** Every attempt that is made has an orderly stream. */
  ghost predicate OrderlyReason(read: Reader, hint: Option<string>, maxRetries: nat, nextId: nat, inputs: nat -> AttemptInput)
  {
    forall k :: 0 <= k < |Reason(read, hint, maxRetries, nextId, inputs).snapshots| ==> OrderlyStream(read, inputs(k))
  }

  /** A reasoning action of orderly streams keeps host and runner in agreement. */
  lemma {:induction false} ReasonAgrees(read: Reader, hint: Option<string>, maxRetries: nat, nextId: nat, inputs: nat -> AttemptInput,
                                        r: Rebuilt, live: seq<Block>, calls: set<string>, results: set<string>)
    requires Agree(r, live, nextId, calls, results) && OrderlyReason(read, hint, maxRetries, nextId, inputs)
    requires IdSet(CallsIn(Reason(read, hint, maxRetries, nextId, inputs).end)) !! calls
    ensures var d := Reason(read, hint, maxRetries, nextId, inputs);
      Agree(ApplyAll(read, r, d.events), live + d.blocks, d.nextId, calls + IdSet(CallsIn(d.end)), results)
  {
    hide RunAttempts, Agree, OrderlyStream, IdSet, Apply;
    var start := ReasonStart(hint, nextId);
    if hint.Some? {
      assert start.events[..0] == [];
      HintAgrees(read, r, live, nextId, nextId, hint.value, calls, results);
      AgreeMore(Apply(read, r, HintGiven(nextId, hint.value)), live + start.blocks, nextId, nextId + 1, calls, calls, results, results);
      assert ApplyAll(read, r, start.events) == Apply(read, r, HintGiven(nextId, hint.value));
    } else {
      assert live + [] == live;
    }
    AttemptsAgree(read, 0, 1 + maxRetries, start, inputs, r, live, calls, results);
  }

  // ---------------------------------------------------------------------------
  // Tool results
  // ---------------------------------------------------------------------------

  /** The events of one result: a text that is not empty goes out as one delta. */
  function ResultEvents(id: string, name: string, text: string, state: ResultState): seq<Event>
  {
    [ResultStarted(id, name)] + (if text == "" then [] else [ResultGrown(id, text)]) + [ResultEnded(id, state)]
  }

  /** What the host has after them, up to states: its message with one more result. */
  lemma {:induction false} ResultRebuilt(read: Reader, r: Rebuilt, id: string, name: string, text: string, state: ResultState)
    requires !Has(r.content, ResultKey(id))
    ensures var after := ApplyAll(read, r, ResultEvents(id, name, text, state));
      && SameBare(after.content, r.content + [ToolResultBlock(id, name, Blocks(if text == "" then [] else [text]), state)])
      && after.buffers == r.buffers
      && (forall key :: Has(after.content, key) <==> Has(r.content, key) || key == ResultKey(id))
  {
    hide Find, SameBare, WithCallState;
    var es := ResultEvents(id, name, text, state);
    var b0 := ToolResultBlock(id, name, Blocks([]), Running);
    var b1 := if text == "" then b0 else b0.(output := Blocks([text]));
    var b2 := b1.(resultState := state);
    var r0 := Apply(read, r, ResultStarted(id, name));
    var r1 := if text == "" then r0 else Apply(read, r0, ResultGrown(id, text));
    var after := Apply(read, r1, ResultEnded(id, state));
    FindSnoc(r.content, b0, ResultKey(id));
    FindSnoc(r.content, b1, ResultKey(id));
    assert r1.content == r.content + [b1];
    assert r1.content[|r.content| := b2] == r.content + [b2];
    SetStateBare(r.content + [b2], id, CallState.Finished);
    SameBareSym(r.content + [b2], after.content);
    forall key
      ensures Has(after.content, key) <==> Has(r.content, key) || key == ResultKey(id)
    {
      AddHas(r.content, b2, key);
      SetStateHas(r.content + [b2], id, CallState.Finished, key);
    }
    ResultFold(read, r, id, name, text, state);
  }

  lemma SameBareSym(a: seq<Block>, b: seq<Block>)
    requires SameBare(a, b)
    ensures SameBare(b, a)
  {
  }

  lemma {:induction false} ResultFold(read: Reader, r: Rebuilt, id: string, name: string, text: string, state: ResultState)
    ensures var r0 := Apply(read, r, ResultStarted(id, name));
      var r1 := if text == "" then r0 else Apply(read, r0, ResultGrown(id, text));
      ApplyAll(read, r, ResultEvents(id, name, text, state)) == Apply(read, r1, ResultEnded(id, state))
  {
    hide Apply;
    var es := ResultEvents(id, name, text, state);
    var grown: seq<Event> := if text == "" then [] else [ResultGrown(id, text)];
    assert es[..|es| - 1] == [ResultStarted(id, name)] + grown;
    assert ([ResultStarted(id, name)] + grown)[..1] == [ResultStarted(id, name)];
    assert [ResultStarted(id, name)][..0] == [];
    assert ApplyAll(read, r, []) == r;
    assert ApplyAll(read, r, [ResultStarted(id, name)]) == Apply(read, r, ResultStarted(id, name));
    if text == "" {
      assert es[..|es| - 1] == [ResultStarted(id, name)];
    } else {
      assert es[..|es| - 1][..|es| - 2] == [ResultStarted(id, name)];
    }
  }

  lemma OneText(text: string)
    ensures OutputText(Blocks([])) == ""
    ensures OutputText(Blocks([text])) == text
  {
    assert [text][..0] == [];
    assert NonEmpty([text]) == if text == "" then [] else [text];
  }

  /** A result with text, for a call not yet answered, keeps host and runner in agreement. */
  lemma {:induction false} ResultAgrees(read: Reader, r: Rebuilt, live: seq<Block>, nextId: nat, id: string, name: string, text: string,
                                        state: ResultState, state': ResultState, calls: set<string>, results: set<string>)
    requires Agree(r, live, nextId, calls, results) && id !in results && text != ""
    ensures Agree(ApplyAll(read, r, ResultEvents(id, name, text, state)), live + [ToolResultBlock(id, name, Plain(text), state')],
                  nextId, calls, results + {id})
  {
    hide Has, ViewOf, ApplyAll, SameBare, ResultEvents;
    var after := ApplyAll(read, r, ResultEvents(id, name, text, state));
    ResultRebuilt(read, r, id, name, text, state);
    var rebuilt := ToolResultBlock(id, name, Blocks([text]), state);
    var written := ToolResultBlock(id, name, Plain(text), state');
    OneText(text);
    ViewBare(after.content, r.content + [rebuilt]);
    ViewAfterBreak(r.content, rebuilt);
    ViewAfterBreak(live, written);
  }

  // ---------------------------------------------------------------------------
  // States
  // ---------------------------------------------------------------------------

  /** Putting a call on hold shows only in its state. */
  lemma {:induction false} ConfirmAgrees(read: Reader, r: Rebuilt, live: seq<Block>, nextId: nat, id: string, name: string, calls: set<string>, results: set<string>)
    requires Agree(r, live, nextId, calls, results)
    ensures Agree(Apply(read, r, ConfirmRequired(id, name)), live, nextId, calls, results)
  {
    hide Has, ViewOf, SameBare, WithCallState;
    SetStateBare(r.content, id, Asking);
    ViewBare(r.content, WithCallState(r.content, id, Asking));
    forall key
      ensures Has(WithCallState(r.content, id, Asking), key) <==> Has(r.content, key)
    {
      SetStateHas(r.content, id, Asking, key);
    }
  }

  lemma {:induction false} LiveAgrees(r: Rebuilt, live: seq<Block>, live': seq<Block>, nextId: nat, calls: set<string>, results: set<string>)
    requires Agree(r, live, nextId, calls, results) && SameBare(live, live')
    ensures Agree(r, live', nextId, calls, results)
  {
    hide ViewOf, Tidy, SameBare;
    ViewBare(live, live');
  }

  /** Agreement does not depend on more calls, results or ids being known elsewhere. */
  lemma {:induction false} AgreeMore(r: Rebuilt, live: seq<Block>, nextId: nat, nextId': nat, calls: set<string>, calls': set<string>, results: set<string>, results': set<string>)
    requires Agree(r, live, nextId, calls, results) && nextId <= nextId' && calls <= calls' && results <= results'
    ensures Agree(r, live, nextId', calls', results')
  {
    hide ViewOf, Has;
  }
}
