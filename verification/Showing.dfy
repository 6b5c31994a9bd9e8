/**
 * What a host shows of calls and results: the state of every call and the list of results in a message
 * rebuilt from events, read off the events alone.
 */
module Showing {
  import opened Prelude
  import opened Messages
  import opened Events
  import opened Context
  import opened AttemptFold
  import opened Rebuild

  /** The state a message shows for a call: that of its first block with the id. */
  function Shown(bs: seq<Block>, id: string): Option<CallState>
  {
    var i := Find(bs, CallKey(id));
    if i < |bs| then Some(bs[i].state) else None
  }

  datatype Entry = Entry(id: string, name: string, state: ResultState)

  function EntryOf(b: Block): seq<Entry>
  {
    if b.ToolResultBlock? then [Entry(b.resultId, b.resultName, b.resultState)] else []
  }

  /** The results of a message, in order. */
  function Results(bs: seq<Block>): seq<Entry>
  {
    if bs == [] then [] else Results(bs[..|bs| - 1]) + EntryOf(bs[|bs| - 1])
  }

  // ---------------------------------------------------------------------------
  // What the events tell
  // ---------------------------------------------------------------------------

  /** A result for the call has begun. */
  predicate ResultBegun(es: seq<Event>, id: string)
  {
    es != [] && (ResultBegun(es[..|es| - 1], id) || (es[|es| - 1].ResultStarted? && es[|es| - 1].callId == id))
  }

  /** The event speaks of this call's state. */
  predicate Concerns(e: Event, id: string)
  {
    (e.CallStarted? || e.ConfirmRequired? || e.ConfirmAnswered? || e.ResultEnded?) && e.callId == id
  }

  /** The state after one more event that concerns the call. */
  function NextState(state: Option<CallState>, begun: bool, e: Event): Option<CallState>
  {
    match e
    case CallStarted(_, _) => if state == None then Some(Pending) else state
    case ConfirmRequired(_, _) => if state == None then None else Some(Asking)
    case ConfirmAnswered(_, approved) => if state == None then None else Some(if approved then Allowed else CallState.Finished)
    case ResultEnded(_, _) => if state == None || !begun then state else Some(CallState.Finished)
    case _ => state
  }

  /**
   * A call is pending once it has started, asks once a confirmation is required, is allowed or finished
   * once one is answered, and is finished once a result that had begun has ended. Other events, and the
   * events of other calls, leave it alone.
   */
  function StateTold(es: seq<Event>, id: string): Option<CallState>
  {
    if es == [] then None
    else
      var init, e := es[..|es| - 1], es[|es| - 1];
      if Concerns(e, id) then NextState(StateTold(init, id), ResultBegun(init, id), e) else StateTold(init, id)
  }

  /** The first entry with the id gets the state. */
  function Ended(entries: seq<Entry>, id: string, state: ResultState): seq<Entry>
  {
    if entries == [] then []
    else if entries[0].id == id then [Entry(id, entries[0].name, state)] + entries[1..]
    else [entries[0]] + Ended(entries[1..], id, state)
  }

  /** Results run from their start, and get their state when they end. */
  function ResultsTold(es: seq<Event>): seq<Entry>
  {
    if es == [] then []
    else
      var before := ResultsTold(es[..|es| - 1]);
      match es[|es| - 1]
      case ResultStarted(id, name) => before + [Entry(id, name, Running)]
      case ResultEnded(id, state) => Ended(before, id, state)
      case _ => before
  }

  lemma {:induction false} ToldSnoc(es: seq<Event>, e: Event, id: string)
    ensures ResultBegun(es + [e], id) <==> ResultBegun(es, id) || (e.ResultStarted? && e.callId == id)
    ensures StateTold(es + [e], id) == if Concerns(e, id) then NextState(StateTold(es, id), ResultBegun(es, id), e) else StateTold(es, id)
    ensures ResultsTold(es + [e]) ==
      match e
      case ResultStarted(id, name) => ResultsTold(es) + [Entry(id, name, Running)]
      case ResultEnded(id, state) => Ended(ResultsTold(es), id, state)
      case _ => ResultsTold(es)
  {
    assert (es + [e])[..|es|] == es;
  }

  // ---------------------------------------------------------------------------
  // The fold shows what the events tell: calls
  // ---------------------------------------------------------------------------

  lemma {:induction false} ShownSnoc(bs: seq<Block>, b: Block, id: string)
    ensures Shown(bs + [b], id) ==
      if Shown(bs, id).Some? then Shown(bs, id) else if KeyOf(b) == CallKey(id) then Some(b.state) else None
  {
    hide Find;
    FindSnoc(bs, b, CallKey(id));
  }

  lemma {:induction false} ShownUpdate(bs: seq<Block>, i: nat, b: Block, id: string)
    requires i < |bs| && KeyOf(b) == KeyOf(bs[i]) && (b.ToolCallBlock? ==> b.state == bs[i].state)
    ensures Shown(bs[i := b], id) == Shown(bs, id)
  {
    hide Find;
    FindUpdate(bs, i, b, CallKey(id));
  }

  lemma {:induction false} ShownSet(bs: seq<Block>, x: string, state: CallState, id: string)
    ensures Shown(WithCallState(bs, x, state), id) == if x == id && Shown(bs, id).Some? then Some(state) else Shown(bs, id)
  {
    hide Find;
    var i := Find(bs, CallKey(x));
    if i < |bs| { FindUpdate(bs, i, bs[i].(state := state), CallKey(id)); }
  }

  /** Growing or ending a text, a call or a result in place leaves the states of calls alone. */
  lemma {:induction false} ShownGrowing(read: Reader, r: Rebuilt, e: Event, id: string)
    requires e.TextGrown? || e.ThinkingGrown? || e.CallEnded? || e.ResultGrown?
    ensures Shown(Apply(read, r, e).content, id) == Shown(r.content, id)
  {
    hide Find, Shown, ReadArguments, GrowOutput;
    var bs := r.content;
    match e
    case TextGrown(n, delta) =>
      var i := Find(bs, TextKey(n));
      if i < |bs| { ShownUpdate(bs, i, bs[i].(text := bs[i].text + delta), id); }
    case ThinkingGrown(n, delta) =>
      var i := Find(bs, ThinkingKey(n));
      if i < |bs| { ShownUpdate(bs, i, bs[i].(thinking := bs[i].thinking + delta), id); }
    case CallEnded(x, arguments) =>
      var i := Find(bs, CallKey(x));
      if i < |bs| {
        var raw := if arguments != "" then arguments else Buffered(r, x);
        ShownUpdate(bs, i, bs[i].(arguments := ReadArguments(read, raw)), id);
      }
    case ResultGrown(x, delta) =>
      var i := Find(bs, ResultKey(x));
      if i < |bs| { ShownUpdate(bs, i, bs[i].(output := GrowOutput(bs[i].output, delta)), id); }
  }

  lemma {:induction false} ShownCreating(read: Reader, r: Rebuilt, e: Event, id: string)
    requires Creates(e).Some?
    ensures Shown(Apply(read, r, e).content, id) ==
      if e.CallStarted? && e.callId == id && Shown(r.content, id) == None then Some(Pending) else Shown(r.content, id)
  {
    hide Find, Shown;
    var bs := r.content;
    match e
    case TextStarted(n) => ShownSnoc(bs, TextBlock(n, ""), id);
    case ThinkingStarted(n) => ShownSnoc(bs, ThinkingBlock(n, ""), id);
    case CallStarted(x, name) => ShownSnoc(bs, ToolCallBlock(x, name, NO_ARGUMENTS, Pending), id);
    case HintGiven(n, hint) => ShownSnoc(bs, HintBlock(n, hint), id);
    case ResultStarted(x, name) => ShownSnoc(bs, ToolResultBlock(x, name, Blocks([]), Running), id);
  }

  lemma {:induction false} ShownAfter(read: Reader, r: Rebuilt, e: Event, begun: bool, id: string)
    requires begun <==> Has(r.content, ResultKey(id))
    ensures Shown(Apply(read, r, e).content, id) == if Concerns(e, id) then NextState(Shown(r.content, id), begun, e) else Shown(r.content, id)
  {
    hide Find, Shown, WithCallState;
    var bs := r.content;
    if Creates(e).Some? {
      ShownCreating(read, r, e, id);
    } else if e.TextGrown? || e.ThinkingGrown? || e.CallEnded? || e.ResultGrown? {
      ShownGrowing(read, r, e, id);
    } else {
      match e
      case ResultEnded(x, state) =>
        var i := Find(bs, ResultKey(x));
        if i < |bs| {
          ShownUpdate(bs, i, bs[i].(resultState := state), id);
          ShownSet(bs[i := bs[i].(resultState := state)], x, CallState.Finished, id);
        }
      case ConfirmRequired(x, _) => ShownSet(bs, x, Asking, id);
      case ConfirmAnswered(x, approved) => ShownSet(bs, x, if approved then Allowed else CallState.Finished, id);
      case _ =>
    }
  }

  lemma {:induction false} BegunIsHad(read: Reader, es: seq<Event>, id: string)
    ensures ResultBegun(es, id) <==> Has(Folded(read, es).content, ResultKey(id))
  {
    hide Apply, Has;
    if es == [] {
      NoBlocks(ResultKey(id));
    } else {
      var init, e := es[..|es| - 1], es[|es| - 1];
      assert es == init + [e];
      BegunIsHad(read, init, id);
      FoldedSnoc(read, init, e);
      ApplyHas(read, Folded(read, init), e, ResultKey(id));
    }
  }

  lemma NoBlocks(key: Key)
    ensures !Has([], key)
  {
  }

  /** For every list of events, in whatever order: a host shows for each call the state the events tell. */
  lemma {:induction false} FoldShowsTold(read: Reader, es: seq<Event>, id: string)
    ensures Shown(Folded(read, es).content, id) == StateTold(es, id)
  {
    hide Apply, Has;
    if es != [] {
      var init, e := es[..|es| - 1], es[|es| - 1];
      assert es == init + [e];
      FoldShowsTold(read, init, id);
      FoldedSnoc(read, init, e);
      BegunIsHad(read, init, id);
      ShownAfter(read, Folded(read, init), e, ResultBegun(init, id), id);
    }
  }

  /** No event changes the state of a call it does not concern. */
  lemma {:induction false} OtherCallsStay(read: Reader, es: seq<Event>, e: Event, id: string)
    requires !Concerns(e, id)
    ensures Shown(Folded(read, es + [e]).content, id) == Shown(Folded(read, es).content, id)
  {
    hide Shown, Folded;
    FoldShowsTold(read, es, id);
    FoldShowsTold(read, es + [e], id);
    ToldSnoc(es, e, id);
  }

  // ---------------------------------------------------------------------------
  // The fold shows what the events tell: results
  // ---------------------------------------------------------------------------

  lemma {:induction false} ResultsSnoc(bs: seq<Block>, b: Block)
    ensures Results(bs + [b]) == Results(bs) + EntryOf(b)
  {
    assert (bs + [b])[..|bs|] == bs;
  }

  lemma {:induction false} ResultsUpdate(bs: seq<Block>, i: nat, b: Block)
    requires i < |bs| && EntryOf(b) == EntryOf(bs[i])
    ensures Results(bs[i := b]) == Results(bs)
    decreases |bs|
  {
    hide Results, EntryOf;
    var n := |bs| - 1;
    assert bs == bs[..n] + [bs[n]];
    ResultsSnoc(bs[..n], bs[n]);
    if i < n {
      assert bs[i := b] == bs[..n][i := b] + [bs[n]];
      ResultsUpdate(bs[..n], i, b);
      ResultsSnoc(bs[..n][i := b], bs[n]);
    } else {
      assert bs[i := b] == bs[..n] + [b];
      ResultsSnoc(bs[..n], b);
    }
  }

  lemma {:induction false} EndedSnoc(entries: seq<Entry>, last: Entry, id: string, state: ResultState)
    ensures Ended(entries + [last], id, state) ==
      if exists i :: 0 <= i < |entries| && entries[i].id == id then Ended(entries, id, state) + [last]
      else entries + [if last.id == id then Entry(id, last.name, state) else last]
  {
    if entries == [] {
      assert [last][1..] == [];
    } else {
      assert (entries + [last])[1..] == entries[1..] + [last];
      EndedSnoc(entries[1..], last, id, state);
      if i :| 0 <= i < |entries| && entries[i].id == id { assert i > 0 ==> entries[1..][i - 1].id == id; }
      if i :| 0 <= i < |entries[1..]| && entries[1..][i].id == id { assert entries[i + 1].id == id; }
      assert [entries[0]] + entries[1..] == entries;
    }
  }

  lemma {:induction false} EndedNone(entries: seq<Entry>, id: string, state: ResultState)
    requires forall i :: 0 <= i < |entries| ==> entries[i].id != id
    ensures Ended(entries, id, state) == entries
  {
    if entries != [] { EndedNone(entries[1..], id, state); }
  }

  lemma {:induction false} HasIsEntry(bs: seq<Block>, id: string)
    ensures Has(bs, ResultKey(id)) <==> exists i :: 0 <= i < |Results(bs)| && Results(bs)[i].id == id
  {
    hide Has, Results;
    if bs == [] {
      NoBlocks(ResultKey(id));
      assert Results([]) == [] by { NoResults(); }
    } else {
      var init, b := bs[..|bs| - 1], bs[|bs| - 1];
      assert bs == init + [b];
      HasIsEntry(init, id);
      AddHas(init, b, ResultKey(id));
      ResultsSnoc(init, b);
      if i :| 0 <= i < |Results(init)| && Results(init)[i].id == id { assert Results(bs)[i].id == id; }
      if KeyOf(b) == ResultKey(id) { assert Results(bs)[|Results(init)|].id == id; }
      if i :| 0 <= i < |Results(bs)| && Results(bs)[i].id == id { assert i < |Results(init)| ==> Results(init)[i].id == id; }
    }
  }

  lemma NoResults()
    ensures Results([]) == []
  {
  }

  /** Setting the state of the first result with an id ends the first entry with it. */
  lemma {:induction false} ResultsEnd(bs: seq<Block>, id: string, state: ResultState)
    requires Has(bs, ResultKey(id))
    ensures var i := Find(bs, ResultKey(id)); Results(bs[i := bs[i].(resultState := state)]) == Ended(Results(bs), id, state)
  {
    hide Find, Results, Ended;
    if bs == [] {
      NoBlocks(ResultKey(id));
    } else {
      var n := |bs| - 1;
      var init, b := bs[..n], bs[n];
      assert bs == init + [b];
      FindSnoc(init, b, ResultKey(id));
      ResultsSnoc(init, b);
      HasIsEntry(init, id);
      var i := Find(bs, ResultKey(id));
      if Has(init, ResultKey(id)) {
        ResultsEnd(init, id, state);
        assert bs[i := bs[i].(resultState := state)] == init[i := init[i].(resultState := state)] + [b];
        ResultsSnoc(init[i := init[i].(resultState := state)], b);
        if b.ToolResultBlock? {
          EndedSnoc(Results(init), EntryOf(b)[0], id, state);
        } else {
          assert Results(init) + [] == Results(init);
          assert Ended(Results(init), id, state) + [] == Ended(Results(init), id, state);
        }
      } else {
        assert bs[i := bs[i].(resultState := state)] == init + [b.(resultState := state)];
        ResultsSnoc(init, b.(resultState := state));
        EndedSnoc(Results(init), EntryOf(b)[0], id, state);
      }
    }
  }

  lemma {:induction false} ResultsSet(bs: seq<Block>, id: string, state: CallState)
    ensures Results(WithCallState(bs, id, state)) == Results(bs)
  {
    hide Find, Results;
    var i := Find(bs, CallKey(id));
    if i < |bs| { ResultsUpdate(bs, i, bs[i].(state := state)); }
  }

  lemma {:induction false} ResultsGrowing(read: Reader, r: Rebuilt, e: Event)
    requires e.TextGrown? || e.ThinkingGrown? || e.CallEnded? || e.ResultGrown?
    ensures Results(Apply(read, r, e).content) == Results(r.content)
  {
    hide Find, Results, ReadArguments, GrowOutput;
    var bs := r.content;
    match e
    case TextGrown(n, delta) =>
      var i := Find(bs, TextKey(n));
      if i < |bs| { ResultsUpdate(bs, i, bs[i].(text := bs[i].text + delta)); }
    case ThinkingGrown(n, delta) =>
      var i := Find(bs, ThinkingKey(n));
      if i < |bs| { ResultsUpdate(bs, i, bs[i].(thinking := bs[i].thinking + delta)); }
    case CallEnded(x, arguments) =>
      var i := Find(bs, CallKey(x));
      if i < |bs| {
        var raw := if arguments != "" then arguments else Buffered(r, x);
        ResultsUpdate(bs, i, bs[i].(arguments := ReadArguments(read, raw)));
      }
    case ResultGrown(x, delta) =>
      var i := Find(bs, ResultKey(x));
      if i < |bs| { ResultsUpdate(bs, i, bs[i].(output := GrowOutput(bs[i].output, delta))); }
  }

  lemma {:induction false} ResultsCreating(read: Reader, r: Rebuilt, e: Event)
    requires Creates(e).Some?
    ensures Results(Apply(read, r, e).content) == Results(r.content) + if e.ResultStarted? then [Entry(e.callId, e.name, Running)] else []
  {
    hide Results;
    var bs := r.content;
    match e
    case TextStarted(n) => ResultsSnoc(bs, TextBlock(n, ""));
    case ThinkingStarted(n) => ResultsSnoc(bs, ThinkingBlock(n, ""));
    case CallStarted(x, name) => ResultsSnoc(bs, ToolCallBlock(x, name, NO_ARGUMENTS, Pending));
    case HintGiven(n, hint) => ResultsSnoc(bs, HintBlock(n, hint));
    case ResultStarted(x, name) => ResultsSnoc(bs, ToolResultBlock(x, name, Blocks([]), Running));
  }

  lemma {:induction false} ResultsAfter(read: Reader, r: Rebuilt, e: Event)
    ensures Results(Apply(read, r, e).content) ==
      match e
      case ResultStarted(id, name) => Results(r.content) + [Entry(id, name, Running)]
      case ResultEnded(id, state) => Ended(Results(r.content), id, state)
      case _ => Results(r.content)
  {
    hide Find, Results, WithCallState, Ended;
    var bs := r.content;
    if Creates(e).Some? {
      ResultsCreating(read, r, e);
      assert Results(bs) + [] == Results(bs);
    } else if e.TextGrown? || e.ThinkingGrown? || e.CallEnded? || e.ResultGrown? {
      ResultsGrowing(read, r, e);
    } else {
      match e
      case ResultEnded(id, state) =>
        var i := Find(bs, ResultKey(id));
        HasIsEntry(bs, id);
        assert Has(bs, ResultKey(id)) <==> i < |bs|;
        if i < |bs| {
          ResultsEnd(bs, id, state);
          ResultsSet(bs[i := bs[i].(resultState := state)], id, CallState.Finished);
        } else {
          var entries := Results(bs);
          assert forall k :: 0 <= k < |entries| ==> entries[k].id != id;
          EndedNone(entries, id, state);
        }
      case ConfirmRequired(id, _) => ResultsSet(bs, id, Asking);
      case ConfirmAnswered(id, approved) => ResultsSet(bs, id, if approved then Allowed else CallState.Finished);
      case _ =>
    }
  }

  /** For every list of events: a host shows the results the events tell, with their names and states, in order. */
  lemma {:induction false} FoldShowsResults(read: Reader, es: seq<Event>)
    ensures Results(Folded(read, es).content) == ResultsTold(es)
  {
    hide Apply, Ended;
    if es != [] {
      var init, e := es[..|es| - 1], es[|es| - 1];
      assert es == init + [e];
      FoldShowsResults(read, init);
      FoldedSnoc(read, init, e);
      ResultsAfter(read, Folded(read, init), e);
      ToldSnoc(init, e, "");
    }
  }
}
