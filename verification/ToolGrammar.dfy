/**
 * The message grammar that providers demand, and what the normaliser does with it:
 * its outputs are exactly the lists in the grammar, it leaves those unchanged, and it
 * loses nothing but orphaned results, unpaired calls and empty assistant messages.
 */
module ToolGrammar {
  import opened Prelude
  import opened Messages
  import opened Normalize

  /** One unit of the grammar: a bystander, an assistant message without calls, or calls with their results. */
  datatype Unit = Bystander(m: Message) | Saying(m: Message) | Group(m: Message, results: seq<Message>)

  function RenderUnit(u: Unit): seq<Message>
  {
    match u
    case Bystander(m) => [m]
    case Saying(m) => [m]
    case Group(m, results) => [m] + results
  }

  function Render(us: seq<Unit>): seq<Message>
  {
    if us == [] then [] else RenderUnit(us[0]) + Render(us[1..])
  }

  ghost predicate Answers(results: seq<Message>, id: Option<string>)
  {
    exists j :: 0 <= j < |results| && results[j].toolCallId == id
  }

  /** Distinct non-empty call ids, each answered by exactly one of the results, and no other result. */
  ghost predicate PairsOff(calls: seq<CallDict>, results: seq<Message>)
  {
    && (forall i :: 0 <= i < |calls| ==> calls[i].id.Some? && calls[i].id.value != "")
    && (forall i, j :: 0 <= i < j < |calls| ==> calls[i].id != calls[j].id)
    && |results| == |calls|
    && (forall i :: 0 <= i < |calls| ==> Answers(results, calls[i].id))
    && (forall i, j :: 0 <= i < j < |results| ==> results[i].toolCallId != results[j].toolCallId)
  }

  ghost predicate AllTool(ms: seq<Message>)
  {
    forall i :: 0 <= i < |ms| ==> ms[i].role == Tool
  }

  /** The unit respects the tool protocol; content is not looked at. */
  ghost predicate Paired(u: Unit)
  {
    match u
    case Bystander(m) => m.role != Tool && m.role != Assistant
    case Saying(m) => m.role == Assistant && Calls(m) == []
    case Group(m, results) => m.role == Assistant && Calls(m) != [] && AllTool(results) && PairsOff(Calls(m), results)
  }

  /** The unit may be sent: paired, assistant content normalised, and no assistant message without payload. */
  ghost predicate Sendable(u: Unit, keepReasoning: bool)
  {
    && Paired(u)
    && (!u.Bystander? ==> NormalContent(u.m.content) == u.m.content)
    && (u.Saying? ==> HasPayload(u.m, keepReasoning))
  }

  ghost predicate AllPaired(us: seq<Unit>)
  {
    us == [] || (Paired(us[0]) && AllPaired(us[1..]))
  }

  ghost predicate AllSendable(us: seq<Unit>, keepReasoning: bool)
  {
    us == [] || (Sendable(us[0], keepReasoning) && AllSendable(us[1..], keepReasoning))
  }

  lemma {:induction false} SendableIsPaired(us: seq<Unit>, keepReasoning: bool)
    requires AllSendable(us, keepReasoning)
    ensures AllPaired(us)
  {
    if us != [] { SendableIsPaired(us[1..], keepReasoning); }
  }

  lemma {:induction false} AllPairedAppend(a: seq<Unit>, b: seq<Unit>)
    requires AllPaired(a) && AllPaired(b)
    ensures AllPaired(a + b)
  {
    if a == [] {
      assert a + b == b;
    } else {
      AllPairedAppend(a[1..], b);
      assert (a + b)[1..] == a[1..] + b;
    }
  }

  lemma {:induction false} AllSendableAppend(a: seq<Unit>, b: seq<Unit>, keepReasoning: bool)
    requires AllSendable(a, keepReasoning) && AllSendable(b, keepReasoning)
    ensures AllSendable(a + b, keepReasoning)
  {
    if a == [] {
      assert a + b == b;
    } else {
      AllSendableAppend(a[1..], b, keepReasoning);
      assert (a + b)[1..] == a[1..] + b;
    }
  }

  // ---------------------------------------------------------------------------
  // The pairing check: sets and counts against one result per call
  // ---------------------------------------------------------------------------

  lemma {:induction false} ElementsAre(ids: seq<Option<string>>, x: Option<string>)
    ensures x in Elements(ids) <==> exists j :: 0 <= j < |ids| && ids[j] == x
  {
    if ids != [] {
      var n := |ids| - 1;
      ElementsAre(ids[..n], x);
      if x in Elements(ids[..n]) {
        var j :| 0 <= j < n && ids[..n][j] == x;
        assert ids[j] == x;
      }
      if j :| 0 <= j < |ids| && ids[j] == x {
        assert j < n ==> ids[..n][j] == x;
      }
    }
  }

  ghost predicate Distinct(ids: seq<Option<string>>)
  {
    forall i, j :: 0 <= i < j < |ids| ==> ids[i] != ids[j]
  }

  /** Pigeonhole: a list has as many elements as positions exactly when it repeats nothing. */
  lemma {:induction false} CountsDistinct(ids: seq<Option<string>>)
    ensures |Elements(ids)| <= |ids|
    ensures |Elements(ids)| == |ids| <==> Distinct(ids)
  {
    if ids != [] {
      var n := |ids| - 1;
      var init, last := ids[..n], ids[n];
      CountsDistinct(init);
      ElementsAre(init, last);
      if last in Elements(init) {
        var j :| 0 <= j < n && init[j] == last;
        assert Elements(ids) == Elements(init);
        assert ids[j] == ids[n];
      } else {
        assert Distinct(ids) <==> Distinct(init) by {
          if Distinct(init) {
            forall i, j | 0 <= i < j < |ids|
              ensures ids[i] != ids[j]
            {
              if j == n { assert init[i] == ids[i]; } else { assert init[i] == ids[i] && init[j] == ids[j]; }
            }
          }
          assert forall i :: 0 <= i < n ==> init[i] == ids[i];
        }
      }
    }
  }

  lemma {:induction false} AllGivenAt(ids: seq<Option<string>>)
    ensures AllGiven(ids) <==> forall i :: 0 <= i < |ids| ==> ids[i].Some? && ids[i].value != ""
  {
    if ids != [] {
      var n := |ids| - 1;
      AllGivenAt(ids[..n]);
      assert forall i :: 0 <= i < n ==> ids[..n][i] == ids[i];
    }
  }

  lemma {:induction false} CallIdsAt(calls: seq<CallDict>)
    ensures forall i :: 0 <= i < |calls| ==> CallIds(calls)[i] == calls[i].id
  {
    if calls != [] {
      CallIdsAt(calls[..|calls| - 1]);
    }
  }

  lemma {:induction false} ResultIdsAt(results: seq<Message>)
    ensures forall i :: 0 <= i < |results| ==> ResultIds(results)[i] == results[i].toolCallId
  {
    if results != [] {
      ResultIdsAt(results[..|results| - 1]);
    }
  }

  /** The check as written (sets and lengths) means exactly one result for every call. */
  lemma {:induction false} CompletePairMeansPairsOff(calls: seq<CallDict>, results: seq<Message>)
    ensures CompletePair(calls, results) <==> PairsOff(calls, results)
  {
    var c, r := CallIds(calls), ResultIds(results);
    CallIdsAt(calls);
    ResultIdsAt(results);
    AllGivenAt(c);
    AllGivenAt(r);
    CountsDistinct(c);
    CountsDistinct(r);
    if CompletePair(calls, results) {
      forall i | 0 <= i < |calls|
        ensures Answers(results, calls[i].id)
      {
        ElementsAre(c, c[i]);
        ElementsAre(r, c[i]);
        var j :| 0 <= j < |r| && r[j] == c[i];
        assert results[j].toolCallId == calls[i].id;
      }
    }
    if PairsOff(calls, results) {
      PairsOffElements(calls, results);
    }
  }

  lemma {:induction false} PairsOffElements(calls: seq<CallDict>, results: seq<Message>)
    requires PairsOff(calls, results)
    ensures Elements(ResultIds(results)) == Elements(CallIds(calls))
    ensures AllGiven(ResultIds(results))
  {
    var c, r := CallIds(calls), ResultIds(results);
    CallIdsAt(calls);
    ResultIdsAt(results);
    CountsDistinct(c);
    CountsDistinct(r);
    forall x | x in Elements(c)
      ensures x in Elements(r)
    {
      ElementsAre(c, x);
      var i :| 0 <= i < |c| && c[i] == x;
      assert Answers(results, calls[i].id);
      var j :| 0 <= j < |results| && results[j].toolCallId == calls[i].id;
      assert r[j] == x;
      ElementsAre(r, x);
    }
    SubsetSameSize(Elements(c), Elements(r));
    forall i | 0 <= i < |r|
      ensures r[i].Some? && r[i].value != ""
    {
      ElementsAre(r, r[i]);
      ElementsAre(c, r[i]);
    }
    AllGivenAt(r);
  }

  lemma SubsetSameSize<T>(a: set<T>, b: set<T>)
    requires a <= b && |a| == |b|
    ensures a == b
  {
    assert |b - a| == |b| - |a|;
  }

  // ---------------------------------------------------------------------------
  // Every output is in the grammar
  // ---------------------------------------------------------------------------

  lemma {:induction false} ToolsUpTo(ms: seq<Message>, i: nat)
    requires i <= |ms|
    ensures AllTool(ms[i..AfterTools(ms, i)])
    ensures AfterTools(ms, i) < |ms| ==> ms[AfterTools(ms, i)].role != Tool
    decreases |ms| - i
  {
    if i < |ms| && ms[i].role == Tool {
      ToolsUpTo(ms, i + 1);
      assert forall k :: 1 <= k < AfterTools(ms, i) - i ==> ms[i..AfterTools(ms, i)][k] == ms[i + 1..AfterTools(ms, i)][k - 1];
    }
  }

  lemma {:induction false} NormalContentStable(c: Content)
    ensures NormalContent(NormalContent(c)) == NormalContent(c)
  {
  }

  lemma {:induction false} RenderCons(u: Unit, us: seq<Unit>)
    ensures Render([u] + us) == RenderUnit(u) + Render(us)
  {
    assert ([u] + us)[1..] == us;
  }

  /** The units one loop pass appends: none or one, always sendable. */
  lemma {:induction false} StepUnits(ms: seq<Message>, i: nat, keepReasoning: bool) returns (us: seq<Unit>)
    requires i < |ms|
    ensures |us| <= 1 && AllSendable(us, keepReasoning)
    ensures Render(us) == StepAt(ms, i, keepReasoning).emitted
  {
    var step := StepAt(ms, i, keepReasoning);
    us := [];
    if ms[i].role != Tool {
      if ms[i].role != Assistant {
        us := [Bystander(ms[i])];
        RenderCons(us[0], []);
      } else {
        var current := ms[i].(content := NormalContent(ms[i].content));
        var next := AfterTools(ms, i + 1);
        NormalContentStable(ms[i].content);
        ToolsUpTo(ms, i + 1);
        CompletePairMeansPairsOff(Calls(current), ms[i + 1..next]);
        if Calls(current) != [] && CompletePair(Calls(current), ms[i + 1..next]) {
          us := [Group(current, ms[i + 1..next])];
          RenderCons(us[0], []);
        } else {
          var said := if Calls(current) == [] then current else Stripped(current);
          if HasPayload(said, keepReasoning) {
            us := [Saying(said)];
            RenderCons(us[0], []);
          }
        }
      }
    }
  }

  lemma {:induction false} RenderAppend(a: seq<Unit>, b: seq<Unit>)
    ensures Render(a + b) == Render(a) + Render(b)
  {
    if a == [] {
      assert a + b == b;
    } else {
      assert a + b == [a[0]] + (a[1..] + b);
      RenderCons(a[0], a[1..] + b);
      RenderAppend(a[1..], b);
      Regroup(RenderUnit(a[0]), Render(a[1..]), Render(b));
    }
  }

  lemma {:induction false} OutputFromInGrammar(ms: seq<Message>, i: nat, keepReasoning: bool) returns (us: seq<Unit>)
    requires i <= |ms|
    ensures AllSendable(us, keepReasoning) && Render(us) == NormFrom(ms, i, keepReasoning)
    decreases |ms| - i
  {
    us := [];
    if i < |ms| {
      var first := StepUnits(ms, i, keepReasoning);
      var rest := OutputFromInGrammar(ms, StepAt(ms, i, keepReasoning).next, keepReasoning);
      us := first + rest;
      AllSendableAppend(first, rest, keepReasoning);
      RenderAppend(first, rest);
    }
  }

  /** The list can be cut into sendable units. */
  ghost predicate InGrammar(ms: seq<Message>, keepReasoning: bool)
  {
    exists us :: AllSendable(us, keepReasoning) && Render(us) == ms
  }

  /** Whatever the history, the normalised history is in the provider's grammar. */
  lemma {:induction false} OutputInGrammar(ms: seq<Message>, keepReasoning: bool)
    ensures InGrammar(Norm(ms, keepReasoning), keepReasoning)
  {
    var us := OutputFromInGrammar(ms, 0, keepReasoning);
  }

  // ---------------------------------------------------------------------------
  // Lists in the grammar are fixpoints
  // ---------------------------------------------------------------------------

  lemma {:induction false} RenderStartsPaired(us: seq<Unit>)
    requires AllPaired(us) && Render(us) != []
    ensures Render(us)[0].role != Tool
  {
    if us != [] {
      assert Paired(us[0]);
    }
  }

  lemma {:induction false} AfterResults(pre: seq<Message>, results: seq<Message>, rest: seq<Message>)
    requires AllTool(results) && (rest != [] ==> rest[0].role != Tool)
    ensures AfterTools(pre + results + rest, |pre|) == |pre| + |results|
    decreases |results|
  {
    if results != [] {
      var pre' := pre + [results[0]];
      assert pre + results + rest == pre' + results[1..] + rest;
      AfterResults(pre', results[1..], rest);
    }
  }

  /** A paired unit made sendable: content normalised, and an assistant message without payload removed. */
  function TidyUnit(u: Unit, keepReasoning: bool): seq<Unit>
  {
    if u.Bystander? then [u] else
    var m := u.m.(content := NormalContent(u.m.content));
    if u.Group? then [Group(m, u.results)]
    else if HasPayload(m, keepReasoning) then [Saying(m)] else []
  }

  function Tidy(us: seq<Unit>, keepReasoning: bool): seq<Unit>
  {
    if us == [] then [] else TidyUnit(us[0], keepReasoning) + Tidy(us[1..], keepReasoning)
  }

  lemma {:induction false} TidySendable(us: seq<Unit>, keepReasoning: bool)
    requires AllSendable(us, keepReasoning)
    ensures Tidy(us, keepReasoning) == us
  {
    if us != [] {
      TidySendable(us[1..], keepReasoning);
      assert us[0].m.(content := us[0].m.content) == us[0].m;
      assert [us[0]] + us[1..] == us;
    }
  }

  lemma {:induction false} RenderTidyUnit(u: Unit, keepReasoning: bool)
    ensures Render(TidyUnit(u, keepReasoning)) ==
      if u.Bystander? then [u.m]
      else
        var m := u.m.(content := NormalContent(u.m.content));
        if u.Group? then [m] + u.results else KeptIf(m, keepReasoning)
  {
    var us := TidyUnit(u, keepReasoning);
    if us != [] { RenderCons(us[0], []); }
  }

  /** One loop pass takes a paired unit whole, drops nothing, strips nothing, and emits it tidied. */
  ghost predicate Takes(step: Step, from: nat, u: Unit, keepReasoning: bool)
  {
    && step.next == from + |RenderUnit(u)| && step.dropped == 0 && step.stripped == 0
    && step.emitted == Render(TidyUnit(u, keepReasoning))
  }

  lemma {:induction false} TakesGroup(ms: seq<Message>, i: nat, u: Unit, keepReasoning: bool)
    requires Paired(u) && u.Group? && i < |ms| && ms[i] == u.m
    requires AfterTools(ms, i + 1) == i + 1 + |u.results| && ms[i + 1..i + 1 + |u.results|] == u.results
    ensures Takes(StepAt(ms, i, keepReasoning), i, u, keepReasoning)
  {
    CompletePairMeansPairsOff(Calls(u.m), u.results);
    RenderTidyUnit(u, keepReasoning);
  }

  lemma {:induction false} TakesSingle(ms: seq<Message>, i: nat, u: Unit, keepReasoning: bool)
    requires Paired(u) && !u.Group? && i < |ms| && ms[i] == u.m
    ensures Takes(StepAt(ms, i, keepReasoning), i, u, keepReasoning)
  {
    hide Render, CompletePair, NormalContent, HasPayload, TidyUnit, AfterTools;
    RenderTidyUnit(u, keepReasoning);
  }

  lemma GroupShape(pre: seq<Message>, m: Message, results: seq<Message>, rest: seq<Message>)
    ensures var ms := pre + ([m] + results) + rest;
      && ms == (pre + [m]) + results + rest
      && ms[|pre|] == m && ms[|pre| + 1..|pre| + 1 + |results|] == results
  {
  }

  lemma SingleShape(pre: seq<Message>, m: Message, rest: seq<Message>)
    ensures (pre + [m] + rest)[|pre|] == m
  {
  }

  lemma {:induction false} StepTakesUnit(pre: seq<Message>, u: Unit, rest: seq<Message>, keepReasoning: bool)
    requires Paired(u) && (rest != [] ==> rest[0].role != Tool)
    ensures Takes(StepAt(pre + RenderUnit(u) + rest, |pre|, keepReasoning), |pre|, u, keepReasoning)
  {
    hide PairsOff, TidyUnit, Render, CompletePair, NormalContent, HasPayload, StepAt, Takes, AfterTools;
    var ms := pre + RenderUnit(u) + rest;
    if u.Group? {
      GroupShape(pre, u.m, u.results, rest);
      AfterResults(pre + [u.m], u.results, rest);
      TakesGroup(ms, |pre|, u, keepReasoning);
    } else {
      SingleShape(pre, u.m, rest);
      TakesSingle(ms, |pre|, u, keepReasoning);
    }
  }

  lemma {:induction false} CountsUnfold(ms: seq<Message>, from: nat, keepReasoning: bool)
    requires from < |ms|
    ensures var step := StepAt(ms, from, keepReasoning);
      && DroppedFrom(ms, from, keepReasoning) == step.dropped + DroppedFrom(ms, step.next, keepReasoning)
      && StrippedFrom(ms, from, keepReasoning) == step.stripped + StrippedFrom(ms, step.next, keepReasoning)
  {
  }

  lemma {:induction false} NormUnfold(ms: seq<Message>, from: nat, keepReasoning: bool)
    requires from < |ms|
    ensures var step := StepAt(ms, from, keepReasoning);
      NormFrom(ms, from, keepReasoning) == step.emitted + NormFrom(ms, step.next, keepReasoning)
  {
  }

  lemma {:induction false} NextUnit(pre: seq<Message>, us: seq<Unit>, keepReasoning: bool)
    requires us != [] && AllPaired(us)
    ensures pre + Render(us) == (pre + RenderUnit(us[0])) + Render(us[1..])
    ensures |pre| < |pre + Render(us)|
    ensures Takes(StepAt(pre + Render(us), |pre|, keepReasoning), |pre|, us[0], keepReasoning)
  {
    if Render(us[1..]) != [] { RenderStartsPaired(us[1..]); }
    StepTakesUnit(pre, us[0], Render(us[1..]), keepReasoning);
    Regroup(pre, RenderUnit(us[0]), Render(us[1..]));
  }

  lemma {:induction false} NothingDroppedFrom(pre: seq<Message>, us: seq<Unit>, keepReasoning: bool)
    requires AllPaired(us)
    ensures DroppedFrom(pre + Render(us), |pre|, keepReasoning) == 0
    ensures StrippedFrom(pre + Render(us), |pre|, keepReasoning) == 0
    decreases |us|
  {
    hide StepAt, Paired, TidyUnit;
    if us != [] {
      NextUnit(pre, us, keepReasoning);
      NothingDroppedFrom(pre + RenderUnit(us[0]), us[1..], keepReasoning);
      CountsUnfold(pre + Render(us), |pre|, keepReasoning);
    }
  }

  lemma {:induction false} TidiedFrom(pre: seq<Message>, us: seq<Unit>, keepReasoning: bool)
    requires AllPaired(us)
    ensures NormFrom(pre + Render(us), |pre|, keepReasoning) == Render(Tidy(us, keepReasoning))
    decreases |us|
  {
    hide StepAt, Paired;
    if us != [] {
      NextUnit(pre, us, keepReasoning);
      TidiedFrom(pre + RenderUnit(us[0]), us[1..], keepReasoning);
      NormUnfold(pre + Render(us), |pre|, keepReasoning);
      RenderAppend(TidyUnit(us[0], keepReasoning), Tidy(us[1..], keepReasoning));
    }
  }

  /** A history is left unchanged exactly when it is in the grammar. */
  lemma {:induction false} FixpointIffInGrammar(ms: seq<Message>, keepReasoning: bool)
    ensures Norm(ms, keepReasoning) == ms <==> InGrammar(ms, keepReasoning)
  {
    if InGrammar(ms, keepReasoning) {
      var us :| AllSendable(us, keepReasoning) && Render(us) == ms;
      SendableIsPaired(us, keepReasoning);
      assert [] + Render(us) == ms;
      TidiedFrom([], us, keepReasoning);
      TidySendable(us, keepReasoning);
    }
    OutputInGrammar(ms, keepReasoning);
  }

  /** A second run changes nothing. */
  lemma {:induction false} Idempotent(ms: seq<Message>, keepReasoning: bool)
    ensures Norm(Norm(ms, keepReasoning), keepReasoning) == Norm(ms, keepReasoning)
  {
    OutputInGrammar(ms, keepReasoning);
    FixpointIffInGrammar(Norm(ms, keepReasoning), keepReasoning);
  }

  // ---------------------------------------------------------------------------
  // Conservation
  // ---------------------------------------------------------------------------

  /** What a history holds: its bystanders, its visible assistant contents, its results and its calling messages. */
  datatype Census = Census(bystanders: seq<Message>, said: seq<Content>, results: int, callers: int)

  function Plus(a: Census, b: Census): Census
  {
    Census(a.bystanders + b.bystanders, a.said + b.said, a.results + b.results, a.callers + b.callers)
  }

  function CensusOf(m: Message): Census
  {
    if m.role == Tool then Census([], [], 1, 0)
    else if m.role != Assistant then Census([m], [], 0, 0)
    else Census([], if NormalContent(m.content) == Str("") then [] else [NormalContent(m.content)],
                0, if Calls(m) == [] then 0 else 1)
  }

  function Taken(ms: seq<Message>): Census
  {
    if ms == [] then Census([], [], 0, 0) else Plus(CensusOf(ms[0]), Taken(ms[1..]))
  }

  lemma {:induction false} PlusAssociates(a: Census, b: Census, c: Census)
    ensures Plus(Plus(a, b), c) == Plus(a, Plus(b, c))
  {
  }

  lemma {:induction false} TakenAppend(a: seq<Message>, b: seq<Message>)
    ensures Taken(a + b) == Plus(Taken(a), Taken(b))
  {
    if a == [] {
      assert a + b == b;
    } else {
      assert (a + b)[1..] == a[1..] + b;
      TakenAppend(a[1..], b);
      PlusAssociates(CensusOf(a[0]), Taken(a[1..]), Taken(b));
    }
  }

  lemma {:induction false} TakenOne(m: Message)
    ensures Taken([m]) == CensusOf(m)
  {
    assert [m][1..] == [];
  }

  function Less(c: Census, dropped: int, stripped: int): Census
  {
    c.(results := c.results - dropped, callers := c.callers - stripped)
  }

  lemma {:induction false} NormalCensus(m: Message)
    requires m.role == Assistant
    ensures CensusOf(m.(content := NormalContent(m.content))) == CensusOf(m)
    ensures CensusOf(Stripped(m)) == Less(CensusOf(m), 0, if Calls(m) == [] then 0 else 1)
  {
    NormalContentStable(m.content);
    hide NormalContent;
  }

  /** Leaving out an assistant message without payload loses nothing visible. */
  lemma {:induction false} KeptConserved(m: Message, keepReasoning: bool)
    requires m.role == Assistant && Calls(m) == [] && NormalContent(m.content) == m.content
    ensures Taken(KeptIf(m, keepReasoning)) == CensusOf(m)
  {
    TakenNone();
    TakenOne(m);
    NormalIsEmpty(m.content);
    hide Taken, NormalContent;
  }

  lemma {:induction false} NormalIsEmpty(c: Content)
    requires NormalContent(c) == c
    ensures c != Null && c != Parts([])
  {
    hide Blank;
  }

  /** Normalising the content and stripping the calls of one assistant message. */
  lemma {:induction false} OneConserved(m: Message, keepReasoning: bool)
    requires m.role == Assistant
    ensures var current := m.(content := NormalContent(m.content));
      && CensusOf(current) == CensusOf(m)
      && (Calls(m) == [] ==> Taken(KeptIf(current, keepReasoning)) == CensusOf(m))
      && (Calls(m) != [] ==> Taken(KeptIf(Stripped(current), keepReasoning)) == Less(CensusOf(m), 0, 1))
  {
    var current := m.(content := NormalContent(m.content));
    NormalContentStable(m.content);
    NormalCensus(m);
    NormalCensus(current);
    CallsIgnoreContent(m, NormalContent(m.content));
    hide Taken, CensusOf, NormalContent, KeptIf;
    if Calls(m) == [] { KeptConserved(current, keepReasoning); } else { KeptConserved(Stripped(current), keepReasoning); }
  }

  lemma {:induction false} GroupConserved(m: Message, results: seq<Message>)
    requires m.role == Assistant
    ensures Taken([m.(content := NormalContent(m.content))] + results) == Taken([m] + results)
  {
    var current := m.(content := NormalContent(m.content));
    OneConserved(m, false);
    TakenOne(m);
    TakenOne(current);
    TakenAppend([m], results);
    TakenAppend([current], results);
  }

  lemma {:induction false} TakenNone()
    ensures Taken([]) == Census([], [], 0, 0)
  {
  }

  lemma {:induction false} AssistantStepConserves(ms: seq<Message>, i: nat, keepReasoning: bool)
    requires i < |ms| && ms[i].role == Assistant
    ensures var step := StepAt(ms, i, keepReasoning);
      Taken(step.emitted) == Less(Taken(ms[i..step.next]), step.dropped, step.stripped)
  {
    hide Taken, CensusOf, CompletePair, HasPayload, NormalContent, AfterTools, KeptIf;
    var m := ms[i];
    TakenOne(m);
    assert ms[i..i + 1] == [m];
    OneConserved(m, keepReasoning);
    var next := AfterTools(ms, i + 1);
    assert ms[i..next] == [m] + ms[i + 1..next];
    GroupConserved(m, ms[i + 1..next]);
    CallsIgnoreContent(m, NormalContent(m.content));
  }

  lemma {:induction false} CallsIgnoreContent(m: Message, c: Content)
    ensures Calls(m.(content := c)) == Calls(m)
  {
  }

  lemma {:induction false} StepConserves(ms: seq<Message>, i: nat, keepReasoning: bool)
    requires i < |ms|
    ensures var step := StepAt(ms, i, keepReasoning);
      Taken(step.emitted) == Less(Taken(ms[i..step.next]), step.dropped, step.stripped)
  {
    hide Taken, CompletePair, HasPayload, NormalContent, AfterTools, KeptIf;
    TakenOne(ms[i]);
    TakenNone();
    assert ms[i..i + 1] == [ms[i]];
    if ms[i].role == Assistant {
      AssistantStepConserves(ms, i, keepReasoning);
    }
  }

  lemma {:induction false} ConservedFrom(ms: seq<Message>, i: nat, keepReasoning: bool)
    requires i <= |ms|
    ensures Taken(NormFrom(ms, i, keepReasoning)) == Less(Taken(ms[i..]), DroppedFrom(ms, i, keepReasoning), StrippedFrom(ms, i, keepReasoning))
    decreases |ms| - i
  {
    hide StepAt, Taken, CensusOf;
    TakenNone();
    if i < |ms| {
      var step := StepAt(ms, i, keepReasoning);
      StepConserves(ms, i, keepReasoning);
      ConservedFrom(ms, step.next, keepReasoning);
      assert ms[i..] == ms[i..step.next] + ms[step.next..];
      TakenAppend(ms[i..step.next], ms[step.next..]);
      TakenAppend(step.emitted, NormFrom(ms, step.next, keepReasoning));
    } else {
      assert ms[i..] == [];
    }
  }

  /**
   * Nothing but the counted results and calls is lost: bystanders and visible assistant contents
   * survive in order, and kept plus dropped results, kept plus stripped callers, add up.
   */
  lemma {:induction false} Conserved(ms: seq<Message>, keepReasoning: bool)
    ensures Taken(Norm(ms, keepReasoning)) == Less(Taken(ms), DroppedFrom(ms, 0, keepReasoning), StrippedFrom(ms, 0, keepReasoning))
  {
    ConservedFrom(ms, 0, keepReasoning);
    assert ms[0..] == ms;
  }

  /** A list cut into paired units loses no call and no result, and comes out as the tidied units. */
  lemma {:induction false} PairedLosesNothing(us: seq<Unit>, keepReasoning: bool)
    requires AllPaired(us)
    ensures DroppedFrom(Render(us), 0, keepReasoning) == 0 && StrippedFrom(Render(us), 0, keepReasoning) == 0
    ensures Norm(Render(us), keepReasoning) == Render(Tidy(us, keepReasoning))
  {
    NothingDroppedFrom([], us, keepReasoning);
    TidiedFrom([], us, keepReasoning);
    assert [] + Render(us) == Render(us);
  }

  lemma {:induction false} CompleteHere(ms: seq<Message>, i: nat) returns (u: Unit)
    requires i < |ms| && ms[i].role == Assistant && Calls(ms[i]) != []
    requires CompletePair(Calls(ms[i]), ms[i + 1..AfterTools(ms, i + 1)])
    ensures Paired(u) && RenderUnit(u) == ms[i..AfterTools(ms, i + 1)]
  {
    var next := AfterTools(ms, i + 1);
    ToolsUpTo(ms, i + 1);
    CompletePairMeansPairsOff(Calls(ms[i]), ms[i + 1..next]);
    assert ms[i..next] == [ms[i]] + ms[i + 1..next];
    u := Group(ms[i], ms[i + 1..next]);
  }

  lemma {:induction false} UnharmedStepIsUnit(ms: seq<Message>, i: nat, keepReasoning: bool) returns (u: Unit)
    requires i < |ms| && StepAt(ms, i, keepReasoning).dropped == 0 && StepAt(ms, i, keepReasoning).stripped == 0
    ensures Paired(u) && RenderUnit(u) == ms[i..StepAt(ms, i, keepReasoning).next]
  {
    assert ms[i..i + 1] == [ms[i]];
    if ms[i].role == Assistant && Calls(ms[i]) != [] {
      u := CompleteHere(ms, i);
    } else {
      u := if ms[i].role == Assistant then Saying(ms[i]) else Bystander(ms[i]);
    }
  }

  lemma {:induction false} UnharmedFrom(ms: seq<Message>, i: nat, keepReasoning: bool) returns (us: seq<Unit>)
    requires i <= |ms| && DroppedFrom(ms, i, keepReasoning) == 0 && StrippedFrom(ms, i, keepReasoning) == 0
    ensures AllPaired(us) && Render(us) == ms[i..]
    decreases |ms| - i
  {
    hide StepAt, Paired, StrippedFrom, DroppedFrom;
    us := [];
    if i < |ms| {
      CountsUnfold(ms, i, keepReasoning);
      var u := UnharmedStepIsUnit(ms, i, keepReasoning);
      var next := StepAt(ms, i, keepReasoning).next;
      var rest := UnharmedFrom(ms, next, keepReasoning);
      us := [u] + rest;
      RenderCons(u, rest);
      assert us[1..] == rest;
      assert ms[i..] == ms[i..next] + ms[next..];
    }
  }

  /** A history survives without a dropped result or a stripped call exactly when it cuts into paired units. */
  lemma {:induction false} LosesNothingIffPaired(ms: seq<Message>, keepReasoning: bool)
    ensures DroppedFrom(ms, 0, keepReasoning) == 0 && StrippedFrom(ms, 0, keepReasoning) == 0 <==> exists us :: AllPaired(us) && Render(us) == ms
  {
    if DroppedFrom(ms, 0, keepReasoning) == 0 && StrippedFrom(ms, 0, keepReasoning) == 0 {
      var us := UnharmedFrom(ms, 0, keepReasoning);
      assert ms[0..] == ms;
    }
    if us :| AllPaired(us) && Render(us) == ms {
      PairedLosesNothing(us, keepReasoning);
    }
  }
}
