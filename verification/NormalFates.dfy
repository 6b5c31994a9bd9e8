/**
 * What becomes of each message of a history when it is normalised, told position by position on the
 * fields of the messages, without the walk the normaliser takes.
 */
module NormalFates {
  import opened Prelude
  import opened Messages
  import opened Normalize
  import opened ToolGrammar

  /** Nothing, no parts, or a text without a visible character. */
  predicate Invisible(c: Content)
  {
    match c
    case Null => true
    case Parts(parts) => parts == []
    case Str(text) => forall i :: 0 <= i < |text| ==> IsSpace(text[i])
  }

  /** The message with an empty text for content that shows nothing. */
  function Tidied(m: Message): Message
  {
    if Invisible(m.content) then m.(content := Str("")) else m
  }

  /** The message shows something, or has thinking that is to be kept. */
  predicate Says(m: Message, keepReasoning: bool)
  {
    !Invisible(m.content) || (keepReasoning && m.reasoning.Some? && m.reasoning.value != "")
  }

  predicate Asks(m: Message) { m.role == Assistant && m.toolCalls.Some? && m.toolCalls.value != [] }

  /** The results between `a` and `e` are all those that follow `a` directly. */
  ghost predicate FollowedUpTo(ms: seq<Message>, a: int, e: int)
  {
    && 0 <= a < e <= |ms|
    && (forall k :: a < k < e ==> ms[k].role == Tool)
    && (e < |ms| ==> ms[e].role != Tool)
  }

  /** The calls at `a` are answered, one for one, by exactly the results that follow, up to `e`. */
  ghost predicate AnsweredUpTo(ms: seq<Message>, a: int, e: int)
  {
    FollowedUpTo(ms, a, e) && Asks(ms[a]) && PairsOff(ms[a].toolCalls.value, ms[a + 1..e])
  }

  ghost predicate Answered(ms: seq<Message>, a: int) { exists e :: AnsweredUpTo(ms, a, e) }

  /** The result at `i` is one of those that answer some calls. */
  ghost predicate Wanted(ms: seq<Message>, i: int) { exists a, e :: a < i < e && AnsweredUpTo(ms, a, e) }

  /**
   * A result stays if it is wanted. Calls stay, with their thinking, if they are answered, and are taken
   * away otherwise. An assistant message without calls stays if it says something. Everything else stays.
   */
  ghost function Fate(ms: seq<Message>, i: nat, keepReasoning: bool): seq<Message>
    requires i < |ms|
  {
    var m := ms[i];
    if m.role == Tool then (if Wanted(ms, i) then [m] else [])
    else if m.role != Assistant then [m]
    else if Asks(m) && Answered(ms, i) then [Tidied(m)]
    else if !Says(m, keepReasoning) then []
    else [if Asks(m) then Tidied(m).(toolCalls := None) else Tidied(m)]
  }

  ghost function Fates(ms: seq<Message>, i: nat, keepReasoning: bool): seq<Message>
    requires i <= |ms|
    decreases |ms| - i
  {
    if i == |ms| then [] else Fate(ms, i, keepReasoning) + Fates(ms, i + 1, keepReasoning)
  }

  lemma {:induction false} FollowedByTools(ms: seq<Message>, a: nat)
    requires a < |ms|
    ensures FollowedUpTo(ms, a, AfterTools(ms, a + 1))
  {
    ToolsUpTo(ms, a + 1);
  }

  lemma FollowedOnce(ms: seq<Message>, a: int, e: int, f: int)
    requires FollowedUpTo(ms, a, e) && FollowedUpTo(ms, a, f)
    ensures e == f
  {
  }

  /** The loop's test for a complete pair says whether the calls are answered. */
  lemma {:induction false} CompleteIsAnswered(ms: seq<Message>, i: nat)
    requires i < |ms| && Asks(ms[i])
    ensures CompletePair(ms[i].toolCalls.value, ms[i + 1..AfterTools(ms, i + 1)]) <==> Answered(ms, i)
    ensures Answered(ms, i) ==> AnsweredUpTo(ms, i, AfterTools(ms, i + 1))
  {
    hide CompletePair, PairsOff, AfterTools;
    var next := AfterTools(ms, i + 1);
    FollowedByTools(ms, i);
    CompletePairMeansPairsOff(ms[i].toolCalls.value, ms[i + 1..next]);
    if Answered(ms, i) {
      var e :| AnsweredUpTo(ms, i, e);
      FollowedOnce(ms, i, e, next);
    } else {
      assert !AnsweredUpTo(ms, i, next);
    }
  }

  lemma TidiedIsNormal(m: Message, keepReasoning: bool)
    ensures Tidied(m) == m.(content := NormalContent(m.content))
    ensures HasPayload(Tidied(m), keepReasoning) <==> Says(m, keepReasoning)
    ensures HasPayload(Tidied(m).(toolCalls := None), keepReasoning) <==> Says(m, keepReasoning)
  {
    if m.content.Str? { assert Invisible(m.content) <==> Blank(m.content.text); }
  }

  lemma CallsAsked(m: Message)
    requires m.role == Assistant
    ensures Calls(m) == (if Asks(m) then m.toolCalls.value else []) && (Calls(m) != [] <==> Asks(m))
  {
  }

  /** The results of an answered group stay as they are. */
  lemma {:induction false} GroupFates(ms: seq<Message>, a: nat, i: nat, e: nat, keepReasoning: bool)
    requires AnsweredUpTo(ms, a, e) && a < i <= e
    ensures Fates(ms, i, keepReasoning) == ms[i..e] + Fates(ms, e, keepReasoning)
    decreases e - i
  {
    hide PairsOff;
    if i == e {
      assert ms[i..e] + Fates(ms, e, keepReasoning) == Fates(ms, e, keepReasoning);
    } else {
      assert ms[i].role == Tool && Wanted(ms, i);
      GroupFates(ms, a, i + 1, e, keepReasoning);
      assert [ms[i]] + (ms[i + 1..e] + Fates(ms, e, keepReasoning)) == ms[i..e] + Fates(ms, e, keepReasoning);
    }
  }

  lemma WantedNext(ms: seq<Message>, i: nat)
    requires i < |ms|
    ensures Wanted(ms, i + 1) ==> Wanted(ms, i) || Answered(ms, i)
  {
    hide PairsOff;
    if a, e :| a < i + 1 < e && AnsweredUpTo(ms, a, e) {
      assert a < i ==> a < i < e && AnsweredUpTo(ms, a, e);
      assert a == i ==> AnsweredUpTo(ms, i, e);
    }
  }

  lemma GroupEnds(ms: seq<Message>, a: nat, e: nat)
    requires AnsweredUpTo(ms, a, e)
    ensures !Wanted(ms, e)
  {
    hide PairsOff;
  }

  lemma {:induction false} OneFate(ms: seq<Message>, i: nat, keepReasoning: bool)
    requires i < |ms| && !Wanted(ms, i) && !(Asks(ms[i]) && Answered(ms, i))
    ensures StepAt(ms, i, keepReasoning).next == i + 1 && StepAt(ms, i, keepReasoning).emitted == Fate(ms, i, keepReasoning)
  {
    hide CompletePair, PairsOff, AfterTools, Invisible, Says, HasPayload, NormalContent, Tidied, Answered, Wanted;
    var m := ms[i];
    TidiedIsNormal(m, keepReasoning);
    if m.role == Assistant {
      CallsAsked(m);
      CallsAsked(Tidied(m));
      if Asks(m) { CompleteIsAnswered(ms, i); }
    }
  }

  lemma {:induction false} GroupFate(ms: seq<Message>, i: nat, keepReasoning: bool)
    requires i < |ms| && Asks(ms[i]) && Answered(ms, i)
    ensures var next := AfterTools(ms, i + 1);
      && AnsweredUpTo(ms, i, next) && Fate(ms, i, keepReasoning) == [Tidied(ms[i])]
      && StepAt(ms, i, keepReasoning).next == next && StepAt(ms, i, keepReasoning).emitted == [Tidied(ms[i])] + ms[i + 1..next]
  {
    hide CompletePair, PairsOff, AfterTools, Invisible, HasPayload, NormalContent, Tidied, Answered, AnsweredUpTo;
    TidiedIsNormal(ms[i], keepReasoning);
    CallsAsked(ms[i]);
    CallsAsked(Tidied(ms[i]));
    CompleteIsAnswered(ms, i);
  }

  lemma {:induction false} FatesFrom(ms: seq<Message>, i: nat, keepReasoning: bool)
    requires i <= |ms| && !Wanted(ms, i)
    ensures NormFrom(ms, i, keepReasoning) == Fates(ms, i, keepReasoning)
    decreases |ms| - i
  {
    hide StepAt, Fate, Answered, Asks, AnsweredUpTo, Tidied, Wanted;
    if i < |ms| {
      if Asks(ms[i]) && Answered(ms, i) {
        GroupFate(ms, i, keepReasoning);
        var next := AfterTools(ms, i + 1);
        GroupEnds(ms, i, next);
        FatesFrom(ms, next, keepReasoning);
        GroupFates(ms, i, i + 1, next, keepReasoning);
        assert [Tidied(ms[i])] + ms[i + 1..next] + Fates(ms, next, keepReasoning) == [Tidied(ms[i])] + (ms[i + 1..next] + Fates(ms, next, keepReasoning));
      } else {
        OneFate(ms, i, keepReasoning);
        AnsweredAsks(ms, i);
        WantedNext(ms, i);
        FatesFrom(ms, i + 1, keepReasoning);
      }
    }
  }

  lemma AnsweredAsks(ms: seq<Message>, i: nat)
    requires i < |ms|
    ensures Answered(ms, i) ==> Asks(ms[i])
  {
    hide PairsOff;
  }

  /** For every history: the normalised one is, in order, what becomes of each message. */
  lemma {:induction false} NormalisedByFates(ms: seq<Message>, keepReasoning: bool)
    ensures Norm(ms, keepReasoning) == Fates(ms, 0, keepReasoning)
  {
    assert !Wanted(ms, 0);
    FatesFrom(ms, 0, keepReasoning);
  }
}
