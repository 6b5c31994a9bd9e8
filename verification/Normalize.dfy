/**
 * The tool-protocol normaliser: rewrites any history so that each assistant message with
 * tool calls is followed by exactly the results of those calls.
 */
module Normalize {
  import opened Prelude
  import opened Messages

  predicate IsSpace(c: char)
  {
    || '\U{9}' <= c <= '\U{D}' || '\U{1C}' <= c <= ' ' || c == '\U{85}' || c == '\U{A0}' || c == '\U{1680}'
    || '\U{2000}' <= c <= '\U{200A}' || c == '\U{2028}' || c == '\U{2029}' || c == '\U{202F}'
    || c == '\U{205F}' || c == '\U{3000}'
  }

  /** The string has no visible character. */
  predicate Blank(s: string)
  {
    forall i :: 0 <= i < |s| ==> IsSpace(s[i])
  }

  function NormalContent(c: Content): Content
  {
    if c == Null || c == Parts([]) || (c.Str? && Blank(c.text)) then Str("") else c
  }

  predicate HasPayload(m: Message, keepReasoning: bool)
  {
    (m.content != Null && m.content != Str("") && m.content != Parts([]))
    || (keepReasoning && m.reasoning.Some? && m.reasoning.value != "")
  }

  function Calls(m: Message): seq<CallDict>
  {
    if m.toolCalls.Some? then m.toolCalls.value else []
  }

  function CallIds(calls: seq<CallDict>): (ids: seq<Option<string>>)
    ensures |ids| == |calls|
  {
    if calls == [] then [] else CallIds(calls[..|calls| - 1]) + [calls[|calls| - 1].id]
  }

  function ResultIds(results: seq<Message>): (ids: seq<Option<string>>)
    ensures |ids| == |results|
  {
    if results == [] then [] else ResultIds(results[..|results| - 1]) + [results[|results| - 1].toolCallId]
  }

  predicate AllGiven(ids: seq<Option<string>>)
  {
    ids == [] || (ids[|ids| - 1].Some? && ids[|ids| - 1].value != "" && AllGiven(ids[..|ids| - 1]))
  }

  function Elements(ids: seq<Option<string>>): set<Option<string>>
  {
    if ids == [] then {} else Elements(ids[..|ids| - 1]) + {ids[|ids| - 1]}
  }

  /** The check as written: valid distinct call ids, as many results as calls, equal id sets. */
  predicate CompletePair(calls: seq<CallDict>, results: seq<Message>)
  {
    && AllGiven(CallIds(calls)) && |Elements(CallIds(calls))| == |calls|
    && |results| == |calls|
    && Elements(ResultIds(results)) == Elements(CallIds(calls))
    && AllGiven(ResultIds(results))
  }

  /** The first position at or after `i` that holds no tool result. */
  function AfterTools(ms: seq<Message>, i: nat): (j: nat)
    requires i <= |ms|
    ensures i <= j <= |ms|
    decreases |ms| - i
  {
    if i == |ms| || ms[i].role != Tool then i else AfterTools(ms, i + 1)
  }

  function Stripped(m: Message): Message { m.(toolCalls := None) }

  function KeptIf(m: Message, keepReasoning: bool): seq<Message>
  {
    if HasPayload(m, keepReasoning) then [m] else []
  }

  /** What the loop does at one position: what it appends, where it continues, and what it counts. */
  datatype Step = Step(emitted: seq<Message>, next: nat, dropped: nat, stripped: nat)

  function StepAt(ms: seq<Message>, i: nat, keepReasoning: bool): (step: Step)
    requires i < |ms|
    ensures i < step.next <= |ms|
  {
    if ms[i].role == Tool then Step([], i + 1, 1, 0)
    else if ms[i].role != Assistant then Step([ms[i]], i + 1, 0, 0)
    else
      var current := ms[i].(content := NormalContent(ms[i].content));
      var next := AfterTools(ms, i + 1);
      if Calls(current) == [] then Step(KeptIf(current, keepReasoning), i + 1, 0, 0)
      else if CompletePair(Calls(current), ms[i + 1..next]) then Step([current] + ms[i + 1..next], next, 0, 0)
      else Step(KeptIf(Stripped(current), keepReasoning), i + 1, 0, 1)
  }

  /** The normalised form of the history from position `i` on. */
  function NormFrom(ms: seq<Message>, i: nat, keepReasoning: bool): seq<Message>
    requires i <= |ms|
    decreases |ms| - i
  {
    if i == |ms| then []
    else StepAt(ms, i, keepReasoning).emitted + NormFrom(ms, StepAt(ms, i, keepReasoning).next, keepReasoning)
  }

  /** How many tool results are dropped as orphans from position `i` on. */
  function DroppedFrom(ms: seq<Message>, i: nat, keepReasoning: bool): nat
    requires i <= |ms|
    decreases |ms| - i
  {
    if i == |ms| then 0
    else StepAt(ms, i, keepReasoning).dropped + DroppedFrom(ms, StepAt(ms, i, keepReasoning).next, keepReasoning)
  }

  /** How many assistant messages lose their tool calls from position `i` on. */
  function StrippedFrom(ms: seq<Message>, i: nat, keepReasoning: bool): nat
    requires i <= |ms|
    decreases |ms| - i
  {
    if i == |ms| then 0
    else StepAt(ms, i, keepReasoning).stripped + StrippedFrom(ms, StepAt(ms, i, keepReasoning).next, keepReasoning)
  }

  /** The normalised history. */
  function Norm(ms: seq<Message>, keepReasoning: bool): seq<Message> { NormFrom(ms, 0, keepReasoning) }

  /** The normaliser as it runs. */
  method NormalizeChatMessages(messages: seq<Message>, keepReasoning: bool)
      returns (normalized: seq<Message>, dropped: nat, stripped: nat)
    ensures normalized == Norm(messages, keepReasoning)
    ensures dropped == DroppedFrom(messages, 0, keepReasoning) && stripped == StrippedFrom(messages, 0, keepReasoning)
  {
    normalized, dropped, stripped := [], 0, 0;
    var index := 0;
    while index < |messages|
      invariant 0 <= index <= |messages|
      invariant normalized + NormFrom(messages, index, keepReasoning) == Norm(messages, keepReasoning)
      invariant dropped + DroppedFrom(messages, index, keepReasoning) == DroppedFrom(messages, 0, keepReasoning)
      invariant stripped + StrippedFrom(messages, index, keepReasoning) == StrippedFrom(messages, 0, keepReasoning)
    {
      ghost var rest := NormFrom(messages, StepAt(messages, index, keepReasoning).next, keepReasoning);
      var step := TakeMessage(messages, index, keepReasoning);
      Regroup(normalized, step.emitted, rest);
      normalized := normalized + step.emitted;
      dropped := dropped + step.dropped;
      stripped := stripped + step.stripped;
      index := step.next;
    }
  }

  /** One pass of the loop body. */
  method TakeMessage(messages: seq<Message>, index: nat, keepReasoning: bool) returns (step: Step)
    requires index < |messages|
    ensures step == StepAt(messages, index, keepReasoning)
  {
    var current := messages[index];
    if current.role == Tool {
      return Step([], index + 1, 1, 0);
    }
    if current.role != Assistant {
      return Step([current], index + 1, 0, 0);
    }
    current := current.(content := NormalContent(current.content));
    var toolCalls := Calls(current);
    if toolCalls == [] {
      return Step(if HasPayload(current, keepReasoning) then [current] else [], index + 1, 0, 0);
    }
    var following, cursor := FollowingResults(messages, index + 1);
    if CompletePair(toolCalls, following) {
      return Step([current] + following, cursor, 0, 0);
    }
    current := Stripped(current);
    step := Step(if HasPayload(current, keepReasoning) then [current] else [], index + 1, 0, 1);
  }

  lemma Regroup(a: seq<Message>, b: seq<Message>, c: seq<Message>)
    ensures a + (b + c) == (a + b) + c
  {
  }

  /** The inner cursor loop: the tool results from `start` on. */
  method FollowingResults(messages: seq<Message>, start: nat) returns (following: seq<Message>, cursor: nat)
    requires start <= |messages|
    ensures cursor == AfterTools(messages, start) && following == messages[start..cursor]
  {
    following, cursor := [], start;
    while cursor < |messages| && messages[cursor].role == Tool
      invariant start <= cursor <= |messages|
      invariant following == messages[start..cursor]
      invariant AfterTools(messages, start) == AfterTools(messages, cursor)
    {
      following := following + [messages[cursor]];
      cursor := cursor + 1;
    }
  }
}
