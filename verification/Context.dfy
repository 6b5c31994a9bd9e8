/** Reading and updating the list of messages an agent owns. */
module Context {
  import opened Prelude
  import opened Messages
  import opened Events

  /** The last assistant message with this id, or the length of the list. */
  function FindReply(context: seq<Msg>, id: MsgId): (i: nat)
    ensures i <= |context|
    ensures i < |context| ==> context[i].role == Assistant && context[i].id == id
    decreases |context|
  {
    if context == [] then 0
    else if context[|context| - 1].role == Assistant && context[|context| - 1].id == id then |context| - 1
    else
      var i := FindReply(context[..|context| - 1], id);
      if i < |context| - 1 then i else |context|
  }

  /** Appends blocks to the reply `id`, creating it at the end when there is none. */
  function AppendReply(context: seq<Msg>, id: MsgId, blocks: seq<Block>): seq<Msg>
  {
    if blocks == [] then context else
    var i := FindReply(context, id);
    if i < |context| then context[i := context[i].(content := context[i].content + blocks)]
    else context + [Msg(id, Assistant, blocks)]
  }

  predicate HasCall(bs: seq<Block>, id: string) { Find(bs, CallKey(id)) < |bs| }

  /** Sets the state of the first call with this id, in the first message that has one. */
  function SetState(context: seq<Msg>, id: string, state: CallState): seq<Msg>
  {
    if context == [] then []
    else if HasCall(context[0].content, id) then
      [context[0].(content := WithCallState(context[0].content, id, state))] + context[1..]
    else [context[0]] + SetState(context[1..], id, state)
  }

  function AllBlocks(context: seq<Msg>): seq<Block>
  {
    if context == [] then [] else context[0].content + AllBlocks(context[1..])
  }

  function CallBlocks(bs: seq<Block>): seq<Block>
  {
    if bs == [] then []
    else CallBlocks(bs[..|bs| - 1]) + (if bs[|bs| - 1].ToolCallBlock? then [bs[|bs| - 1]] else [])
  }

  function InState(bs: seq<Block>, state: CallState): seq<Block>
  {
    if bs == [] then []
    else InState(bs[..|bs| - 1], state)
         + (if bs[|bs| - 1].ToolCallBlock? && bs[|bs| - 1].state == state then [bs[|bs| - 1]] else [])
  }

  /** The calls of the context in the given state, in order of appearance. */
  function CallsInState(context: seq<Msg>, state: CallState): seq<Block> { InState(AllBlocks(context), state) }

  function ResultIds(bs: seq<Block>): set<string>
  {
    if bs == [] then {}
    else ResultIds(bs[..|bs| - 1]) + (if bs[|bs| - 1].ToolResultBlock? then {bs[|bs| - 1].resultId} else {})
  }

  function Unanswered(bs: seq<Block>, answered: set<string>): seq<Block>
  {
    if bs == [] then []
    else Unanswered(bs[..|bs| - 1], answered)
         + (if bs[|bs| - 1].ToolCallBlock? && bs[|bs| - 1].callId !in answered then [bs[|bs| - 1]] else [])
  }

  /** The calls without a result anywhere in the context, in order of appearance. */
  function PendingCalls(context: seq<Msg>): seq<Block>
  {
    Unanswered(AllBlocks(context), ResultIds(AllBlocks(context)))
  }

  /** The message that holds the first call with this id, or the length of the list. */
  function Owner(context: seq<Msg>, id: string): (i: nat)
    ensures i <= |context|
    ensures i < |context| ==> HasCall(context[i].content, id)
  {
    if context == [] then 0
    else if HasCall(context[0].content, id) then 0
    else 1 + Owner(context[1..], id)
  }

  /** The current state of a call, if the context has it. */
  function StateOf(context: seq<Msg>, id: string): Option<CallState>
  {
    var i := Owner(context, id);
    if i < |context| then Some(context[i].content[Find(context[i].content, CallKey(id))].state) else None
  }

  // ---------------------------------------------------------------------------
  // The context as the runner mutates it
  // ---------------------------------------------------------------------------

  class MessageContext {
    var messages: seq<Msg>

    constructor (messages: seq<Msg>)
      ensures this.messages == messages
    {
      this.messages := messages;
    }

    method AppendReplyBlocks(id: MsgId, blocks: seq<Block>)
      modifies this
      ensures messages == AppendReply(old(messages), id, blocks)
    {
      if blocks == [] { return; }
      var i := |messages|;
      assert messages[..i] == messages;
      while i > 0
        invariant 0 <= i <= |messages|
        invariant FindReply(messages[..i], id) < i ==> FindReply(messages, id) == FindReply(messages[..i], id)
        invariant FindReply(messages[..i], id) == i ==> FindReply(messages, id) == |messages|
      {
        assert messages[..i][..i - 1] == messages[..i - 1];
        assert i == |messages| ==> messages[..i] == messages;
        i := i - 1;
        if messages[i].role == Assistant && messages[i].id == id {
          messages := messages[i := messages[i].(content := messages[i].content + blocks)];
          return;
        }
      }
      assert messages[..0] == [];
      messages := messages + [Msg(id, Assistant, blocks)];
    }

    method SetToolCallState(id: string, state: CallState) returns (found: bool)
      modifies this
      ensures messages == SetState(old(messages), id, state)
      ensures found == (Owner(old(messages), id) < |old(messages)|)
    {
      hide WithCallState, HasCall;
      var i := 0;
      while i < |messages|
        invariant 0 <= i <= |messages|
        invariant messages == old(messages)
        invariant i + Owner(messages[i..], id) == Owner(messages, id)
      {
        assert messages[i..][1..] == messages[i + 1..];
        if HasCall(messages[i].content, id) {
          SetStateAt(messages, id, state);
          messages := messages[i := messages[i].(content := WithCallState(messages[i].content, id, state))];
          return true;
        }
        i := i + 1;
      }
      SetStateAt(messages, id, state);
      found := false;
    }

    method ToolCallsInState(state: CallState) returns (found: seq<Block>)
      ensures found == CallsInState(messages, state)
    {
      hide InState, AllBlocks;
      found := [];
      assert InState(AllBlocks(messages[..0]), state) == [] by { NothingIn(messages, state); }
      for i := 0 to |messages|
        invariant found == InState(AllBlocks(messages[..i]), state)
      {
        ghost var seen := AllBlocks(messages[..i]);
        AllBlocksSnoc(messages[..i], messages[i]);
        assert messages[..i] + [messages[i]] == messages[..i + 1];
        var more := BlocksInState(messages[i].content, state);
        InStateAppend(seen, messages[i].content, state);
        found := found + more;
      }
      assert messages[..|messages|] == messages;
    }
  }

  method BlocksInState(bs: seq<Block>, state: CallState) returns (found: seq<Block>)
    ensures found == InState(bs, state)
  {
    found := [];
    for j := 0 to |bs|
      invariant found == InState(bs[..j], state)
    {
      assert bs[..j + 1][..j] == bs[..j];
      if bs[j].ToolCallBlock? && bs[j].state == state { found := found + [bs[j]]; }
    }
    assert bs[..|bs|] == bs;
  }

  lemma {:induction false} NothingIn(context: seq<Msg>, state: CallState)
    ensures InState(AllBlocks(context[..0]), state) == []
  {
  }

  lemma {:induction false} InStateAppend(a: seq<Block>, b: seq<Block>, state: CallState)
    ensures InState(a + b, state) == InState(a, state) + InState(b, state)
  {
    if b == [] {
      assert a + b == a;
    } else {
      assert (a + b)[..|a + b| - 1] == a + b[..|b| - 1];
      InStateAppend(a, b[..|b| - 1], state);
    }
  }

  /** Setting a state touches exactly the message that owns the call. */
  lemma {:induction false} SetStateAt(context: seq<Msg>, id: string, state: CallState)
    ensures var i := Owner(context, id);
      SetState(context, id, state) ==
        if i < |context| then context[i := context[i].(content := WithCallState(context[i].content, id, state))] else context
  {
    hide WithCallState, HasCall;
    if context != [] {
      var i := Owner(context, id);
      if i > 0 {
        SetStateAt(context[1..], id, state);
        if i < |context| {
          UpdateShift(context, i, context[i].(content := WithCallState(context[i].content, id, state)));
        } else {
          assert [context[0]] + context[1..] == context;
        }
      } else {
        UpdateFirst(context, context[0].(content := WithCallState(context[0].content, id, state)));
      }
    }
  }

  lemma UpdateShift(s: seq<Msg>, i: nat, m: Msg)
    requires 0 < i < |s|
    ensures s[i := m] == [s[0]] + s[1..][i - 1 := m]
  {
  }

  lemma UpdateFirst(s: seq<Msg>, m: Msg)
    requires 0 < |s|
    ensures s[0 := m] == [m] + s[1..]
  {
  }

  lemma {:induction false} AllBlocksSnoc(context: seq<Msg>, m: Msg)
    ensures AllBlocks(context + [m]) == AllBlocks(context) + m.content
  {
    if context == [] {
      assert context + [m] == [m];
      assert [m][1..] == [];
      assert AllBlocks([m]) == m.content + [];
    } else {
      assert (context + [m])[1..] == context[1..] + [m];
      AllBlocksSnoc(context[1..], m);
      assert context[0].content + (AllBlocks(context[1..]) + m.content) == AllBlocks(context) + m.content;
    }
  }
}
