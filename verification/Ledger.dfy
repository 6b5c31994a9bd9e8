/**
 * The context read as a ledger: the state of every call and the set of answered calls, and how
 * each write to the context changes it.
 */
module Ledger {
  import opened Prelude
  import opened Messages
  import opened Events
  import opened Context

  /** The state of each call; the first block with an id decides. */
  function States(bs: seq<Block>): map<string, CallState>
  {
    if bs == [] then map[] else
    var m, b := States(bs[..|bs| - 1]), bs[|bs| - 1];
    if b.ToolCallBlock? && b.callId !in m then m[b.callId := b.state] else m
  }

  /** No two calls share an id. */
  predicate Unique(bs: seq<Block>)
  {
    bs == [] ||
    (Unique(bs[..|bs| - 1]) && (bs[|bs| - 1].ToolCallBlock? ==> bs[|bs| - 1].callId !in States(bs[..|bs| - 1])))
  }

  function CallStates(context: seq<Msg>): map<string, CallState> { States(AllBlocks(context)) }

  function AnsweredIds(context: seq<Msg>): set<string> { ResultIds(AllBlocks(context)) }

  predicate UniqueCalls(context: seq<Msg>) { Unique(AllBlocks(context)) }

  lemma {:induction false} StatesAppend(a: seq<Block>, b: seq<Block>)
    ensures States(a + b) == States(b) + States(a)
    ensures ResultIds(a + b) == ResultIds(a) + ResultIds(b)
  {
    if b == [] {
      assert a + b == a;
      assert States(b) + States(a) == States(a);
    } else {
      assert (a + b)[..|a + b| - 1] == a + b[..|b| - 1];
      StatesAppend(a, b[..|b| - 1]);
    }
  }

  lemma {:induction false} UniqueAppend(a: seq<Block>, b: seq<Block>)
    ensures Unique(a + b) <==> Unique(a) && Unique(b) && States(a).Keys !! States(b).Keys
  {
    if b == [] {
      assert a + b == a;
      assert States(b).Keys == {};
    } else {
      var init, last := b[..|b| - 1], b[|b| - 1];
      assert (a + b)[..|a + b| - 1] == a + init;
      UniqueAppend(a, init);
      StatesAppend(a, init);
      if last.ToolCallBlock? {
        assert States(b).Keys == States(init).Keys + {last.callId};
      }
    }
  }

  // ---------------------------------------------------------------------------
  // Appending
  // ---------------------------------------------------------------------------

  lemma {:induction false} AllBlocksAppend(a: seq<Msg>, b: seq<Msg>)
    ensures AllBlocks(a + b) == AllBlocks(a) + AllBlocks(b)
  {
    if a == [] {
      assert a + b == b;
    } else {
      assert (a + b)[1..] == a[1..] + b;
      AllBlocksAppend(a[1..], b);
      assert a[0].content + (AllBlocks(a[1..]) + AllBlocks(b)) == AllBlocks(a) + AllBlocks(b);
    }
  }

  lemma {:induction false} AllBlocksOne(m: Msg)
    ensures AllBlocks([m]) == m.content
  {
    assert [m][1..] == [];
    assert AllBlocks([]) == [];
    assert m.content + [] == m.content;
  }

  /** The blocks are inserted somewhere in the flattened context. */
  lemma {:induction false} AppendInserts(context: seq<Msg>, id: MsgId, blocks: seq<Block>) returns (x: seq<Block>, y: seq<Block>)
    ensures AllBlocks(context) == x + y
    ensures AllBlocks(AppendReply(context, id, blocks)) == x + blocks + y
  {
    hide FindReply, AllBlocks;
    if blocks == [] {
      x, y := AllBlocks(context), [];
      assert x + [] + y == x + y == AllBlocks(context);
    } else {
      var i := FindReply(context, id);
      if i < |context| {
        var m := context[i];
        var pre, post := context[..i], context[i + 1..];
        assert context == pre + [m] + post;
        var m' := m.(content := m.content + blocks);
        assert AppendReply(context, id, blocks) == pre + [m'] + post;
        AllBlocksAppend(pre + [m], post);
        AllBlocksAppend(pre, [m]);
        AllBlocksAppend(pre + [m'], post);
        AllBlocksAppend(pre, [m']);
        AllBlocksOne(m);
        AllBlocksOne(m');
        x, y := AllBlocks(pre) + m.content, AllBlocks(post);
        assert AllBlocks(pre) + (m.content + blocks) + AllBlocks(post) == x + blocks + y;
      } else {
        var m := Msg(id, Assistant, blocks);
        AllBlocksAppend(context, [m]);
        AllBlocksOne(m);
        x, y := AllBlocks(context), [];
        assert x + blocks + y == x + blocks && x + y == x;
      }
    }
  }

  lemma {:induction false} InsertedLedger(x: seq<Block>, blocks: seq<Block>, y: seq<Block>)
    requires Unique(x + y) && Unique(blocks) && States(x + y).Keys !! States(blocks).Keys
    ensures Unique(x + blocks + y)
    ensures States(x + blocks + y) == States(x + y) + States(blocks)
    ensures ResultIds(x + blocks + y) == ResultIds(x + y) + ResultIds(blocks)
  {
    UniqueAppend(x, y);
    StatesAppend(x, y);
    StatesAppend(x, blocks);
    StatesAppend(x + blocks, y);
    UniqueAppend(x, blocks);
    UniqueAppend(x + blocks, y);
  }

  /** Appending blocks with new call ids adds their calls and results, and changes no other call. */
  lemma {:induction false} AppendLedger(context: seq<Msg>, id: MsgId, blocks: seq<Block>)
    requires UniqueCalls(context) && Unique(blocks) && CallStates(context).Keys !! States(blocks).Keys
    ensures var after := AppendReply(context, id, blocks);
      && UniqueCalls(after)
      && CallStates(after) == CallStates(context) + States(blocks)
      && AnsweredIds(after) == AnsweredIds(context) + ResultIds(blocks)
  {
    hide AppendReply, Unique, States, ResultIds;
    var x, y := AppendInserts(context, id, blocks);
    InsertedLedger(x, blocks, y);
  }

  lemma {:induction false} ResultLedger(b: Block)
    requires b.ToolResultBlock? || b.HintBlock?
    ensures Unique([b]) && States([b]) == map[]
    ensures ResultIds([b]) == if b.ToolResultBlock? then {b.resultId} else {}
  {
    assert [b][..0] == [];
    assert Unique([]) && States([]) == map[] && ResultIds([]) == {};
  }

  // ---------------------------------------------------------------------------
  // Setting states
  // ---------------------------------------------------------------------------

  lemma {:induction false} FindCall(bs: seq<Block>, id: string)
    ensures Find(bs, CallKey(id)) < |bs| <==> id in States(bs)
    ensures id in States(bs) ==> States(bs)[id] == bs[Find(bs, CallKey(id))].state
  {
    if bs != [] { FindCall(bs[..|bs| - 1], id); }
  }

  lemma {:induction false} HasCallIff(bs: seq<Block>, id: string)
    ensures HasCall(bs, id) <==> id in States(bs)
  {
    FindCall(bs, id);
  }

  /** Setting a state in a list goes to the front part when the call is there, and to the last block otherwise. */
  lemma {:induction false} SetSplits(init: seq<Block>, b: Block, id: string, state: CallState)
    ensures WithCallState(init + [b], id, state) ==
      if HasCall(init, id) then WithCallState(init, id, state) + [b]
      else if KeyOf(b) == CallKey(id) then init + [b.(state := state)] else init + [b]
  {
    assert (init + [b])[..|init|] == init;
  }

  lemma {:induction false} SetStates(bs: seq<Block>, id: string, state: CallState)
    ensures States(WithCallState(bs, id, state)) == if id in States(bs) then States(bs)[id := state] else States(bs)
    ensures ResultIds(WithCallState(bs, id, state)) == ResultIds(bs)
    ensures Unique(bs) ==> Unique(WithCallState(bs, id, state))
  {
    hide WithCallState, States, ResultIds, Unique, HasCall;
    if bs == [] {
      SetNone(id, state);
    } else {
      var init, b := bs[..|bs| - 1], bs[|bs| - 1];
      assert bs == init + [b];
      SetStates(init, id, state);
      HasCallIff(init, id);
      SetSplits(init, b, id, state);
      StatesSnoc(init, b);
      StatesSnoc(WithCallState(init, id, state), b);
      if b.ToolCallBlock? { StatesSnoc(init, b.(state := state)); }
    }
  }

  lemma SetNone(id: string, state: CallState)
    ensures WithCallState([], id, state) == [] && States([]) == map[]
  {
  }

  lemma {:induction false} StatesSnoc(bs: seq<Block>, b: Block)
    ensures States(bs + [b]) == if b.ToolCallBlock? && b.callId !in States(bs) then States(bs)[b.callId := b.state] else States(bs)
    ensures ResultIds(bs + [b]) == ResultIds(bs) + if b.ToolResultBlock? then {b.resultId} else {}
    ensures Unique(bs + [b]) <==> Unique(bs) && (b.ToolCallBlock? ==> b.callId !in States(bs))
  {
    assert (bs + [b])[..|bs|] == bs;
  }

  /** Setting a call's state changes that call in the ledger and nothing else. */
  lemma {:induction false} MarkLedger(context: seq<Msg>, id: string, state: CallState)
    ensures CallStates(SetState(context, id, state)) ==
      if id in CallStates(context) then CallStates(context)[id := state] else CallStates(context)
    ensures AnsweredIds(SetState(context, id, state)) == AnsweredIds(context)
    ensures UniqueCalls(context) ==> UniqueCalls(SetState(context, id, state))
  {
    hide WithCallState, States, Unique, ResultIds, HasCall;
    if context != [] {
      var m, rest := context[0], context[1..];
      HasCallIff(m.content, id);
      SplitLedger(m, rest);
      if HasCall(m.content, id) {
        var m' := m.(content := WithCallState(m.content, id, state));
        SetStates(m.content, id, state);
        SplitLedger(m', rest);
        assert States(m'.content).Keys == States(m.content).Keys;
      } else {
        MarkLedger(rest, id, state);
        SplitLedger(m, SetState(rest, id, state));
        assert CallStates(SetState(rest, id, state)).Keys == CallStates(rest).Keys;
      }
    } else {
      NoCalls();
    }
  }

  lemma NoCalls()
    ensures States([]) == map[] && ResultIds([]) == {}
  {
  }

  lemma {:induction false} SplitLedger(m: Msg, rest: seq<Msg>)
    ensures CallStates([m] + rest) == CallStates(rest) + States(m.content)
    ensures AnsweredIds([m] + rest) == ResultIds(m.content) + AnsweredIds(rest)
    ensures UniqueCalls([m] + rest) <==> Unique(m.content) && UniqueCalls(rest) && States(m.content).Keys !! CallStates(rest).Keys
  {
    assert ([m] + rest)[1..] == rest;
    StatesAppend(m.content, AllBlocks(rest));
    UniqueAppend(m.content, AllBlocks(rest));
  }

  /** Reading a call's state is looking it up in the ledger. */
  lemma {:induction false} StateOfLedger(context: seq<Msg>, id: string)
    ensures StateOf(context, id) == if id in CallStates(context) then Some(CallStates(context)[id]) else None
    ensures Owner(context, id) < |context| <==> id in CallStates(context)
  {
    hide States, ResultIds;
    if context != [] {
      FindCall(context[0].content, id);
      StatesAppend(context[0].content, AllBlocks(context[1..]));
      StateOfLedger(context[1..], id);
    } else {
      NoCalls();
    }
  }

  // ---------------------------------------------------------------------------
  // Listing calls
  // ---------------------------------------------------------------------------

  ghost predicate NoneIs(m: map<string, CallState>, state: CallState)
  {
    forall id :: id in m ==> m[id] != state
  }

  lemma {:induction false} NoneIsSnoc(m: map<string, CallState>, id: string, s: CallState, state: CallState)
    requires id !in m
    ensures NoneIs(m[id := s], state) <==> NoneIs(m, state) && s != state
  {
    var m' := m[id := s];
    assert id in m' && m'[id] == s;
    assert forall x :: x in m ==> x in m' && m'[x] == m[x];
  }

  lemma {:induction false} NoneInState(bs: seq<Block>, state: CallState)
    requires Unique(bs)
    ensures InState(bs, state) == [] <==> NoneIs(States(bs), state)
  {
    hide NoneIs;
    if bs == [] {
      EmptyIsNone(state);
    } else {
      var b := bs[|bs| - 1];
      NoneInState(bs[..|bs| - 1], state);
      if b.ToolCallBlock? {
        NoneIsSnoc(States(bs[..|bs| - 1]), b.callId, b.state, state);
      }
    }
  }

  lemma EmptyIsNone(state: CallState)
    ensures NoneIs(map[], state)
  {
  }
}
