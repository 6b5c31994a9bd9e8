/**
 * Confirmations are confluent: the calls of a batch that wait for the user may be answered in any
 * order and more than once; nothing runs before the last open answer, and the outcome is the same.
 */
module Confluence {
  import opened Prelude
  import opened Messages
  import opened Events
  import opened Context
  import opened Ledger
  import opened Reasoning
  import opened Runner
  import opened Safety

  type Verdict = string -> bool

  function Decided(approved: bool): CallState { if approved then Allowed else CallState.Finished }

  // ---------------------------------------------------------------------------
  // Deciding a set of calls at once
  // ---------------------------------------------------------------------------

  function DecideBlock(b: Block, ids: set<string>, v: Verdict): Block
  {
    if b.ToolCallBlock? && b.callId in ids then b.(state := Decided(v(b.callId))) else b
  }

  function DecideBlocks(bs: seq<Block>, ids: set<string>, v: Verdict): seq<Block>
  {
    if bs == [] then [] else DecideBlocks(bs[..|bs| - 1], ids, v) + [DecideBlock(bs[|bs| - 1], ids, v)]
  }

  function DecideMsg(m: Msg, ids: set<string>, v: Verdict): Msg { m.(content := DecideBlocks(m.content, ids, v)) }

  function DecideAll(context: seq<Msg>, ids: set<string>, v: Verdict): seq<Msg>
  {
    if context == [] then [] else [DecideMsg(context[0], ids, v)] + DecideAll(context[1..], ids, v)
  }

  lemma {:induction false} DecideBlocksSnoc(bs: seq<Block>, b: Block, ids: set<string>, v: Verdict)
    ensures DecideBlocks(bs + [b], ids, v) == DecideBlocks(bs, ids, v) + [DecideBlock(b, ids, v)]
  {
    assert (bs + [b])[..|bs|] == bs;
  }

  lemma {:induction false} DecideNone(bs: seq<Block>, v: Verdict)
    ensures DecideBlocks(bs, {}, v) == bs
  {
    if bs != [] { DecideNone(bs[..|bs| - 1], v); }
  }

  lemma {:induction false} DecideNoneAll(context: seq<Msg>, v: Verdict)
    ensures DecideAll(context, {}, v) == context
  {
    if context != [] {
      DecideNone(context[0].content, v);
      DecideNoneAll(context[1..], v);
    }
  }

  /** Deciding twice is deciding the union. */
  lemma {:induction false} DecideTwice(bs: seq<Block>, a: set<string>, b: set<string>, v: Verdict)
    ensures DecideBlocks(DecideBlocks(bs, a, v), b, v) == DecideBlocks(bs, a + b, v)
  {
    if bs != [] {
      var init, last := bs[..|bs| - 1], bs[|bs| - 1];
      DecideTwice(init, a, b, v);
      DecideBlocksSnoc(DecideBlocks(init, a, v), DecideBlock(last, a, v), b, v);
    }
  }

  lemma {:induction false} DecideTwiceAll(context: seq<Msg>, a: set<string>, b: set<string>, v: Verdict)
    ensures DecideAll(DecideAll(context, a, v), b, v) == DecideAll(context, a + b, v)
  {
    if context != [] {
      var rest := DecideAll(context[1..], a, v);
      DecideTwice(context[0].content, a, b, v);
      DecideTwiceAll(context[1..], a, b, v);
      assert ([DecideMsg(context[0], a, v)] + rest)[1..] == rest;
    }
  }

  /** A call that is not there is not decided. */
  lemma {:induction false} DecideAbsent(bs: seq<Block>, id: string, v: Verdict)
    requires id !in States(bs)
    ensures DecideBlocks(bs, {id}, v) == bs
  {
    if bs != [] { DecideAbsent(bs[..|bs| - 1], id, v); }
  }

  /** Among unique calls, setting one state is deciding that call alone. */
  lemma {:induction false} SetIsDecide(bs: seq<Block>, id: string, v: Verdict)
    requires Unique(bs)
    ensures WithCallState(bs, id, Decided(v(id))) == DecideBlocks(bs, {id}, v)
  {
    hide WithCallState, HasCall, Unique, States, ResultIds, DecideBlocks;
    if bs == [] {
      SetNothing(id, v);
    } else {
      var init, b := bs[..|bs| - 1], bs[|bs| - 1];
      assert bs == init + [b];
      StatesSnoc(init, b);
      SetIsDecide(init, id, v);
      SetSplits(init, b, id, Decided(v(id)));
      DecideBlocksSnoc(init, b, {id}, v);
      HasCallIff(init, id);
      if id !in States(init) { DecideAbsent(init, id, v); }
    }
  }

  lemma SetNothing(id: string, v: Verdict)
    ensures WithCallState([], id, Decided(v(id))) == [] == DecideBlocks([], {id}, v)
  {
  }

  lemma {:induction false} SetIsDecideAll(context: seq<Msg>, id: string, v: Verdict)
    requires UniqueCalls(context)
    ensures SetState(context, id, Decided(v(id))) == DecideAll(context, {id}, v)
  {
    hide WithCallState, HasCall, Unique, States, ResultIds, DecideBlocks;
    if context != [] {
      var m, rest := context[0], context[1..];
      assert context == [m] + rest;
      SplitLedger(m, rest);
      SetIsDecide(m.content, id, v);
      HasCallIff(m.content, id);
      if HasCall(m.content, id) {
        AbsentAll(rest, id, v);
      } else {
        DecideAbsent(m.content, id, v);
        SetIsDecideAll(rest, id, v);
      }
    }
  }

  lemma {:induction false} AbsentAll(context: seq<Msg>, id: string, v: Verdict)
    requires id !in CallStates(context)
    ensures DecideAll(context, {id}, v) == context
  {
    hide Unique, States, ResultIds, DecideBlocks;
    if context != [] {
      assert context == [context[0]] + context[1..];
      SplitLedger(context[0], context[1..]);
      DecideAbsent(context[0].content, id, v);
      AbsentAll(context[1..], id, v);
    }
  }

  // ---------------------------------------------------------------------------
  // A series of answers
  // ---------------------------------------------------------------------------

  function AskingIds(context: seq<Msg>): set<string>
  {
    set id | id in CallStates(context) && CallStates(context)[id] == Asking
  }

  function Ids(xs: seq<string>): set<string>
  {
    if xs == [] then {} else Ids(xs[..|xs| - 1]) + {xs[|xs| - 1]}
  }

  /** The context in the middle of the answers, call by call. */
  ghost predicate Halfway(before: map<string, CallState>, now: map<string, CallState>, done: set<string>, v: Verdict)
  {
    && now.Keys == before.Keys
    && forall id :: id in before ==> now[id] == if id in done then Decided(v(id)) else before[id]
  }

  /** The run after some answers: the decided calls are decided, nothing else has moved. */
  ghost predicate Midway(r0: Run, r: Run, done: set<string>, v: Verdict)
  {
    && UniqueCalls(r.context)
    && r.context == DecideAll(r0.context, done, v)
    && Halfway(CallStates(r0.context), CallStates(r.context), done, v)
    && r.sent == r0.sent && r.nextId == r0.nextId && r.requests == r0.requests
    && r.log == r0.log
  }

  lemma {:induction false} MarkedMidway(r0: Run, r: Run, done: set<string>, v: Verdict, id: string)
    requires Midway(r0, r, done, v) && id in CallStates(r0.context)
    ensures Midway(r0, Mark(r, id, Decided(v(id))), done + {id}, v)
  {
    hide UniqueCalls, CallStates, AnsweredIds, DecideAll, SetState;
    MarkLedger(r.context, id, Decided(v(id)));
    SetIsDecideAll(r.context, id, v);
    DecideTwiceAll(r0.context, done, {id}, v);
  }

  /** Whether answers remain open. */
  lemma {:induction false} OpenIff(r0: Run, r: Run, done: set<string>, v: Verdict)
    requires Midway(r0, r, done, v) && done <= AskingIds(r0.context)
    ensures CallsInState(r.context, Asking) == [] <==> done == AskingIds(r0.context)
  {
    hide UniqueCalls, DecideAll, CallStates, CallsInState;
    NothingAsking(r.context);
    var before, now := CallStates(r0.context), CallStates(r.context);
    if NoneIs(now, Asking) {
      forall id | id in AskingIds(r0.context)
        ensures id in done
      {
        assert now[id] != Asking;
      }
    }
    if done == AskingIds(r0.context) {
      forall id | id in now
        ensures now[id] != Asking
      {
        assert id !in done ==> now[id] == before[id];
      }
    }
  }

  /** One answer about a call of the batch: taken the first time, and taken again if it repeats itself. */
  lemma {:induction false} AcceptMidway(r0: Run, r: Run, done: set<string>, v: Verdict, id: string)
    requires Midway(r0, r, done, v) && done <= AskingIds(r0.context) && id in AskingIds(r0.context)
    ensures var (at, acceptance) := Accept(r, id, v(id));
      && Midway(r0, at, done + {id}, v)
      && acceptance == (if done + {id} == AskingIds(r0.context) then Complete else Incomplete)
      && Owner(r.context, id) < |r.context| && at.messageId == r.context[Owner(r.context, id)].id
      && at == r.(context := at.context, messageId := at.messageId)
  {
    hide UniqueCalls, DecideAll, CallStates, CallsInState, StateOf, Owner, SetState;
    StateOfLedger(r.context, id);
    var at := r.(messageId := r.context[Owner(r.context, id)].id);
    if id in done {
      assert done + {id} == done;
      OpenIff(r0, at, done, v);
    } else {
      MarkedMidway(r0, at, done, v, id);
      OpenIff(r0, Mark(at, id, Decided(v(id))), done + {id}, v);
    }
  }

  /** The answers as inputs; the environment matters only to the last one. */
  function Answers(xs: seq<string>, v: Verdict, maxContinuations: nat, env: Env): seq<Input>
  {
    if xs == [] then []
    else
      var x := xs[|xs| - 1];
      Answers(xs[..|xs| - 1], v, maxContinuations, env) + [Answer(x, v(x), maxContinuations, env)]
  }

  /** While answers are open the agent rests: nothing is sent, nothing runs. */
  lemma {:induction false} OpenAnswersWait(c: Config, m: Machine, xs: seq<string>, v: Verdict, maxContinuations: nat, env: Env)
    requires m.phase.AtRest? && UniqueCalls(m.run.context)
    requires Ids(xs) < AskingIds(m.run.context)
    ensures var now := Life(c, m, Answers(xs, v, maxContinuations, env));
      && now.phase.AtRest? && Midway(m.run, now.run, Ids(xs), v)
      && (xs != [] ==> now.run.status == Paused && now.run.continuations == 0 && now.run.maxContinuations == maxContinuations)
      && now.run.iteration == m.run.iteration && now.run.emptyRetries == m.run.emptyRetries && now.run.inFinalization == m.run.inFinalization
  {
    hide UniqueCalls, DecideAll, CallStates, AskingIds, Accept, Advance, Resume;
    if xs == [] {
      DecideNoneAll(m.run.context, v);
      StartMidway(m.run, v);
    } else {
      var init, x := xs[..|xs| - 1], xs[|xs| - 1];
      OpenAnswersWait(c, m, init, v, maxContinuations, env);
      var before := Life(c, m, Answers(init, v, maxContinuations, env));
      LifeSnoc(c, m, Answers(init, v, maxContinuations, env), Answer(x, v(x), maxContinuations, env));
      var r := before.run.(continuations := 0, maxContinuations := maxContinuations);
      SameMidway(m.run, before.run, r, Ids(init), v);
      AcceptMidway(m.run, r, Ids(init), v, x);
      AnswerIncomplete(c, before, x, v(x), maxContinuations, env);
      var at := Accept(r, x, v(x)).0;
      SameMidway(m.run, at, at.(status := Paused), Ids(xs), v);
    }
  }

  lemma StartMidway(r: Run, v: Verdict)
    requires UniqueCalls(r.context) && DecideAll(r.context, {}, v) == r.context
    ensures Midway(r, r, {}, v)
  {
    hide DecideAll, UniqueCalls, CallStates;
  }

  lemma SameMidway(r0: Run, r: Run, s: Run, done: set<string>, v: Verdict)
    requires Midway(r0, r, done, v) && s.context == r.context && s.sent == r.sent && s.nextId == r.nextId && s.requests == r.requests && s.log == r.log
    ensures Midway(r0, s, done, v)
  {
    hide DecideAll, UniqueCalls, CallStates;
  }

  lemma AnswerIncomplete(c: Config, m: Machine, id: string, approved: bool, maxContinuations: nat, env: Env)
    requires m.phase.AtRest?
    requires Accept(m.run.(continuations := 0, maxContinuations := maxContinuations), id, approved).1.Incomplete?
    ensures var at := Accept(m.run.(continuations := 0, maxContinuations := maxContinuations), id, approved).0;
      Advance(c, m, Answer(id, approved, maxContinuations, env)) == Machine(at.(status := Paused), AtRest)
  {
    hide Accept, Resume;
  }

  // ---------------------------------------------------------------------------
  // The last answer
  // ---------------------------------------------------------------------------

  /** The answers cover every waiting call, and the last one was still open. */
  ghost predicate JustComplete(xs: seq<string>, asking: set<string>)
  {
    xs != [] && Ids(xs) == asking && Ids(xs[..|xs| - 1]) < asking
  }

  /** All waiting calls are in one message. */
  ghost predicate OneMessage(context: seq<Msg>, id: MsgId)
  {
    forall x :: x in AskingIds(context) ==> Owner(context, x) < |context| && context[Owner(context, x)].id == id
  }

  /** The run as it is resumed. */
  function Resumed(r: Run, id: MsgId, v: Verdict, maxContinuations: nat): Run
  {
    r.(context := DecideAll(r.context, AskingIds(r.context), v), messageId := id, status := Active,
       continuations := 0, maxContinuations := maxContinuations)
  }

  lemma {:induction false} OwnerDecided(context: seq<Msg>, ids: set<string>, v: Verdict, x: string)
    ensures Owner(DecideAll(context, ids, v), x) == Owner(context, x)
    ensures |DecideAll(context, ids, v)| == |context|
    ensures forall i :: 0 <= i < |context| ==> DecideAll(context, ids, v)[i].id == context[i].id
  {
    hide Find;
    if context != [] {
      OwnerDecided(context[1..], ids, v, x);
      FindDecided(context[0].content, ids, v, CallKey(x));
      var rest := DecideAll(context[1..], ids, v);
      assert ([DecideMsg(context[0], ids, v)] + rest)[1..] == rest;
    }
  }

  lemma {:induction false} FindDecided(bs: seq<Block>, ids: set<string>, v: Verdict, key: Key)
    ensures |DecideBlocks(bs, ids, v)| == |bs|
    ensures Find(DecideBlocks(bs, ids, v), key) == Find(bs, key)
  {
    if bs != [] {
      var init, b := bs[..|bs| - 1], bs[|bs| - 1];
      FindDecided(init, ids, v, key);
      assert DecideBlocks(bs, ids, v)[..|bs| - 1] == DecideBlocks(init, ids, v);
    }
  }

  /** The last answer resumes the run, from a state that depends on the decisions alone. */
  lemma {:induction false} LastAnswerResumes(c: Config, m: Machine, xs: seq<string>, v: Verdict, maxContinuations: nat, env: Env, id: MsgId)
    requires m.phase.AtRest? && UniqueCalls(m.run.context)
    requires JustComplete(xs, AskingIds(m.run.context)) && OneMessage(m.run.context, id)
    ensures Life(c, m, Answers(xs, v, maxContinuations, env)) == Settle(Resumed(m.run, id, v, maxContinuations), env)
  {
    hide UniqueCalls, DecideAll, CallStates, AskingIds, Accept, Advance, Resume, Owner, Settle;
    var init, x := xs[..|xs| - 1], xs[|xs| - 1];
    OpenAnswersWait(c, m, init, v, maxContinuations, env);
    var before := Life(c, m, Answers(init, v, maxContinuations, env));
    LifeSnoc(c, m, Answers(init, v, maxContinuations, env), Answer(x, v(x), maxContinuations, env));
    var r := before.run.(continuations := 0, maxContinuations := maxContinuations);
    SameMidway(m.run, before.run, r, Ids(init), v);
    AcceptMidway(m.run, r, Ids(init), v, x);
    AnswerComplete(c, before, x, v(x), maxContinuations, env);
    OwnerDecided(m.run.context, Ids(init), v, x);
    var at := Accept(r, x, v(x)).0;
    assert at.messageId == id;
    assert at.(status := Active) == Resumed(m.run, id, v, maxContinuations);
  }

  /** Settling the batch, once the last open answer is in. */
  function Settle(r: Run, env: Env): Machine
  {
    var (settled, cancelled) := Resume(r, env);
    if cancelled then Machine(Finish(settled, Failure), AtRest) else Machine(settled, Loop(None))
  }

  lemma AnswerComplete(c: Config, m: Machine, id: string, approved: bool, maxContinuations: nat, env: Env)
    requires m.phase.AtRest?
    requires Accept(m.run.(continuations := 0, maxContinuations := maxContinuations), id, approved).1.Complete?
    ensures var at := Accept(m.run.(continuations := 0, maxContinuations := maxContinuations), id, approved).0;
      Advance(c, m, Answer(id, approved, maxContinuations, env)) == Settle(at.(status := Active), env)
  {
    hide Accept, Resume;
  }

  /**
   * Two users who answer the same waiting batch with the same decisions, in different orders and with
   * different repetitions, bring the agent to the same point: the same phase, context, call states,
   * events, counters and executions.
   */
  lemma {:induction false} AnswersAreConfluent(c: Config, m: Machine, xs: seq<string>, ys: seq<string>, v: Verdict, maxContinuations: nat, env: Env, id: MsgId)
    requires m.phase.AtRest? && UniqueCalls(m.run.context) && OneMessage(m.run.context, id)
    requires JustComplete(xs, AskingIds(m.run.context)) && JustComplete(ys, AskingIds(m.run.context))
    ensures Life(c, m, Answers(xs, v, maxContinuations, env)) == Life(c, m, Answers(ys, v, maxContinuations, env))
  {
    hide UniqueCalls, AskingIds, OneMessage, Settle, Resumed, Answers, Life, JustComplete;
    LastAnswerResumes(c, m, xs, v, maxContinuations, env, id);
    LastAnswerResumes(c, m, ys, v, maxContinuations, env, id);
  }
}
