/**
 * The cancellation token under threads: `cancel`, `on_cancel` and `unregister` as interleaved atomic
 * steps. The lock makes each first step atomic; callbacks run outside it, one step each.
 */
module Cancellation {
  import opened Prelude

  /** A registered callback: its id in the token, and the registration (the `on_cancel` call) it stands for. */
  datatype Entry = Entry(id: nat, registration: nat)

  /** The fields of the token; `callbacks` in the order they were inserted. */
  datatype Token = Token(cancelled: bool, reason: string, callbacks: seq<Entry>, nextId: nat)

  const NEW_TOKEN := Token(false, "cancelled", [], 0)

  function Registrations(entries: seq<Entry>): seq<nat>
  {
    if entries == [] then []
    else Registrations(entries[..|entries| - 1]) + [entries[|entries| - 1].registration]
  }

  function Without(entries: seq<Entry>, id: nat): seq<Entry>
  {
    if entries == [] then []
    else Without(entries[..|entries| - 1], id) + (if entries[|entries| - 1].id == id then [] else [entries[|entries| - 1]])
  }

  /** The locked part of `cancel`: the first one wins and takes the callbacks with it. */
  function CancelLocked(t: Token, reason: string): (Token, seq<nat>)
  {
    if t.cancelled then (t, []) else (t.(cancelled := true, reason := reason), Registrations(t.callbacks))
  }

  /** The locked part of `on_cancel`: register, or be told the reason. */
  function RegisterLocked(t: Token, registration: nat): (Token, Option<string>)
  {
    if t.cancelled then (t, Some(t.reason))
    else (t.(callbacks := t.callbacks + [Entry(t.nextId, registration)], nextId := t.nextId + 1), None)
  }

  /** The whole of `unregister`. */
  function UnregisterLocked(t: Token, id: nat): Token { t.(callbacks := Without(t.callbacks, id)) }

  // ---------------------------------------------------------------------------
  // The token as an object
  // ---------------------------------------------------------------------------

  class CancellationToken {
    var cancelled: bool
    var reason: string
    var callbacks: seq<Entry>
    var nextId: nat

    function Value(): Token
      reads this
    {
      Token(cancelled, reason, callbacks, nextId)
    }

    constructor ()
      ensures Value() == NEW_TOKEN
    {
      cancelled, reason, callbacks, nextId := false, "cancelled", [], 0;
    }

    /** Returns the callbacks to run, which the caller does without the lock. */
    method Cancel(because: string) returns (toRun: seq<nat>)
      modifies this
      ensures (Value(), toRun) == CancelLocked(old(Value()), because)
    {
      toRun := [];
      if cancelled { return; }
      reason := because;
      cancelled := true;
      for i := 0 to |callbacks|
        invariant Value() == old(Value()).(cancelled := true, reason := because)
        invariant toRun == Registrations(callbacks[..i])
      {
        assert callbacks[..i + 1][..i] == callbacks[..i];
        toRun := toRun + [callbacks[i].registration];
      }
      assert callbacks[..|callbacks|] == callbacks;
    }

    /** Registers and returns the callback id, or returns the reason of a cancellation that came first. */
    method OnCancel(registration: nat) returns (id: nat, told: Option<string>)
      modifies this
      ensures (Value(), told) == RegisterLocked(old(Value()), registration)
      ensures told == None ==> id == old(nextId)
    {
      id := nextId;
      if cancelled { return id, Some(reason); }
      nextId := nextId + 1;
      callbacks := callbacks + [Entry(id, registration)];
      told := None;
    }

    method Unregister(id: nat)
      modifies this
      ensures Value() == UnregisterLocked(old(Value()), id)
    {
      var kept: seq<Entry> := [];
      for i := 0 to |callbacks|
        invariant kept == Without(callbacks[..i], id)
      {
        assert callbacks[..i + 1][..i] == callbacks[..i];
        if callbacks[i].id != id { kept := kept + [callbacks[i]]; }
      }
      assert callbacks[..|callbacks|] == callbacks;
      callbacks := kept;
    }
  }

  // ---------------------------------------------------------------------------
  // Threads
  // ---------------------------------------------------------------------------

  /** Where a thread stands in the one operation it runs. */
  datatype Pc =
    | Cancelling(reason: string)
    | Running(queue: seq<nat>, reason: string)
    | Registering
    | Told(reason: string)
    | Unregistering(id: nat)
    | Done

  datatype Fire = Fire(registration: nat, reason: string)

  /**
   * The token, the threads by number, and a history: which callbacks ran, which registrations took
   * effect, and which of them were taken back before the cancellation. A registration is named by
   * the thread that made it; `winner` is the thread whose cancellation came first.
   */
  datatype System = System(
    token: Token,
    threads: map<nat, Pc>,
    fired: seq<Fire>,
    joined: set<nat>,
    withdrawn: set<nat>,
    winner: Option<nat>)

  const IDLE_SYSTEM := System(NEW_TOKEN, map[], [], {}, {}, None)

  datatype Action = Spawn(thread: nat, op: Pc) | Step(thread: nat)

  /** An operation a new thread may begin; only ids that were handed out can be unregistered. */
  predicate CanBegin(s: System, op: Pc)
  {
    op.Cancelling? || op.Registering? || (op.Unregistering? && op.id < s.token.nextId)
  }

  function RegistrationsWith(entries: seq<Entry>, id: nat): set<nat>
  {
    set e | e in entries && e.id == id :: e.registration
  }

  function CancelStep(s: System, t: nat, reason: string): System
  {
    var (token, queue) := CancelLocked(s.token, reason);
    if s.token.cancelled then s.(threads := s.threads[t := Done])
    else s.(token := token, threads := s.threads[t := Running(queue, reason)], winner := Some(t))
  }

  function RunStep(s: System, t: nat, queue: seq<nat>, reason: string): System
  {
    if queue == [] then s.(threads := s.threads[t := Done])
    else s.(threads := s.threads[t := Running(queue[1..], reason)], fired := s.fired + [Fire(queue[0], reason)])
  }

  function RegisterStep(s: System, t: nat): System
  {
    var (token, told) := RegisterLocked(s.token, t);
    s.(token := token, threads := s.threads[t := if told.Some? then Told(told.value) else Done], joined := s.joined + {t})
  }

  function ToldStep(s: System, t: nat, reason: string): System
  {
    s.(threads := s.threads[t := Done], fired := s.fired + [Fire(t, reason)])
  }

  function UnregisterStep(s: System, t: nat, id: nat): System
  {
    s.(token := UnregisterLocked(s.token, id), threads := s.threads[t := Done],
       withdrawn := if s.token.cancelled then s.withdrawn else s.withdrawn + RegistrationsWith(s.token.callbacks, id))
  }

  function StepThread(s: System, t: nat): System
    requires t in s.threads
  {
    match s.threads[t]
    case Cancelling(reason) => CancelStep(s, t, reason)
    case Running(queue, reason) => RunStep(s, t, queue, reason)
    case Registering => RegisterStep(s, t)
    case Told(reason) => ToldStep(s, t, reason)
    case Unregistering(id) => UnregisterStep(s, t, id)
    case Done => s
  }

  /** One atomic step of the whole; an action that is not possible changes nothing. */
  function Act(s: System, a: Action): System
  {
    match a
    case Spawn(t, op) => if t !in s.threads && CanBegin(s, op) then s.(threads := s.threads[t := op]) else s
    case Step(t) => if t in s.threads then StepThread(s, t) else s
  }

  /** Any interleaving. */
  function Interleave(s: System, actions: seq<Action>): System
  {
    if actions == [] then s else Act(Interleave(s, actions[..|actions| - 1]), actions[|actions| - 1])
  }

  // ---------------------------------------------------------------------------
  // The invariant
  // ---------------------------------------------------------------------------

  ghost predicate Distinct(xs: seq<nat>)
  {
    forall i, j :: 0 <= i < j < |xs| ==> xs[i] != xs[j]
  }

  ghost predicate Fired(s: System, r: nat)
  {
    exists i :: 0 <= i < |s.fired| && s.fired[i].registration == r
  }

  /** The registration waits in the winner's queue. */
  ghost predicate Queued(s: System, r: nat)
  {
    s.winner.Some? && s.winner.value in s.threads && s.threads[s.winner.value].Running? && r in s.threads[s.winner.value].queue
  }

  /** The registration came too late and its own thread is about to run it. */
  ghost predicate Late(s: System, r: nat) { r in s.threads && s.threads[r].Told? }

  /** The registration is with the token. */
  ghost predicate Held(s: System, r: nat)
  {
    exists i :: 0 <= i < |s.token.callbacks| && s.token.callbacks[i].registration == r
  }

  ghost predicate ThreadsSane(s: System)
  {
    && (forall t :: t in s.threads && s.threads[t].Running? ==>
          s.winner == Some(t) && s.threads[t].reason == s.token.reason && Distinct(s.threads[t].queue))
    && (forall t :: t in s.threads && s.threads[t].Told? ==> s.threads[t].reason == s.token.reason && t in s.joined)
    && (forall t :: t in s.threads && s.threads[t].Registering? ==> t !in s.joined)
    && (forall r :: r in s.joined ==> r in s.threads)
    && (s.winner.Some? <==> s.token.cancelled)
    && (s.winner.Some? ==> s.winner.value in s.threads && (s.threads[s.winner.value].Running? || s.threads[s.winner.value].Done?))
    && (!s.token.cancelled ==> forall t :: t in s.threads ==> !s.threads[t].Told?)
  }

  ghost predicate TokenSane(token: Token)
  {
    && (forall i :: 0 <= i < |token.callbacks| ==> token.callbacks[i].id < token.nextId)
    && (forall i, j :: 0 <= i < j < |token.callbacks| ==>
          token.callbacks[i].id != token.callbacks[j].id && token.callbacks[i].registration != token.callbacks[j].registration)
  }

  /** Every registration is in one place: with the token, withdrawn, waiting to run, or run. */
  ghost predicate Placed(s: System)
  {
    && s.withdrawn <= s.joined
    && (forall i :: 0 <= i < |s.fired| ==> s.fired[i].reason == s.token.reason && s.fired[i].registration in s.joined)
    && (forall i, j :: 0 <= i < j < |s.fired| ==> s.fired[i].registration != s.fired[j].registration)
    && (!s.token.cancelled ==> s.fired == [] && forall r :: r in s.joined ==> (Held(s, r) <==> r !in s.withdrawn))
    && (!s.token.cancelled ==> forall r :: Held(s, r) ==> r in s.joined)
    && (s.token.cancelled ==> forall r :: r in s.joined && r !in s.withdrawn ==> Fired(s, r) || Queued(s, r) || Late(s, r))
    && (forall r :: Queued(s, r) ==> r in s.joined && r !in s.withdrawn && !Fired(s, r) && !Late(s, r))
    && (forall r :: Late(s, r) ==> r !in s.withdrawn && !Fired(s, r))
    && (forall r :: Fired(s, r) ==> r !in s.withdrawn)
  }

  ghost predicate Sane(s: System) { ThreadsSane(s) && TokenSane(s.token) && Placed(s) }

  lemma {:induction false} RegistrationsAt(entries: seq<Entry>)
    ensures |Registrations(entries)| == |entries|
    ensures forall i :: 0 <= i < |entries| ==> Registrations(entries)[i] == entries[i].registration
  {
    if entries != [] { RegistrationsAt(entries[..|entries| - 1]); }
  }

  /** Removing an id keeps the other entries, in order. */
  lemma {:induction false} WithoutIs(entries: seq<Entry>, id: nat)
    ensures forall e :: e in Without(entries, id) <==> e in entries && e.id != id
    ensures |Without(entries, id)| <= |entries|
  {
    if entries != [] {
      WithoutIs(entries[..|entries| - 1], id);
      assert entries == entries[..|entries| - 1] + [entries[|entries| - 1]];
    }
  }

  ghost predicate EntriesDistinct(entries: seq<Entry>)
  {
    forall i, j :: 0 <= i < j < |entries| ==> entries[i].id != entries[j].id && entries[i].registration != entries[j].registration
  }

  lemma {:induction false} WithoutDistinct(entries: seq<Entry>, id: nat)
    requires EntriesDistinct(entries)
    ensures EntriesDistinct(Without(entries, id))
  {
    if entries != [] {
      var n := |entries| - 1;
      WithoutDistinct(entries[..n], id);
      WithoutIs(entries[..n], id);
      var init := Without(entries[..n], id);
      forall i | 0 <= i < |init|
        ensures init[i].id != entries[n].id && init[i].registration != entries[n].registration
      {
        assert init[i] in entries[..n];
      }
    }
  }

  // ---------------------------------------------------------------------------
  // Every step keeps it
  // ---------------------------------------------------------------------------

  lemma {:induction false} SpawnSane(s: System, t: nat, op: Pc)
    requires Sane(s) && t !in s.threads && CanBegin(s, op)
    ensures Sane(Act(s, Spawn(t, op)))
  {
    var s' := Act(s, Spawn(t, op));
    assert t !in s.joined;
    assert s.winner != Some(t);
    forall r
      ensures Queued(s', r) <==> Queued(s, r)
      ensures Late(s', r) <==> Late(s, r)
      ensures Held(s', r) <==> Held(s, r)
      ensures Fired(s', r) <==> Fired(s, r)
    {
    }
  }

  /** A thread other than the winner that ends without telling anybody. */
  lemma {:induction false} EndSane(s: System, t: nat)
    requires Sane(s) && t in s.threads && !s.threads[t].Told? && !s.threads[t].Running? && !s.threads[t].Registering?
    ensures Sane(s.(threads := s.threads[t := Done]))
  {
    var s' := s.(threads := s.threads[t := Done]);
    forall r
      ensures Queued(s', r) <==> Queued(s, r)
      ensures Late(s', r) <==> Late(s, r)
      ensures Held(s', r) <==> Held(s, r)
      ensures Fired(s', r) <==> Fired(s, r)
    {
    }
  }

  lemma {:induction false} WinSane(s: System, t: nat, reason: string)
    requires Sane(s) && t in s.threads && s.threads[t] == Cancelling(reason) && !s.token.cancelled
    ensures Sane(CancelStep(s, t, reason))
  {
    hide Registrations;
    var s' := CancelStep(s, t, reason);
    RegistrationsAt(s.token.callbacks);
    var queue := Registrations(s.token.callbacks);
    forall r
      ensures r in queue <==> Held(s, r)
      ensures Queued(s', r) <==> Held(s, r)
      ensures !Fired(s', r) && !Late(s', r)
    {
      if Held(s, r) {
        var i :| 0 <= i < |s.token.callbacks| && s.token.callbacks[i].registration == r;
        assert queue[i] == r;
      }
    }
  }

  lemma {:induction false} RunSane(s: System, t: nat, queue: seq<nat>, reason: string)
    requires Sane(s) && t in s.threads && s.threads[t] == Running(queue, reason)
    ensures Sane(RunStep(s, t, queue, reason))
  {
    var s' := RunStep(s, t, queue, reason);
    forall r
      ensures Held(s', r) <==> Held(s, r)
      ensures Late(s', r) <==> Late(s, r)
    {
    }
    if queue == [] {
      assert forall r :: !Queued(s, r) && !Queued(s', r);
      assert forall r :: Fired(s', r) <==> Fired(s, r);
    } else {
      assert Queued(s, queue[0]);
      assert queue == [queue[0]] + queue[1..];
      forall r
        ensures Queued(s', r) <==> Queued(s, r) && r != queue[0]
        ensures Fired(s', r) <==> Fired(s, r) || r == queue[0]
      {
        FiredSnoc(s, s', queue[0], reason, r);
      }
    }
  }

  lemma {:induction false} FiredSnoc(s: System, s': System, x: nat, reason: string, r: nat)
    requires s'.fired == s.fired + [Fire(x, reason)]
    ensures Fired(s', r) <==> Fired(s, r) || r == x
  {
    if Fired(s, r) {
      var i :| 0 <= i < |s.fired| && s.fired[i].registration == r;
      assert s'.fired[i].registration == r;
    }
    assert s'.fired[|s.fired|].registration == x;
  }

  lemma {:induction false} RegisterSane(s: System, t: nat)
    requires Sane(s) && t in s.threads && s.threads[t] == Registering
    ensures Sane(RegisterStep(s, t))
  {
    var s' := RegisterStep(s, t);
    assert s.winner != Some(t);
    assert forall i :: 0 <= i < |s.fired| ==> s.fired[i].registration != t;
    forall r
      ensures Queued(s', r) <==> Queued(s, r)
      ensures Fired(s', r) <==> Fired(s, r)
      ensures Late(s', r) <==> Late(s, r) || (r == t && s.token.cancelled)
      ensures Held(s', r) <==> Held(s, r) || (r == t && !s.token.cancelled)
    {
      HeldSnoc(s, s', t, r);
    }
  }

  lemma {:induction false} HeldSnoc(s: System, s': System, t: nat, r: nat)
    requires s' == RegisterStep(s, t)
    ensures Held(s', r) <==> Held(s, r) || (r == t && !s.token.cancelled)
  {
    if !s.token.cancelled {
      if Held(s, r) {
        var i :| 0 <= i < |s.token.callbacks| && s.token.callbacks[i].registration == r;
        assert s'.token.callbacks[i].registration == r;
      }
      assert s'.token.callbacks[|s.token.callbacks|].registration == t;
    }
  }

  lemma {:induction false} ToldSane(s: System, t: nat, reason: string)
    requires Sane(s) && t in s.threads && s.threads[t] == Told(reason)
    ensures Sane(ToldStep(s, t, reason))
  {
    var s' := ToldStep(s, t, reason);
    assert Late(s, t) && s.winner != Some(t);
    forall r
      ensures Queued(s', r) <==> Queued(s, r)
      ensures Fired(s', r) <==> Fired(s, r) || r == t
      ensures Late(s', r) <==> Late(s, r) && r != t
      ensures Held(s', r) <==> Held(s, r)
    {
      FiredSnoc(s, s', t, reason, r);
    }
  }

  lemma {:induction false} UnregisterSane(s: System, t: nat, id: nat)
    requires Sane(s) && t in s.threads && s.threads[t] == Unregistering(id)
    ensures Sane(UnregisterStep(s, t, id))
  {
    hide Without;
    var s' := UnregisterStep(s, t, id);
    WithoutIs(s.token.callbacks, id);
    assert EntriesDistinct(s.token.callbacks);
    WithoutDistinct(s.token.callbacks, id);
    forall i | 0 <= i < |s'.token.callbacks|
      ensures s'.token.callbacks[i].id < s'.token.nextId
    {
      assert s'.token.callbacks[i] in s.token.callbacks;
    }
    forall r
      ensures Queued(s', r) <==> Queued(s, r)
      ensures Fired(s', r) <==> Fired(s, r)
      ensures Late(s', r) <==> Late(s, r)
      ensures Held(s', r) ==> Held(s, r)
      ensures !s.token.cancelled ==> (Held(s', r) <==> Held(s, r) && r !in RegistrationsWith(s.token.callbacks, id))
      ensures r in RegistrationsWith(s.token.callbacks, id) ==> Held(s, r)
    {
      HeldWithout(s, s', id, r);
    }
    assert s.threads[t].Unregistering?;
    if !s.token.cancelled {
      forall r | r in s'.withdrawn
        ensures r in s.joined
      {
        assert r in s.withdrawn || Held(s, r);
      }
    }
  }

  lemma {:induction false} HeldWithout(s: System, s': System, id: nat, r: nat)
    requires EntriesDistinct(s.token.callbacks) && s'.token.callbacks == Without(s.token.callbacks, id)
    ensures Held(s', r) <==> Held(s, r) && r !in RegistrationsWith(s.token.callbacks, id)
    ensures r in RegistrationsWith(s.token.callbacks, id) ==> Held(s, r)
  {
    hide Without;
    WithoutIs(s.token.callbacks, id);
    if Held(s', r) {
      var i :| 0 <= i < |s'.token.callbacks| && s'.token.callbacks[i].registration == r;
      var e := s'.token.callbacks[i];
      assert e in s.token.callbacks && e.id != id;
      var j :| 0 <= j < |s.token.callbacks| && s.token.callbacks[j] == e;
      assert Held(s, r);
    }
    if Held(s, r) && r !in RegistrationsWith(s.token.callbacks, id) {
      var j :| 0 <= j < |s.token.callbacks| && s.token.callbacks[j].registration == r;
      var e := s.token.callbacks[j];
      assert e in s.token.callbacks;
      assert e.id != id;
      assert e in s'.token.callbacks;
      var i :| 0 <= i < |s'.token.callbacks| && s'.token.callbacks[i] == e;
      assert s'.token.callbacks[i].registration == r;
    }
    if r in RegistrationsWith(s.token.callbacks, id) {
      var e :| e in s.token.callbacks && e.id == id && e.registration == r;
      var j :| 0 <= j < |s.token.callbacks| && s.token.callbacks[j] == e;
      assert s.token.callbacks[j].registration == r;
    }
  }

  lemma {:induction false} ActSane(s: System, a: Action)
    requires Sane(s)
    ensures Sane(Act(s, a))
  {
    hide Sane, CancelStep, RunStep, RegisterStep, ToldStep, UnregisterStep;
    match a
    case Spawn(t, op) => if t !in s.threads && CanBegin(s, op) { SpawnSane(s, t, op); }
    case Step(t) =>
      if t in s.threads {
        match s.threads[t] {
          case Cancelling(reason) => CancelSane(s, t, reason);
          case Running(queue, reason) => RunSane(s, t, queue, reason);
          case Registering => RegisterSane(s, t);
          case Told(reason) => ToldSane(s, t, reason);
          case Unregistering(id) => UnregisterSane(s, t, id);
          case Done =>
        }
      }
  }

  lemma {:induction false} CancelSane(s: System, t: nat, reason: string)
    requires Sane(s) && t in s.threads && s.threads[t] == Cancelling(reason)
    ensures Sane(CancelStep(s, t, reason))
  {
    hide Sane;
    if s.token.cancelled { EndSane(s, t); } else { WinSane(s, t, reason); }
  }

  lemma {:induction false} InterleaveSane(actions: seq<Action>)
    ensures Sane(Interleave(IDLE_SYSTEM, actions))
  {
    if actions == [] {
      IdleSane();
    } else {
      hide Sane, Act;
      InterleaveSane(actions[..|actions| - 1]);
      ActSane(Interleave(IDLE_SYSTEM, actions[..|actions| - 1]), actions[|actions| - 1]);
    }
  }

  lemma IdleSane()
    ensures Sane(IDLE_SYSTEM)
  {
  }

  // ---------------------------------------------------------------------------
  // Main results
  // ---------------------------------------------------------------------------

  /** Whatever the interleaving, no registration's callback runs twice, and all run with the one reason. */
  lemma {:induction false} NoCallbackTwice(actions: seq<Action>)
    ensures var s := Interleave(IDLE_SYSTEM, actions);
      && (forall i, j :: 0 <= i < j < |s.fired| ==> s.fired[i].registration != s.fired[j].registration)
      && (forall i :: 0 <= i < |s.fired| ==> s.fired[i].reason == s.token.reason)
  {
    InterleaveSane(actions);
  }

  ghost predicate AllDone(s: System) { forall t :: t in s.threads ==> s.threads[t].Done? }

  /**
   * Once all threads have finished after a cancellation, the callbacks that ran are exactly those of
   * the registrations that were not withdrawn before it, whether they came before or after it.
   */
  lemma {:induction false} AllCallbacksRun(actions: seq<Action>, r: nat)
    requires AllDone(Interleave(IDLE_SYSTEM, actions)) && Interleave(IDLE_SYSTEM, actions).token.cancelled
    ensures var s := Interleave(IDLE_SYSTEM, actions);
      Fired(s, r) <==> r in s.joined && r !in s.withdrawn
  {
    hide Interleave;
    InterleaveSane(actions);
    var s := Interleave(IDLE_SYSTEM, actions);
    assert !Queued(s, r) && !Late(s, r);
    if Fired(s, r) {
      var i :| 0 <= i < |s.fired| && s.fired[i].registration == r;
    }
  }

  /** Nothing runs without a cancellation. */
  lemma {:induction false} NothingRunsUncancelled(actions: seq<Action>)
    requires !Interleave(IDLE_SYSTEM, actions).token.cancelled
    ensures Interleave(IDLE_SYSTEM, actions).fired == []
  {
    hide Interleave;
    InterleaveSane(actions);
  }

  /** The first cancellation decides the reason for good, and what has run stays run. */
  lemma {:induction false} FirstReasonStays(s: System, more: seq<Action>)
    requires s.token.cancelled
    ensures var s' := Interleave(s, more);
      && s'.token.cancelled && s'.token.reason == s.token.reason && s'.winner == s.winner && s'.withdrawn == s.withdrawn
      && s.fired <= s'.fired
  {
    if more != [] { FirstReasonStays(s, more[..|more| - 1]); }
  }

  // ---------------------------------------------------------------------------
  // Who wins
  // ---------------------------------------------------------------------------

  /** The operation a thread began in a schedule: that of its first possible `Spawn`. */
  function Began(actions: seq<Action>, t: nat): Option<Pc>
  {
    if actions == [] then None
    else
      var init, a := actions[..|actions| - 1], actions[|actions| - 1];
      if Began(init, t).Some? then Began(init, t)
      else if a.Spawn? && a.thread == t && CanBegin(Interleave(IDLE_SYSTEM, init), a.op) then Some(a.op)
      else None
  }

  datatype Cancel = Cancel(thread: nat, reason: string)

  /** The first step in a schedule of any thread that began a cancellation, with the reason it began it with. */
  function FirstCancel(actions: seq<Action>): Option<Cancel>
  {
    if actions == [] then None
    else
      var init, a := actions[..|actions| - 1], actions[|actions| - 1];
      if FirstCancel(init).Some? then FirstCancel(init)
      else if a.Step? && Began(init, a.thread).Some? && Began(init, a.thread).value.Cancelling? then
        Some(Cancel(a.thread, Began(init, a.thread).value.reason))
      else None
  }

  /** Threads that have not stepped are where they began; before the cancellation so are all cancelling ones. */
  ghost predicate AsBegun(s: System, actions: seq<Action>)
  {
    && (forall t :: t in s.threads <==> Began(actions, t).Some?)
    && (forall t :: t in s.threads && s.threads[t].Cancelling? ==> Began(actions, t) == Some(s.threads[t]))
    && (!s.token.cancelled ==>
          forall t :: t in s.threads && Began(actions, t).value.Cancelling? ==> Some(s.threads[t]) == Began(actions, t))
  }

  lemma {:induction false} ActAsBegun(s: System, init: seq<Action>, a: Action)
    requires s == Interleave(IDLE_SYSTEM, init) && AsBegun(s, init)
    ensures AsBegun(Act(s, a), init + [a])
  {
    hide Interleave, Registrations, Without, RegistrationsWith;
    var actions := init + [a];
    assert actions[..|actions| - 1] == init;
    forall t
      ensures Began(actions, t) == if Began(init, t).Some? then Began(init, t)
                                   else if a.Spawn? && a.thread == t && CanBegin(s, a.op) then Some(a.op) else None
    {
    }
    hide Began;
  }

  /** The winner and the reason the token holds, against the first cancelling step of the schedule. */
  ghost predicate WonBy(s: System, first: Option<Cancel>)
  {
    if first.Some? then s.token.cancelled && s.winner == Some(first.value.thread) && s.token.reason == first.value.reason
    else !s.token.cancelled && s.winner == None
  }

  /**
   * Whatever the interleaving: the token is cancelled exactly when a thread that began a cancellation
   * has taken a step; the first such thread wins, and the reason is, for good, the one it began with.
   */
  lemma {:induction false} WinnerGivesReason(actions: seq<Action>)
    ensures WonBy(Interleave(IDLE_SYSTEM, actions), FirstCancel(actions))
    ensures AsBegun(Interleave(IDLE_SYSTEM, actions), actions)
  {
    if actions != [] {
      var init, a := actions[..|actions| - 1], actions[|actions| - 1];
      WinnerGivesReason(init);
      var s := Interleave(IDLE_SYSTEM, init);
      ActAsBegun(s, init, a);
      assert init + [a] == actions;
      hide Interleave, Registrations, Began, AsBegun, RegistrationsWith;
      StepWins(s, init, a);
    }
  }

  lemma {:induction false} StepWins(s: System, init: seq<Action>, a: Action)
    requires AsBegun(s, init) && WonBy(s, FirstCancel(init))
    ensures WonBy(Act(s, a), FirstCancel(init + [a]))
  {
    assert (init + [a])[..|init|] == init;
    hide Began, Registrations, RegistrationsWith, Without;
  }

  // ---------------------------------------------------------------------------
  // Threads finish
  // ---------------------------------------------------------------------------

  /** The steps a thread still has to take. */
  function StepsLeft(s: System, pc: Pc): nat
  {
    match pc
    case Cancelling(_) => |s.token.callbacks| + 2
    case Running(queue, _) => |queue| + 1
    case Registering => 2
    case Told(_) => 1
    case Unregistering(_) => 1
    case Done => 0
  }

  /** No thread waits for another: each of its steps brings it closer to its end. */
  lemma {:induction false} EveryStepCounts(s: System, t: nat)
    requires t in s.threads && !s.threads[t].Done?
    ensures var s' := Act(s, Step(t)); StepsLeft(s', s'.threads[t]) < StepsLeft(s, s.threads[t])
  {
    RegistrationsAt(s.token.callbacks);
  }
}
