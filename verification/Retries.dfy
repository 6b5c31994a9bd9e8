/**
 * When a failed model request is made again: how an attempt ends, and which attempts follow which, read
 * off the inputs of a reasoning action alone.
 */
module Retries {
  import opened Prelude
  import opened StreamChunks
  import opened BlockAssembly
  import opened BlockContract
  import opened Messages
  import opened Events
  import opened Reasoning
  import opened Forwarding

  // ---------------------------------------------------------------------------
  // How an attempt ends
  // ---------------------------------------------------------------------------

  /** The failure a finish reports: its own, or a general one for its kind. */
  function ReportedFailure(r: FinishReason): LLMError
  {
    match r.failure
    case Some(e) => e
    case None => if r.kind == Aborted then LLMError("aborted", "ABORTED") else LLMError("error", "ERROR")
  }

  /**
   * The end of an attempt, read off its stream: a failing finish that is read, then a chunk that breaks
   * the stream contract, then the way the stream stops, then what is missing in a stream that just ends.
   */
  function Outcome(read: Reader, input: AttemptInput): AttemptEnd
  {
    var cs, part := input.chunks, ReadPart(input.chunks);
    if part != [] && part[|part| - 1].Finish? && part[|part| - 1].reason.kind in {FinishKind.Error, FinishKind.Aborted} then
      FailedWith(ReportedFailure(part[|part| - 1].reason))
    else if part != cs then FailedWith(FeedAll(cs).error)
    else match input.ending
         case StreamCancelled => WasCancelled
         case StreamRaised(e) => FailedWith(e)
         case StreamDone =>
           if FeedAll(cs).value.open.Keys != {} then FailedWith(LLMError("unclosed blocks", "STREAM_PROTOCOL"))
           else if FeedAll(cs).value.finish == None then FailedWith(LLMError("stream ended without finish chunk", "STREAM_CLOSED"))
           else if !AllObjects(CallsAsked(read, cs)) then FailedWith(LLMError("arguments must be an object", "unknown"))
           else Succeeded(TurnResult(TextStreamed(cs), ThoughtStreamed(cs), CallsAsked(read, cs), None))
  }

  lemma {:induction false} ErrorIsFirst(read: Reader, nextId: nat, cs: seq<Chunk>)
    ensures var (a, error) := Consume(read, NewAttempt(nextId), cs); var part := ReadPart(cs);
      error == if EndsFailing(part) then Some(ReportedFailure(part[|part| - 1].reason))
               else if part != cs then Some(FeedAll(cs).error) else None
    ensures ReadPart(cs) != cs ==> FeedAll(cs).Err?
  {
    hide OnTaken, Feed, HasTaken;
    if cs != [] {
      var init, c := cs[..|cs| - 1], cs[|cs| - 1];
      ErrorIsFirst(read, nextId, init);
      ReadsPart(read, nextId, init);
      var (b, error) := Consume(read, NewAttempt(nextId), init);
      assert |ReadPart(init)| <= |init|;
      if FeedAll(init).Ok? {
        TakenIsFed(read, b, init);
        if EndsFailing(init) { FailedTakesNoMore(read, b, init, c); }
      }
    }
  }

  lemma {:induction false} BreaksAreProtocolErrors(cs: seq<Chunk>)
    requires FeedAll(cs).Err?
    ensures FeedAll(cs).error.code == "STREAM_PROTOCOL"
  {
    if FeedAll(cs[..|cs| - 1]).Err? { BreaksAreProtocolErrors(cs[..|cs| - 1]); }
  }

  /** For every stream, and whatever ids are drawn: the attempt ends as its stream says. */
  lemma {:induction false} EndsAsStreamed(read: Reader, nextId: nat, input: AttemptInput)
    ensures RunAttempt(read, nextId, input).end == Outcome(read, input)
  {
    hide Consume, Spoken, CallBlocksOf, AllObjects, ReadPart, FeedAll, CallsAsked, TextStreamed, ThoughtStreamed, CallsKept, ReportedFailure;
    var cs := input.chunks;
    var (a, error) := Consume(read, NewAttempt(nextId), cs);
    ErrorIsFirst(read, nextId, cs);
    ReadsPart(read, nextId, cs);
    if error == None {
      TakenIsAll(read, a, cs);
      IndicesPartitioned(cs);
      if Verdict(a.asm) == None { KeptAsked(read, a, cs); }
    }
  }

  lemma TakenIsAll(read: Reader, a: Attempt, cs: seq<Chunk>)
    requires HasTaken(read, a, cs)
    ensures FeedAll(cs) == Ok(a.asm) && a.text == TextStreamed(cs) && a.reasoning == ThoughtStreamed(cs)
  {
  }

  // ---------------------------------------------------------------------------
  // Which attempts follow which
  // ---------------------------------------------------------------------------

  /** The hook asked for another attempt, or was silent about an error that is worth one. */
  predicate WantsRetry(input: AttemptInput, error: LLMError)
  {
    || input.advice == RetryAdvice
    || (input.advice == NoAdvice && error.code !in {"auth_error", "bad_request", "content_filter"})
  }

  /** Attempt `k` failed, is not the last one allowed, was not cancelled in the hook, and is to be made again. */
  predicate AnnouncesRetry(read: Reader, maxRetries: nat, inputs: nat -> AttemptInput, k: nat)
  {
    && Outcome(read, inputs(k)).FailedWith? && k < maxRetries && inputs(k).waiting != CancelledInHook
    && WantsRetry(inputs(k), Outcome(read, inputs(k)).error)
  }

  /** And nothing was cancelled while the next attempt was waited for. */
  predicate Retries(read: Reader, maxRetries: nat, inputs: nat -> AttemptInput, k: nat)
  {
    AnnouncesRetry(read, maxRetries, inputs, k) && inputs(k).waiting == Undisturbed
  }

  /** Attempt `k` was cancelled: its stream, its hook, or the wait after it. */
  predicate Cancelled(read: Reader, maxRetries: nat, inputs: nat -> AttemptInput, k: nat)
  {
    || Outcome(read, inputs(k)).WasCancelled?
    || (Outcome(read, inputs(k)).FailedWith? && inputs(k).waiting == CancelledInHook)
    || (AnnouncesRetry(read, maxRetries, inputs, k) && inputs(k).waiting == CancelledInSleep)
  }

  /** What has been sent and written before attempt `k`, and the next id. */
  datatype Stage = Stage(sent: seq<Event>, written: seq<Block>, nextId: nat)

  function Before(read: Reader, hint: Option<string>, nextId: nat, inputs: nat -> AttemptInput, k: nat): Stage
  {
    if k == 0 then
      if hint.Some? then Stage([HintGiven(nextId, hint.value)], [HintBlock(nextId, hint.value)], nextId + 1) else Stage([], [], nextId)
    else
      var s := Before(read, hint, nextId, inputs, k - 1);
      var d := RunAttempt(read, s.nextId, inputs(k - 1));
      var code := if Outcome(read, inputs(k - 1)).FailedWith? then Outcome(read, inputs(k - 1)).error.code else "";
      Stage(s.sent + d.events + [Retrying(code, k)], s.written + d.blocks, d.nextId)
  }

  /** The action is its attempts up to `last`, in order, and ends as the last one does. */
  ghost predicate IsUpTo(read: Reader, hint: Option<string>, maxRetries: nat, nextId: nat, inputs: nat -> AttemptInput, d: ReasonDone, last: nat)
  {
    var s, end := Before(read, hint, nextId, inputs, last), Outcome(read, inputs(last));
    var attempt := RunAttempt(read, s.nextId, inputs(last));
    && last <= maxRetries
    && (forall j :: 0 <= j < last ==> Retries(read, maxRetries, inputs, j)) && !Retries(read, maxRetries, inputs, last)
    && |d.snapshots| == last + 1
    && (forall j :: 0 <= j <= last ==> d.snapshots[j] == Before(read, hint, nextId, inputs, j).written)
    && d.blocks == s.written + attempt.blocks
    && d.events == s.sent + attempt.events
                   + (if AnnouncesRetry(read, maxRetries, inputs, last) then [Retrying(end.error.code, last + 1)] else [])
    && (if Cancelled(read, maxRetries, inputs, last) then d.end == TurnCancelled
        else d.end == TurnDone(if end.Succeeded? then end.result else TurnResult("", "", [], Some(end.error))))
  }

  ghost predicate Reached(read: Reader, hint: Option<string>, nextId: nat, inputs: nat -> AttemptInput, so: ReasonDone, k: nat)
  {
    var s := Before(read, hint, nextId, inputs, k);
    && so.events == s.sent && so.blocks == s.written && so.nextId == s.nextId && |so.snapshots| == k
    && forall j :: 0 <= j < k ==> so.snapshots[j] == Before(read, hint, nextId, inputs, j).written
  }

  lemma {:induction false} AttemptsFrom(read: Reader, hint: Option<string>, maxRetries: nat, nextId: nat, inputs: nat -> AttemptInput,
                                        so: ReasonDone, k: nat) returns (last: nat)
    requires k <= maxRetries && Reached(read, hint, nextId, inputs, so, k)
    requires forall j :: 0 <= j < k ==> Retries(read, maxRetries, inputs, j)
    ensures IsUpTo(read, hint, maxRetries, nextId, inputs, RunAttempts(read, k, 1 + maxRetries, so, inputs), last)
    decreases maxRetries - k
  {
    hide RunAttempt, Outcome;
    var input := inputs(k);
    var d := RunAttempt(read, so.nextId, input);
    EndsAsStreamed(read, so.nextId, input);
    var now := ReasonDone(so.events + d.events, so.blocks + d.blocks, d.nextId, TurnCancelled, so.snapshots + [so.blocks]);
    assert now.events + [] == now.events;
    if Retries(read, maxRetries, inputs, k) {
      var next := now.(events := now.events + [Retrying(d.end.error.code, k + 1)]);
      last := AttemptsFrom(read, hint, maxRetries, nextId, inputs, next, k + 1);
    } else {
      last := k;
    }
  }

  /**
   * A reasoning action is exactly its attempts: attempt `k + 1` is made, and its retry announced before
   * it, if and only if attempt `k` failed, is not the last one allowed, nothing was cancelled, and the
   * hook asked for it or was silent about an error that is none of the three final ones. The hint comes
   * first; every request shows what was written before it; the result is that of the last attempt made.
   */
  lemma {:induction false} ReasonIsItsAttempts(read: Reader, hint: Option<string>, maxRetries: nat, nextId: nat, inputs: nat -> AttemptInput)
      returns (last: nat)
    ensures IsUpTo(read, hint, maxRetries, nextId, inputs, Reason(read, hint, maxRetries, nextId, inputs), last)
  {
    hide RunAttempts;
    var start :=
      if hint.Some? then ReasonDone([HintGiven(nextId, hint.value)], [HintBlock(nextId, hint.value)], nextId + 1, TurnCancelled, [])
      else ReasonDone([], [], nextId, TurnCancelled, []);
    last := AttemptsFrom(read, hint, maxRetries, nextId, inputs, start, 0);
  }

  /** Attempt `k` is made if and only if every attempt before it was to be made again. */
  lemma {:induction false} AttemptIsMadeIff(read: Reader, hint: Option<string>, maxRetries: nat, nextId: nat, inputs: nat -> AttemptInput, k: nat)
    ensures k < |Reason(read, hint, maxRetries, nextId, inputs).snapshots| <==>
      forall j :: 0 <= j < k ==> Retries(read, maxRetries, inputs, j)
  {
    hide Reason, Before, RunAttempt, Retries, AnnouncesRetry, Cancelled;
    var last := ReasonIsItsAttempts(read, hint, maxRetries, nextId, inputs);
  }

  /** The action is cancelled if and only if an attempt that is made is. */
  ghost predicate CancelledAtSome(read: Reader, maxRetries: nat, inputs: nat -> AttemptInput)
  {
    exists k :: CancelledAt(read, maxRetries, inputs, k)
  }

  ghost predicate CancelledAt(read: Reader, maxRetries: nat, inputs: nat -> AttemptInput, k: nat)
  {
    (forall j :: 0 <= j < k ==> Retries(read, maxRetries, inputs, j)) && Cancelled(read, maxRetries, inputs, k)
  }

  lemma {:induction false} CancelledIff(read: Reader, hint: Option<string>, maxRetries: nat, nextId: nat, inputs: nat -> AttemptInput)
    ensures Reason(read, hint, maxRetries, nextId, inputs).end.TurnCancelled? <==> CancelledAtSome(read, maxRetries, inputs)
  {
    hide Reason, Before, RunAttempt, Outcome;
    var last := ReasonIsItsAttempts(read, hint, maxRetries, nextId, inputs);
    if Cancelled(read, maxRetries, inputs, last) {
      assert CancelledAt(read, maxRetries, inputs, last);
    }
    if k: nat :| CancelledAt(read, maxRetries, inputs, k) {
      assert !Retries(read, maxRetries, inputs, k);
      assert k == last;
    }
  }

  lemma TakenGrows(read: Reader, a: Attempt, c: Chunk)
    ensures a.events <= OnTaken(read, a, c).events
  {
    hide ParsedInput;
  }

  lemma {:induction false} EventsGrow(read: Reader, a: Attempt, cs: seq<Chunk>)
    ensures a.events <= Consume(read, a, cs).0.events
  {
    hide Feed, OnTaken;
    if cs != [] {
      var c := cs[|cs| - 1];
      EventsGrow(read, a, cs[..|cs| - 1]);
      var (b, error) := Consume(read, a, cs[..|cs| - 1]);
      if error == None && Feed(b.asm, c).Ok? { TakenGrows(read, b.(asm := Feed(b.asm, c).value), c); }
    }
  }

  /** Every attempt announces its request first. */
  lemma {:induction false} AttemptBegins(read: Reader, nextId: nat, input: AttemptInput)
    ensures var es := RunAttempt(read, nextId, input).events; es != [] && es[0] == ModelCallStarted
  {
    hide Consume, Spoken, CallBlocksOf, AllObjects, Verdict, CallsKept;
    EventsGrow(read, NewAttempt(nextId), input.chunks);
  }

  lemma {:induction false} BeforeBegins(read: Reader, hint: Option<string>, nextId: nat, inputs: nat -> AttemptInput, k: nat)
    ensures var s := Before(read, hint, nextId, inputs, k);
      && (hint.Some? ==> s.sent != [] && s.sent[0] == HintGiven(nextId, hint.value)
                         && s.written != [] && s.written[0] == HintBlock(nextId, hint.value))
      && (hint == None && k > 0 ==> s.sent != [] && s.sent[0] == ModelCallStarted)
      && (hint == None && k == 0 ==> s.sent == [])
  {
    hide RunAttempt, Outcome;
    if k > 0 {
      BeforeBegins(read, hint, nextId, inputs, k - 1);
      AttemptBegins(read, Before(read, hint, nextId, inputs, k - 1).nextId, inputs(k - 1));
    }
  }

  /** A hint is the first thing sent and written, and stands in every request; without one the request is announced at once. */
  lemma {:induction false} HintComesFirst(read: Reader, hint: Option<string>, maxRetries: nat, nextId: nat, inputs: nat -> AttemptInput)
    ensures var d := Reason(read, hint, maxRetries, nextId, inputs);
      && d.events != [] && d.events[0] == (if hint.Some? then HintGiven(nextId, hint.value) else ModelCallStarted)
      && (hint.Some? ==> d.blocks != [] && d.blocks[0] == HintBlock(nextId, hint.value))
      && (hint.Some? ==> forall j :: 0 <= j < |d.snapshots| ==> d.snapshots[j] != [] && d.snapshots[j][0] == HintBlock(nextId, hint.value))
      && d.snapshots != [] && d.snapshots[0] == (if hint.Some? then [HintBlock(nextId, hint.value)] else [])
  {
    hide Reason, RunAttempt, Outcome, AnnouncesRetry, Retries, Cancelled;
    var last := ReasonIsItsAttempts(read, hint, maxRetries, nextId, inputs);
    var d := Reason(read, hint, maxRetries, nextId, inputs);
    BeforeBegins(read, hint, nextId, inputs, last);
    AttemptBegins(read, Before(read, hint, nextId, inputs, last).nextId, inputs(last));
    forall j | 0 <= j < |d.snapshots|
      ensures hint.Some? ==> d.snapshots[j] != [] && d.snapshots[j][0] == HintBlock(nextId, hint.value)
    {
      BeforeBegins(read, hint, nextId, inputs, j);
    }
  }
}
