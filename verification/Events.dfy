/**
 * The event stream a run emits, and the fold by which a host rebuilds a message from it.
 */
module Events {
  import opened Prelude
  import opened Messages

  datatype EndReason = Completed | Interrupted | Failure | ExceedMaxIters

  datatype Event =
    | ReplyStarted
    | ReplyEnded(reason: EndReason)
    | ModelCallStarted
    | ModelCallEnded(prompt: int, completion: int, total: int)
    | TextStarted(blockId: nat)
    | TextGrown(blockId: nat, delta: string)
    | TextEnded(blockId: nat)
    | ThinkingStarted(blockId: nat)
    | ThinkingGrown(blockId: nat, delta: string)
    | ThinkingEnded(blockId: nat)
    | HintGiven(blockId: nat, hint: string)
    | CallStarted(callId: string, name: string)
    | CallGrown(callId: string, delta: string)
    | CallEnded(callId: string, arguments: string)
    | ResultStarted(callId: string, name: string)
    | ResultGrown(callId: string, delta: string)
    | ResultEnded(callId: string, state: ResultState)
    | ConfirmRequired(callId: string, name: string)
    | ConfirmAnswered(callId: string, approved: bool)
    | Retrying(code: string, attempt: nat)

  /** An event with the message it belongs to. */
  datatype Sent = Sent(to: MsgId, event: Event)

  /** The JSON reader: `None` when the text does not parse. */
  type Reader = string -> Option<Json>

  // ---------------------------------------------------------------------------
  // Finding blocks
  // ---------------------------------------------------------------------------

  datatype Key = TextKey(n: nat) | ThinkingKey(n: nat) | DataKey(n: nat) | HintKey(n: nat) | CallKey(s: string) | ResultKey(s: string)

  function KeyOf(b: Block): Key
  {
    match b
    case TextBlock(id, _) => TextKey(id)
    case ThinkingBlock(id, _) => ThinkingKey(id)
    case DataBlock(id, _) => DataKey(id)
    case HintBlock(id, _) => HintKey(id)
    case ToolCallBlock(id, _, _, _) => CallKey(id)
    case ToolResultBlock(id, _, _, _) => ResultKey(id)
  }

  /** The first block of the given type and id, or the length of the list. */
  function Find(bs: seq<Block>, key: Key): (i: nat)
    ensures i <= |bs|
    ensures i < |bs| ==> KeyOf(bs[i]) == key
  {
    if bs == [] then 0
    else
      var i := Find(bs[..|bs| - 1], key);
      if i < |bs| - 1 then i
      else if KeyOf(bs[|bs| - 1]) == key then |bs| - 1 else |bs|
  }

  // ---------------------------------------------------------------------------
  // The fold
  // ---------------------------------------------------------------------------

  /** A message being rebuilt: its blocks, and the argument text of calls that have not ended. */
  datatype Rebuilt = Rebuilt(content: seq<Block>, buffers: map<string, string>)

  function Buffered(r: Rebuilt, id: string): string { if id in r.buffers then r.buffers[id] else "" }

  function ReadArguments(read: Reader, raw: string): Json
  {
    if raw == "" then NO_ARGUMENTS
    else match read(raw)
         case Some(j) => j
         case None => NO_ARGUMENTS
  }

  function GrowOutput(o: Output, delta: string): Output
  {
    var texts := match o case Plain(text) => [text] case Blocks(texts) => texts;
    if texts == [] then Blocks([delta]) else Blocks(texts[..|texts| - 1] + [texts[|texts| - 1] + delta])
  }

  function WithCallState(bs: seq<Block>, id: string, state: CallState): seq<Block>
  {
    var i := Find(bs, CallKey(id));
    if i < |bs| then bs[i := bs[i].(state := state)] else bs
  }

  /** One event applied to a message it belongs to. */
  function Apply(read: Reader, r: Rebuilt, e: Event): Rebuilt
  {
    match e
    case TextStarted(id) => r.(content := r.content + [TextBlock(id, "")])
    case TextGrown(id, delta) =>
      var i := Find(r.content, TextKey(id));
      if i < |r.content| then r.(content := r.content[i := r.content[i].(text := r.content[i].text + delta)]) else r
    case ThinkingStarted(id) => r.(content := r.content + [ThinkingBlock(id, "")])
    case ThinkingGrown(id, delta) =>
      var i := Find(r.content, ThinkingKey(id));
      if i < |r.content| then r.(content := r.content[i := r.content[i].(thinking := r.content[i].thinking + delta)]) else r
    case HintGiven(id, hint) => r.(content := r.content + [HintBlock(id, hint)])
    case CallStarted(id, name) =>
      Rebuilt(r.content + [ToolCallBlock(id, name, NO_ARGUMENTS, Pending)], r.buffers[id := ""])
    case CallGrown(id, delta) => r.(buffers := r.buffers[id := Buffered(r, id) + delta])
    case CallEnded(id, arguments) =>
      var i := Find(r.content, CallKey(id));
      if i == |r.content| then r else
      var raw := if arguments != "" then arguments else Buffered(r, id);
      Rebuilt(r.content[i := r.content[i].(arguments := ReadArguments(read, raw))], r.buffers - {id})
    case ResultStarted(id, name) => r.(content := r.content + [ToolResultBlock(id, name, Blocks([]), Running)])
    case ResultGrown(id, delta) =>
      var i := Find(r.content, ResultKey(id));
      if i < |r.content| then r.(content := r.content[i := r.content[i].(output := GrowOutput(r.content[i].output, delta))]) else r
    case ResultEnded(id, state) =>
      var i := Find(r.content, ResultKey(id));
      if i == |r.content| then r
      else r.(content := WithCallState(r.content[i := r.content[i].(resultState := state)], id, Finished))
    case ConfirmRequired(id, _) => r.(content := WithCallState(r.content, id, Asking))
    case ConfirmAnswered(id, approved) => r.(content := WithCallState(r.content, id, if approved then Allowed else Finished))
    case _ => r
  }

  function ApplyAll(read: Reader, r: Rebuilt, es: seq<Event>): Rebuilt
  {
    if es == [] then r else Apply(read, ApplyAll(read, r, es[..|es| - 1]), es[|es| - 1])
  }

  /** The events sent to one message. */
  function SentTo(sent: seq<Sent>, id: MsgId): seq<Event>
  {
    if sent == [] then []
    else SentTo(sent[..|sent| - 1], id) + (if sent[|sent| - 1].to == id then [sent[|sent| - 1].event] else [])
  }

  // ---------------------------------------------------------------------------
  // The message object the host keeps
  // ---------------------------------------------------------------------------

  class HostMessage {
    const id: MsgId
    const read: Reader
    var content: seq<Block>
    var buffers: map<string, string>

    function Value(): Rebuilt
      reads this
    {
      Rebuilt(content, buffers)
    }

    constructor (id: MsgId, read: Reader)
      ensures this.id == id && this.read == read && Value() == Rebuilt([], map[])
    {
      this.id, this.read := id, read;
      content, buffers := [], map[];
    }

    method FindBlock(key: Key) returns (i: nat)
      ensures i == Find(content, key)
    {
      i := 0;
      while i < |content|
        invariant 0 <= i <= |content|
        invariant Find(content[..i], key) == i
      {
        assert content[..i + 1][..i] == content[..i];
        if KeyOf(content[i]) == key {
          FindIsFirst(content, i, key);
          return;
        }
        i := i + 1;
      }
      assert content[..i] == content;
    }

    /** Applies an event in place; events sent to other messages are skipped. */
    method AppendEvent(sent: Sent)
      modifies this
      ensures Value() == if sent.to == id then Apply(read, old(Value()), sent.event) else old(Value())
    {
      if sent.to != id { return; }
      match sent.event
      case TextStarted(block) => content := content + [TextBlock(block, "")];
      case TextGrown(block, delta) => GrowText(block, delta);
      case ThinkingStarted(block) => content := content + [ThinkingBlock(block, "")];
      case ThinkingGrown(block, delta) => GrowThinking(block, delta);
      case HintGiven(block, hint) => content := content + [HintBlock(block, hint)];
      case CallStarted(call, name) =>
        content := content + [ToolCallBlock(call, name, NO_ARGUMENTS, Pending)];
        buffers := buffers[call := ""];
      case CallGrown(call, delta) =>
        var buffer := if call in buffers then buffers[call] else "";
        buffers := buffers[call := buffer + delta];
      case CallEnded(call, arguments) => EndCall(call, arguments);
      case ResultStarted(call, name) => content := content + [ToolResultBlock(call, name, Blocks([]), Running)];
      case ResultGrown(call, delta) => GrowResult(call, delta);
      case ResultEnded(call, state) => EndResult(call, state);
      case ConfirmRequired(call, _) => SetCallState(call, Asking);
      case ConfirmAnswered(call, approved) => SetCallState(call, if approved then Allowed else Finished);
      case _ =>
    }

    method GrowText(block: nat, delta: string)
      modifies this`content
      ensures Value() == Apply(read, old(Value()), TextGrown(block, delta))
    {
      var i := FindBlock(TextKey(block));
      if i < |content| { content := content[i := content[i].(text := content[i].text + delta)]; }
    }

    method GrowThinking(block: nat, delta: string)
      modifies this`content
      ensures Value() == Apply(read, old(Value()), ThinkingGrown(block, delta))
    {
      var i := FindBlock(ThinkingKey(block));
      if i < |content| { content := content[i := content[i].(thinking := content[i].thinking + delta)]; }
    }

    /** The end event's own arguments win over the buffered deltas; unreadable text gives no arguments. */
    method EndCall(call: string, arguments: string)
      modifies this
      ensures Value() == Apply(read, old(Value()), CallEnded(call, arguments))
    {
      var i := FindBlock(CallKey(call));
      if i < |content| {
        var raw := if arguments != "" then arguments else if call in buffers then buffers[call] else "";
        buffers := buffers - {call};
        content := content[i := content[i].(arguments := ReadArguments(read, raw))];
      }
    }

    method GrowResult(call: string, delta: string)
      modifies this`content
      ensures Value() == Apply(read, old(Value()), ResultGrown(call, delta))
    {
      var i := FindBlock(ResultKey(call));
      if i < |content| { content := content[i := content[i].(output := GrowOutput(content[i].output, delta))]; }
    }

    method EndResult(call: string, state: ResultState)
      modifies this`content
      ensures Value() == Apply(read, old(Value()), ResultEnded(call, state))
    {
      var i := FindBlock(ResultKey(call));
      if i < |content| {
        content := content[i := content[i].(resultState := state)];
        SetCallState(call, Finished);
      }
    }

    method SetCallState(call: string, state: CallState)
      modifies this`content
      ensures content == WithCallState(old(content), call, state)
    {
      var i := FindBlock(CallKey(call));
      if i < |content| { content := content[i := content[i].(state := state)]; }
    }
  }

  lemma {:induction false} FindIsFirst(bs: seq<Block>, i: nat, key: Key)
    requires i < |bs| && Find(bs[..i], key) == i && KeyOf(bs[i]) == key
    ensures Find(bs, key) == i
    decreases |bs|
  {
    if i == |bs| - 1 {
    } else {
      var init := bs[..|bs| - 1];
      assert init[..i] == bs[..i];
      FindIsFirst(init, i, key);
    }
  }

  lemma {:induction false} ApplyAllAppend(read: Reader, r: Rebuilt, a: seq<Event>, b: seq<Event>)
    ensures ApplyAll(read, r, a + b) == ApplyAll(read, ApplyAll(read, r, a), b)
  {
    if b == [] {
      assert a + b == a;
    } else {
      assert (a + b)[..|a + b| - 1] == a + b[..|b| - 1];
      ApplyAllAppend(read, r, a, b[..|b| - 1]);
    }
  }

  lemma {:induction false} SentToAppend(a: seq<Sent>, b: seq<Sent>, id: MsgId)
    ensures SentTo(a + b, id) == SentTo(a, id) + SentTo(b, id)
  {
    if b == [] {
      assert a + b == a;
    } else {
      assert (a + b)[..|a + b| - 1] == a + b[..|b| - 1];
      SentToAppend(a, b[..|b| - 1], id);
    }
  }
}
