/**
 * The Responses adapter: a second producer of chunk sequences. Output items are addressed by id; each
 * gets a block when it first says something, and calls are closed when their item is done.
 */
module ResponsesAdapter {
  import opened Prelude
  import opened StreamChunks
  import opened BlockAssembly

  datatype ItemKind = TextItem | ReasoningItem | ToolItem

  /** What the adapter keeps for an output item; an index is drawn when its block starts. */
  datatype Item = Item(kind: ItemKind, index: Option<int>, ended: bool, text: string, callId: string, name: string)

  /** The provider's events, as far as the adapter reads them. */
  datatype ResponseEvent =
    | TextDeltaEvent(item: string, delta: string)
    | ReasoningDeltaEvent(item: string, delta: string)
    | ArgumentsDeltaEvent(item: string, delta: string)
    | ItemAddedEvent(item: string, isFunction: bool, callId: string, name: string)
    | ItemDoneEvent(item: string, isFunction: bool, callId: string, name: string, arguments: string)
    | CompletedEvent(usage: Option<Usage>, completed: bool, incomplete: bool)
    | OtherEvent

  /** How the provider stream stops: it ends or is cancelled between two events, or it raises. */
  datatype Ending = Ended | Failed(error: LLMError)

  /** The adapter in the middle of a turn; `raised` once a lookup of a text that a call does not have has failed. */
  datatype Stage = Stage(
    items: map<string, Item>,
    order: seq<string>,
    next: int,
    usage: Option<Usage>,
    finishKind: Option<FinishKind>,
    raised: bool,
    out: seq<Chunk>)

  const START: Stage := Stage(map[], [], 0, None, None, false, [])

  const MISSING_TEXT := LLMError("missing item text", "unknown")

  function NewItem(kind: ItemKind): Item { Item(kind, None, false, "", "", "") }

  function TypeOf(kind: ItemKind): BlockType
  {
    match kind case TextItem => Text case ReasoningItem => Reasoning case ToolItem => ToolCall
  }

  /** `setdefault`: the item, made on first sight. */
  function Known(s: Stage, id: string, kind: ItemKind): Stage
  {
    if id in s.items then s else s.(items := s.items[id := NewItem(kind)], order := s.order + [id])
  }

  /** The item's block is started if it was not. */
  function Begun(s: Stage, id: string, kind: ItemKind): Stage
    requires id in s.items
  {
    if s.items[id].index.Some? then s
    else s.(items := s.items[id := s.items[id].(index := Some(s.next))], next := s.next + 1,
            out := s.out + [BlockStart(s.next, TypeOf(kind))])
  }

  /** Text or reasoning for an item. A call item has no text to add to. */
  function OnDelta(s: Stage, id: string, kind: ItemKind, delta: string): Stage
    requires kind != ToolItem
  {
    if delta == "" then s else
    var b := Begun(Known(s, id, kind), id, kind);
    var item := b.items[id];
    if item.kind == ToolItem then b.(raised := true)
    else
      var i := item.index.value;
      b.(items := b.items[id := item.(text := item.text + delta)],
         out := b.out + [if kind == TextItem then TextDelta(i, delta) else ReasoningDelta(i, delta)])
  }

  function OnArguments(s: Stage, id: string, delta: string): Stage
  {
    if delta == "" then s else
    var b := Begun(Known(s, id, ToolItem), id, ToolItem);
    b.(out := b.out + [ToolCallDelta(b.items[id].index.value, b.items[id].callId, b.items[id].name, delta)])
  }

  function OnAdded(s: Stage, id: string, callId: string, name: string): Stage
  {
    var b := Known(s, id, ToolItem);
    b.(items := b.items[id := b.items[id].(callId := callId, name := name)])
  }

  function OnDone(s: Stage, id: string, callId: string, name: string, arguments: string): Stage
  {
    var b := Begun(Known(s, id, ToolItem), id, ToolItem);
    var item := b.items[id];
    b.(items := b.items[id := item.(ended := true)],
       out := b.out + [BlockEnd(item.index.value, ToolBlockWire(callId, name, arguments))],
       finishKind := if (item.callId != "" || callId != "") && b.finishKind == None then Some(ToolCalls) else b.finishKind)
  }

  function OnCompleted(s: Stage, usage: Option<Usage>, completed: bool, incomplete: bool): Stage
  {
    s.(usage := usage,
       finishKind := if incomplete then Some(MaxTokens)
                     else if s.finishKind == Some(ToolCalls) then s.finishKind
                     else if completed then Some(Stop) else s.finishKind)
  }

  /** One event; after a failed lookup nothing more is read. */
  function OnEvent(s: Stage, e: ResponseEvent): Stage
  {
    if s.raised then s else
    match e
    case TextDeltaEvent(id, delta) => OnDelta(s, id, TextItem, delta)
    case ReasoningDeltaEvent(id, delta) => OnDelta(s, id, ReasoningItem, delta)
    case ArgumentsDeltaEvent(id, delta) => OnArguments(s, id, delta)
    case ItemAddedEvent(id, isFunction, callId, name) => if isFunction then OnAdded(s, id, callId, name) else s
    case ItemDoneEvent(id, isFunction, callId, name, arguments) => if isFunction then OnDone(s, id, callId, name, arguments) else s
    case CompletedEvent(usage, completed, incomplete) => OnCompleted(s, usage, completed, incomplete)
    case OtherEvent => s
  }

  function Consumed(es: seq<ResponseEvent>): Stage
  {
    if es == [] then START else OnEvent(Consumed(es[..|es| - 1]), es[|es| - 1])
  }

  /** The tail closes the text and reasoning items that are open, in the order they were first seen. */
  function TailEnd(item: Item): seq<Chunk>
  {
    if item.kind == ToolItem || item.index.None? || item.ended then []
    else [BlockEnd(item.index.value, if item.kind == TextItem then TextBlockWire(item.text) else ThinkingBlockWire(item.text))]
  }

  function TailEnds(items: map<string, Item>, order: seq<string>): seq<Chunk>
  {
    if order == [] then []
    else
      var id := order[|order| - 1];
      TailEnds(items, order[..|order| - 1]) + (if id in items then TailEnd(items[id]) else [])
  }

  function RawOf(kind: FinishKind): string
  {
    match kind case Stop => "stop" case ToolCalls => "tool-calls" case MaxTokens => "max-tokens" case _ => "unknown"
  }

  function ClosingFinish(s: Stage): Chunk
  {
    if s.finishKind.Some? then Finish(FinishReason(s.finishKind.value, RawOf(s.finishKind.value), None))
    else Finish(FinishReason(Error, "unknown", Some(LLMError("responses stream ended with status 'unknown'", "UNKNOWN_FINISH"))))
  }

  function ErrorFinish(error: LLMError): Chunk { Finish(FinishReason(Error, "", Some(error))) }

  /** Everything one `stream` call yields; a cancelled stream is closed like a completed one. */
  function StreamOutput(es: seq<ResponseEvent>, ending: Ending): seq<Chunk>
  {
    var s := Consumed(es);
    if s.raised then s.out + [ErrorFinish(MISSING_TEXT)]
    else if ending.Failed? then s.out + [ErrorFinish(ending.error)]
    else s.out + TailEnds(s.items, s.order) + (if s.usage.Some? then [UsageChunk(s.usage.value)] else []) + [ClosingFinish(s)]
  }

  // ---------------------------------------------------------------------------
  // The adapter as it runs
  // ---------------------------------------------------------------------------

  /** One provider turn; the fields are the local variables of the generator. */
  class ResponsesTurn {
    var items: map<string, Item>
    var order: seq<string>
    var next: int
    var usage: Option<Usage>
    var finishKind: Option<FinishKind>
    var raised: bool
    var out: seq<Chunk>

    function Value(): Stage
      reads this
    {
      Stage(items, order, next, usage, finishKind, raised, out)
    }

    constructor ()
      ensures Value() == START
    {
      items, order, next, usage, finishKind, raised, out := map[], [], 0, None, None, false, [];
    }

    method Begin(id: string, kind: ItemKind)
      modifies this
      ensures id in items && items[id].index.Some?
      ensures Value() == Begun(Known(old(Value()), id, kind), id, kind)
    {
      if id !in items {
        items := items[id := NewItem(kind)];
        order := order + [id];
      }
      if items[id].index == None {
        items := items[id := items[id].(index := Some(next))];
        out := out + [BlockStart(next, TypeOf(kind))];
        next := next + 1;
      }
    }

    method TakeDelta(id: string, kind: ItemKind, delta: string)
      requires kind != ToolItem
      modifies this
      ensures Value() == OnDelta(old(Value()), id, kind, delta)
    {
      if delta == "" { return; }
      Begin(id, kind);
      if items[id].kind == ToolItem {
        raised := true;
        return;
      }
      var i := items[id].index.value;
      items := items[id := items[id].(text := items[id].text + delta)];
      out := out + [if kind == TextItem then TextDelta(i, delta) else ReasoningDelta(i, delta)];
    }

    method TakeEvent(e: ResponseEvent)
      modifies this
      ensures Value() == OnEvent(old(Value()), e)
    {
      if raised { return; }
      match e
      case TextDeltaEvent(id, delta) => TakeDelta(id, TextItem, delta);
      case ReasoningDeltaEvent(id, delta) => TakeDelta(id, ReasoningItem, delta);
      case ArgumentsDeltaEvent(id, delta) =>
        if delta != "" {
          Begin(id, ToolItem);
          out := out + [ToolCallDelta(items[id].index.value, items[id].callId, items[id].name, delta)];
        }
      case ItemAddedEvent(id, isFunction, callId, name) =>
        if isFunction {
          if id !in items {
            items := items[id := NewItem(ToolItem)];
            order := order + [id];
          }
          items := items[id := items[id].(callId := callId, name := name)];
        }
      case ItemDoneEvent(id, isFunction, callId, name, arguments) =>
        if isFunction {
          Begin(id, ToolItem);
          out := out + [BlockEnd(items[id].index.value, ToolBlockWire(callId, name, arguments))];
          items := items[id := items[id].(ended := true)];
          if items[id].callId != "" || callId != "" {
            if finishKind == None { finishKind := Some(ToolCalls); }
          }
        }
      case CompletedEvent(u, completed, incomplete) =>
        usage := u;
        if incomplete {
          finishKind := Some(MaxTokens);
        } else if finishKind != Some(ToolCalls) && completed {
          finishKind := Some(Stop);
        }
      case OtherEvent =>
    }

    method Close()
      modifies this
      ensures out == old(out) + TailEnds(old(items), old(order)) + (if old(usage).Some? then [UsageChunk(old(usage).value)] else [])
                     + [ClosingFinish(old(Value()))]
    {
      for k := 0 to |order|
        invariant Value() == old(Value()).(out := out)
        invariant out == old(out) + TailEnds(items, order[..k])
      {
        assert order[..k + 1][..k] == order[..k];
        if order[k] in items {
          var item := items[order[k]];
          if item.kind != ToolItem && item.index.Some? && !item.ended {
            out := out + [BlockEnd(item.index.value, if item.kind == TextItem then TextBlockWire(item.text) else ThinkingBlockWire(item.text))];
          }
        }
      }
      assert order[..|order|] == order;
      if usage.Some? { out := out + [UsageChunk(usage.value)]; }
      if finishKind.Some? {
        out := out + [Finish(FinishReason(finishKind.value, RawOf(finishKind.value), None))];
      } else {
        out := out + [Finish(FinishReason(Error, "unknown", Some(LLMError("responses stream ended with status 'unknown'", "UNKNOWN_FINISH"))))];
      }
    }
  }

  method Stream(es: seq<ResponseEvent>, ending: Ending) returns (out: seq<Chunk>)
    ensures out == StreamOutput(es, ending)
  {
    var turn := new ResponsesTurn();
    for i := 0 to |es|
      invariant turn.Value() == Consumed(es[..i])
    {
      assert es[..i + 1][..i] == es[..i];
      turn.TakeEvent(es[i]);
    }
    assert es[..|es|] == es;
    if turn.raised { return turn.out + [ErrorFinish(MISSING_TEXT)]; }
    if ending.Failed? { return turn.out + [ErrorFinish(ending.error)]; }
    turn.Close();
    out := turn.out;
  }
}
