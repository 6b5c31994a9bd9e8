/**
 * Flattening: one stored message, which may aggregate several turns of calls and results,
 * becomes a sequence of provider messages.
 */
module Flatten {
  import opened Prelude
  import opened Messages

  /** Messages already produced, and the blocks waiting to be combined into the next one. */
  datatype Partial = Partial(out: seq<Message>, waiting: seq<Block>)

  function Flush(p: Partial, role: Role): seq<Message>
  {
    if p.waiting == [] then p.out else p.out + [ToMessage(p.waiting, role)]
  }

  function AddBlock(p: Partial, b: Block, role: Role): Partial
  {
    match b
    case HintBlock(_, hint) => Partial(Flush(p, role) + [HintMessage(hint)], [])
    case ToolResultBlock(id, _, output, _) => Partial(Flush(p, role) + [ToolMessage(id, OutputText(output))], [])
    case _ => Partial(p.out, p.waiting + [b])
  }

  function AddBlocks(bs: seq<Block>, role: Role): Partial
  {
    if bs == [] then Partial([], []) else AddBlock(AddBlocks(bs[..|bs| - 1], role), bs[|bs| - 1], role)
  }

  /** The provider messages of one stored message; an empty message still yields one. */
  function Flat(bs: seq<Block>, role: Role): seq<Message>
  {
    var ms := Flush(AddBlocks(bs, role), role);
    if ms == [] then [ToMessage([], role)] else ms
  }

  function FlatAll(context: seq<Msg>): seq<Message>
  {
    if context == [] then [] else Flat(context[0].content, context[0].role) + FlatAll(context[1..])
  }

  /** `_msg_to_dicts` as it runs. */
  method MsgToDicts(msg: Msg) returns (messages: seq<Message>)
    ensures messages == Flat(msg.content, msg.role)
  {
    messages := [];
    var assistantBlocks: seq<Block> := [];
    var bs := msg.content;
    for i := 0 to |bs|
      invariant Partial(messages, assistantBlocks) == AddBlocks(bs[..i], msg.role)
    {
      assert bs[..i + 1][..i] == bs[..i];
      match bs[i]
      case HintBlock(_, hint) =>
        messages, assistantBlocks := FlushAssistant(messages, assistantBlocks, msg.role);
        messages := messages + [HintMessage(hint)];
      case ToolResultBlock(id, _, output, _) =>
        messages, assistantBlocks := FlushAssistant(messages, assistantBlocks, msg.role);
        messages := messages + [ToolMessage(id, OutputText(output))];
      case _ =>
        assistantBlocks := assistantBlocks + [bs[i]];
    }
    assert bs[..|bs|] == bs;
    messages, assistantBlocks := FlushAssistant(messages, assistantBlocks, msg.role);
    if messages == [] {
      var empty := ToOpenAIMessage([], msg.role);
      messages := [empty];
    }
  }

  method FlushAssistant(messages: seq<Message>, blocks: seq<Block>, role: Role) returns (ms: seq<Message>, left: seq<Block>)
    ensures ms == Flush(Partial(messages, blocks), role) && left == []
  {
    ms, left := messages, [];
    if blocks != [] {
      var m := ToOpenAIMessage(blocks, role);
      ms := messages + [m];
    }
  }
}
