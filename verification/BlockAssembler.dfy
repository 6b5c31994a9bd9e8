/**
 * The consumer side of the stream protocol: a recogniser that rejects malformed chunk
 * sequences and assembles the blocks of well-formed ones.
 */
module BlockAssembly {
  import opened Prelude
  import opened StreamChunks

  datatype OpenBlock = OpenBlock(blockType: BlockType, text: string, callId: string, name: string, arguments: string)

  datatype AssembledBlock =
    | TextPart(text: string)
    | ThinkingPart(thinking: string)
    | ToolCallPart(id: string, name: string, arguments: string)

  /** The value of a `BlockAssembler`. */
  datatype Progress = Progress(
    open: map<int, OpenBlock>,
    next: int,
    blocks: map<int, AssembledBlock>,
    usage: Option<Usage>,
    finish: Option<FinishReason>,
    pending: set<int>)
  {
    predicate Finished() { finish.Some? }
  }

  const EMPTY: Progress := Progress(map[], 0, map[], None, None, {})

  function ProtocolError(message: string): LLMError { LLMError(message, "STREAM_PROTOCOL") }

  function Fresh(blockType: BlockType): OpenBlock { OpenBlock(blockType, "", "", "", "") }

  function AddText(b: OpenBlock, text: string): OpenBlock { b.(text := b.text + text) }

  function AddTool(b: OpenBlock, callId: string, name: string, arguments: string): OpenBlock
  {
    b.(callId := if callId != "" then callId else b.callId,
       name := if name != "" then name else b.name,
       arguments := b.arguments + arguments)
  }

  function Finalize(b: OpenBlock): AssembledBlock
  {
    if b.blockType == Text then TextPart(b.text)
    else if b.blockType == Reasoning then ThinkingPart(b.text)
    else ToolCallPart(b.callId, b.name, b.arguments)
  }

  function FeedDelta(p: Progress, index: int, expected: BlockType, text: string): Result<Progress, LLMError>
  {
    if index !in p.open then Err(ProtocolError("unopened or closed block"))
    else if p.open[index].blockType != expected then Err(ProtocolError("delta type mismatch"))
    else Ok(p.(open := p.open[index := AddText(p.open[index], text)]))
  }

  /** What one `feed` call does to the assembler's value. */
  function Feed(p: Progress, c: Chunk): Result<Progress, LLMError>
  {
    if p.Finished() then Err(ProtocolError("chunk after finish")) else
    match c
    case BlockStart(index, blockType) =>
      if index != p.next then Err(ProtocolError("unexpected start index"))
      else if !blockType.Legal() then Err(ProtocolError("unknown block type"))
      else Ok(p.(open := p.open[index := Fresh(blockType)], pending := p.pending + {index}, next := p.next + 1))
    case TextDelta(index, text) => FeedDelta(p, index, Text, text)
    case ReasoningDelta(index, text) => FeedDelta(p, index, Reasoning, text)
    case ToolCallDelta(index, callId, name, arguments) =>
      if index !in p.open then Err(ProtocolError("unopened or closed block"))
      else if p.open[index].blockType != ToolCall then Err(ProtocolError("delta type mismatch"))
      else Ok(p.(open := p.open[index := AddTool(p.open[index], callId, name, arguments)]))
    case BlockEnd(index, wire) =>
      if index !in p.open then Err(ProtocolError("unopened or closed block"))
      else if wire.wireType != Untyped && ToWire(p.open[index].blockType) != wire.wireType then
        Err(ProtocolError("end type mismatch"))
      else Ok(p.(open := p.open - {index}, pending := p.pending - {index},
                 blocks := p.blocks[index := Finalize(p.open[index])]))
    case UsageChunk(usage) => Ok(p.(usage := Some(usage)))
    case Finish(reason) => Ok(p.(finish := Some(reason)))
    case Unknown => Err(ProtocolError("unknown chunk type"))
  }

  /** The end-of-stream check: `None` when the stream is complete. */
  function Verdict(p: Progress): Option<LLMError>
  {
    if p.pending != {} then Some(ProtocolError("unclosed blocks"))
    else if !p.Finished() then Some(LLMError("stream ended without finish chunk", "STREAM_CLOSED"))
    else None
  }

  function FeedAll(cs: seq<Chunk>): Result<Progress, LLMError>
  {
    if cs == [] then Ok(EMPTY) else
    match FeedAll(cs[..|cs| - 1])
    case Err(e) => Err(e)
    case Ok(p) => Feed(p, cs[|cs| - 1])
  }

  /** Every chunk is taken and the final check passes. */
  predicate Accepts(cs: seq<Chunk>)
  {
    FeedAll(cs).Ok? && Verdict(FeedAll(cs).value) == None
  }

  function BlocksFrom(p: Progress, from: int): seq<AssembledBlock>
    decreases p.next - from
  {
    if from >= p.next then []
    else (if from in p.blocks then [p.blocks[from]] else []) + BlocksFrom(p, from + 1)
  }

  function DropToolCalls(bs: seq<AssembledBlock>): seq<AssembledBlock>
  {
    if bs == [] then []
    else (if bs[0].ToolCallPart? then [] else [bs[0]]) + DropToolCalls(bs[1..])
  }

  /** Finished blocks in index order; a max-tokens finish drops the tool calls. */
  function Blocks(p: Progress): seq<AssembledBlock>
  {
    var all := BlocksFrom(p, 0);
    if p.finish.Some? && p.finish.value.kind == MaxTokens then DropToolCalls(all) else all
  }

  // ---------------------------------------------------------------------------
  // The assembler as the runner holds it
  // ---------------------------------------------------------------------------

  class BlockAssembler {
    var open: map<int, OpenBlock>
    var nextIndex: int
    var blocks: map<int, AssembledBlock>
    var usage: Option<Usage>
    var finish: Option<FinishReason>
    var finished: bool
    var pending: set<int>

    function Value(): Progress
      reads this
    {
      Progress(open, nextIndex, blocks, usage, finish, pending)
    }

    predicate Valid()
      reads this
    {
      && finished == finish.Some?
      && 0 <= nextIndex
      && (forall i :: i in blocks ==> 0 <= i < nextIndex)
      && (forall i :: i in open ==> 0 <= i < nextIndex)
    }

    constructor ()
      ensures Valid() && Value() == EMPTY
    {
      open, nextIndex, blocks, usage, finish, finished, pending := map[], 0, map[], None, None, false, {};
    }

    /** Takes one chunk; on a protocol violation reports it and changes nothing. */
    method FeedChunk(c: Chunk) returns (error: Option<LLMError>)
      requires Valid()
      modifies this
      ensures Valid()
      ensures match Feed(old(Value()), c)
              case Ok(p) => error == None && Value() == p
              case Err(e) => error == Some(e) && Value() == old(Value())
    {
      if finished {
        return Some(ProtocolError("chunk after finish"));
      }
      match c
      case BlockStart(index, blockType) =>
        if index != nextIndex { return Some(ProtocolError("unexpected start index")); }
        if !blockType.Legal() { return Some(ProtocolError("unknown block type")); }
        open := open[index := Fresh(blockType)];
        pending := pending + {index};
        nextIndex := nextIndex + 1;
        error := None;
      case TextDelta(index, text) =>
        error := AppendDelta(index, Text, text);
      case ReasoningDelta(index, text) =>
        error := AppendDelta(index, Reasoning, text);
      case ToolCallDelta(index, callId, name, arguments) =>
        if index !in open { return Some(ProtocolError("unopened or closed block")); }
        if open[index].blockType != ToolCall { return Some(ProtocolError("delta type mismatch")); }
        open := open[index := AddTool(open[index], callId, name, arguments)];
        error := None;
      case BlockEnd(index, wire) =>
        if index !in open { return Some(ProtocolError("unopened or closed block")); }
        if wire.wireType != Untyped && ToWire(open[index].blockType) != wire.wireType {
          return Some(ProtocolError("end type mismatch"));
        }
        var block := open[index];
        open := open - {index};
        pending := pending - {index};
        blocks := blocks[index := Finalize(block)];
        error := None;
      case UsageChunk(u) =>
        usage := Some(u);
        error := None;
      case Finish(reason) =>
        finish := Some(reason);
        finished := true;
        error := None;
      case Unknown =>
        error := Some(ProtocolError("unknown chunk type"));
    }

    method AppendDelta(index: int, expected: BlockType, text: string) returns (error: Option<LLMError>)
      modifies this`open
      ensures match FeedDelta(old(Value()), index, expected, text)
              case Ok(p) => error == None && Value() == p
              case Err(e) => error == Some(e) && Value() == old(Value())
      ensures open.Keys == old(open.Keys)
    {
      if index !in open { return Some(ProtocolError("unopened or closed block")); }
      if open[index].blockType != expected { return Some(ProtocolError("delta type mismatch")); }
      open := open[index := AddText(open[index], text)];
      error := None;
    }

    method Validate() returns (error: Option<LLMError>)
      requires Valid()
      ensures error == Verdict(Value())
    {
      if pending != {} { return Some(ProtocolError("unclosed blocks")); }
      if !finished { return Some(LLMError("stream ended without finish chunk", "STREAM_CLOSED")); }
      error := None;
    }

    /** The finished blocks, sorted by index whatever order they were closed in. */
    method CollectBlocks() returns (result: seq<AssembledBlock>)
      requires Valid()
      ensures result == Blocks(Value())
    {
      result := [];
      var i := nextIndex;
      while i > 0
        invariant 0 <= i <= nextIndex
        invariant result == BlocksFrom(Value(), i)
      {
        i := i - 1;
        if i in blocks { result := [blocks[i]] + result; }
      }
      if finish.Some? && finish.value.kind == MaxTokens {
        var kept := [];
        var j := |result|;
        while j > 0
          invariant 0 <= j <= |result|
          invariant kept == DropToolCalls(result[j..])
        {
          j := j - 1;
          assert result[j..][1..] == result[j + 1..];
          if !result[j].ToolCallPart? { kept := [result[j]] + kept; }
        }
        assert result[0..] == result;
        result := kept;
      }
    }
  }
}
