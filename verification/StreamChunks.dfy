/** The chunk vocabulary that provider adapters emit and the runner consumes. */
module StreamChunks {
  import opened Prelude

  /** Token counts of one model call; a gateway may leave any of them out. */
  datatype Usage = Usage(prompt: Option<int>, completion: Option<int>, total: Option<int>)

  datatype FinishKind = Stop | ToolCalls | MaxTokens | Error | Aborted

  datatype FinishReason = FinishReason(kind: FinishKind, raw: string, failure: Option<LLMError>)

  /** Block types in the chunk vocabulary; only the first three are legal. */
  datatype BlockType = Text | Reasoning | ToolCall | Other(name: string)
  {
    predicate Legal() { !Other? }
  }

  /** Block types in the message vocabulary; `Untyped` is a missing block or a block without a type. */
  datatype WireType = Untyped | TextWire | ThinkingWire | ToolCallWire | OtherWire(name: string)

  /** The block a block-end chunk carries; `text` is the text or the thinking of a content block. */
  datatype WireBlock = WireBlock(wireType: WireType, text: string, id: string, name: string, arguments: string)

  datatype Chunk =
    | BlockStart(index: int, blockType: BlockType)
    | TextDelta(index: int, text: string)
    | ReasoningDelta(index: int, text: string)
    | ToolCallDelta(index: int, callId: string, name: string, argumentsDelta: string)
    | BlockEnd(index: int, block: WireBlock)
    | UsageChunk(usage: Usage)
    | Finish(reason: FinishReason)
    | Unknown

  /** Chunk vocabulary to message vocabulary: only reasoning is renamed. */
  function ToWire(t: BlockType): WireType
  {
    match t
    case Text => TextWire
    case Reasoning => ThinkingWire
    case ToolCall => ToolCallWire
    case Other(name) => OtherWire(name)
  }

  function TextBlockWire(text: string): WireBlock { WireBlock(TextWire, text, "", "", "") }

  function ThinkingBlockWire(text: string): WireBlock { WireBlock(ThinkingWire, text, "", "", "") }

  function ToolBlockWire(id: string, name: string, arguments: string): WireBlock
  {
    WireBlock(ToolCallWire, "", id, name, arguments)
  }
}
