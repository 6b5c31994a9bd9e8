/** Content blocks, messages, and their provider form. */
module Messages {
  import opened Prelude

  /** Parsed JSON. The text form is left abstract: printing depends on the value alone. */
  datatype Json =
    | JNull
    | JBool(b: bool)
    | JNum(n: int)
    | JStr(s: string)
    | JArr(items: seq<Json>)
    | JObj(fields: seq<(string, Json)>)
  {
    /** The truth value the host language gives the parsed value. */
    predicate Truthy()
    {
      match this
      case JNull => false
      case JBool(b) => b
      case JNum(n) => n != 0
      case JStr(s) => s != ""
      case JArr(items) => items != []
      case JObj(fields) => fields != []
    }
  }

  const NO_ARGUMENTS: Json := JObj([])

  datatype CallState = Pending | Asking | Allowed | Submitted | Finished

  datatype ResultState = Success | Failed | Interrupted | Denied | Running

  datatype Source = Base64(data: string, mediaType: string) | Url(url: string, mediaType: string)

  /** Tool output: plain text, or the text blocks that a stream of deltas builds. */
  datatype Output = Plain(text: string) | Blocks(texts: seq<string>)

  datatype Block =
    | TextBlock(id: nat, text: string)
    | ThinkingBlock(id: nat, thinking: string)
    | DataBlock(id: nat, source: Source)
    | HintBlock(id: nat, hint: string)
    | ToolCallBlock(callId: string, name: string, arguments: Json, state: CallState)
    | ToolResultBlock(resultId: string, resultName: string, output: Output, resultState: ResultState)

  datatype Role = User | Assistant | System | Tool | OtherRole(name: string)

  /** Message ids: fresh ones drawn by the runtime never equal ids chosen by the host. */
  datatype MsgId = Drawn(n: nat) | Host(name: string)

  datatype Msg = Msg(id: MsgId, role: Role, content: seq<Block>)

  // ---------------------------------------------------------------------------
  // Provider messages
  // ---------------------------------------------------------------------------

  datatype Part = TextPart(text: string) | ImagePart(url: string)

  datatype Content = Null | Str(text: string) | Parts(parts: seq<Part>)

  /** One entry of `tool_calls`; `id == None` stands for an entry without a string id. */
  datatype CallDict = CallDict(id: Option<string>, name: string, arguments: Json)

  /** A provider message; `None` stands for an absent key. `replay` holds replayable reasoning items. */
  datatype Message = Message(
    role: Role,
    content: Content,
    reasoning: Option<string>,
    toolCalls: Option<seq<CallDict>>,
    toolCallId: Option<string>,
    replay: seq<string>)

  function NonEmpty(texts: seq<string>): seq<string>
  {
    if texts == [] then []
    else NonEmpty(texts[..|texts| - 1]) + (if texts[|texts| - 1] == "" then [] else [texts[|texts| - 1]])
  }

  /** The text of a tool result as the provider sees it. */
  function OutputText(o: Output): string
  {
    match o
    case Plain(text) => text
    case Blocks(texts) => Join("\n", NonEmpty(texts))
  }

  function SourceUrl(s: Source): string
  {
    match s
    case Base64(data, mediaType) => "data:" + mediaType + ";base64," + data
    case Url(url, _) => url
  }

  /** Content parts of the blocks that go to `content`. */
  function ContentParts(bs: seq<Block>): seq<Part>
  {
    if bs == [] then [] else
    var b := bs[|bs| - 1];
    ContentParts(bs[..|bs| - 1]) +
      (match b
       case TextBlock(_, text) => [TextPart(text)]
       case DataBlock(_, source) => [ImagePart(SourceUrl(source))]
       case HintBlock(_, hint) => [TextPart(hint)]
       case ToolResultBlock(_, _, output, _) => [TextPart(OutputText(output))]
       case ThinkingBlock(_, _) => []
       case ToolCallBlock(_, _, _, _) => [])
  }

  function Thoughts(bs: seq<Block>): seq<string>
  {
    if bs == [] then []
    else Thoughts(bs[..|bs| - 1]) + (if bs[|bs| - 1].ThinkingBlock? then [bs[|bs| - 1].thinking] else [])
  }

  function CallsOf(bs: seq<Block>): seq<CallDict>
  {
    if bs == [] then [] else
    var b := bs[|bs| - 1];
    CallsOf(bs[..|bs| - 1]) + (if b.ToolCallBlock? then [CallDict(Some(b.callId), b.name, b.arguments)] else [])
  }

  function CombinedMessage(role: Role, parts: seq<Part>, thoughts: seq<string>, calls: seq<CallDict>): Message
  {
    Message(role, if parts == [] then Str("") else Parts(parts),
            if role == Assistant then Some(Join("\n", thoughts)) else None,
            if calls == [] then None else Some(calls), None, [])
  }

  function ToolMessage(id: string, text: string): Message
  {
    Message(Tool, Str(text), None, None, Some(id), [])
  }

  /** The message of the first tool result; an empty one when there is none. */
  function FirstResult(bs: seq<Block>): Message
  {
    if bs == [] then ToolMessage("", "")
    else if bs[0].ToolResultBlock? then ToolMessage(bs[0].resultId, OutputText(bs[0].output))
    else FirstResult(bs[1..])
  }

  /** Several blocks combined into one message of the given role; a tool message answers one call. */
  function ToMessage(bs: seq<Block>, role: Role): Message
  {
    if role == Tool then FirstResult(bs) else CombinedMessage(role, ContentParts(bs), Thoughts(bs), CallsOf(bs))
  }

  function HintMessage(hint: string): Message
  {
    Message(User, Str(hint), None, None, None, [])
  }

  /** `to_openai_message` as it runs: one pass that sorts blocks into the three fields. */
  method ToOpenAIMessage(bs: seq<Block>, role: Role) returns (m: Message)
    ensures m == ToMessage(bs, role)
  {
    if role == Tool {
      for i := 0 to |bs|
        invariant FirstResult(bs) == FirstResult(bs[i..])
      {
        match bs[i]
        case ToolResultBlock(id, _, output, _) => return ToolMessage(id, OutputText(output));
        case _ =>
      }
      return ToolMessage("", "");
    }
    var parts: seq<Part> := [];
    var calls: seq<CallDict> := [];
    var thoughts: seq<string> := [];
    for i := 0 to |bs|
      invariant parts == ContentParts(bs[..i]) && calls == CallsOf(bs[..i]) && thoughts == Thoughts(bs[..i])
    {
      assert bs[..i + 1][..i] == bs[..i];
      match bs[i]
      case ToolCallBlock(id, name, arguments, _) => calls := calls + [CallDict(Some(id), name, arguments)];
      case ThinkingBlock(_, thinking) => thoughts := thoughts + [thinking];
      case ToolResultBlock(_, _, output, _) => parts := parts + [TextPart(OutputText(output))];
      case TextBlock(_, text) => parts := parts + [TextPart(text)];
      case DataBlock(_, source) => parts := parts + [ImagePart(SourceUrl(source))];
      case HintBlock(_, hint) => parts := parts + [TextPart(hint)];
    }
    assert bs[..|bs|] == bs;
    m := Message(role, if parts == [] then Str("") else Parts(parts),
                 if role == Assistant then Some(Join("\n", thoughts)) else None,
                 if calls == [] then None else Some(calls), None, []);
  }
}
