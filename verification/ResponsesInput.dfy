/**
 * Chat messages converted to Responses API input. The pairing of calls and results survives:
 * each call group becomes its reasoning items, its text, all its calls and then exactly its outputs.
 */
module ResponsesInput {
  import opened Prelude
  import opened Messages
  import opened Normalize
  import opened ToolGrammar

  datatype ItemContent = Flat(text: string) | Raw(content: Content) | Texts(texts: seq<string>)

  datatype InputPart = InputText(text: string) | InputImage(url: Option<string>)

  datatype UserContent = Verbatim(content: Content) | Joined(text: string) | Pieces(parts: seq<InputPart>)

  datatype Item =
    | UserItem(given: UserContent)
    | AssistantItem(said: ItemContent)
    | ReasoningItem(item: string)
    | LegacyReasoning(number: nat, text: string)
    | FunctionCall(callId: string, name: string, arguments: Json)
    | FunctionOutput(callId: string, output: Content)

  datatype Input = Input(instructions: Option<string>, items: seq<Item>, legacy: nat)

  function PartText(p: Part): string { if p.TextPart? then p.text else "" }

  function PartTexts(ps: seq<Part>): seq<string>
  {
    if ps == [] then [] else PartTexts(ps[..|ps| - 1]) + [PartText(ps[|ps| - 1])]
  }

  predicate AllText(ps: seq<Part>) { ps == [] || (ps[|ps| - 1].TextPart? && AllText(ps[..|ps| - 1])) }

  /** Assistant content: text parts are joined; content with other parts is kept part by part. */
  function AssistantContent(c: Content): ItemContent
  {
    if !c.Parts? then Raw(c)
    else if AllText(c.parts) then Flat(Concat(PartTexts(c.parts)))
    else Texts(PartTexts(c.parts))
  }

  function InputPartOf(p: Part): InputPart
  {
    match p
    case TextPart(text) => InputText(text)
    case ImagePart(url) => InputImage(if url == "" then None else Some(url))
  }

  function InputParts(ps: seq<Part>): seq<InputPart>
  {
    if ps == [] then [] else InputParts(ps[..|ps| - 1]) + [InputPartOf(ps[|ps| - 1])]
  }

  /** User content: text parts are joined; content with images is kept part by part. */
  function GivenContent(c: Content): UserContent
  {
    if !c.Parts? then Verbatim(c)
    else if AllText(c.parts) then Joined(Concat(PartTexts(c.parts)))
    else Pieces(InputParts(c.parts))
  }

  predicate Empty(c: ItemContent)
  {
    c == Raw(Null) || c == Raw(Str("")) || c == Flat("") || c == Texts([])
  }

  function SystemText(c: Content): string
  {
    match c
    case Str(text) => text
    case Parts(ps) => Join("\n", TextsOnly(ps))
    case Null => ""
  }

  function TextsOnly(ps: seq<Part>): seq<string>
  {
    if ps == [] then []
    else TextsOnly(ps[..|ps| - 1]) + (if ps[|ps| - 1].TextPart? then [ps[|ps| - 1].text] else [])
  }

  function HasReasoning(m: Message): bool { m.reasoning.Some? && m.reasoning.value != "" }

  function ReplayItems(items: seq<string>): seq<Item>
  {
    if items == [] then [] else ReplayItems(items[..|items| - 1]) + [ReasoningItem(items[|items| - 1])]
  }

  /** The reasoning items of an assistant message, given how many legacy ones came before. */
  function ReasoningItems(m: Message, withReasoning: bool, allowLegacy: bool, legacy: nat): seq<Item>
  {
    if !withReasoning || !HasReasoning(m) then []
    else if m.replay != [] then ReplayItems(m.replay)
    else if allowLegacy then [LegacyReasoning(legacy + 1, m.reasoning.value)]
    else []
  }

  function CallItem(c: CallDict): Item
  {
    FunctionCall(if c.id.Some? then c.id.value else "", c.name, c.arguments)
  }

  function CallItems(calls: seq<CallDict>): seq<Item>
  {
    if calls == [] then [] else CallItems(calls[..|calls| - 1]) + [CallItem(calls[|calls| - 1])]
  }

  function OutputItem(m: Message): Item
  {
    FunctionOutput(if m.toolCallId.Some? then m.toolCallId.value else "", m.content)
  }

  function AssistantItems(m: Message, withReasoning: bool, allowLegacy: bool, legacy: nat): seq<Item>
  {
    var content := AssistantContent(m.content);
    ReasoningItems(m, withReasoning, allowLegacy, legacy) +
    (if Calls(m) != [] then (if Empty(content) then [] else [AssistantItem(content)]) + CallItems(Calls(m))
     else if !Empty(content) || !(withReasoning && HasReasoning(m)) then [AssistantItem(content)] else [])
  }

  function UsesLegacy(m: Message, withReasoning: bool, allowLegacy: bool): bool
  {
    m.role == Assistant && withReasoning && HasReasoning(m) && m.replay == [] && allowLegacy
  }

  /** One message appended to the input built so far. */
  function AddMessage(input: Input, m: Message, withReasoning: bool, allowLegacy: bool): Input
  {
    match m.role
    case System =>
      var text := SystemText(m.content);
      if text == "" then input
      else if input.instructions.Some? && input.instructions.value != "" then
        input.(instructions := Some(input.instructions.value + "\n\n" + text))
      else input.(instructions := Some(text))
    case User => input.(items := input.items + [UserItem(GivenContent(m.content))])
    case Assistant =>
      input.(items := input.items + AssistantItems(m, withReasoning, allowLegacy, input.legacy),
             legacy := if UsesLegacy(m, withReasoning, allowLegacy) then input.legacy + 1 else input.legacy)
    case Tool => input.(items := input.items + [OutputItem(m)])
    case OtherRole(_) => input
  }

  function AddMessages(input: Input, ms: seq<Message>, withReasoning: bool, allowLegacy: bool): Input
  {
    if ms == [] then input
    else AddMessage(AddMessages(input, ms[..|ms| - 1], withReasoning, allowLegacy), ms[|ms| - 1], withReasoning, allowLegacy)
  }

  const NO_INPUT := Input(None, [], 0)

  /** The converter as it runs. */
  method ConvertMessages(messages: seq<Message>, withReasoning: bool, allowLegacy: bool)
      returns (instructions: Option<string>, items: seq<Item>)
    ensures instructions == AddMessages(NO_INPUT, messages, withReasoning, allowLegacy).instructions
    ensures items == AddMessages(NO_INPUT, messages, withReasoning, allowLegacy).items
  {
    instructions, items := None, [];
    var legacy: nat := 0;
    for i := 0 to |messages|
      invariant Input(instructions, items, legacy) == AddMessages(NO_INPUT, messages[..i], withReasoning, allowLegacy)
    {
      assert messages[..i + 1][..i] == messages[..i];
      var m := messages[i];
      match m.role
      case System =>
        var text := SystemText(m.content);
        if text != "" {
          instructions := if instructions.Some? && instructions.value != ""
            then Some(instructions.value + "\n\n" + text) else Some(text);
        }
      case User =>
        items := items + [UserItem(GivenContent(m.content))];
      case Assistant =>
        var added, count := ConvertAssistant(m, withReasoning, allowLegacy, legacy);
        items, legacy := items + added, count;
      case Tool =>
        items := items + [OutputItem(m)];
      case OtherRole(_) =>
    }
    assert messages[..|messages|] == messages;
  }

  method ConvertAssistant(m: Message, withReasoning: bool, allowLegacy: bool, legacy: nat) returns (items: seq<Item>, count: nat)
    requires m.role == Assistant
    ensures items == AssistantItems(m, withReasoning, allowLegacy, legacy)
    ensures count == if UsesLegacy(m, withReasoning, allowLegacy) then legacy + 1 else legacy
  {
    items, count := [], legacy;
    if withReasoning && HasReasoning(m) {
      if m.replay != [] {
        items := ReplayItems(m.replay);
      } else if allowLegacy {
        count := legacy + 1;
        items := [LegacyReasoning(count, m.reasoning.value)];
      }
    }
    var content := AssistantContent(m.content);
    if Calls(m) != [] {
      var said := if Empty(content) then [] else [AssistantItem(content)];
      items := items + (said + CallItems(Calls(m)));
    } else if !Empty(content) || !(withReasoning && HasReasoning(m)) {
      items := items + [AssistantItem(content)];
    }
  }

  // ---------------------------------------------------------------------------
  // What is conveyed
  // ---------------------------------------------------------------------------

  /** One thing said in a conversation, whatever the protocol it is written in. */
  datatype Utterance =
    | UserSays(text: string, images: seq<string>)
    | AssistantSays(text: string)
    | ToolAsked(callId: string, tool: string, input: Json)
    | ToolAnswers(callId: string, answer: Content)
    | Recalls(item: string)
    | RecallsText(number: nat, text: string)

  function TextOf(c: Content): string
  {
    match c
    case Null => ""
    case Str(text) => text
    case Parts(ps) => Concat(PartTexts(ps))
  }

  /** The non-empty image addresses. */
  function ImagesIn(ps: seq<Part>): seq<string>
  {
    if ps == [] then []
    else ImagesIn(ps[..|ps| - 1]) + (if ps[|ps| - 1].ImagePart? && ps[|ps| - 1].url != "" then [ps[|ps| - 1].url] else [])
  }

  function ImagesOf(c: Content): seq<string> { if c.Parts? then ImagesIn(c.parts) else [] }

  function Called(calls: seq<CallDict>): seq<Utterance>
  {
    if calls == [] then []
    else
      var c := calls[|calls| - 1];
      Called(calls[..|calls| - 1]) + [ToolAsked(IdText(c.id), c.name, c.arguments)]
  }

  function IdText(id: Option<string>): string { if id.Some? then id.value else "" }

  function Speech(text: string): seq<Utterance> { if text == "" then [] else [AssistantSays(text)] }

  function EachRecalled(items: seq<string>): seq<Utterance>
  {
    if items == [] then [] else EachRecalled(items[..|items| - 1]) + [Recalls(items[|items| - 1])]
  }

  /** How many thoughts were recalled as bare text. */
  function BareCount(us: seq<Utterance>): nat
  {
    if us == [] then 0 else BareCount(us[..|us| - 1]) + if us[|us| - 1].RecallsText? then 1 else 0
  }

  /**
   * What a reasoning provider is reminded of: the items it gave with a message that has thoughts, or,
   * where that is allowed, the bare thoughts of a message without such items, numbered from one.
   */
  function Recalled(m: Message, withReasoning: bool, allowLegacy: bool, earlier: nat): seq<Utterance>
  {
    if !withReasoning || m.reasoning == None || m.reasoning == Some("") then []
    else if m.replay != [] then EachRecalled(m.replay)
    else if allowLegacy then [RecallsText(earlier + 1, m.reasoning.value)] else []
  }

  /** What one chat message says; instructions are looked at separately. */
  function SaidByMessage(m: Message, withReasoning: bool, allowLegacy: bool, earlier: nat): seq<Utterance>
  {
    match m.role
    case User => [UserSays(TextOf(m.content), ImagesOf(m.content))]
    case Assistant => Recalled(m, withReasoning, allowLegacy, earlier) + Speech(TextOf(m.content)) + Called(Calls(m))
    case Tool => [ToolAnswers(IdText(m.toolCallId), m.content)]
    case System => []
    case OtherRole(_) => []
  }

  function Transcript(ms: seq<Message>, withReasoning: bool, allowLegacy: bool): seq<Utterance>
  {
    if ms == [] then []
    else
      var before := Transcript(ms[..|ms| - 1], withReasoning, allowLegacy);
      before + SaidByMessage(ms[|ms| - 1], withReasoning, allowLegacy, BareCount(before))
  }

  function PieceTexts(ps: seq<InputPart>): seq<string>
  {
    if ps == [] then []
    else PieceTexts(ps[..|ps| - 1]) + [if ps[|ps| - 1].InputText? then ps[|ps| - 1].text else ""]
  }

  function PieceImages(ps: seq<InputPart>): seq<string>
  {
    if ps == [] then []
    else
      var p := ps[|ps| - 1];
      PieceImages(ps[..|ps| - 1]) + (if p.InputImage? && p.url.Some? then [p.url.value] else [])
  }

  /** What one input item says. */
  function SaidByItem(item: Item): seq<Utterance>
  {
    match item
    case UserItem(Verbatim(c)) => [UserSays(TextOf(c), ImagesOf(c))]
    case UserItem(Joined(text)) => [UserSays(text, [])]
    case UserItem(Pieces(ps)) => [UserSays(Concat(PieceTexts(ps)), PieceImages(ps))]
    case AssistantItem(Flat(text)) => Speech(text)
    case AssistantItem(Raw(c)) => Speech(TextOf(c))
    case AssistantItem(Texts(texts)) => Speech(Concat(texts))
    case FunctionCall(id, name, arguments) => [ToolAsked(id, name, arguments)]
    case FunctionOutput(id, output) => [ToolAnswers(id, output)]
    case ReasoningItem(item) => [Recalls(item)]
    case LegacyReasoning(number, text) => [RecallsText(number, text)]
  }

  function Conveyed(items: seq<Item>): seq<Utterance>
  {
    if items == [] then [] else Conveyed(items[..|items| - 1]) + SaidByItem(items[|items| - 1])
  }

  lemma {:induction false} ConveyedAppend(a: seq<Item>, b: seq<Item>)
    ensures Conveyed(a + b) == Conveyed(a) + Conveyed(b)
  {
    hide SaidByItem;
    if b == [] {
      assert a + b == a;
    } else {
      var init, last := b[..|b| - 1], b[|b| - 1];
      assert (a + b)[..|a + b| - 1] == a + init && (a + b)[|a + b| - 1] == last;
      ConveyedAppend(a, init);
    }
  }

  lemma {:induction false} ConveyedOne(item: Item)
    ensures Conveyed([item]) == SaidByItem(item)
  {
    assert [item][..0] == [];
  }

  lemma {:induction false} PiecesSayTheSame(ps: seq<Part>)
    ensures PieceTexts(InputParts(ps)) == PartTexts(ps) && PieceImages(InputParts(ps)) == ImagesIn(ps)
    ensures AllText(ps) ==> ImagesIn(ps) == []
  {
    if ps != [] {
      var n := |ps| - 1;
      PiecesSayTheSame(ps[..n]);
      assert InputParts(ps)[..|InputParts(ps)| - 1] == InputParts(ps[..n]);
    }
  }

  lemma {:induction false} UserConveyed(c: Content)
    ensures SaidByItem(UserItem(GivenContent(c))) == [UserSays(TextOf(c), ImagesOf(c))]
  {
    if c.Parts? { PiecesSayTheSame(c.parts); }
  }

  lemma {:induction false} CallsConveyed(calls: seq<CallDict>)
    ensures Conveyed(CallItems(calls)) == Called(calls)
  {
    if calls != [] {
      var n := |calls| - 1;
      CallsConveyed(calls[..n]);
      ConveyedAppend(CallItems(calls[..n]), [CallItem(calls[n])]);
      ConveyedOne(CallItem(calls[n]));
    }
  }

  lemma {:induction false} ReplayConveyed(items: seq<string>)
    ensures Conveyed(ReplayItems(items)) == EachRecalled(items)
  {
    if items != [] {
      var n := |items| - 1;
      ReplayConveyed(items[..n]);
      ConveyedAppend(ReplayItems(items[..n]), [ReasoningItem(items[n])]);
      ConveyedOne(ReasoningItem(items[n]));
    }
  }

  lemma {:induction false} ReasoningConveyed(m: Message, withReasoning: bool, allowLegacy: bool, legacy: nat)
    ensures Conveyed(ReasoningItems(m, withReasoning, allowLegacy, legacy)) == Recalled(m, withReasoning, allowLegacy, legacy)
  {
    ReplayConveyed(m.replay);
    if m.reasoning.Some? { ConveyedOne(LegacyReasoning(legacy + 1, m.reasoning.value)); }
  }

  lemma {:induction false} BareAppend(a: seq<Utterance>, b: seq<Utterance>)
    ensures BareCount(a + b) == BareCount(a) + BareCount(b)
  {
    if b == [] {
      assert a + b == a;
    } else {
      assert (a + b)[..|a + b| - 1] == a + b[..|b| - 1];
      BareAppend(a, b[..|b| - 1]);
    }
  }

  lemma {:induction false} NotBare(us: seq<Utterance>)
    requires forall i :: 0 <= i < |us| ==> !us[i].RecallsText?
    ensures BareCount(us) == 0
  {
    if us != [] { NotBare(us[..|us| - 1]); }
  }

  lemma {:induction false} OthersNotBare(items: seq<string>, calls: seq<CallDict>)
    ensures forall i :: 0 <= i < |EachRecalled(items)| ==> !EachRecalled(items)[i].RecallsText?
    ensures forall i :: 0 <= i < |Called(calls)| ==> !Called(calls)[i].RecallsText?
    decreases |items| + |calls|
  {
    if items != [] { OthersNotBare(items[..|items| - 1], []); }
    if calls != [] { OthersNotBare([], calls[..|calls| - 1]); }
  }

  /** The converter's own count goes along. */
  lemma {:induction false} BareOfMessage(m: Message, withReasoning: bool, allowLegacy: bool, earlier: nat)
    ensures BareCount(SaidByMessage(m, withReasoning, allowLegacy, earlier)) == if UsesLegacy(m, withReasoning, allowLegacy) then 1 else 0
  {
    hide BareCount, EachRecalled, Called, ImagesOf, TextOf;
    if m.role == Assistant {
      var r, speech, calls := Recalled(m, withReasoning, allowLegacy, earlier), Speech(TextOf(m.content)), Called(Calls(m));
      OthersNotBare(m.replay, Calls(m));
      NotBare(speech);
      NotBare(calls);
      BareAppend(r, speech);
      BareAppend(r + speech, calls);
      if UsesLegacy(m, withReasoning, allowLegacy) { OneBare(earlier + 1, m.reasoning.value); } else { NotBare(r); }
    } else {
      NotBare(SaidByMessage(m, withReasoning, allowLegacy, earlier));
    }
  }

  lemma OneBare(number: nat, text: string)
    ensures BareCount([RecallsText(number, text)]) == 1
  {
    assert [RecallsText(number, text)][..0] == [];
  }

  /** The text of an assistant survives; leaving empty content out changes nothing. */
  lemma {:induction false} SpeechConveyed(c: Content)
    ensures Conveyed([AssistantItem(AssistantContent(c))]) == Speech(TextOf(c))
    ensures Empty(AssistantContent(c)) ==> TextOf(c) == ""
  {
    ConveyedOne(AssistantItem(AssistantContent(c)));
    if c.Parts? && PartTexts(c.parts) == [] { assert Concat(PartTexts(c.parts)) == ""; }
  }

  lemma NothingConveyed()
    ensures Conveyed([]) == [] && Called([]) == [] && CallItems([]) == []
  {
  }

  lemma {:induction false} AssistantConveyed(m: Message, withReasoning: bool, allowLegacy: bool, legacy: nat)
    ensures Conveyed(AssistantItems(m, withReasoning, allowLegacy, legacy)) ==
      Recalled(m, withReasoning, allowLegacy, legacy) + Speech(TextOf(m.content)) + Called(Calls(m))
  {
    hide Recalled, Called, CallItems, ReasoningItems, TextOf, AssistantContent, Conveyed, HasReasoning, Empty, Calls;
    NothingConveyed();
    var content := AssistantContent(m.content);
    var calls := Calls(m);
    var said := if calls != [] then (if Empty(content) then [] else [AssistantItem(content)])
      else if !Empty(content) || !(withReasoning && HasReasoning(m)) then [AssistantItem(content)] else [];
    var r := ReasoningItems(m, withReasoning, allowLegacy, legacy);
    ReasoningConveyed(m, withReasoning, allowLegacy, legacy);
    SpeechConveyed(m.content);
    CallsConveyed(calls);
    ConveyedAppend(said, CallItems(calls));
    ConveyedAppend(r, said + CallItems(calls));
    assert calls == [] ==> said + CallItems(calls) == said;
    var recalled := Recalled(m, withReasoning, allowLegacy, legacy);
    assert recalled + (Speech(TextOf(m.content)) + Called(calls)) == recalled + Speech(TextOf(m.content)) + Called(calls);
  }

  /**
   * Whatever the history, the converted input says what the messages say, in the same order: every
   * user text and image, every assistant text, every call with its name and arguments, every output,
   * and, ahead of what it belongs to, every reasoning item that a reasoning provider gets back.
   */
  lemma {:induction false} SaysTheSame(ms: seq<Message>, withReasoning: bool, allowLegacy: bool)
    ensures Conveyed(AddMessages(NO_INPUT, ms, withReasoning, allowLegacy).items) == Transcript(ms, withReasoning, allowLegacy)
    ensures AddMessages(NO_INPUT, ms, withReasoning, allowLegacy).legacy == BareCount(Transcript(ms, withReasoning, allowLegacy))
  {
    hide AddMessage, SaidByMessage, UsesLegacy;
    if ms != [] {
      var n := |ms| - 1;
      var before := AddMessages(NO_INPUT, ms[..n], withReasoning, allowLegacy);
      SaysTheSame(ms[..n], withReasoning, allowLegacy);
      AddConveyed(before, ms[n], withReasoning, allowLegacy);
      BareOfMessage(ms[n], withReasoning, allowLegacy, before.legacy);
      BareAppend(Transcript(ms[..n], withReasoning, allowLegacy), SaidByMessage(ms[n], withReasoning, allowLegacy, before.legacy));
      CountsLegacy(before, ms[n], withReasoning, allowLegacy);
    }
  }

  lemma CountsLegacy(input: Input, m: Message, withReasoning: bool, allowLegacy: bool)
    ensures AddMessage(input, m, withReasoning, allowLegacy).legacy == input.legacy + if UsesLegacy(m, withReasoning, allowLegacy) then 1 else 0
  {
  }

  lemma {:induction false} AddConveyed(input: Input, m: Message, withReasoning: bool, allowLegacy: bool)
    ensures Conveyed(AddMessage(input, m, withReasoning, allowLegacy).items) ==
      Conveyed(input.items) + SaidByMessage(m, withReasoning, allowLegacy, input.legacy)
  {
    match m.role {
      case User =>
        ConveyedAppend(input.items, [UserItem(GivenContent(m.content))]);
        ConveyedOne(UserItem(GivenContent(m.content)));
        UserConveyed(m.content);
      case Assistant =>
        ConveyedAppend(input.items, AssistantItems(m, withReasoning, allowLegacy, input.legacy));
        AssistantConveyed(m, withReasoning, allowLegacy, input.legacy);
      case Tool =>
        ConveyedAppend(input.items, [OutputItem(m)]);
        ConveyedOne(OutputItem(m));
      case System => assert Conveyed(input.items) + [] == Conveyed(input.items);
      case OtherRole(_) => assert Conveyed(input.items) + [] == Conveyed(input.items);
    }
  }

  /** The non-empty system texts of a history. */
  function SystemTexts(ms: seq<Message>): seq<string>
  {
    if ms == [] then []
    else
      var m := ms[|ms| - 1];
      SystemTexts(ms[..|ms| - 1]) + (if m.role == System && SystemText(m.content) != "" then [SystemText(m.content)] else [])
  }

  /** The instructions are all system texts, joined, or absent when there is none. */
  lemma {:induction false} InstructionsJoined(ms: seq<Message>, withReasoning: bool, allowLegacy: bool)
    ensures AddMessages(NO_INPUT, ms, withReasoning, allowLegacy).instructions
         == if SystemTexts(ms) == [] then None else Some(Join("\n\n", SystemTexts(ms)))
    ensures SystemTexts(ms) != [] ==> Join("\n\n", SystemTexts(ms)) != ""
  {
    if ms != [] {
      var n := |ms| - 1;
      var m := ms[n];
      InstructionsJoined(ms[..n], withReasoning, allowLegacy);
      if m.role == System && SystemText(m.content) != "" {
        var texts := SystemTexts(ms[..n]);
        assert (texts + [SystemText(m.content)])[..|texts|] == texts;
      } else {
        assert SystemTexts(ms) == SystemTexts(ms[..n]);
      }
    }
  }

  // ---------------------------------------------------------------------------
  // Pairing
  // ---------------------------------------------------------------------------

  /** A stretch of converted input: an item that is neither call nor output, or calls with their outputs. */
  datatype Stretch = Free(item: Item) | Exchange(calls: seq<CallDict>, results: seq<Message>)

  function OutputItems(ms: seq<Message>): seq<Item>
  {
    if ms == [] then [] else OutputItems(ms[..|ms| - 1]) + [OutputItem(ms[|ms| - 1])]
  }

  function RenderStretch(s: Stretch): seq<Item>
  {
    match s
    case Free(item) => [item]
    case Exchange(calls, results) => CallItems(calls) + OutputItems(results)
  }

  function RenderStretches(ss: seq<Stretch>): seq<Item>
  {
    if ss == [] then [] else RenderStretches(ss[..|ss| - 1]) + RenderStretch(ss[|ss| - 1])
  }

  ghost predicate Fair(s: Stretch)
  {
    match s
    case Free(item) => !item.FunctionCall? && !item.FunctionOutput?
    case Exchange(calls, results) => calls != [] && PairsOff(calls, results)
  }

  ghost predicate AllFair(ss: seq<Stretch>)
  {
    ss == [] || (Fair(ss[|ss| - 1]) && AllFair(ss[..|ss| - 1]))
  }

  lemma {:induction false} StretchSnoc(ss: seq<Stretch>, s: Stretch)
    ensures RenderStretches(ss + [s]) == RenderStretches(ss) + RenderStretch(s)
    ensures AllFair(ss) && Fair(s) ==> AllFair(ss + [s])
  {
    assert (ss + [s])[..|ss|] == ss;
  }

  /** Items that are neither calls nor outputs. */
  predicate NoToolItems(items: seq<Item>)
  {
    items == [] || (!items[|items| - 1].FunctionCall? && !items[|items| - 1].FunctionOutput? && NoToolItems(items[..|items| - 1]))
  }

  lemma {:induction false} AddFree(ss: seq<Stretch>, items: seq<Item>) returns (ss': seq<Stretch>)
    requires AllFair(ss) && NoToolItems(items)
    ensures AllFair(ss') && RenderStretches(ss') == RenderStretches(ss) + items
  {
    hide RenderStretches, AllFair;
    ss' := ss;
    if items == [] {
      assert RenderStretches(ss) + [] == RenderStretches(ss);
    } else {
      var init, last := items[..|items| - 1], items[|items| - 1];
      ss' := AddFree(ss, init);
      StretchSnoc(ss', Free(last));
      ss' := ss' + [Free(last)];
      assert RenderStretches(ss) + items == (RenderStretches(ss) + init) + [last];
    }
  }

  lemma {:induction false} ReplayHasNoTools(items: seq<string>)
    ensures NoToolItems(ReplayItems(items))
  {
    if items != [] {
      ReplayHasNoTools(items[..|items| - 1]);
      assert ReplayItems(items)[..|ReplayItems(items)| - 1] == ReplayItems(items[..|items| - 1]);
    }
  }

  lemma {:induction false} NoToolSnoc(items: seq<Item>, item: Item)
    requires NoToolItems(items) && !item.FunctionCall? && !item.FunctionOutput?
    ensures NoToolItems(items + [item])
  {
    assert (items + [item])[..|items|] == items;
  }

  /** What an assistant message contributes before its calls. */
  function Preamble(m: Message, withReasoning: bool, allowLegacy: bool, legacy: nat): seq<Item>
  {
    var content := AssistantContent(m.content);
    var speak := if Calls(m) != [] then !Empty(content) else !Empty(content) || !(withReasoning && HasReasoning(m));
    ReasoningItems(m, withReasoning, allowLegacy, legacy) + (if speak then [AssistantItem(content)] else [])
  }

  lemma {:induction false} PreambleHasNoTools(m: Message, withReasoning: bool, allowLegacy: bool, legacy: nat)
    ensures NoToolItems(Preamble(m, withReasoning, allowLegacy, legacy))
  {
    ReplayHasNoTools(m.replay);
    var items := ReasoningItems(m, withReasoning, allowLegacy, legacy);
    if withReasoning && HasReasoning(m) && m.replay == [] && allowLegacy {
      NoToolSnoc([], items[0]);
      assert [] + [items[0]] == items;
    }
    NoToolSnoc(items, AssistantItem(AssistantContent(m.content)));
    assert items + [] == items;
  }

  lemma {:induction false} AssistantSplits(m: Message, withReasoning: bool, allowLegacy: bool, legacy: nat)
    ensures AssistantItems(m, withReasoning, allowLegacy, legacy) == Preamble(m, withReasoning, allowLegacy, legacy) + CallItems(Calls(m))
  {
    var r := ReasoningItems(m, withReasoning, allowLegacy, legacy);
    var content := AssistantContent(m.content);
    if Calls(m) != [] {
      var said := if Empty(content) then [] else [AssistantItem(content)];
      assert r + (said + CallItems(Calls(m))) == (r + said) + CallItems(Calls(m));
    } else {
      assert Preamble(m, withReasoning, allowLegacy, legacy) + [] == Preamble(m, withReasoning, allowLegacy, legacy);
    }
  }

  lemma {:induction false} AddMessagesAppend(input: Input, a: seq<Message>, b: seq<Message>, withReasoning: bool, allowLegacy: bool)
    ensures AddMessages(input, a + b, withReasoning, allowLegacy)
         == AddMessages(AddMessages(input, a, withReasoning, allowLegacy), b, withReasoning, allowLegacy)
  {
    if b == [] {
      assert a + b == a;
    } else {
      assert (a + b)[..|a + b| - 1] == a + b[..|b| - 1];
      AddMessagesAppend(input, a, b[..|b| - 1], withReasoning, allowLegacy);
    }
  }

  lemma {:induction false} AddOne(input: Input, m: Message, withReasoning: bool, allowLegacy: bool)
    ensures AddMessages(input, [m], withReasoning, allowLegacy) == AddMessage(input, m, withReasoning, allowLegacy)
  {
    assert [m][..0] == [];
    assert AddMessages(input, [], withReasoning, allowLegacy) == input;
  }

  lemma {:induction false} AddResults(input: Input, results: seq<Message>, withReasoning: bool, allowLegacy: bool)
    requires AllTool(results)
    ensures AddMessages(input, results, withReasoning, allowLegacy) == input.(items := input.items + OutputItems(results))
  {
    if results == [] {
      assert input.items + [] == input.items;
    } else {
      var init, last := results[..|results| - 1], results[|results| - 1];
      AddResults(input, init, withReasoning, allowLegacy);
      assert input.items + OutputItems(results) == (input.items + OutputItems(init)) + [OutputItem(last)];
    }
  }

  lemma RegroupItems(a: seq<Item>, b: seq<Item>, c: seq<Item>)
    ensures a + (b + c) == (a + b) + c
  {
  }

  lemma {:induction false} BystanderKeepsPairing(input: Input, ss: seq<Stretch>, m: Message, withReasoning: bool, allowLegacy: bool) returns (ss': seq<Stretch>)
    requires m.role != Tool && m.role != Assistant && AllFair(ss) && input.items == RenderStretches(ss)
    ensures AllFair(ss') && AddMessage(input, m, withReasoning, allowLegacy).items == RenderStretches(ss')
  {
    ss' := ss;
    if m.role == User {
      StretchSnoc(ss, Free(UserItem(GivenContent(m.content))));
      ss' := ss + [Free(UserItem(GivenContent(m.content)))];
    }
  }

  lemma {:induction false} SpeakerKeepsPairing(input: Input, ss: seq<Stretch>, m: Message, withReasoning: bool, allowLegacy: bool) returns (ss': seq<Stretch>)
    requires m.role == Assistant && AllFair(ss) && input.items == RenderStretches(ss)
    ensures AllFair(ss')
    ensures AddMessage(input, m, withReasoning, allowLegacy).items == RenderStretches(ss') + CallItems(Calls(m))
  {
    PreambleHasNoTools(m, withReasoning, allowLegacy, input.legacy);
    AssistantSplits(m, withReasoning, allowLegacy, input.legacy);
    var pre := Preamble(m, withReasoning, allowLegacy, input.legacy);
    ss' := AddFree(ss, pre);
    RegroupItems(input.items, pre, CallItems(Calls(m)));
  }

  lemma {:induction false} ExchangeKeepsPairing(items: seq<Item>, ss: seq<Stretch>, calls: seq<CallDict>, results: seq<Message>) returns (ss': seq<Stretch>)
    requires AllFair(ss) && items == RenderStretches(ss) + CallItems(calls) && calls != [] && PairsOff(calls, results)
    ensures AllFair(ss') && items + OutputItems(results) == RenderStretches(ss')
  {
    StretchSnoc(ss, Exchange(calls, results));
    RegroupItems(RenderStretches(ss), CallItems(calls), OutputItems(results));
    ss' := ss + [Exchange(calls, results)];
  }

  /** One unit of the chat grammar adds fair stretches only. */
  lemma {:induction false} UnitKeepsPairing(input: Input, ss: seq<Stretch>, u: Unit, withReasoning: bool, allowLegacy: bool) returns (ss': seq<Stretch>)
    requires Paired(u) && AllFair(ss) && input.items == RenderStretches(ss)
    ensures AllFair(ss')
    ensures AddMessages(input, RenderUnit(u), withReasoning, allowLegacy).items == RenderStretches(ss')
  {
    AddOne(input, u.m, withReasoning, allowLegacy);
    match u
    case Bystander(m) =>
      ss' := BystanderKeepsPairing(input, ss, m, withReasoning, allowLegacy);
    case Saying(m) =>
      ss' := SpeakerKeepsPairing(input, ss, m, withReasoning, allowLegacy);
      assert CallItems(Calls(m)) == [];
    case Group(m, results) =>
      ss' := SpeakerKeepsPairing(input, ss, m, withReasoning, allowLegacy);
      var added := AddMessage(input, m, withReasoning, allowLegacy);
      AddMessagesAppend(input, [m], results, withReasoning, allowLegacy);
      AddResults(added, results, withReasoning, allowLegacy);
      ss' := ExchangeKeepsPairing(added.items, ss', Calls(m), results);
  }

  lemma {:induction false} UnitsKeepPairing(input: Input, ss: seq<Stretch>, us: seq<Unit>, withReasoning: bool, allowLegacy: bool) returns (ss': seq<Stretch>)
    requires AllPaired(us) && AllFair(ss) && input.items == RenderStretches(ss)
    ensures AllFair(ss')
    ensures AddMessages(input, Render(us), withReasoning, allowLegacy).items == RenderStretches(ss')
    decreases |us|
  {
    ss' := ss;
    if us != [] {
      var first := AddMessages(input, RenderUnit(us[0]), withReasoning, allowLegacy);
      ss' := UnitKeepsPairing(input, ss, us[0], withReasoning, allowLegacy);
      ss' := UnitsKeepPairing(first, ss', us[1..], withReasoning, allowLegacy);
      AddMessagesAppend(input, RenderUnit(us[0]), Render(us[1..]), withReasoning, allowLegacy);
    }
  }

  /**
   * Whatever the history, the converted input of its normalised form is a series of free items and
   * exchanges; in each exchange all calls come first and exactly their outputs follow directly. All
   * of it together says what the normalised messages say.
   */
  lemma {:induction false} InputKeepsPairing(ms: seq<Message>, keepReasoning: bool, allowLegacy: bool) returns (ss: seq<Stretch>)
    ensures AllFair(ss)
    ensures AddMessages(NO_INPUT, Norm(ms, keepReasoning), keepReasoning, allowLegacy).items == RenderStretches(ss)
    ensures Conveyed(RenderStretches(ss)) == Transcript(Norm(ms, keepReasoning), keepReasoning, allowLegacy)
  {
    SaysTheSame(Norm(ms, keepReasoning), keepReasoning, allowLegacy);
    var us := OutputFromInGrammar(ms, 0, keepReasoning);
    SendableIsPaired(us, keepReasoning);
    ss := UnitsKeepPairing(NO_INPUT, [], us, keepReasoning, allowLegacy);
  }

  // ---------------------------------------------------------------------------
  // Read off the positions
  // ---------------------------------------------------------------------------

  /** The output at position `p` answers a call at an earlier `q`, with only calls and outputs in between. */
  ghost predicate AnswersEarlier(items: seq<Item>, p: int, q: int)
    requires 0 <= p < |items| && items[p].FunctionOutput?
  {
    && 0 <= q < p && items[q].FunctionCall? && items[q].callId == items[p].callId
    && forall k :: q < k < p ==> items[k].FunctionCall? || items[k].FunctionOutput?
  }

  lemma {:induction false} CallItemsAt(calls: seq<CallDict>)
    ensures |CallItems(calls)| == |calls|
    ensures forall i :: 0 <= i < |calls| ==> CallItems(calls)[i] == CallItem(calls[i])
  {
    if calls != [] { CallItemsAt(calls[..|calls| - 1]); }
  }

  lemma {:induction false} OutputItemsAt(ms: seq<Message>)
    ensures |OutputItems(ms)| == |ms|
    ensures forall i :: 0 <= i < |ms| ==> OutputItems(ms)[i] == OutputItem(ms[i])
  {
    if ms != [] { OutputItemsAt(ms[..|ms| - 1]); }
  }

  lemma {:induction false} ResultHasCall(calls: seq<CallDict>, results: seq<Message>, j: int) returns (i: int)
    requires PairsOff(calls, results) && 0 <= j < |results|
    ensures 0 <= i < |calls| && calls[i].id == results[j].toolCallId
  {
    CallIdsAt(calls);
    ResultIdsAt(results);
    PairsOffElements(calls, results);
    ElementsAre(ResultIds(results), ResultIds(results)[j]);
    ElementsAre(CallIds(calls), ResultIds(results)[j]);
    i :| 0 <= i < |CallIds(calls)| && CallIds(calls)[i] == ResultIds(results)[j];
  }

  lemma {:induction false} CallBeforeOutput(before: seq<Item>, calls: seq<Item>, outputs: seq<Item>, i: int, j: int)
    requires 0 <= i < |calls| && 0 <= j < |outputs|
    requires forall k :: 0 <= k < |calls| ==> calls[k].FunctionCall?
    requires forall k :: 0 <= k < |outputs| ==> outputs[k].FunctionOutput?
    requires calls[i].callId == outputs[j].callId
    ensures AnswersEarlier(before + (calls + outputs), |before| + |calls| + j, |before| + i)
  {
    var items := before + (calls + outputs);
    assert items[|before| + |calls| + j] == outputs[j] && items[|before| + i] == calls[i];
    forall k | |before| + i < k < |before| + |calls| + j
      ensures items[k].FunctionCall? || items[k].FunctionOutput?
    {
      assert items[k] == (calls + outputs)[k - |before|];
    }
  }

  lemma {:induction false} OutputInExchange(before: seq<Item>, calls: seq<CallDict>, results: seq<Message>, p: int) returns (q: int)
    requires PairsOff(calls, results)
    requires |before| <= p < |before| + |CallItems(calls) + OutputItems(results)|
    requires (before + (CallItems(calls) + OutputItems(results)))[p].FunctionOutput?
    ensures AnswersEarlier(before + (CallItems(calls) + OutputItems(results)), p, q)
  {
    CallItemsAt(calls);
    OutputItemsAt(results);
    var both := CallItems(calls) + OutputItems(results);
    assert both[p - |before|].FunctionOutput?;
    var j := p - |before| - |calls|;
    assert 0 <= j;
    var i := ResultHasCall(calls, results, j);
    CallBeforeOutput(before, CallItems(calls), OutputItems(results), i, j);
    q := |before| + i;
  }

  /** No output without an earlier call: the call is before it, and nothing but calls and outputs between. */
  lemma {:induction false} NoOrphanOutput(ss: seq<Stretch>, p: int) returns (q: int)
    requires AllFair(ss) && 0 <= p < |RenderStretches(ss)| && RenderStretches(ss)[p].FunctionOutput?
    ensures AnswersEarlier(RenderStretches(ss), p, q)
  {
    var before, last := RenderStretches(ss[..|ss| - 1]), ss[|ss| - 1];
    if p < |before| {
      q := NoOrphanOutput(ss[..|ss| - 1], p);
    } else {
      q := OutputInExchange(before, last.calls, last.results, p);
    }
  }
}
