/**
 * The provider is told what the blocks say: a reading of provider messages field by field, a reading of
 * blocks, and the proof that flattening keeps the one the other.
 */
module Telling {
  import Prelude
  import opened Messages
  import opened Flatten

  /** One thing said: a part shown under a role, a thought, a call, or the answer to a call. */
  datatype Utterance =
    | Shown(role: Role, part: Part)
    | Thought(text: string)
    | Called(id: string, name: string, arguments: Json)
    | Answered(id: string, text: string)

  // ---------------------------------------------------------------------------
  // Reading provider messages
  // ---------------------------------------------------------------------------

  function PartsSay(role: Role, ps: seq<Part>): seq<Utterance>
  {
    if ps == [] then [] else PartsSay(role, ps[..|ps| - 1]) + [Shown(role, ps[|ps| - 1])]
  }

  function DictsSay(cs: seq<CallDict>): seq<Utterance>
  {
    if cs == [] then []
    else
      var c := cs[|cs| - 1];
      DictsSay(cs[..|cs| - 1]) + [Called(if c.id.Some? then c.id.value else "", c.name, c.arguments)]
  }

  /** An empty text says nothing. */
  function TextSays(role: Role, text: string): seq<Utterance> { if text == "" then [] else [Shown(role, Part.TextPart(text))] }

  function MessageSays(m: Message): seq<Utterance>
  {
    if m.role == Tool then
      [Answered(if m.toolCallId.Some? then m.toolCallId.value else "", match m.content case Str(text) => text case _ => "")]
    else
      (match m.content case Str(text) => TextSays(m.role, text) case Parts(ps) => PartsSay(m.role, ps) case Null => [])
      + (if m.reasoning.Some? && m.reasoning.value != "" then [Thought(m.reasoning.value)] else [])
      + (if m.toolCalls.Some? then DictsSay(m.toolCalls.value) else [])
  }

  function MessagesSay(ms: seq<Message>): seq<Utterance>
  {
    if ms == [] then [] else MessagesSay(ms[..|ms| - 1]) + MessageSays(ms[|ms| - 1])
  }

  // ---------------------------------------------------------------------------
  // Reading blocks
  // ---------------------------------------------------------------------------

  predicate Separate(b: Block) { b.HintBlock? || b.ToolResultBlock? }

  /** Texts put together line by line. */
  function Lines(ts: seq<string>): string
  {
    if ts == [] then "" else if |ts| == 1 then ts[0] else Lines(ts[..|ts| - 1]) + "\n" + ts[|ts| - 1]
  }

  function Filled(ts: seq<string>): seq<string>
  {
    if ts == [] then []
    else Filled(ts[..|ts| - 1]) + if ts[|ts| - 1] != "" then [ts[|ts| - 1]] else []
  }

  function ImageOf(source: Source): Part
  {
    match source
    case Base64(data, mediaType) => ImagePart("data:" + mediaType + ";base64," + data)
    case Url(url, _) => ImagePart(url)
  }

  /** What a block shows, if it is text or data. */
  function Showing(b: Block, role: Role): seq<Utterance>
  {
    match b
    case TextBlock(_, text) => [Shown(role, Part.TextPart(text))]
    case DataBlock(_, source) => [Shown(role, ImageOf(source))]
    case _ => []
  }

  function AllShown(bs: seq<Block>, role: Role): seq<Utterance>
  {
    if bs == [] then [] else AllShown(bs[..|bs| - 1], role) + Showing(bs[|bs| - 1], role)
  }

  function AllThought(bs: seq<Block>): seq<string>
  {
    if bs == [] then []
    else AllThought(bs[..|bs| - 1]) + if bs[|bs| - 1].ThinkingBlock? then [bs[|bs| - 1].thinking] else []
  }

  function AllCalled(bs: seq<Block>): seq<Utterance>
  {
    if bs == [] then []
    else
      var b := bs[|bs| - 1];
      AllCalled(bs[..|bs| - 1]) + if b.ToolCallBlock? then [Called(b.callId, b.name, b.arguments)] else []
  }

  /**
   * A stretch of blocks between hints and results: what is shown, then the thoughts as one (only an
   * assistant thinks), then the calls, each in order. A tool message without a result is an empty answer.
   */
  function StretchSays(bs: seq<Block>, role: Role): seq<Utterance>
  {
    if bs == [] then []
    else if role == Tool then [Answered("", "")]
    else
      AllShown(bs, role)
      + (if role == Assistant && Lines(AllThought(bs)) != "" then [Thought(Lines(AllThought(bs)))] else [])
      + AllCalled(bs)
  }

  /** A hint is shown to the model as the user's, a result answers its call. */
  function SeparateSays(b: Block): seq<Utterance>
    requires Separate(b)
  {
    if b.HintBlock? then TextSays(User, b.hint)
    else [Answered(b.resultId, match b.output case Plain(text) => text case Blocks(texts) => Lines(Filled(texts)))]
  }

  /** The blocks after the last hint or result. */
  function LastStretch(bs: seq<Block>): (n: nat)
    ensures n <= |bs| && (n > 0 ==> Separate(bs[n - 1])) && forall i :: n <= i < |bs| ==> !Separate(bs[i])
  {
    if bs == [] then 0 else if Separate(bs[|bs| - 1]) then |bs| else LastStretch(bs[..|bs| - 1])
  }

  /** Everything the blocks say, in order. */
  function BlocksSay(bs: seq<Block>, role: Role): seq<Utterance>
  {
    var n := LastStretch(bs);
    (if n == 0 then [] else BlocksSay(bs[..n - 1], role) + SeparateSays(bs[n - 1])) + StretchSays(bs[n..], role)
  }

  // ---------------------------------------------------------------------------
  // Flattening keeps it
  // ---------------------------------------------------------------------------

  lemma MessagesSnoc(ms: seq<Message>, m: Message)
    ensures MessagesSay(ms + [m]) == MessagesSay(ms) + MessageSays(m)
  {
    assert (ms + [m])[..|ms|] == ms;
  }

  lemma {:induction false} MessagesAppend(a: seq<Message>, b: seq<Message>)
    ensures MessagesSay(a + b) == MessagesSay(a) + MessagesSay(b)
  {
    hide MessageSays;
    if b == [] {
      assert a + b == a && MessagesSay(a) + [] == MessagesSay(a);
    } else {
      assert (a + b)[..|a + b| - 1] == a + b[..|b| - 1];
      MessagesAppend(a, b[..|b| - 1]);
    }
  }

  lemma {:induction false} LinesAreJoined(ts: seq<string>)
    ensures Lines(ts) == Prelude.Join("\n", ts)
  {
    if |ts| > 1 { LinesAreJoined(ts[..|ts| - 1]); }
  }

  lemma {:induction false} FilledAreNonEmpty(ts: seq<string>)
    ensures Filled(ts) == NonEmpty(ts)
  {
    if ts != [] { FilledAreNonEmpty(ts[..|ts| - 1]); }
  }

  lemma {:induction false} OutputIsTold(o: Output)
    ensures OutputText(o) == match o case Plain(text) => text case Blocks(texts) => Lines(Filled(texts))
  {
    if o.Blocks? {
      FilledAreNonEmpty(o.texts);
      LinesAreJoined(Filled(o.texts));
    }
  }

  lemma PartsSnoc(role: Role, ps: seq<Part>, p: Part)
    ensures PartsSay(role, ps + [p]) == PartsSay(role, ps) + [Shown(role, p)]
  {
    assert (ps + [p])[..|ps|] == ps;
  }

  lemma DictsSnoc(cs: seq<CallDict>, c: CallDict)
    ensures DictsSay(cs + [c]) == DictsSay(cs) + [Called(if c.id.Some? then c.id.value else "", c.name, c.arguments)]
  {
    assert (cs + [c])[..|cs|] == cs;
  }

  lemma {:induction false} ShownAreParts(bs: seq<Block>, role: Role)
    requires forall i :: 0 <= i < |bs| ==> !Separate(bs[i])
    ensures PartsSay(role, ContentParts(bs)) == AllShown(bs, role)
  {
    hide PartsSay, OutputText;
    NothingListed(role);
    if bs != [] {
      var init, b := bs[..|bs| - 1], bs[|bs| - 1];
      ShownAreParts(init, role);
      assert !Separate(b);
      assert ContentParts(init) + [] == ContentParts(init) && AllShown(init, role) + [] == AllShown(init, role);
      match b
      case TextBlock(_, text) => PartsSnoc(role, ContentParts(init), Part.TextPart(text));
      case DataBlock(_, source) => PartsSnoc(role, ContentParts(init), ImagePart(SourceUrl(source)));
      case _ =>
    }
  }

  lemma {:induction false} CalledAreDicts(bs: seq<Block>)
    ensures DictsSay(CallsOf(bs)) == AllCalled(bs)
  {
    hide DictsSay;
    NothingListed(User);
    if bs != [] {
      var init, b := bs[..|bs| - 1], bs[|bs| - 1];
      CalledAreDicts(init);
      assert CallsOf(init) + [] == CallsOf(init) && AllCalled(init) + [] == AllCalled(init);
      if b.ToolCallBlock? { DictsSnoc(CallsOf(init), CallDict(Prelude.Some(b.callId), b.name, b.arguments)); }
    }
  }

  lemma {:induction false} ThoughtsAreThoughts(bs: seq<Block>)
    ensures Thoughts(bs) == AllThought(bs)
  {
    if bs != [] { ThoughtsAreThoughts(bs[..|bs| - 1]); }
  }

  lemma {:induction false} NoFirstResult(bs: seq<Block>)
    requires forall i :: 0 <= i < |bs| ==> !Separate(bs[i])
    ensures FirstResult(bs) == ToolMessage("", "")
  {
    if bs != [] { NoFirstResult(bs[1..]); }
  }

  lemma {:induction false} StretchIsTold(bs: seq<Block>, role: Role)
    requires bs != [] && forall i :: 0 <= i < |bs| ==> !Separate(bs[i])
    ensures MessageSays(ToMessage(bs, role)) == StretchSays(bs, role)
  {
    hide ContentParts, Thoughts, CallsOf, AllShown, AllThought, AllCalled, FirstResult, Lines, Prelude.Join;
    ShownAreParts(bs, role);
    CalledAreDicts(bs);
    ThoughtsAreThoughts(bs);
    NoFirstResult(bs);
    LinesAreJoined(AllThought(bs));
    NothingListed(role);
  }

  lemma NothingListed(role: Role)
    ensures PartsSay(role, []) == [] && DictsSay([]) == []
  {
  }

  lemma {:induction false} SeparateIsTold(b: Block)
    requires Separate(b)
    ensures MessageSays(if b.HintBlock? then HintMessage(b.hint) else ToolMessage(b.resultId, OutputText(b.output))) == SeparateSays(b)
  {
    hide OutputText, Lines, Filled;
    if b.ToolResultBlock? { OutputIsTold(b.output); }
  }

  ghost predicate Tells(p: Partial, bs: seq<Block>, role: Role)
  {
    && p.waiting == bs[LastStretch(bs)..]
    && MessagesSay(p.out) + StretchSays(p.waiting, role) == BlocksSay(bs, role)
    && (p == Partial([], []) <==> bs == [])
  }

  lemma {:induction false} FlushTells(p: Partial, bs: seq<Block>, role: Role)
    requires Tells(p, bs, role)
    ensures MessagesSay(Flush(p, role)) == BlocksSay(bs, role) && (Flush(p, role) == [] <==> bs == [])
  {
    hide MessageSays, ToMessage, StretchSays, BlocksSay, MessagesSay;
    NothingSaid(role);
    if p.waiting == [] {
      assert MessagesSay(p.out) + [] == MessagesSay(p.out);
    } else {
      StretchIsTold(p.waiting, role);
      MessagesSnoc(p.out, ToMessage(p.waiting, role));
    }
  }

  lemma {:induction false} SeparateTells(p: Partial, bs: seq<Block>, b: Block, role: Role)
    requires Tells(p, bs, role) && Separate(b)
    ensures Tells(AddBlock(p, b, role), bs + [b], role)
  {
    hide MessageSays, ToMessage, HintMessage, ToolMessage, StretchSays, OutputText, MessagesSay, SeparateSays, Flush;
    var all := bs + [b];
    assert all[..|all| - 1] == bs && all[|all|..] == [] && all[|all| - 1] == b;
    assert LastStretch(all) == |all|;
    FlushTells(p, bs, role);
    SeparateIsTold(b);
    NothingSaid(role);
    MessagesSnoc(Flush(p, role), if b.HintBlock? then HintMessage(b.hint) else ToolMessage(b.resultId, OutputText(b.output)));
    assert BlocksSay(all, role) == (BlocksSay(bs, role) + SeparateSays(b)) + [];
  }

  lemma {:induction false} JoinTells(p: Partial, bs: seq<Block>, b: Block, role: Role)
    requires Tells(p, bs, role) && !Separate(b)
    ensures Tells(AddBlock(p, b, role), bs + [b], role)
  {
    hide MessageSays, StretchSays, MessagesSay, SeparateSays;
    var all, n := bs + [b], LastStretch(bs);
    assert all[..|all| - 1] == bs && all[|all| - 1] == b;
    assert LastStretch(all) == n;
    assert all[n..] == bs[n..] + [b];
    NothingSaid(role);
    if n > 0 { assert all[..n - 1] == bs[..n - 1]; }
    var before := if n == 0 then [] else BlocksSay(bs[..n - 1], role) + SeparateSays(bs[n - 1]);
    assert BlocksSay(bs, role) == before + StretchSays(bs[n..], role);
    assert BlocksSay(all, role) == before + StretchSays(all[n..], role);
    SameEnd(MessagesSay(p.out), before, StretchSays(bs[n..], role));
  }

  lemma SameEnd<T>(a: seq<T>, b: seq<T>, end: seq<T>)
    requires a + end == b + end
    ensures a == b
  {
    assert |a + end| == |b + end|;
    assert a == (a + end)[..|a|] && b == (b + end)[..|b|];
  }

  lemma {:induction false} PartialTells(bs: seq<Block>, role: Role)
    ensures Tells(AddBlocks(bs, role), bs, role)
  {
    hide AddBlock, Tells;
    if bs == [] {
      NothingTold(role);
    } else {
      var init, b := bs[..|bs| - 1], bs[|bs| - 1];
      PartialTells(init, role);
      assert init + [b] == bs;
      if Separate(b) { SeparateTells(AddBlocks(init, role), init, b, role); } else { JoinTells(AddBlocks(init, role), init, b, role); }
    }
  }

  lemma NothingTold(role: Role)
    ensures Tells(Partial([], []), [], role)
  {
  }

  lemma NothingSaid(role: Role)
    ensures StretchSays([], role) == [] && MessagesSay([]) == []
  {
  }

  /**
   * For every block list and role, the provider messages it flattens into say exactly what the blocks
   * say, in order: texts and images under the role, thoughts, calls, each hint as a user message with
   * its own text, and each result as the answer to its call.
   */
  lemma {:induction false} FlatSaysTheBlocks(bs: seq<Block>, role: Role)
    ensures MessagesSay(Flat(bs, role)) == if bs == [] && role == Tool then [Answered("", "")] else BlocksSay(bs, role)
  {
    hide AddBlocks, Flush, BlocksSay;
    PartialTells(bs, role);
    FlushTells(AddBlocks(bs, role), bs, role);
    if bs == [] { EmptySays(role); }
  }

  lemma EmptySays(role: Role)
    ensures MessagesSay([ToMessage([], role)]) == if role == Tool then [Answered("", "")] else []
    ensures BlocksSay([], role) == []
  {
    assert [ToMessage([], role)][..0] == [];
  }

  function ContextSays(context: seq<Msg>): seq<Utterance>
  {
    if context == [] then []
    else
      var m := context[0];
      (if m.content == [] && m.role == Tool then [Answered("", "")] else BlocksSay(m.content, m.role)) + ContextSays(context[1..])
  }

  /** And so do all messages of a context, one after the other. */
  lemma {:induction false} ContextIsTold(context: seq<Msg>)
    ensures MessagesSay(FlatAll(context)) == ContextSays(context)
  {
    hide Flat, BlocksSay, MessageSays;
    if context != [] {
      FlatSaysTheBlocks(context[0].content, context[0].role);
      ContextIsTold(context[1..]);
      MessagesAppend(Flat(context[0].content, context[0].role), FlatAll(context[1..]));
    }
  }
}
