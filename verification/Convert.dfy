/**
 * Messages read back from their provider form: data URLs, JSON arguments, and the normal form that
 * writing a message reaches after one step.
 */
module Convert {
  import opened Prelude
  import opened Messages
  import opened Events
  import opened Views

  // ---------------------------------------------------------------------------
  // Text search
  // ---------------------------------------------------------------------------

  /** The first place of a character, or the length of the text. */
  function IndexOf(s: string, c: char): (i: nat)
    ensures i <= |s| && c !in s[..i] && (i < |s| ==> s[i] == c)
  {
    if s == "" then 0
    else if s[0] == c then 0
    else
      var i := IndexOf(s[1..], c);
      assert s[..i + 1] == [s[0]] + s[1..][..i];
      1 + i
  }

  /** The text before and after the first such character; all of it and nothing when there is none. */
  function Partition(s: string, c: char): (string, string)
  {
    var i := IndexOf(s, c);
    if i < |s| then (s[..i], s[i + 1..]) else (s, "")
  }

  predicate HasPart(s: string, part: string)
  {
    |part| <= |s| && (s[..|part|] == part || (s != "" && HasPart(s[1..], part)))
  }

  lemma {:induction false} EndsWithPart(a: string, part: string)
    ensures HasPart(a + part, part)
  {
    if a == "" {
      assert a + part == part;
    } else {
      assert (a + part)[1..] == a[1..] + part;
      EndsWithPart(a[1..], part);
    }
  }

  // ---------------------------------------------------------------------------
  // Data URLs (section 3 of RFC 2397)
  // ---------------------------------------------------------------------------

  const DATA: string := "data:"

  const BASE64: string := ";base64"

  /** The media type between the first colon and the first semicolon; empty means the default. */
  function MediaTypeOf(header: string): string
  {
    var kind := Partition(header, ';').0;
    var i := IndexOf(kind, ':');
    var mt := if i < |kind| then kind[i + 1..] else kind;
    if mt == "" then "image/png" else mt
  }

  /** The source an image URL stands for. */
  function ParseUrl(url: string): Source
  {
    if !(DATA <= url) then Url(url, "image/png")
    else
      var (header, payload) := Partition(url, ',');
      if HasPart(header, BASE64) then Base64(payload, MediaTypeOf(header)) else Url(url, MediaTypeOf(header))
  }

  /** A media type that survives being printed into a data URL. */
  predicate PlainMediaType(mt: string) { mt != "" && ',' !in mt && ';' !in mt }

  lemma {:induction false} IndexFirst(a: string, c: char, b: string)
    requires c !in a
    ensures IndexOf(a + [c] + b, c) == |a|
  {
    var s := a + [c] + b;
    if a != "" {
      assert s[1..] == a[1..] + [c] + b;
      IndexFirst(a[1..], c, b);
      assert s[0] == a[0];
    }
  }

  lemma {:induction false} PartitionFirst(a: string, c: char, b: string)
    requires c !in a
    ensures Partition(a + [c] + b, c) == (a, b)
  {
    IndexFirst(a, c, b);
    var s := a + [c] + b;
    assert s[..|a|] == a && s[|a| + 1..] == b;
  }

  lemma {:induction false} Found(s: string, c: char)
    requires c in s
    ensures IndexOf(s, c) < |s|
  {
    if s[0] != c {
      assert s == [s[0]] + s[1..];
      Found(s[1..], c);
    }
  }

  /** A text with a character in it, split at the first one. */
  lemma {:induction false} SplitAt(s: string, c: char) returns (a: string, b: string)
    requires c in s
    ensures s == a + [c] + b && c !in a
  {
    hide IndexOf;
    Found(s, c);
    var i := IndexOf(s, c);
    a, b := s[..i], s[i + 1..];
    assert s == s[..i] + [s[i]] + s[i + 1..];
  }

  lemma {:induction false} HeaderParts(mt: string)
    requires ',' !in mt
    ensures ',' !in DATA + mt + BASE64 && HasPart(DATA + mt + BASE64, BASE64)
  {
    EndsWithPart(DATA + mt, BASE64);
  }

  lemma {:induction false} HeaderMediaType(mt: string)
    requires ';' !in mt
    ensures MediaTypeOf(DATA + mt + BASE64) == if mt == "" then "image/png" else mt
  {
    var kind := DATA + mt;
    assert DATA + mt + BASE64 == kind + [';'] + "base64";
    PartitionFirst(kind, ';', "base64");
    assert kind == "data" + [':'] + mt;
    IndexFirst("data", ':', mt);
    assert kind[4 + 1..] == mt;
  }

  lemma {:induction false} PlainRoundTrip(data: string, mt: string)
    requires ',' !in mt && ';' !in mt
    ensures ParseUrl(SourceUrl(Base64(data, mt))) == Base64(data, if mt == "" then "image/png" else mt)
  {
    hide HasPart, MediaTypeOf, IndexOf, Partition;
    var header, url := DATA + mt + BASE64, SourceUrl(Base64(data, mt));
    assert url == header + [','] + data;
    HeaderParts(mt);
    HeaderMediaType(mt);
    PartitionFirst(header, ',', data);
  }

  /** A comma in the media type moves the payload. */
  lemma {:induction false} CommaBreaks(data: string, mt: string)
    requires ',' in mt
    ensures ParseUrl(SourceUrl(Base64(data, mt))) != Base64(data, mt)
  {
    hide HasPart, MediaTypeOf, IndexOf, Partition;
    var a, b := SplitAt(mt, ',');
    var url := SourceUrl(Base64(data, mt));
    assert url == (DATA + a) + [','] + (b + BASE64 + [','] + data);
    PartitionFirst(DATA + a, ',', b + BASE64 + [','] + data);
    assert |b + BASE64 + [','] + data| > |data|;
  }

  /** A semicolon cuts it short. */
  lemma {:induction false} SemicolonBreaks(data: string, mt: string)
    requires ',' !in mt && ';' in mt
    ensures ParseUrl(SourceUrl(Base64(data, mt))) != Base64(data, mt)
  {
    hide HasPart, IndexOf, Partition;
    var header, url := DATA + mt + BASE64, SourceUrl(Base64(data, mt));
    assert url == header + [','] + data;
    HeaderParts(mt);
    PartitionFirst(header, ',', data);
    var a, b := SplitAt(mt, ';');
    assert header == (DATA + a) + [';'] + (b + BASE64);
    PartitionFirst(DATA + a, ';', b + BASE64);
    assert DATA + a == "data" + [':'] + a;
    IndexFirst("data", ':', a);
    assert (DATA + a)[5..] == a;
    assert ';' !in "image/png";
  }

  /** A base64 source survives its data URL exactly when its media type is plain. */
  lemma {:induction false} DataUrlRoundTripIff(data: string, mt: string)
    ensures ParseUrl(SourceUrl(Base64(data, mt))) == Base64(data, mt) <==> PlainMediaType(mt)
  {
    if ',' in mt {
      CommaBreaks(data, mt);
    } else if ';' in mt {
      SemicolonBreaks(data, mt);
    } else {
      PlainRoundTrip(data, mt);
    }
  }

  // ---------------------------------------------------------------------------
  // Reading messages
  // ---------------------------------------------------------------------------

  /** Printing JSON; the text is never empty and reads back as the value. */
  ghost predicate Inverse(dump: Json -> string, read: Reader)
  {
    forall j :: dump(j) != "" && read(dump(j)) == Some(j)
  }

  function FromPart(p: Part): Block
  {
    match p
    case TextPart(text) => TextBlock(0, text)
    case ImagePart(url) => DataBlock(0, ParseUrl(url))
  }

  function FromParts(ps: seq<Part>): seq<Block>
  {
    if ps == [] then [] else FromParts(ps[..|ps| - 1]) + [FromPart(ps[|ps| - 1])]
  }

  /** The arguments text of a call, read back; unreadable text counts as none. */
  function ArgumentsFrom(read: Reader, text: string): Json
  {
    if text == "" || read(text) == None then NO_ARGUMENTS else read(text).value
  }

  function FromCalls(dump: Json -> string, read: Reader, cs: seq<CallDict>): seq<Block>
  {
    if cs == [] then []
    else
      var c := cs[|cs| - 1];
      FromCalls(dump, read, cs[..|cs| - 1])
      + [ToolCallBlock(if c.id.Some? then c.id.value else "", c.name, ArgumentsFrom(read, dump(c.arguments)), Pending)]
  }

  function FromContent(c: Content): seq<Block>
  {
    match c
    case Null => []
    case Str(text) => if text == "" then [] else [TextBlock(0, text)]
    case Parts(ps) => FromParts(ps)
  }

  /** `from_openai_message`: content, then reasoning, then calls. Block ids are drawn afresh and do not matter. */
  function FromMessage(dump: Json -> string, read: Reader, m: Message): seq<Block>
  {
    if m.role == Tool then
      [ToolResultBlock(if m.toolCallId.Some? then m.toolCallId.value else "", "", Plain(ContentText(m.content)), Success)]
    else
      FromContent(m.content)
      + (if m.reasoning.Some? && m.reasoning.value != "" then [ThinkingBlock(0, m.reasoning.value)] else [])
      + (if m.toolCalls.Some? then FromCalls(dump, read, m.toolCalls.value) else [])
  }

  function ContentText(c: Content): string { match c case Str(text) => text case _ => "" }

  method FromOpenAIMessage(dump: Json -> string, read: Reader, m: Message) returns (blocks: seq<Block>)
    ensures blocks == FromMessage(dump, read, m)
  {
    if m.role == Tool {
      return [ToolResultBlock(if m.toolCallId.Some? then m.toolCallId.value else "", "", Plain(ContentText(m.content)), Success)];
    }
    blocks := [];
    match m.content {
      case Parts(ps) =>
        for i := 0 to |ps|
          invariant blocks == FromParts(ps[..i])
        {
          assert ps[..i + 1][..i] == ps[..i];
          blocks := blocks + [FromPart(ps[i])];
        }
        assert ps[..|ps|] == ps;
      case Str(text) => if text != "" { blocks := [TextBlock(0, text)]; }
      case Null =>
    }
    if m.reasoning.Some? && m.reasoning.value != "" { blocks := blocks + [ThinkingBlock(0, m.reasoning.value)]; }
    if m.toolCalls.Some? {
      var cs := m.toolCalls.value;
      ghost var before := blocks;
      for i := 0 to |cs|
        invariant blocks == before + FromCalls(dump, read, cs[..i])
      {
        assert cs[..i + 1][..i] == cs[..i];
        var arguments := ArgumentsFrom(read, dump(cs[i].arguments));
        blocks := blocks + [ToolCallBlock(if cs[i].id.Some? then cs[i].id.value else "", cs[i].name, arguments, Pending)];
      }
      assert cs[..|cs|] == cs;
    }
  }

  /** How many blocks the content gives. */
  function ContentCount(c: Content): nat
  {
    match c case Null => 0 case Str(text) => if text == "" then 0 else 1 case Parts(ps) => |ps|
  }

  lemma {:induction false} FromPartsAt(ps: seq<Part>)
    ensures |FromParts(ps)| == |ps|
    ensures forall i :: 0 <= i < |ps| ==> FromParts(ps)[i] == FromPart(ps[i])
  {
    hide FromPart;
    if ps != [] { FromPartsAt(ps[..|ps| - 1]); }
  }

  lemma {:induction false} FromCallsAt(dump: Json -> string, read: Reader, cs: seq<CallDict>)
    ensures |FromCalls(dump, read, cs)| == |cs|
    ensures forall i :: 0 <= i < |cs| ==>
      (var id := if cs[i].id.Some? then cs[i].id.value else "";
       FromCalls(dump, read, cs)[i] == ToolCallBlock(id, cs[i].name, ArgumentsFrom(read, dump(cs[i].arguments)), Pending))
  {
    hide ArgumentsFrom;
    if cs != [] { FromCallsAt(dump, read, cs[..|cs| - 1]); }
  }

  /** Each call is a pending call with its id, its name and its arguments; arguments that do not read count as none. */
  ghost predicate CallsRead(dump: Json -> string, read: Reader, cs: seq<CallDict>, bs: seq<Block>)
  {
    && |bs| == |cs|
    && forall j :: 0 <= j < |cs| ==>
         && bs[j].ToolCallBlock? && bs[j].state == Pending && bs[j].name == cs[j].name
         && bs[j].callId == (match cs[j].id case Some(id) => id case None => "")
         && bs[j].arguments == (match read(dump(cs[j].arguments))
                                case Some(value) => if dump(cs[j].arguments) == "" then NO_ARGUMENTS else value
                                case None => NO_ARGUMENTS)
  }

  /** Each part is a text block with its text or a data block with its source. */
  ghost predicate ContentRead(c: Content, bs: seq<Block>)
  {
    && |bs| == ContentCount(c)
    && (c.Str? && c.text != "" ==> bs[0] == TextBlock(0, c.text))
    && (c.Parts? ==> forall i :: 0 <= i < |bs| ==>
          bs[i] == match c.parts[i] case TextPart(text) => TextBlock(0, text) case ImagePart(url) => DataBlock(0, ParseUrl(url)))
  }

  lemma {:induction false} CallsAreRead(dump: Json -> string, read: Reader, cs: seq<CallDict>)
    ensures CallsRead(dump, read, cs, FromCalls(dump, read, cs))
  {
    FromCallsAt(dump, read, cs);
    hide FromCalls;
  }

  lemma {:induction false} ContentIsRead(c: Content)
    ensures ContentRead(c, FromContent(c))
  {
    if c.Parts? { FromPartsAt(c.parts); }
    hide FromParts, ParseUrl;
  }

  /**
   * What a provider message reads back as: first a block for each part of the content, then the
   * reasoning if there is any, then a pending call for each call, in the order of the message. A tool
   * message is one successful result.
   */
  lemma {:induction false} ReadBackIs(dump: Json -> string, read: Reader, m: Message) returns (content: seq<Block>, thinking: seq<Block>, calls: seq<Block>)
    ensures m.role == Tool ==>
      FromMessage(dump, read, m) == [ToolResultBlock(match m.toolCallId case Some(id) => id case None => "", "",
                                                     Plain(match m.content case Str(text) => text case _ => ""), Success)]
    ensures m.role != Tool ==> FromMessage(dump, read, m) == content + thinking + calls
    ensures ContentRead(m.content, content)
    ensures thinking == match m.reasoning case Some(text) => (if text != "" then [ThinkingBlock(0, text)] else []) case None => []
    ensures CallsRead(dump, read, match m.toolCalls case Some(cs) => cs case None => [], calls)
  {
    hide ContentRead, CallsRead, FromContent, FromCalls;
    content := FromContent(m.content);
    ContentIsRead(m.content);
    thinking := if m.reasoning.Some? && m.reasoning.value != "" then [ThinkingBlock(0, m.reasoning.value)] else [];
    calls := FromCalls(dump, read, if m.toolCalls.Some? then m.toolCalls.value else []);
    CallsAreRead(dump, read, if m.toolCalls.Some? then m.toolCalls.value else []);
    NoCallsRead(dump, read);
  }

  lemma NoCallsRead(dump: Json -> string, read: Reader)
    ensures FromCalls(dump, read, []) == []
  {
  }

  // ---------------------------------------------------------------------------
  // The normal form
  // ---------------------------------------------------------------------------

  /** A data URL header that prints back as it was: `data:`, a media type, and `;base64`. */
  predicate CanonicalHeader(header: string)
  {
    && |DATA| + |BASE64| < |header|
    && header[|header| - |BASE64|..] == BASE64
    && ';' !in header[|DATA|..|header| - |BASE64|]
  }

  /** An image URL that is no base64 data URL, or one with a canonical header and a payload after the comma. */
  predicate StableUrl(url: string)
  {
    var header := Partition(url, ',').0;
    !(DATA <= url) || !HasPart(header, BASE64) || (',' in url && CanonicalHeader(header))
  }

  lemma {:induction false} MediaTypePlain(header: string)
    ensures MediaTypeOf(header) != "" && ';' !in MediaTypeOf(header)
  {
  }

  lemma {:induction false} CanonicalPrints(url: string)
    requires DATA <= url && ',' in url && CanonicalHeader(Partition(url, ',').0)
    ensures SourceUrl(ParseUrl(url)) == url
  {
    hide HasPart, MediaTypeOf, IndexOf;
    Found(url, ',');
    var (header, payload) := Partition(url, ',');
    var mt := header[|DATA|..|header| - |BASE64|];
    assert DATA <= header by { DataHeader(url, header, payload); }
    assert header == DATA + mt + BASE64;
    assert url == header + [','] + payload;
    assert url == SourceUrl(Base64(payload, mt));
    assert forall c :: c in mt ==> c in header;
    PlainRoundTrip(payload, mt);
  }

  lemma DataHeader(url: string, header: string, payload: string)
    requires DATA <= url && url == header + [','] + payload
    ensures DATA <= header
  {
    assert ',' !in url[..|DATA|];
    assert url[|header|] == ',';
    assert url[..|DATA|] == header[..|DATA|];
  }

  lemma {:induction false} PrintedIsCanonical(url: string)
    requires DATA <= url && HasPart(Partition(url, ',').0, BASE64) && SourceUrl(ParseUrl(url)) == url
    ensures ',' in url && CanonicalHeader(Partition(url, ',').0)
  {
    hide HasPart, MediaTypeOf;
    var (header, payload) := Partition(url, ',');
    var mt := MediaTypeOf(header);
    MediaTypePlain(header);
    var printed := DATA + mt + BASE64;
    assert url == printed + [','] + payload;
    assert url[|printed|] == ',';
    Found(url, ',');
    assert |header| == |url| - 1 - |payload| == |printed|;
    assert header == url[..|printed|] == printed;
    assert header[|header| - |BASE64|..] == BASE64 && header[|DATA|..|header| - |BASE64|] == mt;
  }

  /** Exactly the stable URLs read back and print as they were. */
  lemma {:induction false} UrlStableIff(url: string)
    ensures SourceUrl(ParseUrl(url)) == url <==> StableUrl(url)
  {
    hide HasPart, MediaTypeOf, CanonicalHeader, Partition;
    if DATA <= url && HasPart(Partition(url, ',').0, BASE64) {
      if ',' in url && CanonicalHeader(Partition(url, ',').0) { CanonicalPrints(url); }
      if SourceUrl(ParseUrl(url)) == url { PrintedIsCanonical(url); }
    }
  }

  /** Every data block of the message prints as a stable URL. */
  ghost predicate StableSources(bs: seq<Block>)
  {
    forall i :: 0 <= i < |bs| && bs[i].DataBlock? ==> StableUrl(SourceUrl(bs[i].source))
  }

  ghost predicate StableParts(ps: seq<Part>)
  {
    forall i :: 0 <= i < |ps| && ps[i].ImagePart? ==> StableUrl(ps[i].url)
  }

  lemma StablePartsSnoc(ps: seq<Part>, p: Part)
    ensures StableParts(ps + [p]) <==> StableParts(ps) && (p.ImagePart? ==> StableUrl(p.url))
  {
    assert (ps + [p])[|ps|] == p;
    assert forall i :: 0 <= i < |ps| ==> (ps + [p])[i] == ps[i];
  }

  lemma {:induction false} WrittenPartsStable(bs: seq<Block>)
    ensures StableParts(ContentParts(bs)) <==> StableSources(bs)
  {
    hide SourceUrl, StableUrl, OutputText;
    if bs != [] {
      var init, b := bs[..|bs| - 1], bs[|bs| - 1];
      WrittenPartsStable(init);
      assert StableSources(bs) <==> StableSources(init) && (b.DataBlock? ==> StableUrl(SourceUrl(b.source))) by {
        assert forall i :: 0 <= i < |init| ==> init[i] == bs[i];
        assert b == bs[|bs| - 1];
      }
      hide StableParts, StableSources;
      var parts := ContentParts(init);
      assert parts + [] == parts;
      match b
      case TextBlock(_, text) => StablePartsSnoc(parts, Part.TextPart(text));
      case DataBlock(_, source) => StablePartsSnoc(parts, ImagePart(SourceUrl(source)));
      case HintBlock(_, hint) => StablePartsSnoc(parts, Part.TextPart(hint));
      case ToolResultBlock(_, _, output, _) => StablePartsSnoc(parts, Part.TextPart(OutputText(output)));
      case _ =>
    }
  }

  lemma {:induction false} FromPartsWrite(ps: seq<Part>)
    ensures ContentParts(FromParts(ps)) == ps <==> StableParts(ps)
    ensures |ContentParts(FromParts(ps))| == |ps| && Thoughts(FromParts(ps)) == [] && CallsOf(FromParts(ps)) == []
  {
    hide SourceUrl, ParseUrl, StableUrl;
    if ps != [] {
      var init, p := ps[..|ps| - 1], ps[|ps| - 1];
      FromPartsWrite(init);
      assert ps == init + [p];
      StablePartsSnoc(init, p);
      var bs, b := FromParts(init), FromPart(p);
      assert (bs + [b])[..|bs|] == bs;
      if p.ImagePart? { UrlStableIff(p.url); }
      var back := if p.TextPart? then p else ImagePart(SourceUrl(ParseUrl(p.url)));
      assert ContentParts(FromParts(ps)) == ContentParts(bs) + [back];
      assert ContentParts(bs) + [back] == init + [p] <==> ContentParts(bs) == init && back == p by {
        SnocEqual(ContentParts(bs), back, init, p);
      }
    }
  }

  lemma SnocEqual<T>(a: seq<T>, x: T, b: seq<T>, y: T)
    ensures a + [x] == b + [y] <==> a == b && x == y
  {
    if a + [x] == b + [y] {
      assert |a + [x]| == |b + [y]|;
      assert a == (a + [x])[..|a|] && b == (b + [y])[..|b|];
      assert x == (a + [x])[|a|] && y == (b + [y])[|b|];
    }
  }

  lemma {:induction false} CallWrites(bs: seq<Block>, id: string, name: string, arguments: Json)
    ensures var more := bs + [ToolCallBlock(id, name, arguments, Pending)];
      && CallsOf(more) == CallsOf(bs) + [CallDict(Some(id), name, arguments)]
      && ContentParts(more) == ContentParts(bs) && Thoughts(more) == Thoughts(bs)
  {
    assert (bs + [ToolCallBlock(id, name, arguments, Pending)])[..|bs|] == bs;
  }

  lemma {:induction false} FromCallsWrite(dump: Json -> string, read: Reader, cs: seq<CallDict>)
    requires Inverse(dump, read) && forall i :: 0 <= i < |cs| ==> cs[i].id.Some?
    ensures CallsOf(FromCalls(dump, read, cs)) == cs
    ensures ContentParts(FromCalls(dump, read, cs)) == [] && Thoughts(FromCalls(dump, read, cs)) == []
  {
    hide ContentParts, Thoughts, CallsOf;
    if cs == [] {
      OneThought("");
    } else {
      var init, c := cs[..|cs| - 1], cs[|cs| - 1];
      FromCallsWrite(dump, read, init);
      assert cs == init + [c];
      assert dump(c.arguments) != "" && read(dump(c.arguments)) == Some(c.arguments);
      CallWrites(FromCalls(dump, read, init), c.id.value, c.name, c.arguments);
    }
  }

  lemma {:induction false} WrittenCallsNamed(bs: seq<Block>)
    ensures forall i :: 0 <= i < |CallsOf(bs)| ==> CallsOf(bs)[i].id.Some?
  {
    if bs != [] { WrittenCallsNamed(bs[..|bs| - 1]); }
  }

  lemma {:induction false} OneThought(thought: string)
    ensures Thoughts([ThinkingBlock(0, thought)]) == [thought]
    ensures ContentParts([ThinkingBlock(0, thought)]) == [] && CallsOf([ThinkingBlock(0, thought)]) == []
    ensures ContentParts([]) == [] && Thoughts([]) == [] && CallsOf([]) == []
    ensures Join("\n", [thought]) == thought && Join("\n", []) == ""
  {
    assert [ThinkingBlock(0, thought)][..0] == [];
  }

  /** A tool message always reads back as the result it was written from. */
  lemma {:induction false} ToolMessageStable(dump: Json -> string, read: Reader, bs: seq<Block>)
    ensures ToMessage(FromMessage(dump, read, FirstResult(bs)), Tool) == FirstResult(bs)
  {
    if bs != [] && !bs[0].ToolResultBlock? { ToolMessageStable(dump, read, bs[1..]); }
  }

  /**
   * Reading a written message back and writing it again gives the same message exactly when every
   * image it shows has a stable URL; a tool message is always stable.
   */
  lemma {:induction false} WrittenIsStable(dump: Json -> string, read: Reader, bs: seq<Block>, role: Role)
    requires Inverse(dump, read)
    ensures ToMessage(FromMessage(dump, read, ToMessage(bs, role)), role) == ToMessage(bs, role) <==> role == Tool || StableSources(bs)
  {
    hide ContentParts, Thoughts, CallsOf, FromParts, FromCalls, Join, FirstResult, StableSources, StableParts;
    if role == Tool {
      ToolMessageStable(dump, read, bs);
    } else {
      var m := ToMessage(bs, role);
      var content := FromContent(m.content);
      var thinking := if m.reasoning.Some? && m.reasoning.value != "" then [ThinkingBlock(0, m.reasoning.value)] else [];
      var calls := if m.toolCalls.Some? then FromCalls(dump, read, m.toolCalls.value) else [];
      WrittenPartsStable(bs);
      WrittenCallsNamed(bs);
      FromPartsWrite(ContentParts(bs));
      FromCallsWrite(dump, read, CallsOf(bs));
      OneThought(Join("\n", Thoughts(bs)));
      SaidAppend(content + thinking, calls);
      SaidAppend(content, thinking);
      var back := FromMessage(dump, read, m);
      assert back == content + thinking + calls;
      assert ContentParts(back) == ContentParts(bs) <==> StableSources(bs);
      assert |ContentParts(back)| == |ContentParts(bs)|;
      assert CallsOf(back) == CallsOf(bs);
      var joined := Join("\n", Thoughts(bs));
      if role == Assistant {
        assert Thoughts(back) == if joined != "" then [joined] else [];
      }
    }
  }
}
