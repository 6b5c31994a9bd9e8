/**
 * The message a host rebuilds from the events of one attempt, compared with the blocks the runner
 * writes for it: they tell the provider the same exactly when the attempt is orderly.
 */
module Agreement {
  import opened Prelude
  import opened StreamChunks
  import opened Messages
  import opened Events
  import opened Reasoning
  import opened BlockAssembly
  import opened Bracketing
  import opened Flatten
  import opened Views
  import opened AttemptFold

  function Names(calls: seq<Call>): seq<Named>
  {
    if calls == [] then [] else Names(calls[..|calls| - 1]) + [Named(calls[|calls| - 1].id, calls[|calls| - 1].name)]
  }

  /** Not the text of a falsy value other than no arguments. */
  predicate LegibleText(read: Reader, arguments: string)
  {
    read(arguments) == None || read(arguments).value.Truthy() || read(arguments).value == NO_ARGUMENTS
  }

  /** The host reads a call's arguments as the runner does. */
  predicate Legible(read: Reader, e: Ending)
  {
    if e.arguments != "" then LegibleText(read, e.arguments)
    else ReadArguments(read, e.buffer) == NO_ARGUMENTS
  }

  predicate OneBlock(starts: nat, words: string) { starts == 0 || (starts == 1 && words != "") }

  /**
   * At most one text block and one thinking block, neither empty; the calls that are kept are the
   * announced ones, under the announced names and in that order; and their arguments are legible.
   */
  ghost predicate Orderly(read: Reader, es: seq<Event>, kept: seq<Call>)
  {
    && OneBlock(StartCount(es, TextKind), TextSent(es))
    && OneBlock(StartCount(es, ThinkingKind), ThinkingSent(es))
    && OrderlyCalls(read, es, kept)
  }

  ghost predicate OrderlyCalls(read: Reader, es: seq<Event>, kept: seq<Call>)
  {
    && Starts(es) == Names(kept)
    && forall j :: 0 <= j < |Ends(es)| ==> Legible(read, Ends(es)[j])
  }

  lemma {:induction false} LegibleIff(read: Reader, e: Ending, c: Call)
    requires c.input == ParsedInput(read, e.arguments)
    ensures ReadArguments(read, Raw(e)) == Arguments(c) <==> Legible(read, e)
  {
  }

  lemma ConcatOne(w: string)
    ensures Concat([w]) == w && Concat([]) == ""
  {
    assert [w][..0] == [];
    assert "" + w == w;
  }

  lemma {:induction false} SpeechOneBlock(bs: seq<Block>, k: Kind, starts: nat, said: string, open: Option<nat>, nextId: nat)
    requires IsSpoken(k) && Tells(bs, k, starts, said, open, nextId)
    ensures starts == 0 ==> said == ""
    ensures WordsIn(bs) == (if said != "" then [said] else []) <==> OneBlock(starts, said)
  {
    hide Concat, WordsIn, Find;
    WordsLength(bs);
    ConcatOne(said);
    if starts == 0 {
      assert WordsIn(bs) == [];
    } else if starts == 1 {
      var w := WordsIn(bs)[0];
      assert WordsIn(bs) == [w];
      ConcatOne(w);
    }
  }

  lemma {:induction false} WordsLength(bs: seq<Block>)
    ensures |WordsIn(bs)| == |bs|
  {
    if bs != [] { WordsLength(bs[..|bs| - 1]); }
  }

  function TextParts(words: seq<string>): seq<Part> { seq(|words|, i requires 0 <= i < |words| => Part.TextPart(words[i])) }

  lemma {:induction false} TextPartsInjective(a: seq<string>, b: seq<string>)
    ensures TextParts(a) == TextParts(b) <==> a == b
  {
    if TextParts(a) == TextParts(b) {
      assert |a| == |TextParts(a)| == |TextParts(b)| == |b|;
      forall i | 0 <= i < |a|
        ensures a[i] == b[i]
      {
        assert TextParts(a)[i] == TextParts(b)[i];
      }
    }
  }

  ghost predicate AllSpoken(bs: seq<Block>)
  {
    forall i :: 0 <= i < |bs| ==> KindOf(bs[i]) != OtherKind
  }

  lemma PartsSnoc(bs: seq<Block>, b: Block)
    requires KindOf(b) != OtherKind
    ensures ContentParts(bs + [b]) == ContentParts(bs) + if b.TextBlock? then [Part.TextPart(b.text)] else []
  {
    assert (bs + [b])[..|bs|] == bs;
  }

  lemma {:induction false} PartsByKind(bs: seq<Block>)
    requires AllSpoken(bs)
    ensures ContentParts(bs) == TextParts(WordsIn(Only(bs, TextKind)))
  {
    hide ContentParts, WordsIn, TextParts, Only;
    if bs == [] {
      NoParts();
    } else {
      var init, b := bs[..|bs| - 1], bs[|bs| - 1];
      assert bs == init + [b];
      PartsByKind(init);
      PartsSnoc(init, b);
      OnlySnoc(init, b, TextKind);
      if b.TextBlock? {
        WordsSnoc(Only(init, TextKind), b);
      } else {
        assert Only(init, TextKind) + [] == Only(init, TextKind) && ContentParts(init) + [] == ContentParts(init);
      }
    }
  }

  lemma NoParts()
    ensures ContentParts([]) == TextParts(WordsIn(Only([], TextKind)))
  {
  }

  lemma {:induction false} ThoughtsByKind(bs: seq<Block>)
    ensures Thoughts(bs) == WordsIn(Only(bs, ThinkingKind))
  {
    if bs != [] {
      var init, b := bs[..|bs| - 1], bs[|bs| - 1];
      ThoughtsByKind(init);
      WordsSnoc(Only(init, ThinkingKind), b);
      assert Only(init, ThinkingKind) + [] == Only(init, ThinkingKind);
      hide WordsIn;
    }
  }

  lemma {:induction false} CallsByKind(bs: seq<Block>)
    ensures CallsOf(bs) == CallsOf(Only(bs, CallKind))
  {
    if bs != [] {
      var init, b := bs[..|bs| - 1], bs[|bs| - 1];
      CallsByKind(init);
      CallsSnoc(Only(init, CallKind), b);
      assert Only(init, CallKind) + [] == Only(init, CallKind);
    }
  }

  lemma {:induction false} EmptyByKind(bs: seq<Block>)
    requires AllSpoken(bs)
    ensures bs == [] <==> Only(bs, TextKind) == [] && Only(bs, ThinkingKind) == [] && Only(bs, CallKind) == []
  {
    if bs != [] {
      var b := bs[|bs| - 1];
      assert KindOf(b) != OtherKind;
      OnlySnoc(bs[..|bs| - 1], b, KindOf(b));
      assert bs == bs[..|bs| - 1] + [b];
    }
  }

  /** The blocks of speech and calls, kind by kind, are what the provider sees. */
  lemma {:induction false} SaidByKind(bs: seq<Block>)
    requires AllSpoken(bs)
    ensures SaidIn(bs) == Said(TextParts(WordsIn(Only(bs, TextKind))), WordsIn(Only(bs, ThinkingKind)), CallsOf(Only(bs, CallKind)), bs != [])
    ensures bs == [] <==> WordsIn(Only(bs, TextKind)) == [] && WordsIn(Only(bs, ThinkingKind)) == [] && CallsOf(Only(bs, CallKind)) == []
  {
    hide ContentParts, Thoughts, CallsOf, Only, WordsIn, TextParts;
    PartsByKind(bs);
    ThoughtsByKind(bs);
    CallsByKind(bs);
    EmptyByKind(bs);
    WordsLength(Only(bs, TextKind));
    WordsLength(Only(bs, ThinkingKind));
    OnlyCalls(bs);
  }

  lemma {:induction false} OnlyCalls(bs: seq<Block>)
    ensures |CallsOf(Only(bs, CallKind))| == |Only(bs, CallKind)|
  {
    if bs != [] {
      OnlyCalls(bs[..|bs| - 1]);
      CallsSnoc(Only(bs[..|bs| - 1], CallKind), bs[|bs| - 1]);
      assert Only(bs[..|bs| - 1], CallKind) + [] == Only(bs[..|bs| - 1], CallKind);
    }
  }

  lemma WordsSnoc(bs: seq<Block>, b: Block)
    ensures WordsIn(bs + [b]) == WordsIn(bs) + [Words(b)]
    ensures TextParts(WordsIn(bs + [b])) == TextParts(WordsIn(bs)) + [Part.TextPart(Words(b))]
  {
    assert (bs + [b])[..|bs|] == bs;
  }

  lemma CallsSnoc(bs: seq<Block>, b: Block)
    ensures CallsOf(bs + [b]) == CallsOf(bs) + if b.ToolCallBlock? then [CallDict(Some(b.callId), b.name, b.arguments)] else []
  {
    assert (bs + [b])[..|bs|] == bs;
  }

  // ---------------------------------------------------------------------------
  // Calls
  // ---------------------------------------------------------------------------

  lemma {:induction false} CallDicts(cs: seq<Block>)
    requires forall i :: 0 <= i < |cs| ==> cs[i].ToolCallBlock?
    ensures |CallsOf(cs)| == |cs|
    ensures forall i :: 0 <= i < |cs| ==> CallsOf(cs)[i] == CallDict(Some(cs[i].callId), cs[i].name, cs[i].arguments)
  {
    if cs != [] {
      CallDicts(cs[..|cs| - 1]);
      CallsSnoc(cs[..|cs| - 1], cs[|cs| - 1]);
      assert cs == cs[..|cs| - 1] + [cs[|cs| - 1]];
    }
  }

  lemma {:induction false} NamesAt(calls: seq<Call>)
    ensures |Names(calls)| == |calls|
    ensures forall i :: 0 <= i < |calls| ==> Names(calls)[i] == Named(calls[i].id, calls[i].name)
  {
    if calls != [] { NamesAt(calls[..|calls| - 1]); }
  }

  lemma {:induction false} CallBlocksAt(calls: seq<Call>)
    ensures |CallBlocksOf(calls)| == |calls|
    ensures forall i :: 0 <= i < |calls| ==>
      CallBlocksOf(calls)[i] == ToolCallBlock(calls[i].id, calls[i].name, Arguments(calls[i]), Pending)
  {
    if calls != [] { CallBlocksAt(calls[..|calls| - 1]); }
  }

  lemma {:induction false} OrderlyCallsAgree(read: Reader, es: seq<Event>, cs: seq<Block>, buffers: map<string, string>, calls: seq<Call>, kept: seq<Call>)
    requires Lists(read, es, cs, buffers) && EndsRead(read, es) && Parsed(read, es, calls)
    requires (kept == calls || kept == []) && OrderlyCalls(read, es, kept)
    ensures CallsOf(cs) == CallsOf(CallBlocksOf(kept))
  {
    hide Starts, Ends, LastRead, BufferIn, HasStart, Names, CallsOf, CallBlocksOf, Legible, Arguments, ReadArguments, Raw;
    CallDicts(cs);
    NamesAt(kept);
    CallBlocksAt(kept);
    CallDicts(CallBlocksOf(kept));
    if kept == calls {
      forall i | 0 <= i < |calls|
        ensures calls[i].id == cs[i].callId == Ends(es)[i].id && calls[i].name == cs[i].name
      {
        assert Names(calls)[i] == Named(calls[i].id, calls[i].name);
      }
      forall i, j | 0 <= i < j < |calls|
        ensures Ends(es)[i].id != Ends(es)[j].id
      {
        assert cs[i].callId != cs[j].callId;
      }
      forall i | 0 <= i < |calls|
        ensures cs[i].arguments == Arguments(kept[i])
      {
        assert Legible(read, Ends(es)[i]);
        LegibleIff(read, Ends(es)[i], calls[i]);
      }
    }
  }

  lemma {:induction false} AgreeingCallsOrderly(read: Reader, es: seq<Event>, cs: seq<Block>, buffers: map<string, string>, calls: seq<Call>, kept: seq<Call>)
    requires Lists(read, es, cs, buffers) && EndsRead(read, es) && Parsed(read, es, calls)
    requires (kept == calls || kept == []) && CallsOf(cs) == CallsOf(CallBlocksOf(kept))
    ensures OrderlyCalls(read, es, kept)
  {
    hide Starts, Ends, LastRead, BufferIn, Names, CallsOf, CallBlocksOf, Legible, Arguments, ReadArguments, Raw;
    CallDicts(cs);
    NamesAt(kept);
    CallBlocksAt(kept);
    CallDicts(CallBlocksOf(kept));
    forall i | 0 <= i < |kept|
      ensures kept[i].id == cs[i].callId && kept[i].name == cs[i].name && Arguments(kept[i]) == cs[i].arguments
    {
      assert CallsOf(cs)[i] == CallsOf(CallBlocksOf(kept))[i];
    }
    assert Starts(es) == Names(kept);
    if kept != [] {
      forall i, j | 0 <= i < j < |calls|
        ensures Ends(es)[i].id != Ends(es)[j].id
      {
        assert cs[i].callId != cs[j].callId;
      }
    }
    forall j | 0 <= j < |Ends(es)|
      ensures Legible(read, Ends(es)[j])
    {
      assert HasStart(es, Ends(es)[j].id);
      LegibleIff(read, Ends(es)[j], calls[j]);
    }
  }

  // ---------------------------------------------------------------------------
  // Whole attempts
  // ---------------------------------------------------------------------------

  ghost predicate AllSpeech(es: seq<Event>) { forall i :: 0 <= i < |es| ==> Speech(es[i]) }

  lemma {:induction false} FoldedSpoken(read: Reader, es: seq<Event>)
    requires AllSpeech(es)
    ensures AllSpoken(Folded(read, es).content)
  {
    hide Find, ReadArguments;
    if es != [] {
      var init, e := es[..|es| - 1], es[|es| - 1];
      assert es == init + [e];
      FoldedSpoken(read, init);
      FoldedSnoc(read, init, e);
      assert Speech(e);
    }
  }

  function SpokenSaid(text: string, reasoning: string): Said
  {
    Said(if text != "" then [Part.TextPart(text)] else [], if reasoning != "" then [reasoning] else [], [], text != "" || reasoning != "")
  }

  lemma ThoughtsSnoc(bs: seq<Block>, b: Block)
    ensures Thoughts(bs + [b]) == Thoughts(bs) + if b.ThinkingBlock? then [b.thinking] else []
  {
    assert (bs + [b])[..|bs|] == bs;
  }

  lemma NothingSaid()
    ensures ContentParts([]) == [] && Thoughts([]) == [] && CallsOf([]) == []
  {
  }

  lemma {:induction false} SaidOne(b: Block)
    requires KindOf(b) != OtherKind
    ensures SaidIn([b]) == Said(if b.TextBlock? then [Part.TextPart(b.text)] else [], if b.ThinkingBlock? then [b.thinking] else [],
                                if b.ToolCallBlock? then [CallDict(Some(b.callId), b.name, b.arguments)] else [], true)
    ensures SaidIn([]) == NOTHING
  {
    hide ContentParts, Thoughts, CallsOf;
    assert [] + [b] == [b];
    NothingSaid();
    PartsSnoc([], b);
    ThoughtsSnoc([], b);
    CallsSnoc([], b);
  }

  lemma {:induction false} SpokenIs(a: Attempt)
    ensures SaidIn(Spoken(a)) == SpokenSaid(a.text, a.reasoning) && AllSpoken(Spoken(a))
  {
    hide SaidIn;
    var t := if a.reasoning != "" then [ThinkingBlock(a.nextId, a.reasoning)] else [];
    var w := if a.text != "" then [TextBlock(a.nextId + 1, a.text)] else [];
    SaidAppend(t, w);
    SaidOne(ThinkingBlock(a.nextId, a.reasoning));
    SaidOne(TextBlock(a.nextId + 1, a.text));
  }

  lemma {:induction false} CallsSaid(calls: seq<Call>)
    ensures SaidIn(CallBlocksOf(calls)) == Said([], [], CallsOf(CallBlocksOf(calls)), calls != []) && AllSpoken(CallBlocksOf(calls))
    ensures |CallsOf(CallBlocksOf(calls))| == |calls|
  {
    if calls != [] {
      var c := calls[|calls| - 1];
      CallsSaid(calls[..|calls| - 1]);
      var b := ToolCallBlock(c.id, c.name, Arguments(c), Pending);
      SaidAppend(CallBlocksOf(calls[..|calls| - 1]), [b]);
      SaidOne(b);
      CallBlocksAt(calls);
    }
  }

  /** The state of an attempt after its last event, with the calls it hands on. */
  function Concluded(read: Reader, nextId: nat, input: AttemptInput): (Attempt, seq<Call>)
  {
    var (a, error) := Consume(read, NewAttempt(nextId), input.chunks);
    if (error == None && input.ending == StreamCancelled) || FailureAfter(a, error, input.ending).Some? then (CloseThinking(CloseText(a)), [])
    else (a, CallsKept(a))
  }

  lemma {:induction false} ConcludedIs(read: Reader, nextId: nat, input: AttemptInput)
    ensures var (a, kept) := Concluded(read, nextId, input);
      var d := RunAttempt(read, nextId, input);
      && d.events == a.events && d.blocks == Spoken(a) + CallBlocksOf(kept) && d.nextId == a.nextId + 2 && CallsBy(d.end) == kept
  {
    hide Consume, FailureAfter, Spoken, CloseText, CloseThinking, CallsKept;
    var (a, kept) := Concluded(read, nextId, input);
    assert CallBlocksOf([]) == [];
    assert Spoken(a) + [] == Spoken(a);
  }

  lemma {:induction false} ConcludedTracked(read: Reader, nextId: nat, input: AttemptInput)
    ensures var (a, kept) := Concluded(read, nextId, input);
      && Tracked(read, a, nextId) && Spoke(read, a, TextKind) && Spoke(read, a, ThinkingKind) && Faithful(a)
      && (kept == a.calls || kept == [])
  {
    hide Consume, FailureAfter, CloseText, CloseThinking, Tracked, Spoke, Faithful;
    NewTracked(read, nextId);
    NewSpoke(read, nextId, TextKind);
    NewSpoke(read, nextId, ThinkingKind);
    ConsumeTracked(read, NewAttempt(nextId), input.chunks, nextId);
    ConsumeSpoke(read, NewAttempt(nextId), input.chunks, TextKind);
    ConsumeSpoke(read, NewAttempt(nextId), input.chunks, ThinkingKind);
    ConsumeFaithful(read, nextId, input.chunks);
    var a := Consume(read, NewAttempt(nextId), input.chunks).0;
    CloseTracked(read, a, nextId);
    CloseTracked(read, CloseText(a), nextId);
    CloseSpoke(read, a, TextKind);
    CloseSpoke(read, CloseText(a), TextKind);
    CloseSpoke(read, a, ThinkingKind);
    CloseSpoke(read, CloseText(a), ThinkingKind);
    CloseFaithful(a);
  }

  /** What the host has of an attempt, by kind. */
  lemma {:induction false} FoldedSaid(read: Reader, a: Attempt, kept: seq<Call>, lo: nat)
    requires Tracked(read, a, lo) && Spoke(read, a, TextKind) && Spoke(read, a, ThinkingKind) && Faithful(a)
    requires kept == a.calls || kept == []
    ensures var bs := Folded(read, a.events).content;
      && AllSpoken(bs)
      && (SaidIn(bs).parts == SpokenSaid(a.text, a.reasoning).parts <==> OneBlock(StartCount(a.events, TextKind), TextSent(a.events)))
      && (SaidIn(bs).thoughts == SpokenSaid(a.text, a.reasoning).thoughts <==> OneBlock(StartCount(a.events, ThinkingKind), ThinkingSent(a.events)))
      && (SaidIn(bs).calls == CallsOf(CallBlocksOf(kept)) <==> OrderlyCalls(read, a.events, kept))
      && (SaidIn(bs).any <==> SaidIn(bs).parts != [] || SaidIn(bs).thoughts != [] || SaidIn(bs).calls != [])
      && Concat(SaidIn(bs).thoughts) == a.reasoning
  {
    hide Only, WordsIn, TextParts, Lists, EndsRead, HasStart, Parsed, CallsOf, ContentParts, Thoughts, CallBlocksOf, OrderlyCalls, Tells, StartCount, TextSent, ThinkingSent, AfterEvents;
    var r := Folded(read, a.events);
    LocalSpeech(a.events, lo, a.nextId);
    FoldedSpoken(read, a.events);
    SaidByKind(r.content);
    NoTextParts();
    SpeechOneBlock(Only(r.content, TextKind), TextKind, StartCount(a.events, TextKind), a.text, a.textOpen, a.nextId);
    ToldTogether(Only(r.content, ThinkingKind), ThinkingKind, StartCount(a.events, ThinkingKind), a.reasoning, a.thinkingOpen, a.nextId);
    SpeechOneBlock(Only(r.content, ThinkingKind), ThinkingKind, StartCount(a.events, ThinkingKind), a.reasoning, a.thinkingOpen, a.nextId);
    TextPartsInjective(WordsIn(Only(r.content, TextKind)), if a.text != "" then [a.text] else []);
    TextPartsInjective(WordsIn(Only(r.content, TextKind)), []);
    var cs := Only(r.content, CallKind);
    if OrderlyCalls(read, a.events, kept) {
      OrderlyCallsAgree(read, a.events, cs, r.buffers, a.calls, kept);
    } else if CallsOf(cs) == CallsOf(CallBlocksOf(kept)) {
      AgreeingCallsOrderly(read, a.events, cs, r.buffers, a.calls, kept);
    }
  }

  lemma ToldTogether(bs: seq<Block>, k: Kind, starts: nat, said: string, open: Option<nat>, nextId: nat)
    requires Tells(bs, k, starts, said, open, nextId)
    ensures Concat(WordsIn(bs)) == said
  {
  }

  lemma NoTextParts()
    ensures TextParts([]) == []
    ensures forall w :: TextParts([w]) == [Part.TextPart(w)]
  {
  }

  lemma LocalSpeech(es: seq<Event>, lo: nat, hi: nat)
    requires Local(es, lo, hi)
    ensures AllSpeech(es)
  {
    hide HasStart;
    forall i | 0 <= i < |es|
      ensures Speech(es[i])
    {
      assert LocalEvent(es, es[i], lo, hi);
    }
  }

  /** What the host rebuilds and what the runner writes have the same content exactly when the attempt is orderly. */
  lemma {:induction false} AttemptSaysIffOrderly(read: Reader, nextId: nat, input: AttemptInput)
    ensures var d := RunAttempt(read, nextId, input);
      && AllSpoken(Folded(read, d.events).content) && AllSpoken(d.blocks)
      && (SaidIn(Folded(read, d.events).content) == SaidIn(d.blocks) <==> Orderly(read, d.events, CallsBy(d.end)))
  {
    hide RunAttempt, Concluded, Tracked, Spoke, Faithful, Folded, SaidIn, OrderlyCalls, CallsOf, CallBlocksOf, OneBlock, Spoken;
    var (a, kept) := Concluded(read, nextId, input);
    ConcludedIs(read, nextId, input);
    ConcludedTracked(read, nextId, input);
    FoldedSaid(read, a, kept, nextId);
    SaidAppend(Spoken(a), CallBlocksOf(kept));
    SpokenIs(a);
    CallsSaid(kept);
  }

  // ---------------------------------------------------------------------------
  // Interchangeable for the provider
  // ---------------------------------------------------------------------------

  /** However the reply began and however it goes on, the provider sees the same. */
  ghost predicate Interchangeable(a: seq<Block>, b: seq<Block>)
  {
    forall before: seq<Block>, after: seq<Block> :: Flat(before + a + after, Assistant) == Flat(before + b + after, Assistant)
  }

  lemma {:induction false} ViewGoesOn(x: seq<Block>, y: seq<Block>, after: seq<Block>)
    requires ViewOf(x) == ViewOf(y)
    ensures ViewOf(x + after) == ViewOf(y + after)
  {
    hide ViewOf, SaidIn, BreakMessage;
    if after == [] {
      assert x + after == x && y + after == y;
    } else {
      var init, b := after[..|after| - 1], after[|after| - 1];
      assert x + after == (x + init) + [b] && y + after == (y + init) + [b];
      ViewGoesOn(x, y, init);
      if Breaks(b) {
        ViewAfterBreak(x + init, b);
        ViewAfterBreak(y + init, b);
      } else {
        ViewAfterRun(x + init, [b]);
        ViewAfterRun(y + init, [b]);
      }
    }
  }

  lemma {:induction false} SameSaidInterchanges(a: seq<Block>, b: seq<Block>)
    requires OneRun(a) && OneRun(b) && SaidIn(a) == SaidIn(b)
    ensures Interchangeable(a, b)
  {
    hide ViewOf, SaidIn, Flat;
    forall before: seq<Block>, after: seq<Block>
      ensures Flat(before + a + after, Assistant) == Flat(before + b + after, Assistant)
    {
      ViewAfterRun(before, a);
      ViewAfterRun(before, b);
      ViewGoesOn(before + a, before + b, after);
      FlatIsSealed(before + a + after);
      FlatIsSealed(before + b + after);
    }
  }

  lemma {:induction false} JoinedLength(words: seq<string>)
    ensures |Join("\n", words)| == |Concat(words)| + if words == [] then 0 else |words| - 1
  {
    if words != [] {
      JoinedLength(words[..|words| - 1]);
      if |words| == 1 { ConcatOne(words[0]); assert words == [words[0]]; }
    }
  }

  lemma {:induction false} ConcatCons(z: string, words: seq<string>)
    ensures Concat([z] + words) == z + Concat(words)
  {
    if words == [] {
      assert [z] + words == [z];
      ConcatOne(z);
      assert z + "" == z;
    } else {
      var init, w := words[..|words| - 1], words[|words| - 1];
      assert ([z] + words)[..|words|] == [z] + init;
      ConcatCons(z, init);
      assert (z + Concat(init)) + w == z + (Concat(init) + w);
    }
  }

  /** A flattened message that begins with a thought shows all parts, all calls, and how many thoughts there are. */
  lemma {:induction false} FlatShows(bs: seq<Block>, z: string)
    requires OneRun(bs)
    ensures Flat([ThinkingBlock(0, z)] + bs, Assistant) ==
      [CombinedMessage(Assistant, SaidIn(bs).parts, [z] + SaidIn(bs).thoughts, SaidIn(bs).calls)]
  {
    hide SaidIn, ViewOf, Flat, CombinedMessage;
    var head := [ThinkingBlock(0, z)];
    FlatIsSealed(head + bs);
    assert head + bs == [] + (head + bs);
    ViewAfterRun([], head + bs);
    EmptyView();
    SaidAppend(head, bs);
    SaidOne(ThinkingBlock(0, z));
    NothingBoth(SaidIn(head + bs));
    assert [] + SaidIn(bs).parts == SaidIn(bs).parts && [] + SaidIn(bs).calls == SaidIn(bs).calls;
  }

  lemma EmptyView()
    ensures ViewOf([]) == View([], NOTHING)
  {
  }

  lemma NothingBoth(s: Said)
    ensures Both(NOTHING, s) == s
  {
  }

  /** If the thoughts of one are the thoughts of the other run together, interchangeable means equal. */
  lemma {:induction false} InterchangeableSaysSame(a: seq<Block>, b: seq<Block>)
    requires OneRun(a) && OneRun(b) && Interchangeable(a, b)
    requires |SaidIn(b).thoughts| <= 1 && Concat(SaidIn(a).thoughts) == Concat(SaidIn(b).thoughts)
    ensures SaidIn(a).parts == SaidIn(b).parts && SaidIn(a).thoughts == SaidIn(b).thoughts && SaidIn(a).calls == SaidIn(b).calls
  {
    hide SaidIn, Flat, OneRun, Concat, Join, CombinedMessage;
    var z := [ThinkingBlock(0, "")];
    assert Flat(z + a + [], Assistant) == Flat(z + b + [], Assistant);
    assert z + a + [] == z + a && z + b + [] == z + b;
    FlatShows(a, "");
    FlatShows(b, "");
    var ta, tb := SaidIn(a).thoughts, SaidIn(b).thoughts;
    CombinedShows(SaidIn(a).parts, [""] + ta, SaidIn(a).calls, SaidIn(b).parts, [""] + tb, SaidIn(b).calls);
    JoinedLength([""] + ta);
    JoinedLength([""] + tb);
    ConcatCons("", ta);
    ConcatCons("", tb);
    if |tb| == 1 {
      assert ta == [ta[0]] && tb == [tb[0]];
      ConcatOne(ta[0]);
      ConcatOne(tb[0]);
    }
  }

  lemma CombinedShows(p: seq<Part>, t: seq<string>, c: seq<CallDict>, p': seq<Part>, t': seq<string>, c': seq<CallDict>)
    requires [CombinedMessage(Assistant, p, t, c)] == [CombinedMessage(Assistant, p', t', c')]
    ensures p == p' && Join("\n", t) == Join("\n", t') && c == c'
  {
    assert [CombinedMessage(Assistant, p, t, c)][0] == [CombinedMessage(Assistant, p', t', c')][0];
  }

  lemma SpokenRun(bs: seq<Block>)
    requires AllSpoken(bs)
    ensures OneRun(bs)
  {
    forall i | 0 <= i < |bs|
      ensures !Breaks(bs[i])
    {
      assert KindOf(bs[i]) != OtherKind;
    }
  }

  /**
   * For every model stream, however it ends: a host that rebuilds the attempt from its events and the
   * runner that writes it show the provider the same, however the reply began and however it goes on,
   * if and only if the attempt is orderly.
   */
  lemma {:induction false} AttemptAgreesIffOrderly(read: Reader, nextId: nat, input: AttemptInput)
    ensures var d := RunAttempt(read, nextId, input);
      Interchangeable(Folded(read, d.events).content, d.blocks) <==> Orderly(read, d.events, CallsBy(d.end))
  {
    hide RunAttempt, Interchangeable, SaidIn, Folded, Orderly, Concat;
    var d := RunAttempt(read, nextId, input);
    var host := Folded(read, d.events).content;
    AttemptSaysIffOrderly(read, nextId, input);
    ThoughtsTogether(read, nextId, input);
    SpokenRun(host);
    SpokenRun(d.blocks);
    if Orderly(read, d.events, CallsBy(d.end)) {
      SameSaidInterchanges(host, d.blocks);
    } else if Interchangeable(host, d.blocks) {
      InterchangeableSaysSame(host, d.blocks);
    }
  }

  /** The runner writes at most one thought, and the host has all of it, in one or more. */
  lemma {:induction false} ThoughtsTogether(read: Reader, nextId: nat, input: AttemptInput)
    ensures var d := RunAttempt(read, nextId, input); var host, live := SaidIn(Folded(read, d.events).content), SaidIn(d.blocks);
      && |live.thoughts| <= 1 && Concat(host.thoughts) == Concat(live.thoughts)
      && (host.any <==> host.parts != [] || host.thoughts != [] || host.calls != [])
      && (live.any <==> live.parts != [] || live.thoughts != [] || live.calls != [])
  {
    hide RunAttempt, Concluded, Tracked, Spoke, Faithful, Folded, SaidIn, OrderlyCalls, CallsOf, CallBlocksOf, OneBlock, Spoken, Concat;
    var (a, kept) := Concluded(read, nextId, input);
    ConcludedIs(read, nextId, input);
    ConcludedTracked(read, nextId, input);
    FoldedSaid(read, a, kept, nextId);
    SaidAppend(Spoken(a), CallBlocksOf(kept));
    SpokenIs(a);
    CallsSaid(kept);
    ConcatOne(a.reasoning);
    assert SpokenSaid(a.text, a.reasoning).thoughts + [] == SpokenSaid(a.text, a.reasoning).thoughts;
    assert SpokenSaid(a.text, a.reasoning).parts + [] == SpokenSaid(a.text, a.reasoning).parts;
    NothingBoth(SpokenSaid(a.text, a.reasoning));
  }
}
