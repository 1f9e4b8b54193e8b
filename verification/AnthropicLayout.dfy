/** The order of the blocks in the Anthropic stream, from the fields of the upstream's chunks. */
module AnthropicLayout {
  import opened Wrappers
  import opened ChatChunk
  import opened ChunkFields
  import opened AnthropicStream
  import opened AnthropicTheorems
  import opened Sequences
  import SortedKeys

  /**
   Blocks in order: text and every call once, where they first appear; thinking wherever it appears without
   thinking right before it.
   */
  function Layout(ks: seq<Kind>): seq<Kind> {
    if ks == [] then [] else
      var init, k := ks[..|ks| - 1], ks[|ks| - 1];
      if (if k == Thinking then init != [] && init[|init| - 1] == Thinking else k in init) then Layout(init) else Layout(init) + [k]
  }

  /** The kinds of the blocks started so far. */
  function Starts(out: seq<Event>): seq<BlockKind> {
    if out == [] then [] else
      Starts(out[..|out| - 1]) +
      match out[|out| - 1]
      case BlockStart(_, kind) => [kind]
      case _ => []
  }

  lemma {:induction false} StartsAreBlocks(exposed: bool, out: seq<Event>)
    requires Replay(exposed, out).Some?
    ensures var blocks := Replay(exposed, out).value.blocks;
      |blocks| == |Starts(out)| && forall p | 0 <= p < |blocks| :: blocks[p].kind == Starts(out)[p]
  {
    if out != [] { StartsAreBlocks(exposed, out[..|out| - 1]); }
  }

  predicate StartsAs(kind: Kind, block: BlockKind, tools: map<int, Slot>, p: nat) {
    match kind
    case Thinking => block == ThinkingBlock
    case Saying => block == TextBlock
    case Calling(i) => block.ToolBlock? && i in tools && tools[i].blockIdx == p
  }

  ghost predicate Listed(order: seq<Kind>, starts: seq<BlockKind>, tools: map<int, Slot>) {
    |order| == |starts| && forall p | 0 <= p < |order| :: StartsAs(order[p], starts[p], tools, p)
  }

  ghost predicate CallsSeen(tools: map<int, Slot>, ks: seq<Kind>) {
    forall i: int :: i in tools <==> Calling(i) in ks
  }

  ghost predicate Laid(k: Sink, ks: seq<Kind>) {
    && Listed(Layout(ks), Starts(k.out), k.c.tools) && k.c.nextBlockIdx == |Starts(k.out)|
    && (k.c.thinkingOpen <==> ks != [] && ks[|ks| - 1] == Thinking)
    && (k.c.textOpen <==> Saying in ks) && CallsSeen(k.c.tools, ks)
  }

  lemma StartsMore(out: seq<Event>, e: Event)
    ensures Starts(out + [e]) == Starts(out) + (if e.BlockStart? then [e.block] else [])
  {
    assert (out + [e])[..|out|] == out;
  }

  lemma LayoutMore(ks: seq<Kind>, k: Kind)
    ensures Layout(ks + [k]) ==
      if (if k == Thinking then ks != [] && ks[|ks| - 1] == Thinking else k in ks) then Layout(ks) else Layout(ks) + [k]
  {
    assert (ks + [k])[..|ks|] == ks;
  }

  /** Tools may get new slots and other texts; the blocks of the old ones stay. */
  lemma ListedGrows(order: seq<Kind>, starts: seq<BlockKind>, tools: map<int, Slot>, tools': map<int, Slot>, kind: Kind, block: BlockKind)
    requires Listed(order, starts, tools) && forall i | i in tools :: i in tools' && tools'[i].blockIdx == tools[i].blockIdx
    ensures Listed(order, starts, tools')
    ensures StartsAs(kind, block, tools', |order|) ==> Listed(order + [kind], starts + [block], tools')
  {
  }

  lemma OpenThinkingLaid(k: Sink, ks: seq<Kind>)
    requires Laid(k, ks)
    ensures Laid(OpenThinking(k), ks + [Thinking])
  {
    LayoutMore(ks, Thinking);
    StartsMore(k.out, BlockStart(k.c.nextBlockIdx, ThinkingBlock));
    ListedGrows(Layout(ks), Starts(k.out), k.c.tools, k.c.tools, Thinking, ThinkingBlock);
  }

  lemma ThoughtLaid(k: Sink, ks: seq<Kind>, text: string)
    requires Laid(k, ks)
    ensures Laid(Emit(k, BlockDelta(k.c.thinkingIdx, ThinkingDelta, text)), ks)
  {
    StartsMore(k.out, BlockDelta(k.c.thinkingIdx, ThinkingDelta, text));
  }

  lemma ReasonedLaid(k: Sink, ks: seq<Kind>, text: string)
    requires Laid(k, ks)
    ensures Laid(FeedReasoning(k, text), if k.c.exposeThinking then ks + [Thinking] else ks)
  {
    var k1 := k.(c := k.c.(thinkingAccum := k.c.thinkingAccum + text));
    if k.c.exposeThinking {
      OpenThinkingLaid(k1, ks);
      ThoughtLaid(OpenThinking(k1), ks + [Thinking], text);
    }
  }

  /** Whatever comes next, an open thinking block is closed first. */
  ghost predicate LaidClosed(k: Sink, ks: seq<Kind>) {
    && Listed(Layout(ks), Starts(k.out), k.c.tools) && k.c.nextBlockIdx == |Starts(k.out)| && !k.c.thinkingOpen
    && (k.c.textOpen <==> Saying in ks) && CallsSeen(k.c.tools, ks)
  }

  lemma ClosedLaid(k: Sink, ks: seq<Kind>)
    requires Laid(k, ks) || LaidClosed(k, ks)
    ensures LaidClosed(CloseThinking(k), ks) && CloseThinking(k).c.exposeThinking == k.c.exposeThinking
  {
    StartsMore(k.out, BlockStop(k.c.thinkingIdx));
  }

  lemma OpenTextLaid(k: Sink, ks: seq<Kind>)
    requires LaidClosed(k, ks)
    ensures LaidClosed(OpenText(k), ks + [Saying])
  {
    LayoutMore(ks, Saying);
    StartsMore(k.out, BlockStart(k.c.nextBlockIdx, TextBlock));
    ListedGrows(Layout(ks), Starts(k.out), k.c.tools, k.c.tools, Saying, TextBlock);
  }

  lemma SaidLaid(k: Sink, ks: seq<Kind>, text: string)
    requires Laid(k, ks)
    ensures Laid(FeedText(k, text), ks + [Saying])
  {
    ClosedLaid(k, ks);
    OpenTextLaid(CloseThinking(k), ks);
    var k1 := OpenText(CloseThinking(k));
    StartsMore(k1.out, BlockDelta(k1.c.textIdx, TextDelta, text));
  }

  lemma OpenedLaid(k: Sink, ks: seq<Kind>, f: ToolFragment, i: int)
    requires Laid(k, ks) && Concerns(f, i)
    ensures LaidClosed(OpenTool(CloseThinking(k), f), ks + [Calling(i)]) && i in OpenTool(CloseThinking(k), f).c.tools
  {
    ClosedLaid(k, ks);
    LayoutMore(ks, Calling(i));
    assert f.Slot() == i;
    var k1 := CloseThinking(k);
    var k2 := OpenTool(k1, f);
    StartsMore(k1.out, BlockStart(k1.c.nextBlockIdx, ToolBlock(f.Id(), f.Name())));
    ListedGrows(Layout(ks), Starts(k1.out), k1.c.tools, k2.c.tools, Calling(i), ToolBlock(f.Id(), f.Name()));
  }

  lemma ArguedLaid(k: Sink, ks: seq<Kind>, f: ToolFragment, i: int)
    requires LaidClosed(k, ks + [Calling(i)])
    ensures Laid(FeedArguments(CloseThinking(k), f), ks + [Calling(i)])
  {
    if f.Slot() in k.c.tools {
      StartsMore(k.out, BlockDelta(k.c.tools[f.Slot()].blockIdx, InputJsonDelta, f.Args()));
      var tools' := FeedArguments(k, f).c.tools;
      ListedGrows(Layout(ks + [Calling(i)]), Starts(k.out), k.c.tools, tools', Saying, TextBlock);
    }
  }

  lemma OneStep(k: Sink, h: seq<Atom>)
    requires |h| <= 1
    ensures Steps(k, h) == if h == [] then k else Step(k, h[0])
  {
    if h != [] { assert h[..0] == []; }
  }

  lemma {:induction false} FragmentsLaid(k: Sink, ks: seq<Kind>, fs: seq<ToolFragment>)
    requires Laid(k, ks)
    ensures Laid(Steps(k, Alternating(fs)), ks + FragmentKinds(fs))
  {
    if fs == [] {
      assert ks + FragmentKinds(fs) == ks;
    } else {
      FragmentsLaid(k, ks, fs[..|fs| - 1]);
      LastFragmentLaid(k, ks, fs);
    }
  }

  lemma FragmentLaid(k: Sink, ks: seq<Kind>, f: ToolFragment, i: int)
    requires Laid(k, ks) && Concerns(f, i)
    ensures Laid(Step(Step(k, Opened(f)), Argued(f)), ks + [Calling(i)])
  {
    OpenedLaid(k, ks, f, i);
    ArguedLaid(OpenTool(CloseThinking(k), f), ks, f, i);
    FragmentIs(k, f);
  }

  lemma FragmentIs(k: Sink, f: ToolFragment)
    ensures Step(Step(k, Opened(f)), Argued(f)) == FeedArguments(CloseThinking(OpenTool(CloseThinking(k), f)), f)
  {
  }

  lemma {:induction false} FragmentSteps(k: Sink, fs: seq<ToolFragment>)
    requires fs != []
    ensures var f := fs[|fs| - 1];
      Steps(k, Alternating(fs)) == Step(Step(Steps(k, Alternating(fs[..|fs| - 1])), Opened(f)), Argued(f))
  {
    var before, f := Alternating(fs[..|fs| - 1]), fs[|fs| - 1];
    var all := before + [Opened(f), Argued(f)];
    assert all[..|all| - 1] == before + [Opened(f)] && (before + [Opened(f)])[..|before|] == before;
  }

  lemma {:induction false} OneCallMore(ks: seq<Kind>, fs: seq<ToolFragment>, i: int)
    requires fs != [] && Concerns(fs[|fs| - 1], i)
    ensures ks + FragmentKinds(fs[..|fs| - 1]) + [Calling(i)] == ks + FragmentKinds(fs)
  {
  }

  lemma LastFragmentLaid(k: Sink, ks: seq<Kind>, fs: seq<ToolFragment>)
    requires fs != [] && Laid(Steps(k, Alternating(fs[..|fs| - 1])), ks + FragmentKinds(fs[..|fs| - 1]))
    ensures Laid(Steps(k, Alternating(fs)), ks + FragmentKinds(fs))
  {
    var f, before, ks1 := fs[|fs| - 1], Steps(k, Alternating(fs[..|fs| - 1])), ks + FragmentKinds(fs[..|fs| - 1]);
    var i := match f.index case Some(i) => i case None => 0;
    FragmentLaid(before, ks1, f, i);
    FragmentSteps(k, fs);
    OneCallMore(ks, fs, i);
    LaidSame(Step(Step(before, Opened(f)), Argued(f)), ks1 + [Calling(i)], Steps(k, Alternating(fs)), ks + FragmentKinds(fs));
  }

  lemma LaidSame(k: Sink, ks: seq<Kind>, k': Sink, ks': seq<Kind>)
    requires Laid(k, ks) && k == k' && ks == ks'
    ensures Laid(k', ks')
  {
  }

  function Finishing(c: Choice): seq<Atom> {
    if c.finish.Some? then [Finished(c.finish.value)] else []
  }

  function Thoughts(c: Choice): seq<Atom> {
    if ThoughtsOf(c) != "" then [Reasoned(ThoughtsOf(c))] else []
  }

  function Words(c: Choice): seq<Atom> {
    if ContentOf(c) != "" then [Said(ContentOf(c))] else []
  }

  lemma {:induction false} ChoiceParts(c: Choice)
    ensures ChoiceAtoms(OnePass, c) == Finishing(c) + Thoughts(c) + Words(c) + Alternating(FragmentsOf(c))
  {
    var f, t, w, a := Finishing(c), Thoughts(c), Words(c), Alternating(FragmentsOf(c));
    if c.delta.Some? {
      assert DeltaAtoms(OnePass, c.delta.value) == t + w + a;
      Regroup(f, t + w, a);
      Regroup(f, t, w);
    } else {
      assert t == [] && w == [] && a == [];
    }
  }

  lemma ChoiceSteps(k: Sink, c: Choice)
    ensures Steps(k, ChoiceAtoms(OnePass, c))
            == Steps(Steps(Steps(Steps(k, Finishing(c)), Thoughts(c)), Words(c)), Alternating(FragmentsOf(c)))
  {
    ChoiceParts(c);
    StepsAppend(k, Finishing(c) + Thoughts(c) + Words(c), Alternating(FragmentsOf(c)));
    StepsAppend(k, Finishing(c) + Thoughts(c), Words(c));
    StepsAppend(k, Finishing(c), Thoughts(c));
  }

  lemma FinishingLaid(k: Sink, ks: seq<Kind>, c: Choice)
    requires Laid(k, ks)
    ensures Laid(Steps(k, Finishing(c)), ks) && Steps(k, Finishing(c)).c.exposeThinking == k.c.exposeThinking
  {
    OneStep(k, Finishing(c));
  }

  lemma ThoughtsLaid(k: Sink, ks: seq<Kind>, c: Choice)
    requires Laid(k, ks)
    ensures Laid(Steps(k, Thoughts(c)), ks + (if k.c.exposeThinking && ThoughtsOf(c) != "" then [Thinking] else []))
  {
    OneStep(k, Thoughts(c));
    assert ks + [] == ks;
    if Thoughts(c) != [] { ReasonedLaid(k, ks, ThoughtsOf(c)); }
  }

  lemma WordsLaid(k: Sink, ks: seq<Kind>, c: Choice)
    requires Laid(k, ks)
    ensures Laid(Steps(k, Words(c)), ks + (if ContentOf(c) != "" then [Saying] else []))
  {
    OneStep(k, Words(c));
    assert ks + [] == ks;
    if Words(c) != [] { SaidLaid(k, ks, ContentOf(c)); }
  }

  lemma {:induction false} OneChoiceMore(ks: seq<Kind>, exposed: bool, c: Choice)
    ensures ks + (if exposed && ThoughtsOf(c) != "" then [Thinking] else []) + (if ContentOf(c) != "" then [Saying] else [])
            + FragmentKinds(FragmentsOf(c)) == ks + ChoiceKinds(exposed, c)
  {
  }

  lemma ChoiceLaid(k: Sink, ks: seq<Kind>, c: Choice)
    requires Laid(k, ks)
    ensures Laid(Steps(k, ChoiceAtoms(OnePass, c)), ks + ChoiceKinds(k.c.exposeThinking, c))
  {
    var thoughts := if k.c.exposeThinking && ThoughtsOf(c) != "" then [Thinking] else [];
    var words := if ContentOf(c) != "" then [Saying] else [];
    var k1 := Steps(k, Finishing(c));
    FinishingLaid(k, ks, c);
    ThoughtsLaid(k1, ks, c);
    WordsLaid(Steps(k1, Thoughts(c)), ks + thoughts, c);
    var k3 := Steps(Steps(k1, Thoughts(c)), Words(c));
    FragmentsLaid(k3, ks + thoughts + words, FragmentsOf(c));
    ChoiceSteps(k, c);
    OneChoiceMore(ks, k.c.exposeThinking, c);
    LaidSame(Steps(k3, Alternating(FragmentsOf(c))), ks + thoughts + words + FragmentKinds(FragmentsOf(c)),
             Steps(k, ChoiceAtoms(OnePass, c)), ks + ChoiceKinds(k.c.exposeThinking, c));
  }

  lemma {:induction false} StepMode(k: Sink, atoms: seq<Atom>)
    ensures Steps(k, atoms).c.exposeThinking == k.c.exposeThinking && Steps(k, atoms).c.finished == k.c.finished
  {
    if atoms != [] { StepMode(k, atoms[..|atoms| - 1]); }
  }

  lemma {:induction false} ChoicesLaid(k: Sink, ks: seq<Kind>, cs: seq<Choice>)
    requires Laid(k, ks)
    ensures Laid(Steps(k, ChoicesAtoms(OnePass, cs)), ks + Kinds(k.c.exposeThinking, cs))
  {
    if cs == [] {
      assert ks + Kinds(k.c.exposeThinking, cs) == ks;
    } else {
      ChoicesLaid(k, ks, cs[..|cs| - 1]);
      LastChoiceLaid(k, ks, cs);
    }
  }

  lemma LastChoiceSteps(k: Sink, cs: seq<Choice>)
    requires cs != []
    ensures Steps(k, ChoicesAtoms(OnePass, cs)) == Steps(Steps(k, ChoicesAtoms(OnePass, cs[..|cs| - 1])), ChoiceAtoms(OnePass, cs[|cs| - 1]))
  {
    StepsAppend(k, ChoicesAtoms(OnePass, cs[..|cs| - 1]), ChoiceAtoms(OnePass, cs[|cs| - 1]));
  }

  lemma LastChoiceKinds(exposed: bool, ks: seq<Kind>, cs: seq<Choice>)
    requires cs != []
    ensures ks + Kinds(exposed, cs[..|cs| - 1]) + ChoiceKinds(exposed, cs[|cs| - 1]) == ks + Kinds(exposed, cs)
  {
    Regroup(ks, Kinds(exposed, cs[..|cs| - 1]), ChoiceKinds(exposed, cs[|cs| - 1]));
  }

  lemma LastChoiceLaid(k: Sink, ks: seq<Kind>, cs: seq<Choice>)
    requires cs != [] && Laid(Steps(k, ChoicesAtoms(OnePass, cs[..|cs| - 1])), ks + Kinds(k.c.exposeThinking, cs[..|cs| - 1]))
    ensures Laid(Steps(k, ChoicesAtoms(OnePass, cs)), ks + Kinds(k.c.exposeThinking, cs))
  {
    var before, ks1, c := ChoicesAtoms(OnePass, cs[..|cs| - 1]), ks + Kinds(k.c.exposeThinking, cs[..|cs| - 1]), cs[|cs| - 1];
    StepMode(k, before);
    ChoiceLaid(Steps(k, before), ks1, c);
    LastChoiceSteps(k, cs);
    LastChoiceKinds(k.c.exposeThinking, ks, cs);
    LaidSame(Steps(Steps(k, before), ChoiceAtoms(OnePass, c)), ks1 + ChoiceKinds(k.c.exposeThinking, c),
             Steps(k, ChoicesAtoms(OnePass, cs)), ks + Kinds(k.c.exposeThinking, cs));
  }

  lemma BeginLaid(k: Sink, ks: seq<Kind>, chunk: Chunk)
    requires Laid(k, ks)
    ensures Laid(BeginChunk(k, chunk), ks)
    ensures BeginChunk(k, chunk).c.exposeThinking == k.c.exposeThinking && BeginChunk(k, chunk).c.finished == k.c.finished
  {
    StartsMore(k.out, MessageStart(k.c.msgId, NoteChunk(k.c, chunk).model.GetOr("")));
  }

  lemma {:induction false} KindsSplit(exposed: bool, a: seq<Choice>, b: seq<Choice>)
    ensures Kinds(exposed, a + b) == Kinds(exposed, a) + Kinds(exposed, b)
  {
    if b == [] {
      assert a + b == a;
    } else {
      assert (a + b)[..|a + b| - 1] == a + b[..|b| - 1];
      KindsSplit(exposed, a, b[..|b| - 1]);
      Regroup(Kinds(exposed, a), Kinds(exposed, b[..|b| - 1]), ChoiceKinds(exposed, b[|b| - 1]));
    }
  }

  lemma {:induction false} RunLaid(msgId: nat, exposed: bool, chunks: seq<Chunk>)
    ensures var k := Run(msgId, exposed, chunks);
      Laid(k, Kinds(exposed, Choices(chunks))) && k.c.exposeThinking == exposed && !k.c.finished
  {
    if chunks != [] {
      var k, chunk := Run(msgId, exposed, chunks[..|chunks| - 1]), chunks[|chunks| - 1];
      var cs := match chunk.choices case Some(cs) => cs case None => [];
      var ks := Kinds(exposed, Choices(chunks[..|chunks| - 1]));
      RunLaid(msgId, exposed, chunks[..|chunks| - 1]);
      BeginLaid(k, ks, chunk);
      ChoicesLaid(BeginChunk(k, chunk), ks, cs);
      StepMode(BeginChunk(k, chunk), ChunkAtoms(OnePass, chunk));
      KindsSplit(exposed, Choices(chunks[..|chunks| - 1]), cs);
    }
  }

  // ---- The finished stream ----

  lemma {:induction false} ToolsStartNothing(k: Sink, keys: seq<int>)
    ensures Starts(CloseTools(k, keys).out) == Starts(k.out)
  {
    if keys != [] {
      var k1, key := CloseTools(k, keys[..|keys| - 1]), keys[|keys| - 1];
      ToolsStartNothing(k, keys[..|keys| - 1]);
      if key in k1.c.tools { StartsMore(k1.out, BlockStop(k1.c.tools[key].blockIdx)); }
    }
  }

  lemma ClosingStartsNothing(k: Sink)
    ensures Starts(CloseBlocks(k).out) == Starts(k.out)
  {
    var k1 := CloseThinking(k);
    var k2 := CloseText(k1);
    StartsMore(k.out, BlockStop(k.c.thinkingIdx));
    StartsMore(k1.out, BlockStop(k1.c.textIdx));
    ToolsStartNothing(k2, SortedKeys.Ascending(k.c.tools.Keys));
  }

  lemma LastEventsStartNothing(out: seq<Event>, stop: string, tokens: nat)
    ensures Starts(out + [MessageDelta(stop, tokens)] + [MessageStop]) == Starts(out)
  {
    StartsMore(out, MessageDelta(stop, tokens));
    StartsMore(out + [MessageDelta(stop, tokens)], MessageStop);
  }

  lemma FinishStartsNothing(k: Sink)
    ensures Starts(Finish(k).out) == Starts(k.out)
  {
    ClosingStartsNothing(k);
    LastEventsStartNothing(CloseBlocks(k).out, StopReason(k.c.finishReason), if k.c.usage.Some? then k.c.usage.value.output else 0);
  }

  /** A block of the finished stream, where `kind` is due. */
  ghost predicate BlockSays(b: Block, kind: Kind, cs: seq<Choice>) {
    match kind
    case Thinking => b.kind == ThinkingBlock
    case Saying => b == Block(TextBlock, FieldText(cs), false)
    case Calling(i) =>
      var own := Own(Fragments(cs), i);
      own != [] && b == Block(ToolBlock(Given(own[0].id), Given(own[0].name)), JoinedArguments(own), false)
  }

  lemma {:induction false} OneText(blocks: seq<Block>, p: nat)
    requires p < |blocks| && blocks[p].kind == TextBlock
    requires forall q | 0 <= q < |blocks| && blocks[q].kind == TextBlock :: q == p
    ensures Joined(blocks, TextDelta) == blocks[p].text
  {
    var init := blocks[..|blocks| - 1];
    assert forall q | 0 <= q < |init| :: init[q] == blocks[q];
    if p < |init| {
      OneText(init, p);
    } else {
      NoText(init);
    }
  }

  lemma {:induction false} NoText(blocks: seq<Block>)
    requires forall q | 0 <= q < |blocks| :: blocks[q].kind != TextBlock
    ensures Joined(blocks, TextDelta) == ""
  {
    if blocks != [] { NoText(blocks[..|blocks| - 1]); }
  }

  lemma {:induction false} LayoutMeaning(ks: seq<Kind>)
    ensures forall k :: k in Layout(ks) <==> k in ks
    ensures forall p, q | 0 <= p < q < |Layout(ks)| && Layout(ks)[p] == Layout(ks)[q] :: Layout(ks)[p] == Thinking
  {
    if ks != [] {
      var init, last := ks[..|ks| - 1], ks[|ks| - 1];
      LayoutMeaning(init);
      assert ks == init + [last];
      forall k ensures k in Layout(ks) <==> k in ks { assert k in ks <==> k in init || k == last; }
    }
  }

  lemma {:induction false} TextInOrder(blocks: seq<Block>, order: seq<Kind>, tools: map<int, Slot>, p: nat)
    requires |blocks| == |order| && forall q | 0 <= q < |order| :: StartsAs(order[q], blocks[q].kind, tools, q)
    requires forall q, q' | 0 <= q < q' < |order| && order[q] == order[q'] :: order[q] == Thinking
    requires p < |order| && order[p] == Saying
    ensures Joined(blocks, TextDelta) == blocks[p].text && blocks[p].kind == TextBlock
  {
    forall q | 0 <= q < |blocks| && blocks[q].kind == TextBlock ensures q == p { assert order[q] == Saying; }
    OneText(blocks, p);
  }

  lemma {:induction false} ListedBlocks(order: seq<Kind>, starts: seq<BlockKind>, tools: map<int, Slot>, tools': map<int, Slot>, blocks: seq<Block>)
    requires Listed(order, starts, tools) && SameSlots(tools, tools')
    requires |blocks| == |starts| && forall p | 0 <= p < |blocks| :: blocks[p].kind == starts[p]
    ensures |blocks| == |order| && forall p | 0 <= p < |order| :: StartsAs(order[p], blocks[p].kind, tools', p)
  {
    forall p | 0 <= p < |order| ensures StartsAs(order[p], blocks[p].kind, tools', p) { assert StartsAs(order[p], starts[p], tools, p); }
  }

  lemma CallInOrder(blocks: seq<Block>, s: Story, exposed: bool, cs: seq<Choice>, tools: map<int, Slot>, i: int, p: nat)
    requires Says(s, ReadingOf(exposed, cs)) && Delivered(blocks, s.calls, tools)
    requires p < |blocks| && i in tools && tools[i].blockIdx == p
    ensures BlockSays(blocks[p], Calling(i), cs)
  {
    assert i in s.calls && s.calls[i] == CallOf(Own(Fragments(cs), i));
  }

  lemma {:induction false} BlockInOrder(blocks: seq<Block>, order: seq<Kind>, s: Story, exposed: bool, cs: seq<Choice>, tools: map<int, Slot>, p: nat)
    requires |blocks| == |order| && forall q | 0 <= q < |order| :: StartsAs(order[q], blocks[q].kind, tools, q)
    requires forall q, q' | 0 <= q < q' < |order| && order[q] == order[q'] :: order[q] == Thinking
    requires Says(s, ReadingOf(exposed, cs)) && Delivered(blocks, s.calls, tools) && Joined(blocks, TextDelta) == s.text && AllClosed(blocks)
    requires p < |order|
    ensures BlockSays(blocks[p], order[p], cs)
  {
    match order[p]
    case Thinking =>
    case Saying => TextInOrder(blocks, order, tools, p);
    case Calling(i) => CallInOrder(blocks, s, exposed, cs, tools, i, p);
  }

  lemma FinishedBlocks(msgId: nat, exposed: bool, chunks: seq<Chunk>)
    ensures var k, order := Stream(msgId, exposed, chunks), Layout(Kinds(exposed, Choices(chunks)));
      |Blocks(k)| == |order| && forall p | 0 <= p < |order| :: StartsAs(order[p], Blocks(k)[p].kind, k.c.tools, p)
  {
    var run := Run(msgId, exposed, chunks);
    RunLaid(msgId, exposed, chunks);
    RunInvariant(msgId, exposed, chunks);
    Ends(run, RunStory(exposed, chunks));
    FinishStartsNothing(run);
    StrictClientAccepts(msgId, exposed, chunks);
    StartsAreBlocks(exposed, Finish(run).out);
    ListedBlocks(Layout(Kinds(exposed, Choices(chunks))), Starts(run.out), run.c.tools, Finish(run).c.tools, Blocks(Finish(run)));
  }

  /**
   For every run the blocks come in the order the fields of the chunks lay out: the text in one block, each
   call in one block with its own arguments, and a thinking block wherever reasoning begins or resumes.
   */
  lemma BlocksInOrder(msgId: nat, exposed: bool, chunks: seq<Chunk>)
    ensures var k, cs := Stream(msgId, exposed, chunks), Choices(chunks);
      var order := Layout(Kinds(exposed, cs));
      |Blocks(k)| == |order| && forall p | 0 <= p < |order| :: BlockSays(Blocks(k)[p], order[p], cs)
  {
    var k, cs, s := Stream(msgId, exposed, chunks), Choices(chunks), RunStory(exposed, chunks);
    var order := Layout(Kinds(exposed, cs));
    FinishedBlocks(msgId, exposed, chunks);
    LayoutMeaning(Kinds(exposed, cs));
    StoryIsTheFields(OnePass, exposed, chunks);
    ClientHoldsTheStory(msgId, exposed, chunks);
    StrictClientAccepts(msgId, exposed, chunks);
    forall p | 0 <= p < |order| ensures BlockSays(Blocks(k)[p], order[p], cs) {
      BlockInOrder(Blocks(k), order, s, exposed, cs, k.c.tools, p);
    }
  }
}
