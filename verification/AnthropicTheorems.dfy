/** What every run of the Anthropic converter guarantees its client. */
module AnthropicTheorems {
  import opened Wrappers
  import opened ChatChunk
  import opened AnthropicStream
  import opened Sequences
  import Json = CanonicalJson
  import CanonicalTheorems
  import SortedKeys

  // ---- The invariant: the converter and the client both hold the story so far ----

  ghost predicate ThinkingTracks(c: Converter, s: Story, blocks: seq<Block>) {
    && c.thinkingAccum == s.reasoning
    && Joined(blocks, ThinkingDelta) == (if c.exposeThinking then s.reasoning else "")
    && (c.thinkingOpen ==> blocks != [] && c.thinkingIdx == |blocks| - 1)
    && (forall i | 0 <= i < |blocks| :: blocks[i].kind == ThinkingBlock && blocks[i].open <==> c.thinkingOpen && i == c.thinkingIdx)
  }

  ghost predicate TextTracks(c: Converter, s: Story, blocks: seq<Block>) {
    && c.textAccum == s.text && Joined(blocks, TextDelta) == s.text
    && (c.textOpen ==> c.textIdx < |blocks| && blocks[c.textIdx].open)
    && (forall i | 0 <= i < |blocks| :: blocks[i].kind == TextBlock <==> c.textOpen && i == c.textIdx)
  }

  /** The block of one call: started with the call's first id and name, and never mixed with another's. */
  ghost predicate Holds(slot: Slot, call: Call, blocks: seq<Block>) {
    && slot == Slot(call.latestId, call.latestName, call.args, slot.blockIdx, true)
    && slot.blockIdx < |blocks|
    && blocks[slot.blockIdx] == Block(ToolBlock(call.firstId, call.firstName), call.args, true)
  }

  ghost predicate ToolsTrack(c: Converter, s: Story, blocks: seq<Block>) {
    && c.tools.Keys == s.calls.Keys
    && (forall t | t in c.tools :: Holds(c.tools[t], s.calls[t], blocks))
    && (forall t, u | t in c.tools && u in c.tools && t != u :: c.tools[t].blockIdx != c.tools[u].blockIdx)
    && (forall i | 0 <= i < |blocks| && blocks[i].kind.ToolBlock? :: Owned(c.tools, i))
  }

  ghost predicate Owned(tools: map<int, Slot>, i: nat) {
    exists t :: t in tools && tools[t].blockIdx == i
  }

  ghost predicate Tracks(c: Converter, s: Story, blocks: seq<Block>) {
    && |blocks| == c.nextBlockIdx
    && ThinkingTracks(c, s, blocks) && TextTracks(c, s, blocks) && ToolsTrack(c, s, blocks)
    && !c.finished && c.finishReason == s.finish
  }

  ghost predicate Inv(k: Sink, s: Story) {
    var v := Replay(k.c.exposeThinking, k.out);
    && v.Some? && v.value.phase == (if k.c.started then Streaming else Fresh)
    && Tracks(k.c, s, v.value.blocks) && (v.value.blocks != [] ==> k.c.started)
  }

  /** The client's blocks, for a stream it accepted. */
  function Blocks(k: Sink): seq<Block> {
    var v := Replay(k.c.exposeThinking, k.out);
    if v.Some? then v.value.blocks else []
  }

  // ---- Preservation ----

  lemma Emitted(exposed: bool, out: seq<Event>, e: Event)
    ensures var v := Replay(exposed, out);
            Replay(exposed, out + [e]) == if v.Some? then Receive(exposed, v.value, e) else None
  {
    assert (out + [e])[..|out|] == out;
  }

  lemma {:induction false} JoinedUpdate(blocks: seq<Block>, i: nat, b: Block, d: DeltaKind, t: string)
    requires i < |blocks| && b.kind == blocks[i].kind
    requires Fits(b.kind, d) ==> b.text == blocks[i].text + t && forall j | i < j < |blocks| :: !Fits(blocks[j].kind, d)
    ensures Joined(blocks[i := b], d) == Joined(blocks, d) + (if Fits(b.kind, d) then t else "")
  {
    var n := |blocks| - 1;
    if i == n {
      assert blocks[i := b][..n] == blocks[..n];
    } else {
      assert blocks[i := b][..n] == blocks[..n][i := b];
      JoinedUpdate(blocks[..n], i, b, d, t);
    }
  }

  /** Closing a block changes no text. */
  lemma {:induction false} JoinedClose(blocks: seq<Block>, i: nat, d: DeltaKind)
    requires i < |blocks|
    ensures Joined(blocks[i := blocks[i].(open := false)], d) == Joined(blocks, d)
  {
    var n, b := |blocks| - 1, blocks[i].(open := false);
    if i == n {
      assert blocks[i := b][..n] == blocks[..n];
    } else {
      assert blocks[i := b][..n] == blocks[..n][i := b];
      JoinedClose(blocks[..n], i, d);
    }
  }

  lemma JoinedStart(blocks: seq<Block>, kind: BlockKind, d: DeltaKind)
    ensures Joined(blocks + [Block(kind, "", true)], d) == Joined(blocks, d)
  {
    assert (blocks + [Block(kind, "", true)])[..|blocks|] == blocks;
  }

  lemma CloseThinkingPreserves(k: Sink, s: Story)
    requires Inv(k, s)
    ensures Inv(CloseThinking(k), s)
    ensures CloseThinking(k).c == k.c.(thinkingOpen := false)
  {
    if k.c.thinkingOpen {
      Emitted(k.c.exposeThinking, k.out, BlockStop(k.c.thinkingIdx));
      ThinkingClosed(k.c, s, Blocks(k));
    }
  }

  /** Closing the thinking block changes nothing else that is tracked. */
  lemma ThinkingClosed(c: Converter, s: Story, blocks: seq<Block>)
    requires Tracks(c, s, blocks) && c.thinkingOpen
    ensures c.thinkingIdx < |blocks| && blocks[c.thinkingIdx].open && blocks[c.thinkingIdx].kind == ThinkingBlock
    ensures Tracks(c.(thinkingOpen := false), s, blocks[c.thinkingIdx := blocks[c.thinkingIdx].(open := false)])
  {
    var i := c.thinkingIdx;
    var c', blocks' := c.(thinkingOpen := false), blocks[i := blocks[i].(open := false)];
    JoinedClose(blocks, i, ThinkingDelta);
    JoinedClose(blocks, i, TextDelta);
    assert ThinkingTracks(c', s, blocks');
    assert TextTracks(c', s, blocks');
    ToolsUntouched(c, s, blocks, c', i);
  }

  lemma ToolsUntouched(c: Converter, s: Story, blocks: seq<Block>, c': Converter, i: nat)
    requires ToolsTrack(c, s, blocks) && i < |blocks| && !blocks[i].kind.ToolBlock? && c'.tools == c.tools
    ensures ToolsTrack(c', s, blocks[i := blocks[i].(open := false)])
  {
    var blocks' := blocks[i := blocks[i].(open := false)];
    forall t | t in c.tools ensures Holds(c.tools[t], s.calls[t], blocks') { assert Holds(c.tools[t], s.calls[t], blocks); }
    forall j | 0 <= j < |blocks'| && blocks'[j].kind.ToolBlock? ensures Owned(c.tools, j) { assert blocks[j].kind.ToolBlock?; }
  }

  lemma OpenThinkingPreserves(k: Sink, s: Story)
    requires Inv(k, s) && k.c.started && k.c.exposeThinking
    ensures Inv(OpenThinking(k), s) && OpenThinking(k).c.thinkingOpen && OpenThinking(k).c.started
  {
    if !k.c.thinkingOpen {
      Emitted(k.c.exposeThinking, k.out, BlockStart(k.c.nextBlockIdx, ThinkingBlock));
      JoinedStart(Blocks(k), ThinkingBlock, ThinkingDelta);
      JoinedStart(Blocks(k), ThinkingBlock, TextDelta);
    }
  }

  function Extend(blocks: seq<Block>, i: nat, text: string): seq<Block>
    requires i < |blocks|
  {
    blocks[i := blocks[i].(text := blocks[i].text + text)]
  }

  lemma ReasoningTracked(c: Converter, s: Story, blocks: seq<Block>, text: string)
    requires Tracks(c, s, blocks) && c.exposeThinking && c.thinkingOpen
    ensures Tracks(c.(thinkingAccum := c.thinkingAccum + text), s.(reasoning := s.reasoning + text),
                   Extend(blocks, c.thinkingIdx, text))
  {
    JoinedUpdate(blocks, c.thinkingIdx, Extend(blocks, c.thinkingIdx, text)[c.thinkingIdx], ThinkingDelta, text);
    JoinedUpdate(blocks, c.thinkingIdx, Extend(blocks, c.thinkingIdx, text)[c.thinkingIdx], TextDelta, text);
    forall t | t in c.tools ensures Holds(c.tools[t], s.calls[t], Extend(blocks, c.thinkingIdx, text)) {
      assert Holds(c.tools[t], s.calls[t], blocks);
    }
  }

  lemma FeedReasoningPreserves(k: Sink, s: Story, text: string)
    requires Inv(k, s) && k.c.started
    ensures Inv(FeedReasoning(k, text), s.(reasoning := s.reasoning + text))
  {
    if k.c.exposeThinking {
      var k1 := OpenThinking(k);
      OpenThinkingPreserves(k, s);
      assert FeedReasoning(k, text).c == k1.c.(thinkingAccum := k1.c.thinkingAccum + text);
      Emitted(k.c.exposeThinking, k1.out, BlockDelta(k1.c.thinkingIdx, ThinkingDelta, text));
      ReasoningTracked(k1.c, s, Blocks(k1), text);
    }
  }

  lemma TextOpened(c: Converter, s: Story, blocks: seq<Block>)
    requires Tracks(c, s, blocks) && !c.thinkingOpen && !c.textOpen
    ensures Tracks(c.(textIdx := |blocks|, nextBlockIdx := |blocks| + 1, textOpen := true), s,
                   blocks + [Block(TextBlock, "", true)])
  {
    var c' := c.(textIdx := |blocks|, nextBlockIdx := |blocks| + 1, textOpen := true);
    var blocks' := blocks + [Block(TextBlock, "", true)];
    JoinedStart(blocks, TextBlock, ThinkingDelta);
    JoinedStart(blocks, TextBlock, TextDelta);
    assert ThinkingTracks(c', s, blocks');
    assert TextTracks(c', s, blocks');
    OneBlockMore(c, s, blocks, c', blocks');
  }

  lemma OneBlockMore(c: Converter, s: Story, blocks: seq<Block>, c': Converter, blocks': seq<Block>)
    requires ToolsTrack(c, s, blocks) && c'.tools == c.tools && |blocks'| == |blocks| + 1
    requires (forall i | 0 <= i < |blocks| :: blocks'[i] == blocks[i]) && !blocks'[|blocks|].kind.ToolBlock?
    ensures ToolsTrack(c', s, blocks')
  {
    forall t | t in c.tools ensures Holds(c.tools[t], s.calls[t], blocks') { assert Holds(c.tools[t], s.calls[t], blocks); }
    forall i | 0 <= i < |blocks'| && blocks'[i].kind.ToolBlock? ensures Owned(c.tools, i) { assert blocks[i].kind.ToolBlock?; }
  }

  lemma OpenTextPreserves(k: Sink, s: Story)
    requires Inv(k, s) && k.c.started && !k.c.thinkingOpen
    ensures Inv(OpenText(k), s) && OpenText(k).c.textOpen && !OpenText(k).c.thinkingOpen && OpenText(k).c.started
  {
    if !k.c.textOpen {
      Emitted(k.c.exposeThinking, k.out, BlockStart(k.c.nextBlockIdx, TextBlock));
      TextOpened(k.c, s, Blocks(k));
    }
  }

  lemma TextTracked(c: Converter, s: Story, blocks: seq<Block>, text: string)
    requires Tracks(c, s, blocks) && c.textOpen
    ensures Tracks(c.(textAccum := c.textAccum + text), s.(text := s.text + text), Extend(blocks, c.textIdx, text))
  {
    var c', s', blocks' := c.(textAccum := c.textAccum + text), s.(text := s.text + text), Extend(blocks, c.textIdx, text);
    TextLeavesThinking(c, s, blocks, text);
    TextGrows(c, s, blocks, text);
    TextLeavesTools(c, s, blocks, c', s', blocks');
  }

  lemma TextLeavesThinking(c: Converter, s: Story, blocks: seq<Block>, text: string)
    requires ThinkingTracks(c, s, blocks) && TextTracks(c, s, blocks) && c.textOpen
    ensures ThinkingTracks(c.(textAccum := c.textAccum + text), s.(text := s.text + text), Extend(blocks, c.textIdx, text))
  {
    JoinedUpdate(blocks, c.textIdx, Extend(blocks, c.textIdx, text)[c.textIdx], ThinkingDelta, text);
  }

  lemma TextGrows(c: Converter, s: Story, blocks: seq<Block>, text: string)
    requires TextTracks(c, s, blocks) && c.textOpen
    ensures TextTracks(c.(textAccum := c.textAccum + text), s.(text := s.text + text), Extend(blocks, c.textIdx, text))
  {
    JoinedUpdate(blocks, c.textIdx, Extend(blocks, c.textIdx, text)[c.textIdx], TextDelta, text);
  }

  lemma TextLeavesTools(c: Converter, s: Story, blocks: seq<Block>, c': Converter, s': Story, blocks': seq<Block>)
    requires ToolsTrack(c, s, blocks) && c'.tools == c.tools && s'.calls == s.calls && |blocks'| == |blocks|
    requires forall i | 0 <= i < |blocks| :: blocks'[i].kind == blocks[i].kind && (blocks[i].kind.ToolBlock? ==> blocks'[i] == blocks[i])
    ensures ToolsTrack(c', s', blocks')
  {
    forall t | t in c.tools ensures Holds(c.tools[t], s.calls[t], blocks') { assert Holds(c.tools[t], s.calls[t], blocks); }
    forall i | 0 <= i < |blocks'| && blocks'[i].kind.ToolBlock? ensures Owned(c.tools, i) { assert blocks[i].kind.ToolBlock?; }
  }

  lemma AppendText(k: Sink, s: Story, text: string)
    requires Inv(k, s) && k.c.started && k.c.textOpen && !k.c.thinkingOpen
    ensures Inv(Emit(k.(c := k.c.(textAccum := k.c.textAccum + text)), BlockDelta(k.c.textIdx, TextDelta, text)),
                s.(text := s.text + text))
  {
    TextReceived(k.c.exposeThinking, k.out, Client(Streaming, Blocks(k)), k.c.textIdx, text);
    TextTracked(k.c, s, Blocks(k), text);
  }

  /** A text delta on an open text block, while no thinking block is open. */
  lemma TextReceived(exposed: bool, out: seq<Event>, v: Client, i: nat, text: string)
    requires Replay(exposed, out) == Some(v) && v.phase.Streaming?
    requires i < |v.blocks| && v.blocks[i].open && v.blocks[i].kind == TextBlock && !ThinkingIsOpen(v.blocks)
    ensures Replay(exposed, out + [BlockDelta(i, TextDelta, text)]) == Some(v.(blocks := Extend(v.blocks, i, text)))
  {
    Emitted(exposed, out, BlockDelta(i, TextDelta, text));
  }

  lemma FeedTextPreserves(k: Sink, s: Story, text: string)
    requires Inv(k, s) && k.c.started
    ensures Inv(FeedText(k, text), s.(text := s.text + text))
  {
    CloseThinkingPreserves(k, s);
    OpenTextPreserves(CloseThinking(k), s);
    AppendText(OpenText(CloseThinking(k)), s, text);
  }

  lemma ToolsStart(c: Converter, s: Story, blocks: seq<Block>, f: ToolFragment, c': Converter, s': Story)
    requires ToolsTrack(c, s, blocks) && f.Slot() !in s.calls
    requires c'.tools == c.tools[f.Slot() := Slot(f.Id(), f.Name(), "", |blocks|, true)]
    requires s'.calls == s.calls[f.Slot() := Call(f.Id(), f.Name(), f.Id(), f.Name(), "")]
    ensures ToolsTrack(c', s', blocks + [Block(ToolBlock(f.Id(), f.Name()), "", true)])
  {
    var blocks' := blocks + [Block(ToolBlock(f.Id(), f.Name()), "", true)];
    assert forall j | 0 <= j < |blocks| :: blocks'[j] == blocks[j];
    ToolsHeld(c.tools, s.calls, blocks, f, blocks');
    ToolsOwned(c.tools, blocks, f, c'.tools, blocks');
  }

  lemma ToolsHeld(tools: map<int, Slot>, calls: map<int, Call>, blocks: seq<Block>, f: ToolFragment, blocks': seq<Block>)
    requires tools.Keys == calls.Keys && forall t | t in tools :: Holds(tools[t], calls[t], blocks)
    requires |blocks'| == |blocks| + 1 && forall j | 0 <= j < |blocks| :: blocks'[j] == blocks[j]
    requires blocks'[|blocks|] == Block(ToolBlock(f.Id(), f.Name()), "", true)
    ensures var tools' := tools[f.Slot() := Slot(f.Id(), f.Name(), "", |blocks|, true)];
      var calls' := calls[f.Slot() := Call(f.Id(), f.Name(), f.Id(), f.Name(), "")];
      forall t | t in tools' :: Holds(tools'[t], calls'[t], blocks')
  {
    forall t | t in tools ensures Holds(tools[t], calls[t], blocks') {
      assert Holds(tools[t], calls[t], blocks);
    }
  }

  lemma ToolsOwned(tools: map<int, Slot>, blocks: seq<Block>, f: ToolFragment, tools': map<int, Slot>, blocks': seq<Block>)
    requires forall j | 0 <= j < |blocks| && blocks[j].kind.ToolBlock? :: Owned(tools, j)
    requires f.Slot() !in tools && tools' == tools[f.Slot() := Slot(f.Id(), f.Name(), "", |blocks|, true)]
    requires |blocks'| == |blocks| + 1 && forall j | 0 <= j < |blocks| :: blocks'[j] == blocks[j]
    ensures forall j | 0 <= j < |blocks'| && blocks'[j].kind.ToolBlock? :: Owned(tools', j)
  {
    forall j | 0 <= j < |blocks'| && blocks'[j].kind.ToolBlock? ensures Owned(tools', j) {
      if j < |blocks| {
        assert blocks'[j] == blocks[j] && Owned(tools, j);
        var u :| u in tools && tools[u].blockIdx == j;
        assert tools'[u].blockIdx == j;
      } else {
        assert tools'[f.Slot()].blockIdx == j;
      }
    }
  }

  lemma ToolsAppend(c: Converter, s: Story, blocks: seq<Block>, f: ToolFragment, c': Converter, blocks': seq<Block>)
    requires ToolsTrack(c, s, blocks) && f.Slot() in c.tools
    requires var slot := c.tools[f.Slot()];
             && c'.tools == c.tools[f.Slot() := slot.(id := Later(slot.id, f.Id()), name := Later(slot.name, f.Name()),
                                                      arguments := slot.arguments + f.Args())]
             && slot.blockIdx < |blocks|
             && blocks' == blocks[slot.blockIdx := blocks[slot.blockIdx].(text := blocks[slot.blockIdx].text + f.Args())]
    ensures ToolsTrack(c', Tell(c.exposeThinking, s, Argued(f)), blocks')
  {
    var s' := Tell(c.exposeThinking, s, Argued(f));
    forall t | t in c.tools ensures Holds(c'.tools[t], s'.calls[t], blocks') {
      assert Holds(c.tools[t], s.calls[t], blocks);
    }
    forall j | 0 <= j < |blocks'| && blocks'[j].kind.ToolBlock? ensures Owned(c'.tools, j) {
      assert Owned(c.tools, j);
      var u :| u in c.tools && c.tools[u].blockIdx == j;
      assert c'.tools[u].blockIdx == j;
    }
  }

  lemma ToolOpened(c: Converter, s: Story, blocks: seq<Block>, f: ToolFragment)
    requires Tracks(c, s, blocks) && !c.thinkingOpen && f.Slot() !in s.calls
    ensures Tracks(c.(tools := c.tools[f.Slot() := Slot(f.Id(), f.Name(), "", |blocks|, true)], nextBlockIdx := |blocks| + 1),
                   Tell(c.exposeThinking, s, Opened(f)), blocks + [Block(ToolBlock(f.Id(), f.Name()), "", true)])
  {
    var c' := c.(tools := c.tools[f.Slot() := Slot(f.Id(), f.Name(), "", |blocks|, true)], nextBlockIdx := |blocks| + 1);
    var s' := Tell(c.exposeThinking, s, Opened(f));
    OtherTracksOpened(c, s, blocks, c', s', ToolBlock(f.Id(), f.Name()));
    ToolsStart(c, s, blocks, f, c', s');
  }

  /** A new tool block leaves thinking and text as they were. */
  lemma OtherTracksOpened(c: Converter, s: Story, blocks: seq<Block>, c': Converter, s': Story, kind: BlockKind)
    requires ThinkingTracks(c, s, blocks) && TextTracks(c, s, blocks) && !c.thinkingOpen && kind.ToolBlock?
    requires c' == c.(tools := c'.tools, nextBlockIdx := c'.nextBlockIdx)
    requires s'.reasoning == s.reasoning && s'.text == s.text
    ensures var blocks' := blocks + [Block(kind, "", true)]; ThinkingTracks(c', s', blocks') && TextTracks(c', s', blocks')
  {
    JoinedStart(blocks, kind, ThinkingDelta);
    JoinedStart(blocks, kind, TextDelta);
  }

  lemma OpenToolPreserves(k: Sink, s: Story, f: ToolFragment)
    requires Inv(k, s) && k.c.started && !k.c.thinkingOpen && f.Slot() !in s.calls
    ensures Inv(OpenTool(k, f), Tell(k.c.exposeThinking, s, Opened(f)))
  {
    Emitted(k.c.exposeThinking, k.out, BlockStart(k.c.nextBlockIdx, ToolBlock(f.Id(), f.Name())));
    ToolOpened(k.c, s, Blocks(k), f);
  }

  lemma ArgumentsTracked(c: Converter, s: Story, blocks: seq<Block>, f: ToolFragment, c': Converter)
    requires Tracks(c, s, blocks) && f.Slot() in c.tools && c.tools[f.Slot()].blockIdx < |blocks|
    requires c' == c.(tools := c'.tools)
    requires var slot := c.tools[f.Slot()];
             c'.tools == c.tools[f.Slot() := slot.(id := Later(slot.id, f.Id()), name := Later(slot.name, f.Name()),
                                                   arguments := slot.arguments + f.Args())]
    ensures Tracks(c', Tell(c.exposeThinking, s, Argued(f)), Extend(blocks, c.tools[f.Slot()].blockIdx, f.Args()))
  {
    assert Holds(c.tools[f.Slot()], s.calls[f.Slot()], blocks);
    var i := c.tools[f.Slot()].blockIdx;
    ToolsAppend(c, s, blocks, f, c', Extend(blocks, i, f.Args()));
    OtherTracksExtended(c, s, blocks, c', Tell(c.exposeThinking, s, Argued(f)), i, f.Args());
  }

  /** Arguments in a tool block leave thinking and text as they were. */
  lemma OtherTracksExtended(c: Converter, s: Story, blocks: seq<Block>, c': Converter, s': Story, i: nat, args: string)
    requires ThinkingTracks(c, s, blocks) && TextTracks(c, s, blocks) && i < |blocks| && blocks[i].kind.ToolBlock?
    requires c' == c.(tools := c'.tools) && s'.reasoning == s.reasoning && s'.text == s.text
    ensures ThinkingTracks(c', s', Extend(blocks, i, args)) && TextTracks(c', s', Extend(blocks, i, args))
  {
    ThinkingExtended(c, s, blocks, c', s', i, args);
    TextExtended(c, s, blocks, c', s', i, args);
  }

  lemma ThinkingExtended(c: Converter, s: Story, blocks: seq<Block>, c': Converter, s': Story, i: nat, args: string)
    requires ThinkingTracks(c, s, blocks) && i < |blocks| && blocks[i].kind.ToolBlock?
    requires c' == c.(tools := c'.tools) && s'.reasoning == s.reasoning
    ensures ThinkingTracks(c', s', Extend(blocks, i, args))
  {
    JoinedUpdate(blocks, i, Extend(blocks, i, args)[i], ThinkingDelta, args);
  }

  lemma TextExtended(c: Converter, s: Story, blocks: seq<Block>, c': Converter, s': Story, i: nat, args: string)
    requires TextTracks(c, s, blocks) && i < |blocks| && blocks[i].kind.ToolBlock?
    requires c' == c.(tools := c'.tools) && s'.text == s.text
    ensures TextTracks(c', s', Extend(blocks, i, args))
  {
    JoinedUpdate(blocks, i, Extend(blocks, i, args)[i], TextDelta, args);
  }

  lemma FeedArgumentsPreserves(k: Sink, s: Story, f: ToolFragment)
    requires Inv(k, s) && k.c.started && !k.c.thinkingOpen && f.Slot() in s.calls
    ensures Inv(FeedArguments(k, f), Tell(k.c.exposeThinking, s, Argued(f)))
  {
    var slot, blocks := k.c.tools[f.Slot()], Blocks(k);
    assert Holds(slot, s.calls[f.Slot()], blocks);
    ArgumentsTracked(k.c, s, blocks, f, FeedArguments(k, f).c);
    ArgumentsShown(k, slot.blockIdx, f.Args());
  }

  lemma ArgumentsShown(k: Sink, i: nat, text: string)
    requires Replay(k.c.exposeThinking, k.out).Some? && Replay(k.c.exposeThinking, k.out).value.phase.Streaming?
    requires i < |Blocks(k)| && Blocks(k)[i].open && Blocks(k)[i].kind.ToolBlock? && !ThinkingIsOpen(Blocks(k))
    ensures Replay(k.c.exposeThinking, if text != "" then k.out + [BlockDelta(i, InputJsonDelta, text)] else k.out)
            == Some(Client(Streaming, Extend(Blocks(k), i, text)))
  {
    if text != "" {
      Emitted(k.c.exposeThinking, k.out, BlockDelta(i, InputJsonDelta, text));
    } else {
      assert Blocks(k)[i].text + text == Blocks(k)[i].text;
      assert Extend(Blocks(k), i, text) == Blocks(k);
    }
  }

  lemma StepPreserves(k: Sink, s: Story, a: Atom)
    requires Inv(k, s) && k.c.started
    ensures Inv(Step(k, a), Tell(k.c.exposeThinking, s, a))
  {
    match a
    case Finished(r) =>
    case Reasoned(t) => FeedReasoningPreserves(k, s, t); Reorder(FeedReasoning(k, t), s.(reasoning := s.reasoning + t), Tell(k.c.exposeThinking, s, a));
    case Said(t) => FeedTextPreserves(k, s, t); Reorder(FeedText(k, t), s.(text := s.text + t), Tell(k.c.exposeThinking, s, a));
    case Opened(f) =>
      CloseThinkingPreserves(k, s);
      if f.Slot() !in s.calls { OpenToolPreserves(CloseThinking(k), s, f); }
    case Argued(f) =>
      CloseThinkingPreserves(k, s);
      if f.Slot() in s.calls { FeedArgumentsPreserves(CloseThinking(k), s, f); }
  }

  /** The invariant does not look at the order of the story. */
  lemma Reorder(k: Sink, s: Story, s': Story)
    requires Inv(k, s) && s' == s.(order := s'.order, textAtFirstCall := s'.textAtFirstCall)
    ensures Inv(k, s')
  {
  }

  lemma {:induction false} StepsPreserve(k: Sink, exposed: bool, h: seq<Atom>, atoms: seq<Atom>)
    requires Inv(k, StoryOf(exposed, h)) && k.c.started && exposed == k.c.exposeThinking
    ensures Inv(Steps(k, atoms), StoryOf(exposed, h + atoms))
    ensures Steps(k, atoms).c.started && Steps(k, atoms).c.exposeThinking == exposed
  {
    if atoms == [] {
      assert h + atoms == h;
    } else {
      var init, a := atoms[..|atoms| - 1], atoms[|atoms| - 1];
      StepsPreserve(k, exposed, h, init);
      StepPreserves(Steps(k, init), StoryOf(exposed, h + init), a);
      StoryAfter(exposed, h, atoms);
    }
  }

  lemma StoryAfter(exposed: bool, h: seq<Atom>, atoms: seq<Atom>)
    requires atoms != []
    ensures StoryOf(exposed, h + atoms) == Tell(exposed, StoryOf(exposed, h + atoms[..|atoms| - 1]), atoms[|atoms| - 1])
  {
    assert (h + atoms)[..|h + atoms| - 1] == h + atoms[..|atoms| - 1];
  }

  /** The model, the usage and the start flag are not part of what the invariant describes. */
  lemma Unrelated(c: Converter, s: Story, blocks: seq<Block>, c': Converter)
    requires Tracks(c, s, blocks) && c' == c.(started := c'.started, usage := c'.usage, model := c'.model)
    ensures Tracks(c', s, blocks)
  {
  }

  lemma BeginPreserves(k: Sink, s: Story, chunk: Chunk)
    requires Inv(k, s)
    ensures Inv(BeginChunk(k, chunk), s) && BeginChunk(k, chunk).c.started
    ensures BeginChunk(k, chunk).c.exposeThinking == k.c.exposeThinking
  {
    var k' := BeginChunk(k, chunk);
    BeginShape(k, chunk);
    Unrelated(k.c, s, Blocks(k), k'.c);
    if !k.c.started {
      Emitted(k.c.exposeThinking, k.out, MessageStart(k.c.msgId, k'.c.model.GetOr("")));
    }
  }

  lemma BeginShape(k: Sink, chunk: Chunk)
    ensures var k' := BeginChunk(k, chunk);
      k'.c == k.c.(started := true, usage := k'.c.usage, model := k'.c.model) &&
      (k.c.started ==> k'.out == k.out) &&
      (!k.c.started ==> k'.out == k.out + [MessageStart(k.c.msgId, k'.c.model.GetOr(""))])
  {
  }

  function Run(msgId: nat, exposed: bool, chunks: seq<Chunk>): Sink {
    FeedAll(Sink(New(msgId, exposed), []), chunks)
  }

  function RunStory(exposed: bool, chunks: seq<Chunk>): Story {
    StoryOf(exposed, RunAtoms(OnePass, chunks))
  }

  lemma {:induction false} RunInvariant(msgId: nat, exposed: bool, chunks: seq<Chunk>)
    ensures Inv(Run(msgId, exposed, chunks), RunStory(exposed, chunks))
    ensures Run(msgId, exposed, chunks).c.exposeThinking == exposed
    ensures Run(msgId, exposed, chunks).c.started <==> chunks != []
  {
    if chunks != [] {
      var init, chunk := chunks[..|chunks| - 1], chunks[|chunks| - 1];
      var k := Run(msgId, exposed, init);
      RunInvariant(msgId, exposed, init);
      BeginPreserves(k, RunStory(exposed, init), chunk);
      StepsPreserve(BeginChunk(k, chunk), exposed, RunAtoms(OnePass, init), ChunkAtoms(OnePass, chunk));
    }
  }

  // ---- The end of the stream ----

  /** The same blocks, with exactly those the predicate-like set `open` names still open. */
  ghost predicate Shut(blocks: seq<Block>, blocks': seq<Block>, tools: map<int, Slot>, done: seq<int>) {
    |blocks'| == |blocks| && forall i | 0 <= i < |blocks| ::
      blocks'[i] == blocks[i].(open := StillOpen(tools, done, i))
  }

  /** Block `i` belongs to a call that is not in `done`. */
  ghost predicate StillOpen(tools: map<int, Slot>, done: seq<int>, i: nat) {
    exists t :: t in tools && t !in done && tools[t].blockIdx == i
  }

  lemma TextShut(c: Converter, s: Story, blocks: seq<Block>)
    requires Tracks(c, s, blocks) && !c.thinkingOpen
    ensures Shut(blocks, if c.textOpen then blocks[c.textIdx := blocks[c.textIdx].(open := false)] else blocks, c.tools, [])
  {
    var blocks' := if c.textOpen then blocks[c.textIdx := blocks[c.textIdx].(open := false)] else blocks;
    forall i | 0 <= i < |blocks| ensures blocks'[i] == blocks[i].(open := StillOpen(c.tools, [], i)) {
      if blocks[i].kind.ToolBlock? {
        assert Owned(c.tools, i);
        var t :| t in c.tools && c.tools[t].blockIdx == i;
        assert t !in [] && StillOpen(c.tools, [], i);
        assert Holds(c.tools[t], s.calls[t], blocks);
      } else {
        forall t | t in c.tools ensures c.tools[t].blockIdx != i { assert Holds(c.tools[t], s.calls[t], blocks); }
        ClosedIfNotTool(c, s, blocks, i);
      }
    }
  }

  lemma ClosedIfNotTool(c: Converter, s: Story, blocks: seq<Block>, i: nat)
    requires Tracks(c, s, blocks) && !c.thinkingOpen && i < |blocks| && !blocks[i].kind.ToolBlock?
    ensures blocks[i].open ==> c.textOpen && i == c.textIdx
  {
  }

  lemma CloseTextShuts(k: Sink, s: Story)
    requires Inv(k, s) && !k.c.thinkingOpen
    ensures CloseText(k).c == k.c.(textOpen := false)
    ensures Replay(k.c.exposeThinking, CloseText(k).out)
            == Some(Client(if k.c.started then Streaming else Fresh, Blocks(CloseText(k))))
    ensures Shut(Blocks(k), Blocks(CloseText(k)), k.c.tools, [])
  {
    TextShut(k.c, s, Blocks(k));
    if k.c.textOpen { Emitted(k.c.exposeThinking, k.out, BlockStop(k.c.textIdx)); }
  }

  /** Closing one more call's block. */
  lemma ShutOne(blocks: seq<Block>, blocks': seq<Block>, tools: map<int, Slot>, done: seq<int>, t: int)
    requires Shut(blocks, blocks', tools, done) && t in tools && t !in done && tools[t].blockIdx < |blocks|
    requires forall u | u in tools && u != t :: tools[u].blockIdx != tools[t].blockIdx
    ensures var i := tools[t].blockIdx;
            blocks'[i].open && Shut(blocks, blocks'[i := blocks'[i].(open := false)], tools, done + [t])
  {
    var i := tools[t].blockIdx;
    assert StillOpen(tools, done, i);
    forall j | 0 <= j < |blocks| && j != i ensures StillOpen(tools, done + [t], j) == StillOpen(tools, done, j) {
      if StillOpen(tools, done, j) {
        var u :| u in tools && u !in done && tools[u].blockIdx == j;
        assert u !in done + [t];
      }
      if StillOpen(tools, done + [t], j) {
        var u :| u in tools && u !in done + [t] && tools[u].blockIdx == j;
        assert u !in done;
      }
    }
    assert !StillOpen(tools, done + [t], i) by {
      forall u | u in tools && u !in done + [t] ensures tools[u].blockIdx != i {}
    }
  }

  /** The slots of a closed stream: only the `started` flags change. */
  ghost predicate SameSlots(tools: map<int, Slot>, tools': map<int, Slot>) {
    tools'.Keys == tools.Keys && forall t | t in tools :: tools'[t] == tools[t].(started := tools'[t].started)
  }

  ghost predicate ToolsShut(k: Sink, k': Sink, blocks: seq<Block>, tools: map<int, Slot>, done: seq<int>) {
    && k'.c == k.c.(tools := k'.c.tools) && SameSlots(tools, k'.c.tools)
    && (forall t | t in tools :: k'.c.tools[t].started == (t !in done))
    && Replay(k.c.exposeThinking, k'.out) == Some(Client(if k.c.started then Streaming else Fresh, Blocks(k')))
    && Shut(blocks, Blocks(k'), tools, done)
  }

  lemma CloseToolShuts(k: Sink, k': Sink, blocks: seq<Block>, done: seq<int>, t: int)
    requires ToolsShut(k, k', blocks, k.c.tools, done) && k.c.started && t in k.c.tools && t !in done
    requires k.c.tools[t].blockIdx < |blocks|
    requires forall u | u in k.c.tools && u != t :: k.c.tools[u].blockIdx != k.c.tools[t].blockIdx
    ensures ToolsShut(k, CloseTool(k', t), blocks, k.c.tools, done + [t])
  {
    ShutOne(blocks, Blocks(k'), k.c.tools, done, t);
    Emitted(k.c.exposeThinking, k'.out, BlockStop(k.c.tools[t].blockIdx));
  }

  lemma {:induction false} CloseToolsShuts(k: Sink, blocks: seq<Block>, keys: seq<int>)
    requires ToolsShut(k, k, blocks, k.c.tools, []) && (k.c.tools != map[] ==> k.c.started)
    requires forall t | t in k.c.tools :: k.c.tools[t].blockIdx < |blocks|
    requires forall t, u | t in k.c.tools && u in k.c.tools && t != u :: k.c.tools[t].blockIdx != k.c.tools[u].blockIdx
    requires SortedKeys.Increasing(keys) && forall t | t in keys :: t in k.c.tools
    ensures ToolsShut(k, CloseTools(k, keys), blocks, k.c.tools, keys)
  {
    if keys != [] {
      var init, t := keys[..|keys| - 1], keys[|keys| - 1];
      assert keys == init + [t] && t in keys && t !in init;
      CloseToolsShuts(k, blocks, init);
      CloseToolShuts(k, CloseTools(k, init), blocks, init, t);
    }
  }

  lemma TracksPlaces(c: Converter, s: Story, blocks: seq<Block>)
    requires Tracks(c, s, blocks)
    ensures forall t | t in c.tools :: c.tools[t].started && c.tools[t].blockIdx < |blocks|
    ensures forall t, u | t in c.tools && u in c.tools && t != u :: c.tools[t].blockIdx != c.tools[u].blockIdx
  {
    forall t | t in c.tools ensures c.tools[t].started && c.tools[t].blockIdx < |blocks| {
      assert Holds(c.tools[t], s.calls[t], blocks);
    }
  }

  lemma CloseBlocksShuts(k: Sink, s: Story)
    requires Inv(k, s)
    ensures var k1 := CloseThinking(k);
            && Inv(k1, s) && k1.c == k.c.(thinkingOpen := false)
            && ToolsShut(CloseText(k1), CloseBlocks(k), Blocks(k1), k.c.tools, SortedKeys.Ascending(k.c.tools.Keys))
  {
    var k1 := CloseThinking(k);
    CloseThinkingPreserves(k, s);
    CloseTextShuts(k1, s);
    TracksPlaces(k1.c, s, Blocks(k1));
    var k2 := CloseText(k1);
    if t :| t in k.c.tools { assert k.c.tools[t].blockIdx < |Blocks(k1)|; }
    CloseToolsShuts(k2, Blocks(k1), SortedKeys.Ascending(k.c.tools.Keys));
  }

  lemma {:induction false} JoinedSame(blocks: seq<Block>, blocks': seq<Block>, d: DeltaKind)
    requires |blocks'| == |blocks|
    requires forall i | 0 <= i < |blocks| :: blocks'[i] == blocks[i].(open := blocks'[i].open)
    ensures Joined(blocks', d) == Joined(blocks, d)
  {
    if blocks != [] { JoinedSame(blocks[..|blocks| - 1], blocks'[..|blocks| - 1], d); }
  }

  /** Each call has a block of its own, holding its arguments and nothing else; every tool block is a call's. */
  ghost predicate Delivered(blocks: seq<Block>, calls: map<int, Call>, tools: map<int, Slot>) {
    && tools.Keys == calls.Keys
    && (forall t | t in calls :: tools[t].blockIdx < |blocks|
          && blocks[tools[t].blockIdx] == Block(ToolBlock(calls[t].firstId, calls[t].firstName), calls[t].args, false))
    && (forall t, u | t in calls && u in calls && t != u :: tools[t].blockIdx != tools[u].blockIdx)
    && (forall i | 0 <= i < |blocks| && blocks[i].kind.ToolBlock? :: Owned(tools, i))
  }

  lemma ShutDelivers(c: Converter, s: Story, blocks: seq<Block>, blocks': seq<Block>, tools': map<int, Slot>)
    requires Tracks(c, s, blocks) && Shut(blocks, blocks', c.tools, SortedKeys.Ascending(c.tools.Keys))
    requires SameSlots(c.tools, tools')
    ensures AllClosed(blocks') && Delivered(blocks', s.calls, tools')
  {
    forall i | 0 <= i < |blocks| ensures !StillOpen(c.tools, SortedKeys.Ascending(c.tools.Keys), i) {}
    forall t | t in s.calls
      ensures tools'[t].blockIdx < |blocks'|
      ensures blocks'[tools'[t].blockIdx] == Block(ToolBlock(s.calls[t].firstId, s.calls[t].firstName), s.calls[t].args, false)
    {
      assert Holds(c.tools[t], s.calls[t], blocks);
    }
    forall i | 0 <= i < |blocks'| && blocks'[i].kind.ToolBlock? ensures Owned(tools', i) {
      assert Owned(c.tools, i);
      var t :| t in c.tools && c.tools[t].blockIdx == i;
      assert tools'[t].blockIdx == i;
    }
  }

  lemma ShutKeepsText(blocks: seq<Block>, blocks': seq<Block>, tools: map<int, Slot>, done: seq<int>)
    requires Shut(blocks, blocks', tools, done)
    ensures Joined(blocks', ThinkingDelta) == Joined(blocks, ThinkingDelta)
    ensures Joined(blocks', TextDelta) == Joined(blocks, TextDelta)
  {
    JoinedSame(blocks, blocks', ThinkingDelta);
    JoinedSame(blocks, blocks', TextDelta);
  }

  // ---- The guarantees ----

  function Stream(msgId: nat, exposed: bool, chunks: seq<Chunk>): Sink {
    Finish(Run(msgId, exposed, chunks))
  }

  lemma FinalFrames(exposed: bool, out: seq<Event>, v: Client, stop: string, tokens: nat)
    requires Replay(exposed, out) == Some(v) && (v.phase.Streaming? || v.phase.Fresh?) && AllClosed(v.blocks)
    ensures Replay(exposed, out + [MessageDelta(stop, tokens)] + [MessageStop]) == Some(Client(Ended, v.blocks))
  {
    Emitted(exposed, out, MessageDelta(stop, tokens));
    Emitted(exposed, out + [MessageDelta(stop, tokens)], MessageStop);
  }

  /** The client's final state, and how the converter's final state relates to it. */
  ghost predicate Complete(k: Sink, s: Story) {
    && Replay(k.c.exposeThinking, k.out) == Some(Client(Ended, Blocks(k))) && AllClosed(Blocks(k))
    && Delivered(Blocks(k), s.calls, k.c.tools)
    && Joined(Blocks(k), ThinkingDelta) == (if k.c.exposeThinking then s.reasoning else "")
    && Joined(Blocks(k), TextDelta) == s.text
  }

  lemma CloseBlocksCompletes(k: Sink, s: Story)
    requires Inv(k, s)
    ensures var k3 := CloseBlocks(k);
            && k3.c == k.c.(thinkingOpen := false, textOpen := false, tools := k3.c.tools)
            && SameSlots(k.c.tools, k3.c.tools)
            && Replay(k.c.exposeThinking, k3.out) == Some(Client(if k.c.started then Streaming else Fresh, Blocks(k3)))
            && AllClosed(Blocks(k3)) && Delivered(Blocks(k3), s.calls, k3.c.tools)
            && Joined(Blocks(k3), ThinkingDelta) == (if k.c.exposeThinking then s.reasoning else "")
            && Joined(Blocks(k3), TextDelta) == s.text
  {
    CloseBlocksShuts(k, s);
    var k1, k3 := CloseThinking(k), CloseBlocks(k);
    CloseTextShuts(k1, s);
    ShutDelivers(k1.c, s, Blocks(k1), Blocks(k3), k3.c.tools);
    ShutKeepsText(Blocks(k1), Blocks(k3), k.c.tools, SortedKeys.Ascending(k.c.tools.Keys));
  }

  lemma Ends(k: Sink, s: Story)
    requires Inv(k, s)
    ensures var k' := Finish(k);
            && Complete(k', s) && SameSlots(k.c.tools, k'.c.tools)
            && k'.c == k.c.(thinkingOpen := false, textOpen := false, tools := k'.c.tools, finished := true)
  {
    CloseBlocksCompletes(k, s);
    var k3 := CloseBlocks(k);
    FinalFrames(k.c.exposeThinking, k3.out, Client(if k.c.started then Streaming else Fresh, Blocks(k3)),
                StopReason(k.c.finishReason), if k.c.usage.Some? then k.c.usage.value.output else 0);
  }

  lemma StreamCompletes(msgId: nat, exposed: bool, chunks: seq<Chunk>)
    ensures var k := Stream(msgId, exposed, chunks);
            Complete(k, RunStory(exposed, chunks)) && k.c.exposeThinking == exposed
  {
    RunInvariant(msgId, exposed, chunks);
    Ends(Run(msgId, exposed, chunks), RunStory(exposed, chunks));
  }

  lemma {:induction false} StreamingStarted(exposed: bool, out: seq<Event>)
    requires Replay(exposed, out).Some?
    ensures Replay(exposed, out).value.phase.Fresh? ==> out == []
    ensures Replay(exposed, out).value.phase.Streaming? ==> out != [] && out[0].MessageStart?
  {
    if out != [] { StreamingStarted(exposed, out[..|out| - 1]); }
  }

  /**
   A strict client accepts the whole stream and ends with every block closed.  If anything was
   fed, the first event is `message_start` (which the client admits nowhere else).
   */
  lemma StrictClientAccepts(msgId: nat, exposed: bool, chunks: seq<Chunk>)
    ensures var k := Stream(msgId, exposed, chunks);
            && Replay(exposed, k.out) == Some(Client(Ended, Blocks(k))) && AllClosed(Blocks(k))
            && (chunks != [] ==> k.out != [] && k.out[0].MessageStart?)
  {
    StreamCompletes(msgId, exposed, chunks);
    RunInvariant(msgId, exposed, chunks);
    StreamingStarted(exposed, Run(msgId, exposed, chunks).out);
  }

  /** What the client holds at the end is the story of the run: nothing lost, repeated or mixed between calls. */
  lemma ClientHoldsTheStory(msgId: nat, exposed: bool, chunks: seq<Chunk>)
    ensures var k, s := Stream(msgId, exposed, chunks), RunStory(exposed, chunks);
            && Joined(Blocks(k), ThinkingDelta) == (if exposed then s.reasoning else "")
            && Joined(Blocks(k), TextDelta) == s.text
            && Delivered(Blocks(k), s.calls, k.c.tools)
  {
    StreamCompletes(msgId, exposed, chunks);
  }

  /** The same, in terms of the upstream's fields: each text is the concatenation of its fragments. */
  lemma ClientHoldsTheUpstream(msgId: nat, exposed: bool, chunks: seq<Chunk>)
    ensures var k, h := Stream(msgId, exposed, chunks), RunAtoms(OnePass, chunks);
            && Joined(Blocks(k), ThinkingDelta) == (if exposed then ReasoningOf(h) else "")
            && Joined(Blocks(k), TextDelta) == TextOf(h)
            && (forall t :: t in k.c.tools <==> OpenedAt(h, t))
            && forall t | OpenedAt(h, t) ::
                 k.c.tools[t].blockIdx < |Blocks(k)| && Blocks(k)[k.c.tools[t].blockIdx].text == ArgsAt(h, t)
  {
    var k, h := Stream(msgId, exposed, chunks), RunAtoms(OnePass, chunks);
    ClientHoldsTheStory(msgId, exposed, chunks);
    RunOpenFirst(OnePass, chunks);
    StoryMeaning(exposed, h);
    forall t ensures t in k.c.tools <==> t in RunStory(exposed, chunks).calls {}
  }

  /** The calls of a story in the order of their upstream indices. */
  function StoryCalls(calls: map<int, Call>, keys: seq<int>): seq<ToolCallAccum> {
    if keys == [] then [] else
      var init, t := StoryCalls(calls, keys[..|keys| - 1]), keys[|keys| - 1];
      if t in calls then init + [ToolCallAccum(calls[t].latestId, calls[t].latestName, calls[t].args)] else init
  }

  lemma {:induction false} CallsAreStory(tools: map<int, Slot>, calls: map<int, Call>, keys: seq<int>)
    requires tools.Keys == calls.Keys
    requires forall t | t in tools :: tools[t].id == calls[t].latestId && tools[t].name == calls[t].latestName
                                      && tools[t].arguments == calls[t].args
    ensures CallsOf(tools, keys) == StoryCalls(calls, keys)
  {
    if keys != [] { CallsAreStory(tools, calls, keys[..|keys| - 1]); }
  }

  lemma SlotsAreStory(c: Converter, s: Story, blocks: seq<Block>, tools': map<int, Slot>)
    requires ToolsTrack(c, s, blocks) && SameSlots(c.tools, tools')
    ensures CallsOf(tools', SortedKeys.Ascending(tools'.Keys)) == StoryCalls(s.calls, SortedKeys.Ascending(s.calls.Keys))
  {
    forall t | t in tools'
      ensures tools'[t].id == s.calls[t].latestId && tools'[t].name == s.calls[t].latestName
              && tools'[t].arguments == s.calls[t].args
    {
      assert Holds(c.tools[t], s.calls[t], blocks);
    }
    CallsAreStory(tools', s.calls, SortedKeys.Ascending(s.calls.Keys));
  }

  /**
   The accumulated answer is the story too, and the non-streaming message is made of it: its
   thinking and text are what the streaming client joined, its calls are the story's, and its stop
   reason and output tokens are those of the last two events.
   */
  lemma NonstreamAgrees(num: Json.Numbers, msgId: nat, exposed: bool, chunks: seq<Chunk>)
    ensures var k, s := Stream(msgId, exposed, chunks), RunStory(exposed, chunks);
            var a, thinking, text := AccumulatedOf(k.c), Joined(Blocks(k), ThinkingDelta), Joined(Blocks(k), TextDelta);
            && a.reasoning == s.reasoning && a.text == s.text && a.finishReason == s.finish
            && a.toolCalls == StoryCalls(s.calls, SortedKeys.Ascending(s.calls.Keys))
            && NonstreamResponse(num, k.c).content
               == (if thinking != "" then [ThinkingContent(thinking)] else [])
                  + (if text != "" then [TextContent(text)] else [])
                  + ToolUses(num, a.toolCalls)
    ensures var k, m := Stream(msgId, exposed, chunks), NonstreamResponse(num, Stream(msgId, exposed, chunks).c);
            && |k.out| >= 2 && m.stopReason == StopReason(RunStory(exposed, chunks).finish)
            && k.out[|k.out| - 2] == MessageDelta(m.stopReason, m.usage.output) && k.out[|k.out| - 1] == MessageStop
  {
    RunInvariant(msgId, exposed, chunks);
    var k, s := Run(msgId, exposed, chunks), RunStory(exposed, chunks);
    Ends(k, s);
    SlotsAreStory(k.c, s, Blocks(k), Finish(k).c.tools);
  }

  // ---- Ids and names of calls ----

  /** A call as the client holds it: the id and name its block started with, and its joined arguments. */
  function HeldCall(blocks: seq<Block>, tools: map<int, Slot>, t: int): ToolCallAccum {
    if t in tools && tools[t].blockIdx < |blocks| && blocks[tools[t].blockIdx].kind.ToolBlock?
    then
      var b := blocks[tools[t].blockIdx];
      ToolCallAccum(b.kind.id, b.kind.name, b.text)
    else ToolCallAccum("", "", "")
  }

  function HeldCalls(blocks: seq<Block>, tools: map<int, Slot>, keys: seq<int>): seq<ToolCallAccum> {
    seq(|keys|, i requires 0 <= i < |keys| => HeldCall(blocks, tools, keys[i]))
  }

  /** The message a client makes of its blocks: thinking, text, and the calls by index. */
  function ClientContent(num: Json.Numbers, k: Sink): seq<Content> {
    var thinking, text := Joined(Blocks(k), ThinkingDelta), Joined(Blocks(k), TextDelta);
    (if thinking != "" then [ThinkingContent(thinking)] else [])
    + (if text != "" then [TextContent(text)] else [])
    + ToolUses(num, HeldCalls(Blocks(k), k.c.tools, SortedKeys.Ascending(k.c.tools.Keys)))
  }

  lemma {:induction false} StoryCallAt(calls: map<int, Call>, keys: seq<int>, i: nat)
    requires i < |keys| && forall j | 0 <= j < |keys| :: keys[j] in calls
    ensures |StoryCalls(calls, keys)| == |keys|
    ensures var c := calls[keys[i]]; StoryCalls(calls, keys)[i] == ToolCallAccum(c.latestId, c.latestName, c.args)
  {
    var init := keys[..|keys| - 1];
    if i < |init| {
      StoryCallAt(calls, init, i);
    } else if init != [] {
      StoryCallAt(calls, init, 0);
    }
  }

  /** What the client holds of a call, and what the aggregate has of it. */
  lemma {:induction false} CallUsesAt(num: Json.Numbers, blocks: seq<Block>, tools: map<int, Slot>, calls: map<int, Call>, keys: seq<int>, i: nat)
    requires Delivered(blocks, calls, tools) && i < |keys| && forall j | 0 <= j < |keys| :: keys[j] in calls
    ensures |ToolUses(num, StoryCalls(calls, keys))| == |ToolUses(num, HeldCalls(blocks, tools, keys))| == |keys|
    ensures var c := calls[keys[i]];
      ToolUses(num, HeldCalls(blocks, tools, keys))[i] == ToolUse(c.firstId, c.firstName, ToolInput(num, c.args)) &&
      ToolUses(num, StoryCalls(calls, keys))[i] == ToolUse(c.latestId, c.latestName, ToolInput(num, c.args))
  {
    StoryCallAt(calls, keys, i);
  }

  lemma {:induction false} UsesAgreeIff(num: Json.Numbers, blocks: seq<Block>, tools: map<int, Slot>, s: Story, keys: seq<int>)
    requires Delivered(blocks, s.calls, tools) && forall t :: t in keys <==> t in s.calls
    ensures ToolUses(num, HeldCalls(blocks, tools, keys)) == ToolUses(num, StoryCalls(s.calls, keys)) <==> IdentityStable(s)
  {
    var held, told := ToolUses(num, HeldCalls(blocks, tools, keys)), ToolUses(num, StoryCalls(s.calls, keys));
    assert forall j | 0 <= j < |keys| :: keys[j] in keys;
    forall i | 0 <= i < |keys|
      ensures |held| == |told| == |keys|
      ensures held[i] == told[i] <==>
        s.calls[keys[i]].firstId == s.calls[keys[i]].latestId && s.calls[keys[i]].firstName == s.calls[keys[i]].latestName
    {
      CallUsesAt(num, blocks, tools, s.calls, keys, i);
    }
    if held == told {
      forall t | t in s.calls
        ensures s.calls[t].firstId == s.calls[t].latestId && s.calls[t].firstName == s.calls[t].latestName
      {
        var i :| 0 <= i < |keys| && keys[i] == t;
        assert held[i] == told[i];
      }
    }
    if IdentityStable(s) {
      assert keys == [] ==> held == told;
      forall i | 0 <= i < |keys| ensures held[i] == told[i] { assert keys[i] in keys; }
    }
  }

  /**
   The message a client makes of its blocks is the non-streaming message, ids and names of calls included,
   exactly when no call changes its id or name after its first fragment.
   */
  lemma ClientRebuildsMessage(num: Json.Numbers, msgId: nat, exposed: bool, chunks: seq<Chunk>)
    ensures var k := Stream(msgId, exposed, chunks);
            ClientContent(num, k) == NonstreamResponse(num, k.c).content <==> IdentityStable(RunStory(exposed, chunks))
  {
    var k, s := Stream(msgId, exposed, chunks), RunStory(exposed, chunks);
    NonstreamAgrees(num, msgId, exposed, chunks);
    StreamCompletes(msgId, exposed, chunks);
    var keys := SortedKeys.Ascending(s.calls.Keys);
    UsesAgreeIff(num, Blocks(k), k.c.tools, s, keys);
    var thinking, text := Joined(Blocks(k), ThinkingDelta), Joined(Blocks(k), TextDelta);
    var prose := (if thinking != "" then [ThinkingContent(thinking)] else []) + (if text != "" then [TextContent(text)] else []);
    SplitEqual(prose, ToolUses(num, HeldCalls(Blocks(k), k.c.tools, keys)), prose, ToolUses(num, StoryCalls(s.calls, keys)));
  }

  /** A call whose id arrives late: the client keeps the first id, the non-streaming message has the last one. */
  lemma LateIdDivides(num: Json.Numbers, msgId: nat, exposed: bool, f: ToolFragment, g: ToolFragment)
    requires f.Slot() == g.Slot() && g.Id() != "" && g.Id() != f.Id()
    ensures var k := Stream(msgId, exposed, [CallingChunk(f), CallingChunk(g)]);
            ClientContent(num, k) != NonstreamResponse(num, k.c).content
  {
    var chunks := [CallingChunk(f), CallingChunk(g)];
    LateIdRun(exposed, f, g);
    FrontendsAgree(exposed, chunks);
    ClientRebuildsMessage(num, msgId, exposed, chunks);
  }

  /**
   Arguments that spell an object become that object with its numbers read, unless one of them is refused or
   it is nested beyond the recursion limit; they become the very object exactly when its numbers are settled, too.
   */
  lemma InputReadsBack(num: Json.Numbers, v: Json.Json)
    requires Json.WellFormed(v) && v.JObject?
    ensures ToolInput(num, Json.ToText(v)) ==
      if Json.Accepted(num, v) && Json.Depth(v) < 128 then Json.Reread(num, v) else Json.JObject([])
    ensures ToolInput(num, Json.ToText(v)) == v <==> Json.Settled(num, v) && Json.Depth(v) < 128
  {
    CanonicalTheorems.TextReadsBack(num, v);
    CanonicalTheorems.RereadSame(num, v);
  }

  /** After `finish`, nothing fed or finished again adds an event or changes the state. */
  lemma {:induction false} FinishedIsFinal(k: Sink, chunks: seq<Chunk>)
    ensures FeedAll(Finish(k), chunks) == Finish(k) && Finish(FeedAll(Finish(k), chunks)) == Finish(k)
  {
    FinishFinishes(k);
    if chunks != [] { FinishedIsFinal(k, chunks[..|chunks| - 1]); }
  }

  lemma FinishFinishes(k: Sink)
    ensures Finish(k).c.finished
  {
  }
}
