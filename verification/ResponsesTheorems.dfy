/** What every run of the Responses converter guarantees its client. */
module ResponsesTheorems {
  import opened Wrappers
  import opened ChatChunk
  import opened ResponsesStream
  import SortedKeys

  // ---- The invariant: the converter and the client both hold the story so far ----

  ghost predicate Numbered(k: Sink) {
    k.c.sequence == |k.out| && forall i | 0 <= i < |k.out| :: k.out[i].sequence == i + 1
  }

  /** The item of each kind of content sits at its place in the output order. */
  ghost predicate Placed(c: Converter, kind: Kind, i: nat) {
    i < |c.items| &&
    match kind
    case Thinking => c.reasoning.Some? && c.reasoning.value.outputIndex == Some(i)
                     && c.items[i] == ReasoningRef(c.reasoning.value.itemId)
    case Saying => c.message.Some? && c.message.value.outputIndex == Some(i)
                   && c.items[i] == MessageRef(c.message.value.itemId)
    case Calling(t) => t in c.tools && c.tools[t].outputIndex == i && c.items[i] == CallRef(c.tools[t].itemId)
  }

  ghost predicate ReasoningTracks(c: Converter, s: Story) {
    && (Thinking in s.order <==> c.config.exposeThinking && c.reasoning.Some?)
    && match c.reasoning
       case None => s.reasoning == ""
       case Some(b) => b.accum == s.reasoning && !b.partDone && !b.itemDone && b.itemId < c.supply
                       && b.itemAdded == b.partAdded == b.outputIndex.Some? == c.config.exposeThinking
  }

  ghost predicate MessageTracks(c: Converter, s: Story) {
    && (Saying in s.order <==> c.message.Some?)
    && (s.textAtFirstCall.Some? ==> c.message.Some?)
    && match c.message
       case None => s.text == ""
       case Some(b) => b.accum == s.text && b.itemAdded && b.partAdded && b.outputIndex.Some?
                       && b.partDone == b.itemDone == s.textAtFirstCall.Some?
  }

  ghost predicate Tells(slot: Slot, call: Call) {
    slot.arguments == call.args && slot.callId == call.latestId && slot.name == call.latestName && !slot.done
  }

  ghost predicate ToolsTrack(c: Converter, s: Story) {
    && c.tools.Keys == s.calls.Keys
    && (forall t | t in c.tools :: Tells(c.tools[t], s.calls[t]))
    && (forall t | t in c.tools :: Calling(t) in s.order)
  }

  ghost predicate DistinctIds(c: Converter) {
    && (forall i | 0 <= i < |c.items| :: c.items[i].id < c.supply)
    && (forall i, j | 0 <= i < j < |c.items| :: c.items[i].id != c.items[j].id)
  }

  ghost predicate Shape(c: Converter, s: Story) {
    && |c.items| == |s.order| == c.nextOutputIndex
    && (forall i | 0 <= i < |s.order| :: Placed(c, s.order[i], i))
    && (s.order != [] ==> c.started)
    && ReasoningTracks(c, s) && MessageTracks(c, s) && ToolsTrack(c, s) && DistinctIds(c)
    && c.error.None? && c.finishReason == s.finish
  }

  /** The client's copy of an item: the story's content under the item's id. */
  function Copy(id: Id, s: Story, kind: Kind): ClientItem {
    match kind
    case Thinking => ClientItem(ReasoningItem(id, [], InProgress), s.reasoning)
    case Saying => ClientItem(MessageItem(id, [], InProgress), s.text)
    case Calling(t) =>
      if t in s.calls
      then ClientItem(FunctionCallItem(id, s.calls[t].firstId, s.calls[t].firstName, "", InProgress), s.calls[t].args)
      else ClientItem(MessageItem(id, [], InProgress), "")
  }

  ghost predicate Mirrored(c: Converter, s: Story, v: seq<ClientItem>) {
    |v| == |s.order| == |c.items| && forall i | 0 <= i < |v| :: v[i] == Copy(c.items[i].id, s, s.order[i])
  }

  /** The one `done` item there may be before the end: the message, closed by the first call. */
  function ClosedEarly(c: Converter, s: Story): seq<(nat, Item)> {
    if c.message.Some? && s.textAtFirstCall.Some?
    then [(c.message.value.Index(), MessageItem(c.message.value.itemId, [s.textAtFirstCall.value], Completed))]
    else []
  }

  /** The frames sent so far have shown the client state `c` and story `s`. */
  ghost predicate Shown(k: Sink, c: Converter, s: Story) {
    && Numbered(k)
    && Replay(k.out).Some? && Mirrored(c, s, Replay(k.out).value.items)
    && Replay(k.out).value.phase == (if c.started then Streaming else Fresh)
    && Dones(k.out) == ClosedEarly(c, s)
  }

  ghost predicate Inv(k: Sink, s: Story) {
    Shape(k.c, s) && Shown(k, k.c, s)
  }

  /** A message is closed early only by a call. */
  ghost predicate Sound(s: Story) {
    s.calls == map[] ==> s.textAtFirstCall.None?
  }

  // ---- Preservation ----

  lemma Emitted(k: Sink, e: Event)
    requires Numbered(k)
    ensures Numbered(Emit(k, e))
    ensures Replay(Emit(k, e).out) == if Replay(k.out).Some? then Receive(Replay(k.out).value, e) else None
    ensures Dones(Emit(k, e).out) == Dones(k.out) + (if e.ItemDone? then [(e.outputIndex, e.item)] else [])
  {
    var out := Emit(k, e).out;
    assert out[..|out| - 1] == k.out;
  }

  /** A new item goes to the end of the output order and draws a fresh id. */
  lemma Append(c: Converter, s: Story, c': Converter, kind: Kind, r: Ref)
    requires |c.items| == |s.order| && (forall i | 0 <= i < |s.order| :: Placed(c, s.order[i], i))
    requires DistinctIds(c) && kind !in s.order
    requires c'.items == c.items + [r] && r.id == c.supply < c'.supply
    requires forall i | 0 <= i < |s.order| :: Placed(c', s.order[i], i)
    requires Placed(c', kind, |s.order|)
    ensures forall i | 0 <= i < |s.order + [kind]| :: Placed(c', (s.order + [kind])[i], i)
    ensures DistinctIds(c')
  {
  }

  /** An `output_item.added` frame gives the client the story's next item. */
  lemma ShowItem(k: Sink, c: Converter, s: Story, c': Converter, s': Story, kind: Kind, item: Item)
    requires Shown(k, c, s) && ClosedEarly(c, s) == ClosedEarly(c', s') && c.started && c'.started
    requires |c'.items| == |c.items| + 1 && c'.items[..|c.items|] == c.items && s'.order == s.order + [kind]
    requires forall i | 0 <= i < |s.order| :: Copy(c.items[i].id, s, s.order[i]) == Copy(c.items[i].id, s', s.order[i])
    requires ClientItem(item, "") == Copy(c'.items[|c.items|].id, s', kind)
    ensures Shown(Emit(k, ItemAdded(|c.items|, item)), c', s')
  {
    Emitted(k, ItemAdded(|c.items|, item));
    var v := Replay(k.out).value.items;
    forall i | 0 <= i < |v| ensures v[i] == Copy(c'.items[i].id, s', s'.order[i]) {
      assert c'.items[i] == c'.items[..|c.items|][i];
    }
  }

  ghost predicate Part(e: Event, c: Converter, s: Story, i: nat, ch: Channel) {
    && i < |s.order| == |c.items| && Listens(Copy(c.items[i].id, s, s.order[i]).added, ch)
    && var text := Copy(c.items[i].id, s, s.order[i]).text;
       e == PartAdded(ch, c.items[i].id, i) || e == TextDone(ch, c.items[i].id, i, text) || e == PartDone(ch, c.items[i].id, i, text)
  }

  /** Part frames name an item the client has, say the text it has, and change nothing it holds. */
  lemma ShowPart(k: Sink, c: Converter, s: Story, e: Event, i: nat, ch: Channel)
    requires Shown(k, c, s) && c.started && Part(e, c, s, i, ch)
    ensures Shown(Emit(k, e), c, s)
  {
    Emitted(k, e);
  }

  /** A delta frame extends the one item it names, as the story does. */
  lemma ShowDelta(k: Sink, c: Converter, s: Story, c': Converter, s': Story, i: nat, ch: Channel, text: string)
    requires Shown(k, c, s) && ClosedEarly(c, s) == ClosedEarly(c', s') && c.started && c'.started
    requires i < |s.order| && c'.items == c.items && s'.order == s.order
    requires forall j | 0 <= j < |s.order| && j != i :: Copy(c.items[j].id, s, s.order[j]) == Copy(c.items[j].id, s', s.order[j])
    requires var mine := Copy(c.items[i].id, s, s.order[i]);
             Copy(c.items[i].id, s', s.order[i]) == mine.(text := mine.text + text) && Listens(mine.added, ch)
    ensures Shown(Emit(k, Event.Delta(ch, c.items[i].id, i, text)), c', s')
  {
    Emitted(k, Event.Delta(ch, c.items[i].id, i, text));
  }

  lemma Elsewhere(c: Converter, s: Story, i: nat)
    requires Shape(c, s) && i < |s.order|
    ensures forall j | 0 <= j < |s.order| && j != i :: s.order[j] != s.order[i]
  {
    forall j | 0 <= j < |s.order| && j != i ensures s.order[j] != s.order[i] {
      assert Placed(c, s.order[i], i) && Placed(c, s.order[j], j);
    }
  }

  /** Where a kind of content that has appeared sits in the order. */
  lemma PlaceOf(c: Converter, s: Story, kind: Kind) returns (i: nat)
    requires Shape(c, s) && kind in s.order
    ensures i < |s.order| && s.order[i] == kind && Placed(c, kind, i)
    ensures forall j | 0 <= j < |s.order| && j != i :: s.order[j] != kind
  {
    i :| 0 <= i < |s.order| && s.order[i] == kind;
    Elsewhere(c, s, i);
  }

  /** The two frames that add the message item and its part. */
  lemma MessageShown(k: Sink, c: Converter, s: Story, c': Converter, s': Story, id: Id, index: nat)
    requires Shown(k, c, s) && ClosedEarly(c, s) == ClosedEarly(c', s') && c.started && c'.started
    requires c'.items == c.items + [MessageRef(id)] && s' == s.(order := s.order + [Saying]) && s.text == "" && index == |c.items| == |s.order|
    ensures Shown(Emit(Emit(k, ItemAdded(index, MessageItem(id, [], InProgress))), PartAdded(OutputText, id, index)), c', s')
  {
    var item := MessageItem(id, [], InProgress);
    ShowItem(k, c, s, c', s', Saying, item);
    ShowPart(Emit(k, ItemAdded(index, item)), c', s', PartAdded(OutputText, id, index), index, OutputText);
  }

  lemma EnsureMessage(k: Sink, s: Story)
    requires Inv(k, s) && k.c.started
    ensures Inv(EnsureMessageItem(k), s.(order := Join(s.order, Saying)))
  {
    if k.c.message.None? {
      var id, index := k.c.supply, k.c.nextOutputIndex;
      var s', c' := s.(order := Join(s.order, Saying)), EnsureMessageItem(k).c;
      Append(k.c, s, c', Saying, MessageRef(id));
      var k1 := Sink(c'.(sequence := k.c.sequence), k.out);
      MessageShown(k1, k.c, s, c', s', id, index);
    }
  }

  lemma AppendTextPreserves(k: Sink, s: Story, text: string)
    requires Inv(k, s) && Saying in s.order
    ensures Inv(AppendText(k, text), s.(text := s.text + text))
  {
    var i := PlaceOf(k.c, s, Saying);
    var c' := AppendText(k, text).c;
    var k1 := Sink(c'.(sequence := k.c.sequence), k.out);
    ShowDelta(k1, k.c, s, c', s.(text := s.text + text), i, OutputText, text);
    assert c'.items == k.c.items;
  }

  lemma EnsureReasoning(k: Sink, s: Story)
    requires Inv(k, s) && k.c.started && k.c.config.exposeThinking
    ensures Inv(EnsureReasoningItem(k), s.(order := Join(s.order, Thinking)))
  {
    if k.c.reasoning.None? {
      var id, index := k.c.supply, k.c.nextOutputIndex;
      var s', c' := s.(order := Join(s.order, Thinking)), EnsureReasoningItem(k).c;
      Append(k.c, s, c', Thinking, ReasoningRef(id));
      var k1 := Sink(c'.(sequence := k.c.sequence), k.out);
      ReasoningShown(k1, k.c, s, c', s', id, index);
    }
  }

  /** The two frames that add the reasoning item and its part. */
  lemma ReasoningShown(k: Sink, c: Converter, s: Story, c': Converter, s': Story, id: Id, index: nat)
    requires Shown(k, c, s) && ClosedEarly(c, s) == ClosedEarly(c', s') && c.started && c'.started
    requires c'.items == c.items + [ReasoningRef(id)] && s' == s.(order := s.order + [Thinking]) && s.reasoning == "" && index == |c.items| == |s.order|
    ensures Shown(Emit(Emit(k, ItemAdded(index, ReasoningItem(id, [], InProgress))), PartAdded(Summary, id, index)), c', s')
  {
    var item := ReasoningItem(id, [], InProgress);
    ShowItem(k, c, s, c', s', Thinking, item);
    ShowPart(Emit(k, ItemAdded(index, item)), c', s', PartAdded(Summary, id, index), index, Summary);
  }

  lemma AppendReasoningPreserves(k: Sink, s: Story, text: string)
    requires Inv(k, s) && Thinking in s.order
    ensures Inv(AppendReasoning(k, text), s.(reasoning := s.reasoning + text))
  {
    var i := PlaceOf(k.c, s, Thinking);
    var c' := AppendReasoning(k, text).c;
    var k1 := Sink(c'.(sequence := k.c.sequence), k.out);
    ShowDelta(k1, k.c, s, c', s.(reasoning := s.reasoning + text), i, Summary, text);
    assert c'.items == k.c.items;
  }

  lemma KeepReasoningPreserves(k: Sink, s: Story, text: string)
    requires Inv(k, s) && !k.c.config.exposeThinking
    ensures Inv(KeepReasoning(k, text), s.(reasoning := s.reasoning + text))
  {
    var c', s' := KeepReasoning(k, text).c, s.(reasoning := s.reasoning + text);
    assert c'.items == k.c.items;
    forall i | 0 <= i < |s.order| ensures Copy(c'.items[i].id, s', s.order[i]) == Copy(k.c.items[i].id, s, s.order[i]) {
      assert Placed(k.c, s.order[i], i);
    }
  }

  lemma CloseMessageShape(c: Converter, s: Story)
    requires Shape(c, s) && s.textAtFirstCall.None? && c.message.Some?
    ensures Shape(c.(message := Some(c.message.value.(itemDone := true, partDone := true))),
                  s.(textAtFirstCall := Some(s.text)))
  {
  }

  lemma CloseMessagePreserves(k: Sink, s: Story)
    requires Inv(k, s) && s.textAtFirstCall.None?
    ensures Inv(CloseMessage(k), s.(textAtFirstCall := if Saying in s.order then Some(s.text) else None))
  {
    if k.c.message.Some? {
      CloseMessageShape(k.c, s);
      var i := PlaceOf(k.c, s, Saying);
      var b := k.c.message.value;
      ClosingShown(Sink(CloseMessage(k).c.(sequence := k.c.sequence), k.out), k.c, s, b, i);
    }
  }

  /** The three frames that close the message item. */
  lemma ClosingShown(k: Sink, c: Converter, s: Story, b: Block, i: nat)
    requires Shown(k, c, s) && c.started && s.textAtFirstCall.None? && c.message == Some(b)
    requires i < |s.order| == |c.items| && s.order[i] == Saying && c.items[i].id == b.itemId && b.Index() == i && b.accum == s.text
    requires k.c == c.(message := Some(b.(itemDone := true, partDone := true)), sequence := k.c.sequence)
    ensures var e1, e2 := TextDone(OutputText, b.itemId, i, b.accum), PartDone(OutputText, b.itemId, i, b.accum);
      var k' := Emit(Emit(Emit(k, e1), e2), ItemDone(i, MessageItem(b.itemId, [b.accum], Completed)));
      Shown(k', k'.c, s.(textAtFirstCall := Some(s.text)))
  {
    var e1, e2 := TextDone(OutputText, b.itemId, i, b.accum), PartDone(OutputText, b.itemId, i, b.accum);
    ShowPart(k, c, s, e1, i, OutputText);
    ShowPart(Emit(k, e1), c, s, e2, i, OutputText);
    Emitted(Emit(Emit(k, e1), e2), ItemDone(i, MessageItem(b.itemId, [b.accum], Completed)));
  }

  lemma AddToolPreserves(k: Sink, s: Story, f: ToolFragment)
    requires Inv(k, s) && k.c.started && f.Slot() !in s.calls
    ensures Inv(AddToolItem(k, f), s.(calls := s.calls[f.Slot() := Call(f.Id(), f.Name(), f.Id(), f.Name(), "")],
                                      order := Join(s.order, Calling(f.Slot()))))
  {
    var t, id := f.Slot(), k.c.supply;
    var call := Call(f.Id(), f.Name(), f.Id(), f.Name(), "");
    var s', c' := s.(calls := s.calls[t := call], order := Join(s.order, Calling(t))), AddToolItem(k, f).c;
    assert Calling(t) !in s.order by {
      forall i | 0 <= i < |s.order| ensures s.order[i] != Calling(t) { assert Placed(k.c, s.order[i], i); }
    }
    Append(k.c, s, c', Calling(t), CallRef(id));
    ShowItem(Sink(c'.(sequence := k.c.sequence), k.out), k.c, s, c', s', Calling(t),
             FunctionCallItem(id, f.Id(), f.Name(), "", InProgress));
  }

  lemma ArguedPreserves(k: Sink, s: Story, f: ToolFragment)
    requires Inv(k, s) && f.Slot() in s.calls
    ensures Inv(FeedArguments(k, f), Tell(k.c.config.exposeThinking, s, Argued(f)))
  {
    var s', c' := Tell(k.c.config.exposeThinking, s, Argued(f)), FeedArguments(k, f).c;
    var i := PlaceOf(k.c, s, Calling(f.Slot()));
    ArguedShape(k.c, s, f, c');
    ArguedShown(k, s, f, c', s', i);
  }

  lemma ArguedShown(k: Sink, s: Story, f: ToolFragment, c': Converter, s': Story, i: nat)
    requires Shown(k, k.c, s) && k.c.started && f.Slot() in k.c.tools && f.Slot() in s.calls
    requires s' == Tell(k.c.config.exposeThinking, s, Argued(f)) && c' == FeedArguments(k, f).c
    requires i < |s.order| && s.order[i] == Calling(f.Slot()) && Placed(k.c, Calling(f.Slot()), i)
    requires forall j | 0 <= j < |s.order| && j != i :: s.order[j] != Calling(f.Slot())
    ensures Shown(FeedArguments(k, f), c', s')
  {
    var k1 := Sink(c'.(sequence := k.c.sequence), k.out);
    assert forall j | 0 <= j < |s.order| && j != i :: Copy(k.c.items[j].id, s, s.order[j]) == Copy(k.c.items[j].id, s', s.order[j]);
    if f.Args() != "" {
      ShowDelta(k1, k.c, s, c', s', i, Arguments, f.Args());
    } else {
      assert Copy(k.c.items[i].id, s, s.order[i]) == Copy(k.c.items[i].id, s', s.order[i]);
    }
  }

  lemma ArguedShape(c: Converter, s: Story, f: ToolFragment, c': Converter)
    requires Shape(c, s) && f.Slot() in c.tools
    requires c'.tools.Keys == c.tools.Keys && c' == c.(tools := c'.tools, sequence := c'.sequence)
    requires forall t | t in c.tools && t != f.Slot() :: c'.tools[t] == c.tools[t]
    requires c'.tools[f.Slot()] == c.tools[f.Slot()].(
               callId := Later(c.tools[f.Slot()].callId, f.Id()), name := Later(c.tools[f.Slot()].name, f.Name()),
               arguments := c.tools[f.Slot()].arguments + f.Args())
    ensures Shape(c', Tell(c.config.exposeThinking, s, Argued(f)))
  {
    var s' := Tell(c.config.exposeThinking, s, Argued(f));
    forall i | 0 <= i < |s.order| ensures Placed(c', s'.order[i], i) { assert Placed(c, s.order[i], i); }
  }

  lemma OpenedPreserves(k: Sink, s: Story, f: ToolFragment)
    requires Inv(k, s) && Sound(s) && k.c.started && f.Slot() !in s.calls
    ensures Inv(EnsureToolItemAdded(k, f), Tell(k.c.config.exposeThinking, s, Opened(f)))
  {
    NoToolsNoCalls(k.c, s);
    ToolAdded(k, f);
    if s.calls == map[] {
      CloseMessagePreserves(k, s);
      ClosedKeepsStart(k);
      AddToolPreserves(CloseMessage(k), s.(textAtFirstCall := if Saying in s.order then Some(s.text) else None), f);
    } else {
      AddToolPreserves(k, s, f);
    }
    CallTold(k.c.config.exposeThinking, s, f);
  }

  lemma ToolAdded(k: Sink, f: ToolFragment)
    requires f.Slot() !in k.c.tools
    ensures EnsureToolItemAdded(k, f) == AddToolItem(if k.c.tools == map[] then CloseMessage(k) else k, f)
  {
  }

  lemma CallTold(exposed: bool, s: Story, f: ToolFragment)
    requires f.Slot() !in s.calls && Sound(s)
    ensures var t := if s.calls == map[] then s.(textAtFirstCall := if Saying in s.order then Some(s.text) else None) else s;
      Tell(exposed, s, Opened(f)) == t.(calls := t.calls[f.Slot() := Call(f.Id(), f.Name(), f.Id(), f.Name(), "")],
                                        order := Join(t.order, Calling(f.Slot())))
  {
  }

  lemma NoToolsNoCalls(c: Converter, s: Story)
    requires c.tools.Keys == s.calls.Keys
    ensures c.tools == map[] <==> s.calls == map[]
  {
    if c.tools == map[] { assert s.calls.Keys == {}; }
    if s.calls == map[] { assert c.tools.Keys == {}; }
  }

  lemma ClosedKeepsStart(k: Sink)
    ensures CloseMessage(k).c.started == k.c.started && CloseMessage(k).c.tools == k.c.tools
  {
  }

  lemma ReasonedPreserves(k: Sink, s: Story, text: string)
    requires Inv(k, s) && k.c.started
    ensures Inv(FeedReasoning(k, text), Tell(k.c.config.exposeThinking, s, Reasoned(text)))
  {
    if k.c.config.exposeThinking {
      EnsureReasoning(k, s);
      AppendReasoningPreserves(EnsureReasoningItem(k), s.(order := Join(s.order, Thinking)), text);
    } else {
      KeepReasoningPreserves(k, s, text);
    }
  }

  lemma SaidPreserves(k: Sink, s: Story, text: string)
    requires Inv(k, s) && k.c.started
    ensures Inv(FeedText(k, text), Tell(k.c.config.exposeThinking, s, Said(text)))
  {
    EnsureMessage(k, s);
    AppendTextPreserves(EnsureMessageItem(k), s.(order := Join(s.order, Saying)), text);
  }

  lemma FinishedPreserves(k: Sink, s: Story, r: string)
    requires Inv(k, s)
    ensures Inv(k.(c := k.c.(finishReason := Some(r))), s.(finish := Some(r)))
  {
    var c', s' := k.c.(finishReason := Some(r)), s.(finish := Some(r));
    forall i | 0 <= i < |s.order| ensures Placed(c', s.order[i], i) { assert Placed(k.c, s.order[i], i); }
  }

  lemma StepPreserves(k: Sink, s: Story, a: Atom)
    requires Inv(k, s) && k.c.started && Sound(s)
    ensures Inv(Step(k, a), Tell(k.c.config.exposeThinking, s, a))
  {
    match a
    case Finished(r) => FinishedPreserves(k, s, r);
    case Reasoned(t) => ReasonedPreserves(k, s, t);
    case Said(t) => SaidPreserves(k, s, t);
    case Opened(f) => if f.Slot() !in s.calls { OpenedPreserves(k, s, f); }
    case Argued(f) => if f.Slot() in s.calls { ArguedPreserves(k, s, f); }
  }

  lemma StepFacts(k: Sink, s: Story, a: Atom)
    requires Sound(s)
    ensures Sound(Tell(k.c.config.exposeThinking, s, a))
    ensures Step(k, a).c.started == k.c.started && Step(k, a).c.config == k.c.config
  {
    if a.Opened? && a.fragment.Slot() !in s.calls {
      assert a.fragment.Slot() in Tell(k.c.config.exposeThinking, s, a).calls;
    }
  }

  lemma {:induction false} StepsPreserve(k: Sink, expose: bool, h: seq<Atom>, atoms: seq<Atom>)
    requires expose == k.c.config.exposeThinking && k.c.started
    requires Inv(k, StoryOf(expose, h)) && Sound(StoryOf(expose, h))
    ensures Inv(Steps(k, atoms), StoryOf(expose, h + atoms)) && Sound(StoryOf(expose, h + atoms))
    ensures Steps(k, atoms).c.started && Steps(k, atoms).c.config == k.c.config
  {
    if atoms == [] {
      assert h + atoms == h;
    } else {
      var init, a := atoms[..|atoms| - 1], atoms[|atoms| - 1];
      StepsPreserve(k, expose, h, init);
      assert (h + atoms)[..|h + atoms| - 1] == h + init;
      StepPreserves(Steps(k, init), StoryOf(expose, h + init), a);
      StepFacts(Steps(k, init), StoryOf(expose, h + init), a);
    }
  }

  /** Flags, the model and the usage are not part of what the invariant describes. */
  lemma Unrelated(k: Sink, c: Converter, s: Story, c': Converter)
    requires Shape(c, s) && Shown(k, c, s)
    requires c' == c.(sequence := c'.sequence, modelSeen := c'.modelSeen, usage := c'.usage)
    ensures Shape(c', s) && Shown(k, c', s)
  {
    forall i | 0 <= i < |s.order| ensures Placed(c', s.order[i], i) { assert Placed(c, s.order[i], i); }
  }

  lemma StartPreserves(k: Sink, s: Story)
    requires Inv(k, s) && !k.c.started
    ensures Inv(EnsureStarted(k), s)
  {
    var k1 := k.(c := k.c.(started := true));
    var r := BaseResponse(k1.c, Running, [], None);
    Emitted(k1, Created(r));
    Emitted(Emit(k1, Created(r)), InProgressed(r));
    assert s.order == [];
  }

  lemma BeginPreserves(k: Sink, s: Story, chunk: Chunk)
    requires Inv(k, s)
    ensures Inv(BeginChunk(k, chunk), s)
    ensures BeginChunk(k, chunk).c.started && BeginChunk(k, chunk).c.config == k.c.config
  {
    if !k.c.started { StartPreserves(k, s); }
    var k1 := EnsureStarted(k);
    Unrelated(k1, k1.c, s, BeginChunk(k, chunk).c);
  }

  function Run(config: Config, chunks: seq<Chunk>): Sink {
    FeedAll(Sink(New(config), []), chunks)
  }

  /** The story of a run, as this frontend is configured to tell it. */
  function RunStory(config: Config, chunks: seq<Chunk>): Story {
    StoryOf(config.exposeThinking, RunAtoms(TwoPass, chunks))
  }

  lemma {:induction false} RunInvariant(config: Config, chunks: seq<Chunk>)
    ensures Inv(Run(config, chunks), RunStory(config, chunks)) && Sound(RunStory(config, chunks))
    ensures Run(config, chunks).c.config == config
    ensures Run(config, chunks).c.started <==> chunks != []
  {
    if chunks != [] {
      var init, chunk := chunks[..|chunks| - 1], chunks[|chunks| - 1];
      RunInvariant(config, init);
      BeginPreserves(Run(config, init), RunStory(config, init), chunk);
      StepsPreserve(BeginChunk(Run(config, init), chunk), config.exposeThinking,
                    RunAtoms(TwoPass, init), ChunkAtoms(TwoPass, chunk));
    }
  }

  // ---- The end of the stream ----

  /** An item of the terminal response: the story's content under the item's id. */
  function Final(id: Id, s: Story, kind: Kind): Item {
    match kind
    case Thinking => ReasoningItem(id, [s.reasoning], Completed)
    case Saying => MessageItem(id, [s.text], Completed)
    case Calling(t) =>
      if t in s.calls
      then FunctionCallItem(id, s.calls[t].latestId, s.calls[t].latestName, s.calls[t].args, Completed)
      else MessageItem(id, [], Completed)
  }

  /** The story's items, in order. */
  function Finals(items: seq<Ref>, s: Story, order: seq<Kind>): (out: seq<Item>)
    requires |items| == |order|
    ensures |out| == |order|
    ensures forall i | 0 <= i < |out| :: out[i] == Final(items[i].id, s, order[i])
  {
    if items == [] then [] else
      var n := |items| - 1;
      Finals(items[..n], s, order[..n]) + [Final(items[n].id, s, order[n])]
  }

  /** What the terminal response reads: accumulators in place, each at its item. */
  ghost predicate Contents(c: Converter, s: Story) {
    && |c.items| == |s.order|
    && (forall i | 0 <= i < |s.order| :: Placed(c, s.order[i], i))
    && DistinctIds(c)
    && (c.reasoning.Some? ==> c.reasoning.value.accum == s.reasoning)
    && (c.message.Some? ==> c.message.value.accum == s.text)
    && c.tools.Keys == s.calls.Keys
    && (forall t | t in c.tools :: c.tools[t].arguments == s.calls[t].args
                                   && c.tools[t].callId == s.calls[t].latestId && c.tools[t].name == s.calls[t].latestName)
    && (forall t | t in c.tools :: Calling(t) in s.order)
  }

  lemma {:induction false} FindSlotFinds(keys: seq<int>, tools: map<int, Slot>, t: int)
    requires t in keys && t in tools
    requires forall u | u in tools && tools[u].itemId == tools[t].itemId :: u == t
    ensures FindSlot(keys, tools, tools[t].itemId) == Some(tools[t])
  {
    if keys[0] != t { FindSlotFinds(keys[1..], tools, t); }
  }

  lemma OutputItemIsFinal(c: Converter, s: Story, i: nat)
    requires Contents(c, s) && i < |s.order|
    ensures OutputItem(c.reasoning, c.message, c.tools, c.items[i]) == [Final(c.items[i].id, s, s.order[i])]
  {
    assert Placed(c, s.order[i], i);
    if s.order[i].Calling? {
      var t := s.order[i].slot;
      forall u | u in c.tools && c.tools[u].itemId == c.tools[t].itemId ensures u == t {
        var j :| 0 <= j < |s.order| && s.order[j] == Calling(u);
        assert Placed(c, s.order[j], j);
        assert c.items[i].id == c.items[j].id;
      }
      FindSlotFinds(SortedKeys.Ascending(c.tools.Keys), c.tools, t);
    }
  }

  lemma {:induction false} OutputIsFinal(c: Converter, s: Story, n: nat)
    requires Contents(c, s) && n <= |s.order|
    ensures Output(c.reasoning, c.message, c.tools, c.items[..n]) == Finals(c.items[..n], s, s.order[..n])
  {
    if n > 0 {
      var items, order := c.items[..n], s.order[..n];
      assert items[..|items| - 1] == c.items[..n - 1] && order[..|order| - 1] == s.order[..n - 1];
      OutputIsFinal(c, s, n - 1);
      OutputItemIsFinal(c, s, n - 1);
    }
  }

  /** What a `done` item carries.  Text that came after the first call is not in the message's. */
  function DoneItem(id: Id, s: Story, kind: Kind): Item {
    if kind == Saying then MessageItem(id, [s.textAtFirstCall.GetOr(s.text)], Completed) else Final(id, s, kind)
  }

  /** The items of the kinds in `closed`, and no others, are done, once each. */
  ghost predicate DoneOnce(ds: seq<(nat, Item)>, c: Converter, s: Story, closed: set<Kind>)
    requires |c.items| == |s.order|
  {
    && (forall j | 0 <= j < |ds| :: ds[j].0 < |s.order| && s.order[ds[j].0] in closed
                                    && ds[j].1 == DoneItem(c.items[ds[j].0].id, s, s.order[ds[j].0]))
    && (forall i | 0 <= i < |s.order| && s.order[i] in closed :: exists j :: 0 <= j < |ds| && ds[j].0 == i)
    && (forall j1, j2 | 0 <= j1 < j2 < |ds| :: ds[j1].0 != ds[j2].0)
  }

  ghost predicate Closing(k: Sink, v: Client, c: Converter, s: Story, closed: set<Kind>) {
    && Numbered(k) && Replay(k.out) == Some(v) && Mirrored(c, s, v.items)
    && (if s.order != [] then v.phase.Streaming? else v.phase.Streaming? || v.phase.Fresh?)
    && DoneOnce(Dones(k.out), c, s, closed)
  }

  lemma ClosePart(k: Sink, v: Client, c: Converter, s: Story, closed: set<Kind>, e: Event, i: nat, ch: Channel)
    requires Closing(k, v, c, s, closed) && Part(e, c, s, i, ch)
    ensures Closing(Emit(k, e), v, c, s, closed)
  {
    Emitted(k, e);
  }

  lemma CloseItem(k: Sink, v: Client, c: Converter, s: Story, closed: set<Kind>, i: nat)
    requires Closing(k, v, c, s, closed) && i < |s.order| && s.order[i] !in closed
    requires (s.order[i] == Saying ==> s.textAtFirstCall.None?) && (s.order[i].Calling? ==> s.order[i].slot in s.calls)
    requires forall j | 0 <= j < |s.order| && j != i :: s.order[j] != s.order[i]
    ensures Closing(Emit(k, ItemDone(i, DoneItem(c.items[i].id, s, s.order[i]))), v, c, s, closed + {s.order[i]})
  {
    var item := DoneItem(c.items[i].id, s, s.order[i]);
    Emitted(k, ItemDone(i, item));
    assert Closes(v.items[i], item);
    OneMoreDone(Dones(k.out), c, s, closed, i);
  }

  lemma OneMoreDone(ds: seq<(nat, Item)>, c: Converter, s: Story, closed: set<Kind>, i: nat)
    requires |c.items| == |s.order| && DoneOnce(ds, c, s, closed) && i < |s.order| && s.order[i] !in closed
    requires forall j | 0 <= j < |s.order| && j != i :: s.order[j] != s.order[i]
    ensures DoneOnce(ds + [(i, DoneItem(c.items[i].id, s, s.order[i]))], c, s, closed + {s.order[i]})
  {
    var ds', closed' := ds + [(i, DoneItem(c.items[i].id, s, s.order[i]))], closed + {s.order[i]};
    forall m | 0 <= m < |s.order| && s.order[m] in closed' ensures exists j :: 0 <= j < |ds'| && ds'[j].0 == m {
      if m == i {
        assert ds'[|ds|].0 == m;
      } else {
        var j :| 0 <= j < |ds| && ds[j].0 == m;
        assert ds'[j].0 == m;
      }
    }
  }

  /** The kinds whose items are already done when the stream ends. */
  function DoneBefore(s: Story): set<Kind> {
    if s.textAtFirstCall.Some? then {Saying} else {}
  }

  lemma ClosingStarts(k: Sink, s: Story)
    requires Inv(k, s)
    ensures Closing(k, Replay(k.out).value, k.c, s, DoneBefore(s))
  {
    if s.textAtFirstCall.Some? {
      var i := PlaceOf(k.c, s, Saying);
      assert Dones(k.out)[0].0 == i;
    }
  }

  lemma CloseReasoningCloses(k: Sink, v: Client, c: Converter, s: Story, closed: set<Kind>)
    requires Closing(k, v, c, s, closed) && Shape(c, s) && Thinking !in closed
    requires k.c.reasoning == c.reasoning
    ensures Closing(CloseReasoning(k), v, c, s, closed + {Thinking})
    ensures CloseReasoning(k).c == k.c.(sequence := CloseReasoning(k).c.sequence, reasoning := CloseReasoning(k).c.reasoning)
    ensures c.reasoning.Some? ==> CloseReasoning(k).c.reasoning.Some? && var b := CloseReasoning(k).c.reasoning.value;
                                  b == c.reasoning.value.(partDone := b.partDone, itemDone := b.itemDone)
    ensures c.reasoning.None? ==> CloseReasoning(k).c.reasoning.None?
  {
    if Thinking in s.order {
      var i := PlaceOf(c, s, Thinking);
      var b := c.reasoning.value;
      var k1 := Sink(CloseReasoning(k).c.(sequence := k.c.sequence), k.out);
      var e1, e2 := TextDone(Summary, b.itemId, i, b.accum), PartDone(Summary, b.itemId, i, b.accum);
      ClosePart(k1, v, c, s, closed, e1, i, Summary);
      ClosePart(Emit(k1, e1), v, c, s, closed, e2, i, Summary);
      CloseItem(Emit(Emit(k1, e1), e2), v, c, s, closed, i);
    }
  }

  lemma CloseMessageCloses(k: Sink, v: Client, c: Converter, s: Story, closed: set<Kind>)
    requires Closing(k, v, c, s, closed) && Shape(c, s) && (Saying in closed <==> s.textAtFirstCall.Some?)
    requires k.c.message == c.message
    ensures Closing(CloseMessage(k), v, c, s, closed + {Saying})
    ensures CloseMessage(k).c == k.c.(sequence := CloseMessage(k).c.sequence, message := CloseMessage(k).c.message)
    ensures c.message.Some? ==> CloseMessage(k).c.message.Some? && var b := CloseMessage(k).c.message.value;
                                b == c.message.value.(partDone := b.partDone, itemDone := b.itemDone)
    ensures c.message.None? ==> CloseMessage(k).c.message.None?
  {
    if s.textAtFirstCall.Some? {
      assert closed + {Saying} == closed;
    } else if Saying in s.order {
      var i := PlaceOf(c, s, Saying);
      var b := c.message.value;
      var k1 := Sink(CloseMessage(k).c.(sequence := k.c.sequence), k.out);
      var e1, e2 := TextDone(OutputText, b.itemId, i, b.accum), PartDone(OutputText, b.itemId, i, b.accum);
      ClosePart(k1, v, c, s, closed, e1, i, OutputText);
      ClosePart(Emit(k1, e1), v, c, s, closed, e2, i, OutputText);
      CloseItem(Emit(Emit(k1, e1), e2), v, c, s, closed, i);
    }
  }

  function Callings(keys: seq<int>): set<Kind> {
    set t | t in keys :: Calling(t)
  }

  lemma FinishSlotCloses(k: Sink, v: Client, c: Converter, s: Story, closed: set<Kind>, t: int)
    requires Closing(k, v, c, s, closed) && Shape(c, s) && t in c.tools && Calling(t) !in closed
    ensures Closing(FinishSlot(k, c.tools[t]), v, c, s, closed + {Calling(t)})
  {
    var i := PlaceOf(c, s, Calling(t));
    var slot := c.tools[t];
    var e := TextDone(Arguments, slot.itemId, i, slot.arguments);
    ClosePart(k, v, c, s, closed, e, i, Arguments);
    CloseItem(Emit(k, e), v, c, s, closed, i);
  }

  lemma {:induction false} FinishSlotsState(k: Sink, keys: seq<int>)
    ensures FinishSlots(k, keys).c == k.c.(sequence := FinishSlots(k, keys).c.sequence)
  {
    if keys != [] { FinishSlotsState(k, keys[..|keys| - 1]); }
  }

  lemma {:induction false} FinishSlotsCloses(k: Sink, v: Client, c: Converter, s: Story, closed: set<Kind>,
      keys: seq<int>)
    requires Closing(k, v, c, s, closed) && Shape(c, s) && k.c.tools == c.tools
    requires SortedKeys.Increasing(keys) && (forall t | t in keys :: t in c.tools && !c.tools[t].done && Calling(t) !in closed)
    ensures Closing(FinishSlots(k, keys), v, c, s, closed + Callings(keys))
  {
    if keys == [] {
      assert closed + Callings(keys) == closed;
    } else {
      var t, init := keys[|keys| - 1], keys[..|keys| - 1];
      FinishSlotsCloses(k, v, c, s, closed, init);
      FinishSlotsState(k, init);
      assert t in keys;
      assert Calling(t) !in closed + Callings(init);
      FinishSlotCloses(FinishSlots(k, init), v, c, s, closed + Callings(init), t);
      assert closed + Callings(init) + {Calling(t)} == closed + Callings(keys) by { assert keys == init + [t]; }
    }
  }

  /** Closing changes flags and the frame counter only. */
  ghost predicate SameBlock(a: Option<Block>, b: Option<Block>) {
    a.Some? == b.Some? && (a.Some? ==> b.value == a.value.(partDone := b.value.partDone, itemDone := b.value.itemDone))
  }

  lemma CloseReasoningState(k: Sink)
    ensures var c := CloseReasoning(k).c;
            SameBlock(k.c.reasoning, c.reasoning) && c == k.c.(sequence := c.sequence, reasoning := c.reasoning)
  {
  }

  lemma CloseMessageState(k: Sink)
    ensures var c := CloseMessage(k).c;
            SameBlock(k.c.message, c.message) && c == k.c.(sequence := c.sequence, message := c.message)
  {
  }

  lemma CloseAllState(k: Sink)
    ensures var c := CloseAll(k).c;
            && SameBlock(k.c.reasoning, c.reasoning) && SameBlock(k.c.message, c.message)
            && c == k.c.(sequence := c.sequence, reasoning := c.reasoning, message := c.message, tools := MarkDone(k.c.tools))
  {
    CloseReasoningState(k);
    CloseMessageState(CloseReasoning(k));
    var k1 := CloseMessage(CloseReasoning(k));
    FinishSlotsState(k1, SortedKeys.Ascending(k1.c.tools.Keys));
  }

  function DoneAtEnd(c: Converter, s: Story): set<Kind> {
    DoneBefore(s) + {Thinking} + {Saying} + Callings(SortedKeys.Ascending(c.tools.Keys))
  }

  lemma CloseBlocks(k: Sink, s: Story)
    requires Inv(k, s)
    ensures Closing(CloseMessage(CloseReasoning(k)), Replay(k.out).value, k.c, s, DoneBefore(s) + {Thinking} + {Saying})
  {
    ClosingStarts(k, s);
    CloseReasoningCloses(k, Replay(k.out).value, k.c, s, DoneBefore(s));
    CloseReasoningState(k);
    CloseMessageCloses(CloseReasoning(k), Replay(k.out).value, k.c, s, DoneBefore(s) + {Thinking});
  }

  lemma NoneDone(c: Converter, s: Story)
    requires Shape(c, s)
    ensures forall t | t in SortedKeys.Ascending(c.tools.Keys) :: t in c.tools && !c.tools[t].done
  {
    forall t | t in c.tools ensures !c.tools[t].done { assert Tells(c.tools[t], s.calls[t]); }
  }

  lemma CloseSlots(k: Sink, v: Client, c: Converter, s: Story)
    requires Closing(k, v, c, s, DoneBefore(s) + {Thinking} + {Saying}) && Shape(c, s) && k.c.tools == c.tools
    ensures Closing(FinishSlots(k, SortedKeys.Ascending(c.tools.Keys)), v, c, s, DoneAtEnd(c, s))
  {
    NoneDone(c, s);
    FinishSlotsCloses(k, v, c, s, DoneBefore(s) + {Thinking} + {Saying}, SortedKeys.Ascending(c.tools.Keys));
  }

  /** `finish(None)` closes every item exactly once before its terminal frame. */
  lemma CloseAllCloses(k: Sink, s: Story)
    requires Inv(k, s)
    ensures Closing(CloseAll(k), Replay(k.out).value, k.c, s, DoneAtEnd(k.c, s))
  {
    CloseBlocks(k, s);
    CloseReasoningState(k);
    CloseMessageState(CloseReasoning(k));
    CloseSlots(CloseMessage(CloseReasoning(k)), Replay(k.out).value, k.c, s);
  }

  lemma AllDone(c: Converter, s: Story, i: nat)
    requires Shape(c, s) && i < |s.order|
    ensures s.order[i] in DoneAtEnd(c, s)
  {
    assert Placed(c, s.order[i], i);
    if s.order[i].Calling? { assert s.order[i].slot in SortedKeys.Ascending(c.tools.Keys); }
  }

  lemma ContentsHold(c: Converter, s: Story, c': Converter)
    requires Shape(c, s) && c'.items == c.items && c'.supply == c.supply
    requires SameBlock(c.reasoning, c'.reasoning) && SameBlock(c.message, c'.message)
    requires c'.tools == c.tools || c'.tools == MarkDone(c.tools)
    ensures Contents(c', s)
  {
    forall i | 0 <= i < |s.order| ensures Placed(c', s.order[i], i) { assert Placed(c, s.order[i], i); }
    forall t | t in c.tools ensures Tells(c.tools[t], s.calls[t]) {}
  }

  lemma OutputHolds(c: Converter, s: Story, c': Converter)
    requires Shape(c, s) && c'.items == c.items && Contents(c', s)
    ensures Output(c'.reasoning, c'.message, c'.tools, c'.items) == Finals(c.items, s, s.order)
  {
    OutputIsFinal(c', s, |s.order|);
    assert c'.items[..|s.order|] == c.items && s.order[..|s.order|] == s.order;
  }

  /** A finished run's last frame. */
  function LastEvent(k: Sink): Event
    requires k.out != []
  {
    k.out[|k.out| - 1].event
  }

  lemma FailedEnds(k: Sink, s: Story, error: Option<string>)
    requires Inv(k, s) && error.Some?
    ensures var k' := Finish(k, error);
            && Numbered(k') && Replay(k'.out) == Some(Client(Ended, Replay(k.out).value.items))
            && LastEvent(k') == Terminal(NonstreamResponse(k'.c))
            && NonstreamResponse(k'.c).output == Finals(k.c.items, s, s.order)
  {
    var k1 := k.(c := k.c.(error := error));
    FailedFrame(k1, s, TerminalResponse(k1.c, Failed).(error := error));
    FailedOutput(k.c, s, Finish(k, error).c);
  }

  lemma FailedFrame(k: Sink, s: Story, r: Response)
    requires Numbered(k) && Replay(k.out).Some? && (Replay(k.out).value.phase.Fresh? || Replay(k.out).value.phase.Streaming?)
    ensures var k' := Emit(k, Terminal(r));
      Numbered(k') && Replay(k'.out) == Some(Client(Ended, Replay(k.out).value.items)) && LastEvent(k') == Terminal(r)
  {
    Emitted(k, Terminal(r));
  }

  lemma FailedOutput(c: Converter, s: Story, c': Converter)
    requires Shape(c, s) && c' == c.(error := c'.error, sequence := c'.sequence)
    ensures NonstreamResponse(c').output == Finals(c.items, s, s.order)
  {
    ContentsHold(c, s, c');
    OutputHolds(c, s, c');
  }

  lemma TerminalFrame(k: Sink, v: Client, c: Converter, s: Story, closed: set<Kind>, r: Response)
    requires Closing(k, v, c, s, closed)
    ensures var k' := Emit(k, Terminal(r));
            Numbered(k') && Replay(k'.out) == Some(v.(phase := Ended)) && DoneOnce(Dones(k'.out), c, s, closed)
  {
    Emitted(k, Terminal(r));
  }

  lemma EndIsNonstream(c: Converter, n: nat)
    requires c.error.None?
    ensures EndResponse(c) == NonstreamResponse(c.(sequence := n))
  {
  }

  lemma CompletedFrames(k: Sink, s: Story)
    requires Inv(k, s)
    ensures var k' := Finish(k, None);
            && Numbered(k') && Replay(k'.out) == Some(Client(Ended, Replay(k.out).value.items))
            && DoneOnce(Dones(k'.out), k.c, s, DoneAtEnd(k.c, s))
  {
    assert k.(c := k.c.(error := None)) == k;
    CloseAllCloses(k, s);
    TerminalFrame(CloseAll(k), Replay(k.out).value, k.c, s, DoneAtEnd(k.c, s), EndResponse(CloseAll(k).c));
  }

  lemma EndOutput(c: Converter, s: Story, c': Converter)
    requires Shape(c, s) && SameBlock(c.reasoning, c'.reasoning) && SameBlock(c.message, c'.message)
    requires c' == c.(sequence := c'.sequence, reasoning := c'.reasoning, message := c'.message, tools := MarkDone(c.tools))
    ensures EndResponse(c') == NonstreamResponse(c'.(sequence := c'.sequence + 1))
    ensures EndResponse(c').output == Finals(c.items, s, s.order)
  {
    EndIsNonstream(c', c'.sequence + 1);
    ContentsHold(c, s, c');
    OutputHolds(c, s, c');
  }

  lemma CompletedResponse(k: Sink, s: Story)
    requires Shape(k.c, s)
    ensures var k' := Finish(k, None);
            && k'.out != [] && LastEvent(k') == Terminal(NonstreamResponse(k'.c))
            && NonstreamResponse(k'.c).output == Finals(k.c.items, s, s.order)
  {
    assert k.(c := k.c.(error := None)) == k;
    CloseAllState(k);
    EndOutput(k.c, s, CloseAll(k).c);
  }

  function Stream(config: Config, chunks: seq<Chunk>, error: Option<string>): Sink {
    Finish(Run(config, chunks), error)
  }

  /** The client's items at the end of a stream. */
  function ClientItems(k: Sink): seq<ClientItem> {
    var v := Replay(k.out);
    if v.Some? then v.value.items else []
  }

  lemma Ends(config: Config, chunks: seq<Chunk>, error: Option<string>)
    ensures var k := Stream(config, chunks, error);
            && Numbered(k) && Replay(k.out) == Some(Client(Ended, ClientItems(Run(config, chunks))))
            && k.out != [] && LastEvent(k) == Terminal(NonstreamResponse(k.c))
            && |Run(config, chunks).c.items| == |RunStory(config, chunks).order|
            && NonstreamResponse(k.c).output
               == Finals(Run(config, chunks).c.items, RunStory(config, chunks), RunStory(config, chunks).order)
  {
    RunInvariant(config, chunks);
    if error.Some? {
      FailedEnds(Run(config, chunks), RunStory(config, chunks), error);
    } else {
      CompletedFrames(Run(config, chunks), RunStory(config, chunks));
      CompletedResponse(Run(config, chunks), RunStory(config, chunks));
    }
  }

  /** Frames are numbered 1, 2, 3, ..., and a strict client accepts every one of them, to the end. */
  lemma StrictClientAccepts(config: Config, chunks: seq<Chunk>, error: Option<string>)
    ensures var k := Stream(config, chunks, error);
            && (forall i | 0 <= i < |k.out| :: k.out[i].sequence == i + 1)
            && Replay(k.out).Some? && Replay(k.out).value.phase == Ended
  {
    Ends(config, chunks, error);
  }

  /** The last frame carries exactly the response the non-streaming path returns. */
  lemma TerminalIsNonstream(config: Config, chunks: seq<Chunk>, error: Option<string>)
    ensures var k := Stream(config, chunks, error);
            k.out != [] && LastEvent(k) == Terminal(NonstreamResponse(k.c))
  {
    Ends(config, chunks, error);
  }

  /** `output` and the client's `items` are both the story's content, item by item, under the same ids. */
  ghost predicate BothTell(output: seq<Item>, items: seq<ClientItem>, s: Story) {
    |output| == |items| == |s.order| &&
    forall i | 0 <= i < |s.order| ::
      output[i] == Final(output[i].id, s, s.order[i]) && items[i] == Copy(output[i].id, s, s.order[i])
  }

  lemma FinalsMirror(c: Converter, s: Story, v: seq<ClientItem>)
    requires Mirrored(c, s, v)
    ensures BothTell(Finals(c.items, s, s.order), v, s)
  {
    forall i | 0 <= i < |s.order| ensures Final(c.items[i].id, s, s.order[i]).id == c.items[i].id {}
  }

  /**
   The terminal output is the story of the run, and the client has rebuilt it from the added
   and delta frames alone: same items, same order, same ids, same texts and arguments.
   */
  lemma ClientMirrorsOutput(config: Config, chunks: seq<Chunk>, error: Option<string>)
    ensures var k := Stream(config, chunks, error);
            BothTell(NonstreamResponse(k.c).output, ClientItems(k), RunStory(config, chunks))
  {
    Ends(config, chunks, error);
    RunInvariant(config, chunks);
    FinalsMirror(Run(config, chunks).c, RunStory(config, chunks), ClientItems(Run(config, chunks)));
  }

  ghost predicate CallsListed(s: Story) {
    (forall t | t in s.calls :: Calling(t) in s.order) && (forall t | Calling(t) in s.order :: t in s.calls)
  }

  lemma OrderListsCalls(c: Converter, s: Story)
    requires Shape(c, s)
    ensures CallsListed(s)
  {
    forall t | Calling(t) in s.order ensures t in s.calls {
      var i :| 0 <= i < |s.order| && s.order[i] == Calling(t);
      assert Placed(c, s.order[i], i);
    }
  }

  lemma RebuildsIfStable(output: seq<Item>, items: seq<ClientItem>, s: Story)
    requires BothTell(output, items, s) && CallsListed(s)
    ensures RebuildAll(items) == output <==> IdentityStable(s)
  {
    if IdentityStable(s) {
      forall i | 0 <= i < |items| ensures Rebuild(items[i]) == output[i] { assert s.order[i] in s.order; }
    }
    if RebuildAll(items) == output {
      forall t | t in s.calls
        ensures s.calls[t].firstId == s.calls[t].latestId && s.calls[t].firstName == s.calls[t].latestName
      {
        var i :| 0 <= i < |s.order| && s.order[i] == Calling(t);
        assert RebuildAll(items)[i] == Rebuild(items[i]);
      }
    }
  }

  /** The rebuilt items equal the terminal output exactly when no call's id or name changes after its first fragment. */
  lemma ClientRebuildsOutput(config: Config, chunks: seq<Chunk>, error: Option<string>)
    ensures var k := Stream(config, chunks, error);
            RebuildAll(ClientItems(k)) == NonstreamResponse(k.c).output <==> IdentityStable(RunStory(config, chunks))
  {
    ClientMirrorsOutput(config, chunks, error);
    RunInvariant(config, chunks);
    OrderListsCalls(Run(config, chunks).c, RunStory(config, chunks));
    var k := Stream(config, chunks, error);
    RebuildsIfStable(NonstreamResponse(k.c).output, ClientItems(k), RunStory(config, chunks));
  }

  predicate Has(ds: seq<(nat, Item)>, i: nat) {
    exists j :: 0 <= j < |ds| && ds[j].0 == i
  }

  /** The entries of `ds` are numbered 0 to n - 1 in some order, each number once. */
  ghost predicate ExactlyOnce(ds: seq<(nat, Item)>, n: nat) {
    && (forall i: nat | i < n :: Has(ds, i))
    && (forall j | 0 <= j < |ds| :: ds[j].0 < n)
    && (forall j1, j2 | 0 <= j1 < j2 < |ds| :: ds[j1].0 != ds[j2].0)
  }

  lemma DoneOnceCovers(k: Sink, s: Story, ds: seq<(nat, Item)>)
    requires Shape(k.c, s) && DoneOnce(ds, k.c, s, DoneAtEnd(k.c, s))
    ensures ExactlyOnce(ds, |s.order|)
  {
    forall i: nat | i < |s.order| ensures Has(ds, i) { AllDone(k.c, s, i); }
  }

  /** Every item of `output` is done exactly once, with the text the story closes it with. */
  ghost predicate AllDoneOnce(output: seq<Item>, ds: seq<(nat, Item)>, s: Story) {
    && |output| == |s.order| && ExactlyOnce(ds, |output|)
    && forall j | 0 <= j < |ds| :: ds[j].1 == DoneItem(output[ds[j].0].id, s, s.order[ds[j].0])
  }

  lemma FinalsDone(c: Converter, s: Story, ds: seq<(nat, Item)>)
    requires |c.items| == |s.order| && DoneOnce(ds, c, s, DoneAtEnd(c, s)) && ExactlyOnce(ds, |s.order|)
    ensures AllDoneOnce(Finals(c.items, s, s.order), ds, s)
  {
    forall i | 0 <= i < |s.order| ensures Final(c.items[i].id, s, s.order[i]).id == c.items[i].id {}
  }

  /** After a normal end, each output item has exactly one `done` frame. */
  lemma EveryItemDoneOnce(config: Config, chunks: seq<Chunk>)
    ensures var k := Stream(config, chunks, None);
            AllDoneOnce(NonstreamResponse(k.c).output, Dones(k.out), RunStory(config, chunks))
  {
    RunInvariant(config, chunks);
    var k, s := Run(config, chunks), RunStory(config, chunks);
    CompletedFrames(k, s);
    CompletedResponse(k, s);
    DoneOnceCovers(k, s, Dones(Finish(k, None).out));
    FinalsDone(k.c, s, Dones(Finish(k, None).out));
  }

  /** No text arrives after the first call of a run that had text before it. */
  ghost predicate NoLateText(h: seq<Atom>) {
    var n := FirstCall(h);
    n < |h| && Speaks(h[..n]) ==> TextOf(h[..n]) == TextOf(h)
  }

  /** The text a message is closed with is all of its text, unless some came late. */
  lemma ClosingText(exposed: bool, h: seq<Atom>)
    ensures var s := StoryOf(exposed, h);
            (NoLateText(h) <==> (s.textAtFirstCall.Some? ==> s.textAtFirstCall.value == s.text)) &&
            (s.textAtFirstCall.Some? ==> Saying in s.order)
  {
    TextAtFirstCall(exposed, h);
    SayingSpeaks(exposed, h);
    StoryProse(exposed, h);
    if StoryOf(exposed, h).textAtFirstCall.Some? {
      var m :| 0 <= m < FirstCall(h) && h[..FirstCall(h)][m].Said?;
      assert h[m].Said?;
    }
  }

  /** Every done frame carries the item the terminal output has at its index. */
  predicate DonesMatch(ds: seq<(nat, Item)>, output: seq<Item>) {
    forall j | 0 <= j < |ds| :: ds[j].0 < |output| && ds[j].1 == output[ds[j].0]
  }

  lemma DonesMatchIff(ds: seq<(nat, Item)>, output: seq<Item>, items: seq<ClientItem>, s: Story)
    requires AllDoneOnce(output, ds, s) && BothTell(output, items, s)
    requires s.textAtFirstCall.Some? ==> Saying in s.order
    ensures DonesMatch(ds, output) <==> (s.textAtFirstCall.Some? ==> s.textAtFirstCall.value == s.text)
  {
    if s.textAtFirstCall.Some? {
      var i :| 0 <= i < |s.order| && s.order[i] == Saying;
      assert Has(ds, i);
      var j :| 0 <= j < |ds| && ds[j].0 == i;
      assert output[i] == Final(output[i].id, s, Saying) && ds[j].1 == DoneItem(output[i].id, s, Saying);
    }
  }

  /**
   After a normal end, every `done` frame carries the item of the terminal output at its index, exactly
   when no text arrives after the first call of a run that had text before it.
   */
  lemma DoneItemsAreFinal(config: Config, chunks: seq<Chunk>)
    ensures var k := Stream(config, chunks, None);
            DonesMatch(Dones(k.out), NonstreamResponse(k.c).output) <==> NoLateText(RunAtoms(TwoPass, chunks))
  {
    EveryItemDoneOnce(config, chunks);
    ClientMirrorsOutput(config, chunks, None);
    ClosingText(config.exposeThinking, RunAtoms(TwoPass, chunks));
    var k := Stream(config, chunks, None);
    DonesMatchIff(Dones(k.out), NonstreamResponse(k.c).output, ClientItems(k), RunStory(config, chunks));
  }

  // ---- Runs that fail ----

  function LateTextRun(before: string, f: ToolFragment, after: string): seq<Chunk> {
    [SayingChunk(before), CallingChunk(f), SayingChunk(after)]
  }

  lemma LateTextAtoms(before: string, f: ToolFragment, after: string)
    requires before != "" && after != ""
    ensures RunAtoms(TwoPass, LateTextRun(before, f, after)) == [Said(before), Opened(f), Argued(f), Said(after)]
  {
    var a, b, c := SayingChunk(before), CallingChunk(f), SayingChunk(after);
    SayingAtoms(before);
    CallingAtoms(f);
    SayingAtoms(after);
    AtomsAfter([], a);
    AtomsAfter([a], b);
    AtomsAfter([a, b], c);
    assert [] + [a] == [a] && [a] + [b] == [a, b] && [a, b] + [c] == LateTextRun(before, f, after);
  }

  /** Text, a call, and text again: the message is done before its last delta, so its done frame is not final. */
  lemma LateTextIsLost(config: Config, before: string, f: ToolFragment, after: string)
    requires before != "" && after != ""
    ensures var k := Stream(config, LateTextRun(before, f, after), None);
            !DonesMatch(Dones(k.out), NonstreamResponse(k.c).output)
  {
    LateTextAtoms(before, f, after);
    LateText(before, f, after);
    DoneItemsAreFinal(config, LateTextRun(before, f, after));
  }

  lemma LateText(before: string, f: ToolFragment, after: string)
    requires before != "" && after != ""
    ensures !NoLateText([Said(before), Opened(f), Argued(f), Said(after)])
  {
    var h := [Said(before), Opened(f), Argued(f), Said(after)];
    assert FirstCall(h) == 1 by { assert h[1].Opened? && !h[0].Opened?; }
    assert h[..1] == [Said(before)] && h[..1][0].Said?;
    assert [Said(before)][..0] == [];
    assert TextOf([Said(before)]) == before;
    assert h[..3] == [Said(before), Opened(f), Argued(f)] && h[..3][..2] == [Said(before), Opened(f)] && h[..3][..2][..1] == [Said(before)];
    assert TextOf([Said(before), Opened(f)]) == before + "";
    assert TextOf(h[..3]) == before + "" + "";
    assert |TextOf(h)| == |before| + |after|;
  }

  /** A call whose id arrives late: the client keeps the first id, the terminal output has the last one. */
  lemma LateIdIsLost(config: Config, f: ToolFragment, g: ToolFragment)
    requires f.Slot() == g.Slot() && g.Id() != "" && g.Id() != f.Id()
    ensures var k := Stream(config, [CallingChunk(f), CallingChunk(g)], None);
            RebuildAll(ClientItems(k)) != NonstreamResponse(k.c).output
  {
    LateIdRun(config.exposeThinking, f, g);
    ClientRebuildsOutput(config, [CallingChunk(f), CallingChunk(g)], None);
  }
}
