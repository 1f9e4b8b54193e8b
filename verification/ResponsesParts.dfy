/** Content parts in the Responses stream: every text delta belongs to a part announced before it. */
module ResponsesParts {
  import opened Wrappers
  import opened ChatChunk
  import opened ResponsesStream
  import SortedKeys

  datatype Part = Part(channel: Channel, itemId: Id, outputIndex: nat)

  /** The parts announced so far. */
  function Parts(out: seq<Frame>): set<Part> {
    if out == [] then {} else Parts(out[..|out| - 1]) + PartOf(out[|out| - 1].event)
  }

  function PartOf(e: Event): set<Part> {
    if e.PartAdded? then {Part(e.channel, e.itemId, e.outputIndex)} else {}
  }

  /** A delta of text or of a summary, or the end of its part, names an announced part; arguments have none. */
  predicate Permitted(parts: set<Part>, e: Event) {
    (e.Delta? || e.TextDone? || e.PartDone?) && e.channel != Arguments ==> Part(e.channel, e.itemId, e.outputIndex) in parts
  }

  predicate PartsFirst(out: seq<Frame>) {
    out == [] || (PartsFirst(out[..|out| - 1]) && Permitted(Parts(out[..|out| - 1]), out[|out| - 1].event))
  }

  /** What a block's frames may name: nothing unless its part was announced. */
  predicate BlockKnown(b: Option<Block>, channel: Channel, parts: set<Part>) {
    b.Some? && b.value.partAdded ==> Part(channel, b.value.itemId, b.value.Index()) in parts
  }

  predicate Known(k: Sink) {
    PartsFirst(k.out) &&
    BlockKnown(k.c.message, OutputText, Parts(k.out)) && (k.c.message.Some? ==> k.c.message.value.partAdded) &&
    BlockKnown(k.c.reasoning, Summary, Parts(k.out)) &&
    (k.c.config.exposeThinking && k.c.reasoning.Some? ==> k.c.reasoning.value.partAdded)
  }

  /** A permitted frame keeps the invariant; so does one that announces a part. */
  lemma EmitKnown(k: Sink, e: Event)
    requires Known(k) && Permitted(Parts(k.out), e)
    ensures Known(Emit(k, e)) && Parts(Emit(k, e).out) == Parts(k.out) + PartOf(e)
  {
    var out := Emit(k, e).out;
    assert out[..|out| - 1] == k.out;
  }

  lemma StartKnown(k: Sink)
    requires Known(k)
    ensures Known(EnsureStarted(k))
  {
    if !k.c.started {
      var k1 := k.(c := k.c.(started := true));
      var r := BaseResponse(k1.c, Running, [], None);
      EmitKnown(k1, Created(r));
      EmitKnown(Emit(k1, Created(r)), InProgressed(r));
    }
  }

  /** Two frames that add an item and announce its part; the state may already hold the block. */
  lemma AnnounceKnown(k: Sink, c: Converter, item: Item, channel: Channel, id: Id, index: nat)
    requires Known(k)
    requires c.config == k.c.config
    requires c.message == k.c.message || (channel == OutputText && NamesPart(c.message, id, index))
    requires c.reasoning == k.c.reasoning || (channel == Summary && NamesPart(c.reasoning, id, index))
    ensures Known(Emit(Emit(Sink(c, k.out), ItemAdded(index, item)), PartAdded(channel, id, index)))
  {
    TwoMoreParts(k.out, Frame(c.sequence + 1, ItemAdded(index, item)), Frame(c.sequence + 2, PartAdded(channel, id, index)));
  }

  predicate NamesPart(b: Option<Block>, id: Id, index: nat) {
    b.Some? && b.value.partAdded && b.value.itemId == id && b.value.Index() == index
  }

  lemma TwoMoreParts(out: seq<Frame>, f: Frame, g: Frame)
    ensures Parts(out + [f] + [g]) == Parts(out) + PartOf(f.event) + PartOf(g.event)
    ensures PartsFirst(out + [f] + [g]) <==>
      PartsFirst(out) && Permitted(Parts(out), f.event) && Permitted(Parts(out) + PartOf(f.event), g.event)
  {
    var once := out + [f];
    assert once[..|once| - 1] == out;
    assert (once + [g])[..|once|] == once;
  }

  lemma MessageItemKnown(k: Sink)
    requires Known(k)
    ensures Known(EnsureMessageItem(k)) && EnsureMessageItem(k).c.message.Some?
  {
    if k.c.message.None? {
      var id, index := k.c.supply, k.c.nextOutputIndex;
      var b := NewBlock(id).(itemAdded := true, partAdded := true, outputIndex := Some(index));
      var c := k.c.(message := Some(b), supply := id + 1, nextOutputIndex := index + 1, items := k.c.items + [MessageRef(id)]);
      AnnounceKnown(k, c, MessageItem(id, [], InProgress), OutputText, id, index);
    }
  }

  lemma TextKnown(k: Sink, text: string)
    requires Known(k)
    ensures Known(FeedText(k, text))
  {
    MessageItemKnown(k);
    var k1 := EnsureMessageItem(k);
    var b := k1.c.message.value;
    EmitKnown(k1.(c := k1.c.(message := Some(b.(accum := b.accum + text)))), Event.Delta(OutputText, b.itemId, b.Index(), text));
  }

  lemma ReasoningItemKnown(k: Sink)
    requires Known(k) && k.c.config.exposeThinking
    ensures var r := EnsureReasoningItem(k); Known(r) && r.c.reasoning.Some? && r.c.config == k.c.config
  {
    if k.c.reasoning.None? {
      var id, index := k.c.supply, k.c.nextOutputIndex;
      var b := NewBlock(id).(itemAdded := true, partAdded := true, outputIndex := Some(index));
      var c := k.c.(reasoning := Some(b), supply := id + 1, nextOutputIndex := index + 1, items := k.c.items + [ReasoningRef(id)]);
      AnnounceKnown(k, c, ReasoningItem(id, [], InProgress), Summary, id, index);
    }
  }

  lemma ReasoningKnown(k: Sink, text: string)
    requires Known(k)
    ensures Known(FeedReasoning(k, text))
  {
    if k.c.config.exposeThinking {
      ReasoningItemKnown(k);
      var k1 := EnsureReasoningItem(k);
      var b := k1.c.reasoning.value;
      EmitKnown(k1.(c := k1.c.(reasoning := Some(b.(accum := b.accum + text)))), Event.Delta(Summary, b.itemId, b.Index(), text));
    }
  }

  /** The frames that close a block name its part. */
  lemma CloseKnown(k: Sink, open: bool, channel: Channel, b: Block, item: Item)
    requires Known(k) && (open ==> Part(channel, b.itemId, b.Index()) in Parts(k.out))
    ensures var k1 := EmitIf(k, open, TextDone(channel, b.itemId, b.Index(), b.accum));
      var k2 := EmitIf(k1, open, PartDone(channel, b.itemId, b.Index(), b.accum));
      Known(Emit(k2, ItemDone(b.Index(), item)))
  {
    var k1 := EmitIf(k, open, TextDone(channel, b.itemId, b.Index(), b.accum));
    var k2 := EmitIf(k1, open, PartDone(channel, b.itemId, b.Index(), b.accum));
    if open {
      EmitKnown(k, TextDone(channel, b.itemId, b.Index(), b.accum));
      EmitKnown(k1, PartDone(channel, b.itemId, b.Index(), b.accum));
    }
    EmitKnown(k2, ItemDone(b.Index(), item));
  }

  lemma CloseMessageKnown(k: Sink)
    requires Known(k)
    ensures Known(CloseMessage(k))
  {
    if k.c.message.Some? && !k.c.message.value.itemDone {
      var b := k.c.message.value;
      var k1 := k.(c := k.c.(message := Some(b.(itemDone := true, partDone := true))));
      CloseKnown(k1, b.partAdded && !b.partDone, OutputText, b, MessageItem(b.itemId, [b.accum], Completed));
    }
  }

  lemma CloseReasoningKnown(k: Sink)
    requires Known(k)
    ensures Known(CloseReasoning(k))
  {
    if k.c.reasoning.Some? && k.c.reasoning.value.itemAdded && !k.c.reasoning.value.itemDone {
      var b := k.c.reasoning.value;
      var k1 := k.(c := k.c.(reasoning := Some(b.(itemDone := true, partDone := true))));
      CloseKnown(k1, b.partAdded && !b.partDone, Summary, b, ReasoningItem(b.itemId, [b.accum], Completed));
    }
  }

  lemma OpenedKnown(k: Sink, f: ToolFragment)
    requires Known(k)
    ensures Known(EnsureToolItemAdded(k, f))
  {
    if f.Slot() !in k.c.tools {
      CloseMessageKnown(k);
      var k1 := if k.c.tools == map[] then CloseMessage(k) else k;
      var id, index := k1.c.supply, k1.c.nextOutputIndex;
      var k2 := k1.(c := AddToolItem(k1, f).c.(sequence := k1.c.sequence));
      EmitKnown(k2, ItemAdded(index, FunctionCallItem(id, f.Id(), f.Name(), "", InProgress)));
    }
  }

  lemma ArguedKnown(k: Sink, f: ToolFragment)
    requires Known(k)
    ensures Known(FeedArguments(k, f))
  {
    if f.Slot() in k.c.tools && f.Args() != "" {
      var s := k.c.tools[f.Slot()];
      var k1 := k.(c := FeedArguments(k, f).c.(sequence := k.c.sequence));
      EmitKnown(k1, Event.Delta(Arguments, s.itemId, s.outputIndex, f.Args()));
    }
  }

  lemma StepKnown(k: Sink, a: Atom)
    requires Known(k)
    ensures Known(Step(k, a))
  {
    match a {
      case Finished(_) =>
      case Reasoned(t) => ReasoningKnown(k, t);
      case Said(t) => TextKnown(k, t);
      case Opened(f) => OpenedKnown(k, f);
      case Argued(f) => ArguedKnown(k, f);
    }
  }

  lemma {:induction false} StepsKnown(k: Sink, atoms: seq<Atom>)
    requires Known(k)
    ensures Known(Steps(k, atoms))
  {
    if atoms != [] {
      StepsKnown(k, atoms[..|atoms| - 1]);
      StepKnown(Steps(k, atoms[..|atoms| - 1]), atoms[|atoms| - 1]);
    }
  }

  lemma ChunkKnown(k: Sink, chunk: Chunk)
    requires Known(k)
    ensures Known(FeedChunk(k, chunk))
  {
    StartKnown(k);
    StepsKnown(BeginChunk(k, chunk), ChunkAtoms(TwoPass, chunk));
  }

  lemma {:induction false} FeedAllKnown(k: Sink, chunks: seq<Chunk>)
    requires Known(k)
    ensures Known(FeedAll(k, chunks))
  {
    if chunks != [] {
      FeedAllKnown(k, chunks[..|chunks| - 1]);
      ChunkKnown(FeedAll(k, chunks[..|chunks| - 1]), chunks[|chunks| - 1]);
    }
  }

  lemma {:induction false} FinishSlotsKnown(k: Sink, keys: seq<int>)
    requires Known(k)
    ensures Known(FinishSlots(k, keys))
  {
    if keys != [] {
      FinishSlotsKnown(k, keys[..|keys| - 1]);
      var k1, key := FinishSlots(k, keys[..|keys| - 1]), keys[|keys| - 1];
      if key in k1.c.tools && !k1.c.tools[key].done {
        var s := k1.c.tools[key];
        var e := TextDone(Arguments, s.itemId, s.outputIndex, s.arguments);
        EmitKnown(k1, e);
        EmitKnown(Emit(k1, e), ItemDone(s.outputIndex, FunctionCallItem(s.itemId, s.callId, s.name, s.arguments, Completed)));
      }
    }
  }

  lemma FinishKnown(k: Sink, error: Option<string>)
    requires Known(k)
    ensures Known(Finish(k, error))
  {
    var k1 := k.(c := k.c.(error := error));
    if error.Some? {
      EmitKnown(k1, Terminal(TerminalResponse(k1.c, Failed).(error := error)));
    } else {
      CloseReasoningKnown(k1);
      CloseMessageKnown(CloseReasoning(k1));
      var k2 := CloseMessage(CloseReasoning(k1));
      FinishSlotsKnown(k2, SortedKeys.Ascending(k2.c.tools.Keys));
      EmitKnown(CloseAll(k1), Terminal(EndResponse(CloseAll(k1).c)));
    }
  }

  lemma {:induction false} PermittedMeans(out: seq<Frame>, i: nat)
    requires PartsFirst(out) && i < |out|
    ensures Permitted(Parts(out[..i]), out[i].event)
  {
    if i < |out| - 1 {
      PermittedMeans(out[..|out| - 1], i);
      assert out[..|out| - 1][..i] == out[..i];
    }
  }

  lemma {:induction false} PartAnnounced(out: seq<Frame>, p: Part) returns (j: nat)
    requires p in Parts(out)
    ensures j < |out| && out[j].event == PartAdded(p.channel, p.itemId, p.outputIndex)
  {
    if p in PartOf(out[|out| - 1].event) {
      j := |out| - 1;
    } else {
      j := PartAnnounced(out[..|out| - 1], p);
    }
  }

  /**
   In every stream, each delta and each end of a text or summary part comes after the `part.added` frame
   of the same part.
   */
  lemma PartsComeFirst(config: Config, chunks: seq<Chunk>, error: Option<string>, i: nat) returns (j: nat)
    requires i < |Finish(FeedAll(Sink(New(config), []), chunks), error).out|
    requires var e := Finish(FeedAll(Sink(New(config), []), chunks), error).out[i].event;
      (e.Delta? || e.TextDone? || e.PartDone?) && e.channel != Arguments
    ensures var out := Finish(FeedAll(Sink(New(config), []), chunks), error).out;
      j < i && out[j].event == PartAdded(out[i].event.channel, out[i].event.itemId, out[i].event.outputIndex)
  {
    var k := Finish(FeedAll(Sink(New(config), []), chunks), error);
    FeedAllKnown(Sink(New(config), []), chunks);
    FinishKnown(FeedAll(Sink(New(config), []), chunks), error);
    PermittedMeans(k.out, i);
    var e := k.out[i].event;
    j := PartAnnounced(k.out[..i], Part(e.channel, e.itemId, e.outputIndex));
  }
}
