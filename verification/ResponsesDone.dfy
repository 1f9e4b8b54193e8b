/** The frames that end an item: what text they carry, and that each text is ended once, before its item. */
module ResponsesDone {
  import opened Wrappers
  import opened ChatChunk
  import opened ResponsesStream
  import opened ResponsesTheorems
  import SortedKeys

  // ---- The text of a done frame ----

  /** The deltas of one item on one channel, joined. */
  function JoinedDeltas(out: seq<Frame>, ch: Channel, id: Id, i: nat): string {
    if out == [] then "" else
      var before := JoinedDeltas(out[..|out| - 1], ch, id, i);
      match out[|out| - 1].event
      case Delta(ch', id', i', text) => if ch' == ch && id' == id && i' == i then before + text else before
      case _ => before
  }

  /** What a client holds of an item is what its deltas said; of an item not added yet there were none. */
  lemma {:induction false} HeldIsJoined(out: seq<Frame>, ch: Channel, id: Id, i: nat)
    requires Replay(out).Some?
    ensures var items := Replay(out).value.items;
      if i < |items| && items[i].added.id == id && Listens(items[i].added, ch) then items[i].text == JoinedDeltas(out, ch, id, i)
      else JoinedDeltas(out, ch, id, i) == ""
  {
    if out != [] {
      HeldIsJoined(out[..|out| - 1], ch, id, i);
    }
  }

  lemma {:induction false} EachFrameAccepted(out: seq<Frame>, p: nat)
    requires Replay(out).Some? && p < |out|
    ensures Replay(out[..p]).Some? && Receive(Replay(out[..p]).value, out[p].event).Some?
  {
    if p < |out| - 1 {
      assert out[..|out| - 1][..p] == out[..p];
      EachFrameAccepted(out[..|out| - 1], p);
    }
  }

  /** The text a frame says is finished, if it says so of one. */
  function FinishedText(e: Event): Option<(Channel, Id, nat, string)> {
    match e
    case TextDone(ch, id, i, text) => Some((ch, id, i, text))
    case PartDone(ch, id, i, text) => Some((ch, id, i, text))
    case ItemDone(i, ReasoningItem(id, summary, _)) => if |summary| == 1 then Some((Summary, id, i, summary[0])) else None
    case ItemDone(i, MessageItem(id, content, _)) => if |content| == 1 then Some((OutputText, id, i, content[0])) else None
    case ItemDone(i, FunctionCallItem(id, _, _, arguments, _)) => Some((Arguments, id, i, arguments))
    case _ => None
  }

  /** In every stream, each frame that ends a text, a part or an item carries the join of all its deltas before. */
  lemma DoneTextsAreJoined(config: Config, chunks: seq<Chunk>, error: Option<string>, p: nat)
    requires p < |Stream(config, chunks, error).out|
    ensures var out := Stream(config, chunks, error).out;
      match FinishedText(out[p].event)
      case Some((ch, id, i, text)) => text == JoinedDeltas(out[..p], ch, id, i)
      case None => !out[p].event.TextDone? && !out[p].event.PartDone? && !out[p].event.ItemDone?
  {
    var out := Stream(config, chunks, error).out;
    StrictClientAccepts(config, chunks, error);
    EachFrameAccepted(out, p);
    var t := FinishedText(out[p].event);
    if t.Some? { HeldIsJoined(out[..p], t.value.0, t.value.1, t.value.2); }
  }

  // ---- Each text is ended once, right before its item ----

  /** The end of an item comes right after the end of its text, and of its part if it has one. */
  predicate Announced(out: seq<Frame>, q: nat)
    requires q < |out|
  {
    match out[q].event
    case ItemDone(i, FunctionCallItem(id, _, _, arguments, _)) =>
      q >= 1 && out[q - 1].event == TextDone(Arguments, id, i, arguments)
    case ItemDone(i, MessageItem(id, content, _)) => q >= 2 && |content| == 1 && PartEnds(out, q, OutputText, id, i, content[0])
    case ItemDone(i, ReasoningItem(id, summary, _)) => q >= 2 && |summary| == 1 && PartEnds(out, q, Summary, id, i, summary[0])
    case _ => true
  }

  predicate PartEnds(out: seq<Frame>, q: nat, ch: Channel, id: Id, i: nat, text: string)
    requires 2 <= q < |out|
  {
    out[q - 2].event == TextDone(ch, id, i, text) && out[q - 1].event == PartDone(ch, id, i, text)
  }

  predicate EndsItem(e: Event, i: nat) {
    e.ItemDone? && e.outputIndex == i
  }

  /** The end of a text is followed by the end of its item. */
  predicate Followed(out: seq<Frame>, p: nat)
    requires p < |out|
  {
    match out[p].event
    case TextDone(Arguments, id, i, _) => p + 1 < |out| && EndsItem(out[p + 1].event, i)
    case TextDone(_, id, i, _) => p + 2 < |out| && out[p + 1].event.PartDone? && EndsItem(out[p + 2].event, i)
    case _ => true
  }

  ghost predicate Bundled(out: seq<Frame>) {
    forall p | 0 <= p < |out| :: Announced(out, p) && Followed(out, p)
  }

  lemma BundledAppend(a: seq<Frame>, b: seq<Frame>)
    requires Bundled(a) && Bundled(b)
    ensures Bundled(a + b)
  {
    var out := a + b;
    forall p | 0 <= p < |out| ensures Announced(out, p) && Followed(out, p) {
      if p < |a| {
        assert Announced(a, p) && Followed(a, p);
      } else {
        assert Announced(b, p - |a|) && Followed(b, p - |a|);
      }
    }
  }

  predicate BlockReady(b: Option<Block>) {
    b.Some? && b.value.itemAdded ==> b.value.partAdded && b.value.partDone == b.value.itemDone
  }

  /** Between operations every bundle of ending frames is complete, and an open item has an open part. */
  ghost predicate Tidy(k: Sink) {
    Bundled(k.out) && BlockReady(k.c.message) && (k.c.message.Some? ==> k.c.message.value.itemAdded) && BlockReady(k.c.reasoning)
  }

  lemma OneMore(out: seq<Frame>, f: Frame)
    requires Bundled(out) && !f.event.TextDone? && !f.event.ItemDone?
    ensures Bundled(out + [f])
  {
    BundledAppend(out, [f]);
  }

  lemma StartTidy(k: Sink)
    requires Tidy(k)
    ensures Tidy(EnsureStarted(k))
  {
    if !k.c.started {
      var r := BaseResponse(k.c.(started := true), Running, [], None);
      OneMore(k.out, Frame(k.c.sequence + 1, Created(r)));
      OneMore(k.out + [Frame(k.c.sequence + 1, Created(r))], Frame(k.c.sequence + 2, InProgressed(r)));
    }
  }

  lemma TextTidy(k: Sink, text: string)
    requires Tidy(k)
    ensures Tidy(FeedText(k, text))
  {
    var k1 := EnsureMessageItem(k);
    if k.c.message.None? {
      var id, index := k.c.supply, k.c.nextOutputIndex;
      var added := Frame(k.c.sequence + 1, ItemAdded(index, MessageItem(id, [], InProgress)));
      OneMore(k.out, added);
      OneMore(k.out + [added], Frame(k.c.sequence + 2, PartAdded(OutputText, id, index)));
    }
    var b := k1.c.message.value;
    OneMore(k1.out, Frame(k1.c.sequence + 1, Event.Delta(OutputText, b.itemId, b.Index(), text)));
  }

  lemma ReasoningTidy(k: Sink, text: string)
    requires Tidy(k)
    ensures Tidy(FeedReasoning(k, text))
  {
    if k.c.config.exposeThinking {
      var k1 := EnsureReasoningItem(k);
      if k.c.reasoning.None? {
        var id, index := k.c.supply, k.c.nextOutputIndex;
        var added := Frame(k.c.sequence + 1, ItemAdded(index, ReasoningItem(id, [], InProgress)));
        OneMore(k.out, added);
        OneMore(k.out + [added], Frame(k.c.sequence + 2, PartAdded(Summary, id, index)));
      }
      var b := k1.c.reasoning.value;
      OneMore(k1.out, Frame(k1.c.sequence + 1, Event.Delta(Summary, b.itemId, b.Index(), text)));
    }
  }

  /** The three frames that end a message or a reasoning item. */
  lemma PartBundle(out: seq<Frame>, n: nat, ch: Channel, id: Id, i: nat, text: string, item: Item)
    requires Bundled(out)
    requires item == (if ch == OutputText then MessageItem(id, [text], Completed) else ReasoningItem(id, [text], Completed))
    requires ch != Arguments
    ensures Bundled(out + [Frame(n, TextDone(ch, id, i, text))] + [Frame(n + 1, PartDone(ch, id, i, text))] + [Frame(n + 2, ItemDone(i, item))])
  {
    var bundle := [Frame(n, TextDone(ch, id, i, text)), Frame(n + 1, PartDone(ch, id, i, text)), Frame(n + 2, ItemDone(i, item))];
    BundledAppend(out, bundle);
    assert out + bundle == out + [bundle[0]] + [bundle[1]] + [bundle[2]];
  }

  lemma CloseMessageTidy(k: Sink)
    requires Tidy(k)
    ensures Tidy(CloseMessage(k))
  {
    if k.c.message.Some? && !k.c.message.value.itemDone {
      var b := k.c.message.value;
      PartBundle(k.out, k.c.sequence + 1, OutputText, b.itemId, b.Index(), b.accum, MessageItem(b.itemId, [b.accum], Completed));
    }
  }

  lemma CloseReasoningTidy(k: Sink)
    requires Tidy(k)
    ensures Tidy(CloseReasoning(k))
  {
    if k.c.reasoning.Some? && k.c.reasoning.value.itemAdded && !k.c.reasoning.value.itemDone {
      var b := k.c.reasoning.value;
      PartBundle(k.out, k.c.sequence + 1, Summary, b.itemId, b.Index(), b.accum, ReasoningItem(b.itemId, [b.accum], Completed));
    }
  }

  lemma OpenedTidy(k: Sink, f: ToolFragment)
    requires Tidy(k)
    ensures Tidy(EnsureToolItemAdded(k, f))
  {
    if f.Slot() !in k.c.tools {
      CloseMessageTidy(k);
      var k1 := if k.c.tools == map[] then CloseMessage(k) else k;
      OneMore(k1.out, Frame(k1.c.sequence + 1, ItemAdded(k1.c.nextOutputIndex, FunctionCallItem(k1.c.supply, f.Id(), f.Name(), "", InProgress))));
    }
  }

  lemma ArguedTidy(k: Sink, f: ToolFragment)
    requires Tidy(k)
    ensures Tidy(FeedArguments(k, f))
  {
    if f.Slot() in k.c.tools && f.Args() != "" {
      var s := k.c.tools[f.Slot()];
      OneMore(k.out, Frame(k.c.sequence + 1, Event.Delta(Arguments, s.itemId, s.outputIndex, f.Args())));
    }
  }

  lemma StepTidy(k: Sink, a: Atom)
    requires Tidy(k)
    ensures Tidy(Step(k, a))
  {
    match a {
      case Finished(_) =>
      case Reasoned(t) => ReasoningTidy(k, t);
      case Said(t) => TextTidy(k, t);
      case Opened(f) => OpenedTidy(k, f);
      case Argued(f) => ArguedTidy(k, f);
    }
  }

  lemma {:induction false} StepsTidy(k: Sink, atoms: seq<Atom>)
    requires Tidy(k)
    ensures Tidy(Steps(k, atoms))
  {
    if atoms != [] {
      StepsTidy(k, atoms[..|atoms| - 1]);
      StepTidy(Steps(k, atoms[..|atoms| - 1]), atoms[|atoms| - 1]);
    }
  }

  lemma {:induction false} RunTidy(config: Config, chunks: seq<Chunk>)
    ensures Tidy(Run(config, chunks))
  {
    if chunks != [] {
      var init, chunk := chunks[..|chunks| - 1], chunks[|chunks| - 1];
      RunTidy(config, init);
      StartTidy(Run(config, init));
      StepsTidy(BeginChunk(Run(config, init), chunk), ChunkAtoms(TwoPass, chunk));
    }
  }

  lemma CallBundle(out: seq<Frame>, n: nat, id: Id, i: nat, item: Item)
    requires Bundled(out) && item.FunctionCallItem? && item.id == id
    ensures Bundled(out + [Frame(n, TextDone(Arguments, id, i, item.arguments))] + [Frame(n + 1, ItemDone(i, item))])
  {
    var bundle := [Frame(n, TextDone(Arguments, id, i, item.arguments)), Frame(n + 1, ItemDone(i, item))];
    BundledAppend(out, bundle);
    assert out + bundle == out + [bundle[0]] + [bundle[1]];
  }

  lemma {:induction false} SlotsTidy(k: Sink, keys: seq<int>)
    requires Tidy(k)
    ensures Tidy(FinishSlots(k, keys))
  {
    if keys != [] {
      SlotsTidy(k, keys[..|keys| - 1]);
      var k1, key := FinishSlots(k, keys[..|keys| - 1]), keys[|keys| - 1];
      if key in k1.c.tools && !k1.c.tools[key].done {
        var s := k1.c.tools[key];
        CallBundle(k1.out, k1.c.sequence + 1, s.itemId, s.outputIndex, FunctionCallItem(s.itemId, s.callId, s.name, s.arguments, Completed));
      }
    }
  }

  lemma FinishBundled(k: Sink, error: Option<string>)
    requires Tidy(k)
    ensures Bundled(Finish(k, error).out)
  {
    var k1 := k.(c := k.c.(error := error));
    if error.Some? {
      OneMore(k.out, Frame(k.c.sequence + 1, Terminal(TerminalResponse(k1.c, Failed).(error := error))));
    } else {
      CloseReasoningTidy(k1);
      CloseMessageTidy(CloseReasoning(k1));
      var k2 := CloseMessage(CloseReasoning(k1));
      SlotsTidy(k2, SortedKeys.Ascending(k2.c.tools.Keys));
      var k3 := CloseAll(k1);
      OneMore(k3.out, Frame(k3.c.sequence + 1, Terminal(EndResponse(k3.c))));
    }
  }

  /** In every stream, however it ends, each item is ended right after its text and part, and each text is followed by the end of its item. */
  lemma TextThenItem(config: Config, chunks: seq<Chunk>, error: Option<string>)
    ensures Bundled(Stream(config, chunks, error).out)
  {
    RunTidy(config, chunks);
    FinishBundled(Run(config, chunks), error);
  }

  // ---- Exactly once ----

  /** Where a done frame is listed. */
  lemma {:induction false} DonesAt(out: seq<Frame>, q: nat)
    requires q < |out| && out[q].event.ItemDone?
    ensures var j := |Dones(out[..q])|;
      j < |Dones(out)| && Dones(out)[j] == (out[q].event.outputIndex, out[q].event.item) && Dones(out[..q + 1]) == Dones(out)[..j + 1]
  {
    if q < |out| - 1 {
      var init := out[..|out| - 1];
      assert init[..q] == out[..q] && init[..q + 1] == out[..q + 1];
      DonesAt(init, q);
    } else {
      assert out[..q + 1] == out;
    }
  }

  lemma {:induction false} DonesWhere(out: seq<Frame>, j: nat) returns (q: nat)
    requires j < |Dones(out)|
    ensures q < |out| && out[q].event == ItemDone(Dones(out)[j].0, Dones(out)[j].1)
  {
    var init := out[..|out| - 1];
    if j < |Dones(init)| {
      q := DonesWhere(init, j);
    } else {
      q := |out| - 1;
    }
  }

  lemma {:induction false} DonesGrow(out: seq<Frame>, n: nat)
    requires n <= |out|
    ensures |Dones(out[..n])| <= |Dones(out)|
  {
    if n < |out| {
      assert out[..|out| - 1][..n] == out[..n];
      DonesGrow(out[..|out| - 1], n);
    } else {
      assert out[..n] == out;
    }
  }

  /** No two done frames have one output index. */
  ghost predicate Single(out: seq<Frame>) {
    forall q, q' | 0 <= q < q' < |out| && out[q].event.ItemDone? && out[q'].event.ItemDone? ::
      out[q].event.outputIndex != out[q'].event.outputIndex
  }

  lemma DistinctDonesSingle(out: seq<Frame>)
    requires forall j1, j2 | 0 <= j1 < j2 < |Dones(out)| :: Dones(out)[j1].0 != Dones(out)[j2].0
    ensures Single(out)
  {
    forall q, q' | 0 <= q < q' < |out| && out[q].event.ItemDone? && out[q'].event.ItemDone?
      ensures out[q].event.outputIndex != out[q'].event.outputIndex
    {
      DonesAt(out, q);
      DonesAt(out, q');
      assert out[..q'][..q + 1] == out[..q + 1];
      DonesGrow(out[..q'], q + 1);
    }
  }

  predicate EndsText(e: Event, i: nat) {
    e.TextDone? && e.outputIndex == i
  }

  /** Two ends of one item's text are the same frame. */
  lemma TextEndsOnce(out: seq<Frame>, i: nat, p: nat, p': nat)
    requires Bundled(out) && Single(out) && p < |out| && p' < |out| && EndsText(out[p].event, i) && EndsText(out[p'].event, i)
    ensures p == p'
  {
    assert Followed(out, p) && Followed(out, p');
    var q := if out[p].event.channel == Arguments then p + 1 else p + 2;
    var q' := if out[p'].event.channel == Arguments then p' + 1 else p' + 2;
    assert q == q';
    assert Announced(out, q);
  }

  /** The output item at `i`, ended: one end of its text, and the end of the item after it. */
  ghost predicate EndedOnce(out: seq<Frame>, i: nat, item: Item) {
    exists p, q | 0 <= p < q < |out| ::
      && EndsText(out[p].event, i) && out[p].event.itemId == item.id
      && EndsItem(out[q].event, i) && out[q].event.item.id == item.id
      && (item.FunctionCallItem? ==> out[p].event.channel == Arguments && out[p].event.text == item.arguments)
      && (forall p' | 0 <= p' < |out| && EndsText(out[p'].event, i) :: p' == p)
      && (forall q' | 0 <= q' < |out| && EndsItem(out[q'].event, i) :: q' == q)
  }

  lemma DoneEndsOnce(out: seq<Frame>, i: nat, item: Item, q: nat)
    requires Bundled(out) && Single(out) && q < |out| && EndsItem(out[q].event, i)
    requires out[q].event.item.id == item.id && (item.FunctionCallItem? ==> out[q].event.item == item)
    ensures EndedOnce(out, i, item)
  {
    assert Announced(out, q);
    var p := if out[q].event.item.FunctionCallItem? then q - 1 else q - 2;
    assert EndsText(out[p].event, i);
    forall p' | 0 <= p' < |out| && EndsText(out[p'].event, i) ensures p' == p { TextEndsOnce(out, i, p, p'); }
  }

  /**
   After a normal end, each item of the terminal output has exactly one end of its text and, later, exactly
   one end of the item; the text of a call is the item's arguments.
   */
  lemma EachItemEndedOnce(config: Config, chunks: seq<Chunk>, i: nat)
    requires i < |NonstreamResponse(Stream(config, chunks, None).c).output|
    ensures var k := Stream(config, chunks, None);
      EndedOnce(k.out, i, NonstreamResponse(k.c).output[i])
  {
    var k, s := Stream(config, chunks, None), RunStory(config, chunks);
    var output, ds := NonstreamResponse(k.c).output, Dones(k.out);
    EveryItemDoneOnce(config, chunks);
    ClientMirrorsOutput(config, chunks, None);
    TextThenItem(config, chunks, None);
    DistinctDonesSingle(k.out);
    assert Has(ds, i);
    var j :| 0 <= j < |ds| && ds[j].0 == i;
    var q := DonesWhere(k.out, j);
    assert ds[j].1 == DoneItem(output[i].id, s, s.order[i]) && output[i] == Final(output[i].id, s, s.order[i]);
    DoneEndsOnce(k.out, i, output[i], q);
  }
}
