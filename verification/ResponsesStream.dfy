/**
 Chat-completion chunks to Responses API frames: the specification.

 `Sink` pairs the converter's state with every frame it has emitted.  Each function below
 is one operation of the converter; `ResponsesConverter` carries them out in place.
 */
module ResponsesStream {
  import opened Wrappers
  import opened ChatChunk
  import SortedKeys

  /** Item ids come from a supply: the n-th draw is `n`. */
  type Id = nat

  datatype ItemStatus = InProgress | Completed

  datatype Item =
    | ReasoningItem(id: Id, summary: seq<string>, status: ItemStatus)
    | MessageItem(id: Id, content: seq<string>, status: ItemStatus)
    | FunctionCallItem(id: Id, callId: string, name: string, arguments: string, status: ItemStatus)

  datatype ResponseStatus = Running | Done | Incomplete | Failed

  datatype Response = Response(
    id: Id, createdAt: nat, model: string, status: ResponseStatus, output: seq<Item>,
    usage: Usage, error: Option<string>, incompleteReason: Option<string>)

  datatype Channel = Summary | OutputText | Arguments

  /** Frame payloads.  `Terminal` is completed, incomplete or failed, as its response's status says. */
  datatype Event =
    | Created(response: Response)
    | InProgressed(response: Response)
    | ItemAdded(outputIndex: nat, item: Item)
    | PartAdded(channel: Channel, itemId: Id, outputIndex: nat)
    | Delta(channel: Channel, itemId: Id, outputIndex: nat, delta: string)
    | TextDone(channel: Channel, itemId: Id, outputIndex: nat, text: string)
    | PartDone(channel: Channel, itemId: Id, outputIndex: nat, text: string)
    | ItemDone(outputIndex: nat, item: Item)
    | Terminal(response: Response)

  datatype Frame = Frame(sequence: nat, event: Event)

  /** `usize::MAX`: an output index not assigned yet. */
  const UNASSIGNED: nat := 0xFFFF_FFFF_FFFF_FFFF

  datatype Block = Block(
    itemId: Id, outputIndex: Option<nat>, accum: string,
    itemAdded: bool, partAdded: bool, partDone: bool, itemDone: bool)
  {
    function Index(): nat { outputIndex.GetOr(UNASSIGNED) }
  }

  function NewBlock(id: Id): Block {
    Block(id, None, "", false, false, false, false)
  }

  datatype Slot = Slot(
    itemId: Id, callId: string, name: string, arguments: string, outputIndex: nat, done: bool)

  /** An output item in allocation order; its content lives in the accumulators. */
  datatype Ref = ReasoningRef(id: Id) | MessageRef(id: Id) | CallRef(id: Id)

  datatype Config = Config(responseId: Id, model: string, exposeThinking: bool, createdAt: nat)

  datatype Converter = Converter(
    config: Config, started: bool, sequence: nat, nextOutputIndex: nat,
    reasoning: Option<Block>, message: Option<Block>, tools: map<int, Slot>, items: seq<Ref>,
    finishReason: Option<string>, usage: Option<Usage>, error: Option<string>,
    modelSeen: Option<string>, supply: nat)
  {
    function Model(): string { modelSeen.GetOr(config.model) }
  }

  function New(config: Config): Converter {
    Converter(config, false, 0, 0, None, None, map[], [], None, None, None, None, config.responseId + 1)
  }

  datatype Sink = Sink(c: Converter, out: seq<Frame>)

  // ---- Operations ----

  function Emit(k: Sink, e: Event): Sink {
    var n := k.c.sequence + 1;
    Sink(k.c.(sequence := n), k.out + [Frame(n, e)])
  }

  function EmitIf(k: Sink, b: bool, e: Event): Sink {
    if b then Emit(k, e) else k
  }

  function Min(a: nat, b: nat): nat { if a <= b then a else b }

  /** Cached and reasoning counters are slices of the totals. */
  function MapUsage(u: Usage): Usage {
    u.(cached := Min(u.cached, u.prompt), reasoning := Min(u.reasoning, u.completion))
  }

  function BaseResponse(c: Converter, status: ResponseStatus, output: seq<Item>, usage: Option<Usage>): Response {
    Response(c.config.responseId, c.config.createdAt, c.Model(), status, output,
             usage.GetOr(Usage(0, 0, 0, 0)), None, None)
  }

  function EnsureStarted(k: Sink): Sink {
    if k.c.started then k else
      var k := k.(c := k.c.(started := true));
      var r := BaseResponse(k.c, Running, [], None);
      Emit(Emit(k, Created(r)), InProgressed(r))
  }

  /** Reasoning the client did not ask for is recorded, and never becomes an item. */
  function KeepReasoning(k: Sink, text: string): Sink {
    var b := k.c.reasoning.GetOr(NewBlock(k.c.supply));
    k.(c := k.c.(reasoning := Some(b.(accum := b.accum + text)),
                 supply := if k.c.reasoning.None? then k.c.supply + 1 else k.c.supply))
  }

  function EnsureReasoningItem(k: Sink): Sink {
    if k.c.reasoning.Some? then k else
      var id, index := k.c.supply, k.c.nextOutputIndex;
      var b := NewBlock(id).(itemAdded := true, partAdded := true, outputIndex := Some(index));
      var k := k.(c := k.c.(reasoning := Some(b), supply := id + 1, nextOutputIndex := index + 1,
                            items := k.c.items + [ReasoningRef(id)]));
      Emit(Emit(k, ItemAdded(index, ReasoningItem(id, [], InProgress))), PartAdded(Summary, id, index))
  }

  function AppendReasoning(k: Sink, text: string): Sink
    requires k.c.reasoning.Some?
  {
    var b := k.c.reasoning.value;
    Emit(k.(c := k.c.(reasoning := Some(b.(accum := b.accum + text)))),
         Event.Delta(Summary, b.itemId, b.Index(), text))
  }

  function FeedReasoning(k: Sink, text: string): Sink {
    if k.c.config.exposeThinking then AppendReasoning(EnsureReasoningItem(k), text) else KeepReasoning(k, text)
  }

  function EnsureMessageItem(k: Sink): Sink {
    if k.c.message.Some? then k else
      var id, index := k.c.supply, k.c.nextOutputIndex;
      var b := NewBlock(id).(itemAdded := true, partAdded := true, outputIndex := Some(index));
      var k := k.(c := k.c.(message := Some(b), supply := id + 1, nextOutputIndex := index + 1,
                            items := k.c.items + [MessageRef(id)]));
      Emit(Emit(k, ItemAdded(index, MessageItem(id, [], InProgress))), PartAdded(OutputText, id, index))
  }

  function AppendText(k: Sink, text: string): Sink
    requires k.c.message.Some?
  {
    var b := k.c.message.value;
    Emit(k.(c := k.c.(message := Some(b.(accum := b.accum + text)))),
         Event.Delta(OutputText, b.itemId, b.Index(), text))
  }

  function FeedText(k: Sink, text: string): Sink {
    AppendText(EnsureMessageItem(k), text)
  }

  function CloseMessage(k: Sink): Sink {
    if k.c.message.None? || k.c.message.value.itemDone then k else
      var b := k.c.message.value;
      var open := b.partAdded && !b.partDone;
      var k := k.(c := k.c.(message := Some(b.(itemDone := true, partDone := true))));
      var k := EmitIf(k, open, TextDone(OutputText, b.itemId, b.Index(), b.accum));
      var k := EmitIf(k, open, PartDone(OutputText, b.itemId, b.Index(), b.accum));
      Emit(k, ItemDone(b.Index(), MessageItem(b.itemId, [b.accum], Completed)))
  }

  function CloseReasoning(k: Sink): Sink {
    if k.c.reasoning.None? || !k.c.reasoning.value.itemAdded || k.c.reasoning.value.itemDone then k else
      var b := k.c.reasoning.value;
      var open := b.partAdded && !b.partDone;
      var k := k.(c := k.c.(reasoning := Some(b.(itemDone := true, partDone := true))));
      var k := EmitIf(k, open, TextDone(Summary, b.itemId, b.Index(), b.accum));
      var k := EmitIf(k, open, PartDone(Summary, b.itemId, b.Index(), b.accum));
      Emit(k, ItemDone(b.Index(), ReasoningItem(b.itemId, [b.accum], Completed)))
  }

  function AddToolItem(k: Sink, f: ToolFragment): Sink {
    var id, index := k.c.supply, k.c.nextOutputIndex;
    var slot := Slot(id, f.Id(), f.Name(), "", index, false);
    var k := k.(c := k.c.(supply := id + 1, nextOutputIndex := index + 1,
                          tools := k.c.tools[f.Slot() := slot], items := k.c.items + [CallRef(id)]));
    Emit(k, ItemAdded(index, FunctionCallItem(id, f.Id(), f.Name(), "", InProgress)))
  }

  /** Pass 1: open the call if its index is new, closing the message before the first one. */
  function EnsureToolItemAdded(k: Sink, f: ToolFragment): Sink {
    if f.Slot() in k.c.tools then k
    else AddToolItem(if k.c.tools == map[] then CloseMessage(k) else k, f)
  }

  /** Pass 2: late id and name patches, then the argument fragment. */
  function FeedArguments(k: Sink, f: ToolFragment): Sink {
    if f.Slot() !in k.c.tools then k else
      var s := k.c.tools[f.Slot()];
      var s' := s.(callId := if f.Id() != "" then f.Id() else s.callId,
                   name := if f.Name() != "" then f.Name() else s.name,
                   arguments := s.arguments + f.Args());
      var k := k.(c := k.c.(tools := k.c.tools[f.Slot() := s']));
      EmitIf(k, f.Args() != "", Delta(Arguments, s.itemId, s.outputIndex, f.Args()))
  }

  function Step(k: Sink, a: Atom): Sink {
    match a
    case Finished(r) => k.(c := k.c.(finishReason := Some(r)))
    case Reasoned(t) => FeedReasoning(k, t)
    case Said(t) => FeedText(k, t)
    case Opened(f) => EnsureToolItemAdded(k, f)
    case Argued(f) => FeedArguments(k, f)
  }

  function Steps(k: Sink, atoms: seq<Atom>): Sink {
    if atoms == [] then k else Step(Steps(k, atoms[..|atoms| - 1]), atoms[|atoms| - 1])
  }

  /** `feed_chunk`, before its choices: start the stream, note the model and the usage. */
  function BeginChunk(k: Sink, chunk: Chunk): Sink {
    var k := EnsureStarted(k);
    var k := if chunk.model.GetOr("") != "" then k.(c := k.c.(modelSeen := chunk.model)) else k;
    if chunk.usage.Some? then k.(c := k.c.(usage := Some(MapUsage(chunk.usage.value)))) else k
  }

  function FeedChunk(k: Sink, chunk: Chunk): Sink {
    Steps(BeginChunk(k, chunk), ChunkAtoms(TwoPass, chunk))
  }

  function FeedAll(k: Sink, chunks: seq<Chunk>): Sink {
    if chunks == [] then k else FeedChunk(FeedAll(k, chunks[..|chunks| - 1]), chunks[|chunks| - 1])
  }

  /** The slot with this item id, the lowest upstream index first. */
  function FindSlot(keys: seq<int>, tools: map<int, Slot>, id: Id): Option<Slot> {
    if keys == [] then None
    else if keys[0] in tools && tools[keys[0]].itemId == id then Some(tools[keys[0]])
    else FindSlot(keys[1..], tools, id)
  }

  function BlockText(b: Option<Block>, id: Id): string {
    if b.Some? && b.value.itemId == id then b.value.accum else ""
  }

  function OutputItem(reasoning: Option<Block>, message: Option<Block>, tools: map<int, Slot>, r: Ref): seq<Item> {
    match r
    case ReasoningRef(id) => [ReasoningItem(id, [BlockText(reasoning, id)], Completed)]
    case MessageRef(id) => [MessageItem(id, [BlockText(message, id)], Completed)]
    case CallRef(id) =>
      match FindSlot(SortedKeys.Ascending(tools.Keys), tools, id)
      case Some(s) => [FunctionCallItem(s.itemId, s.callId, s.name, s.arguments, Completed)]
      case None => []
  }

  function Output(reasoning: Option<Block>, message: Option<Block>, tools: map<int, Slot>, items: seq<Ref>): seq<Item> {
    if items == [] then [] else
      Output(reasoning, message, tools, items[..|items| - 1])
      + OutputItem(reasoning, message, tools, items[|items| - 1])
  }

  function TerminalResponse(c: Converter, status: ResponseStatus): Response {
    BaseResponse(c, status, Output(c.reasoning, c.message, c.tools, c.items), c.usage)
  }

  /** The `done` pair of one call. */
  function FinishSlot(k: Sink, s: Slot): Sink {
    var k := Emit(k, TextDone(Arguments, s.itemId, s.outputIndex, s.arguments));
    Emit(k, ItemDone(s.outputIndex, FunctionCallItem(s.itemId, s.callId, s.name, s.arguments, Completed)))
  }

  function FinishSlots(k: Sink, keys: seq<int>): Sink {
    if keys == [] then k else
      var k := FinishSlots(k, keys[..|keys| - 1]);
      var key := keys[|keys| - 1];
      if key in k.c.tools && !k.c.tools[key].done then FinishSlot(k, k.c.tools[key]) else k
  }

  function MarkDone(tools: map<int, Slot>): map<int, Slot> {
    map t | t in tools :: tools[t].(done := true)
  }

  /** Close the reasoning, the message and every call, in that order. */
  function CloseAll(k: Sink): Sink {
    var k := CloseMessage(CloseReasoning(k));
    var k := FinishSlots(k, SortedKeys.Ascending(k.c.tools.Keys));
    k.(c := k.c.(tools := MarkDone(k.c.tools)))
  }

  /** The response of a stream that ended normally. */
  function EndResponse(c: Converter): Response {
    if c.finishReason == Some("length")
    then TerminalResponse(c, Incomplete).(incompleteReason := Some("max_output_tokens"))
    else TerminalResponse(c, Done)
  }

  function Finish(k: Sink, error: Option<string>): Sink {
    var k := k.(c := k.c.(error := error));
    if error.Some? then Emit(k, Terminal(TerminalResponse(k.c, Failed).(error := error)))
    else
      var k := CloseAll(k);
      Emit(k, Terminal(EndResponse(k.c)))
  }

  function NonstreamResponse(c: Converter): Response {
    var status := if c.error.Some? then Failed else if c.finishReason == Some("length") then Incomplete else Done;
    var r := TerminalResponse(c, status);
    var r := if status == Failed then r.(error := Some(c.error.GetOr("upstream error"))) else r;
    if status == Incomplete then r.(incompleteReason := Some("max_output_tokens")) else r
  }

  // ---- The client ----

  /** An item as a client holds it: as it was added, plus the deltas received since. */
  datatype ClientItem = ClientItem(added: Item, text: string)

  datatype Phase = Fresh | Announced | Streaming | Ended

  datatype Client = Client(phase: Phase, items: seq<ClientItem>)

  predicate Listens(i: Item, ch: Channel) {
    match ch
    case Summary => i.ReasoningItem?
    case OutputText => i.MessageItem?
    case Arguments => i.FunctionCallItem?
  }

  predicate Knows(v: seq<ClientItem>, i: nat, id: Id, ch: Channel) {
    i < |v| && v[i].added.id == id && Listens(v[i].added, ch)
  }

  /** The finished item has the kind, the id and the text the client has; a call may have changed its id and name. */
  predicate Closes(v: ClientItem, item: Item) {
    match v.added
    case ReasoningItem(id, _, _) => item == ReasoningItem(id, [v.text], Completed)
    case MessageItem(id, _, _) => item == MessageItem(id, [v.text], Completed)
    case FunctionCallItem(id, _, _, _, _) => item.FunctionCallItem? && item == item.(id := id, arguments := v.text, status := Completed)
  }

  /**
   A strict client.  The stream opens with `created` and `in_progress`, once; an item must
   arrive at the next output index; every other frame must name, by index and id, an item
   that was already added; what is said to be done must be the text received so far; and
   nothing follows the terminal frame.  `None` is a protocol error.
   */
  function Receive(v: Client, e: Event): Option<Client> {
    match e
    case Created(_) => if v.phase.Fresh? then Some(v.(phase := Announced)) else None
    case InProgressed(_) => if v.phase.Announced? then Some(v.(phase := Streaming)) else None
    case Terminal(_) => if v.phase.Streaming? || v.phase.Fresh? then Some(v.(phase := Ended)) else None
    case ItemAdded(i, item) =>
      if v.phase.Streaming? && i == |v.items| then Some(v.(items := v.items + [ClientItem(item, "")])) else None
    case Delta(ch, id, i, d) =>
      if v.phase.Streaming? && Knows(v.items, i, id, ch)
      then Some(v.(items := v.items[i := v.items[i].(text := v.items[i].text + d)])) else None
    case PartAdded(ch, id, i) => if v.phase.Streaming? && Knows(v.items, i, id, ch) then Some(v) else None
    case TextDone(ch, id, i, t) => if v.phase.Streaming? && Knows(v.items, i, id, ch) && v.items[i].text == t then Some(v) else None
    case PartDone(ch, id, i, t) => if v.phase.Streaming? && Knows(v.items, i, id, ch) && v.items[i].text == t then Some(v) else None
    case ItemDone(i, item) =>
      if v.phase.Streaming? && i < |v.items| && Closes(v.items[i], item) then Some(v) else None
  }

  function Replay(out: seq<Frame>): Option<Client> {
    if out == [] then Some(Client(Fresh, [])) else
      var v := Replay(out[..|out| - 1]);
      if v.Some? then Receive(v.value, out[|out| - 1].event) else None
  }

  /** What the client takes the finished item to be. */
  function Rebuild(i: ClientItem): Item {
    match i.added
    case ReasoningItem(id, _, _) => ReasoningItem(id, [i.text], Completed)
    case MessageItem(id, _, _) => MessageItem(id, [i.text], Completed)
    case FunctionCallItem(id, callId, name, _, _) => FunctionCallItem(id, callId, name, i.text, Completed)
  }

  function RebuildAll(v: seq<ClientItem>): seq<Item> {
    seq(|v|, i requires 0 <= i < |v| => Rebuild(v[i]))
  }

  /** The `output_item.done` frames, in order. */
  function Dones(out: seq<Frame>): seq<(nat, Item)> {
    if out == [] then [] else
      var ds := Dones(out[..|out| - 1]);
      match out[|out| - 1].event
      case ItemDone(i, item) => ds + [(i, item)]
      case _ => ds
  }
}
