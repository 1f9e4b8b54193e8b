/**
 Chat-completion chunks to Anthropic Messages events: the specification.  `Sink` pairs the
 converter's state with every event it has emitted; `AnthropicConverter` carries the same
 operations out in place.
 */
module AnthropicStream {
  import opened Wrappers
  import opened ChatChunk
  import Json = CanonicalJson
  import SortedKeys

  datatype BlockKind = ThinkingBlock | TextBlock | ToolBlock(id: string, name: string)

  datatype DeltaKind = ThinkingDelta | TextDelta | InputJsonDelta

  datatype Event =
    | MessageStart(id: nat, model: string)
    | BlockStart(index: nat, block: BlockKind)
    | BlockDelta(index: nat, kind: DeltaKind, text: string)
    | BlockStop(index: nat)
    | MessageDelta(stopReason: string, outputTokens: nat)
    | MessageStop

  datatype Slot = Slot(id: string, name: string, arguments: string, blockIdx: nat, started: bool)

  /** Input, output and cached tokens. */
  datatype Tokens = Tokens(input: nat, output: nat, cached: nat)

  datatype Converter = Converter(
    msgId: nat, exposeThinking: bool, started: bool, nextBlockIdx: nat,
    thinkingOpen: bool, thinkingIdx: nat, thinkingAccum: string,
    textOpen: bool, textIdx: nat, textAccum: string,
    tools: map<int, Slot>, finishReason: Option<string>, usage: Option<Tokens>, model: Option<string>,
    finished: bool)

  function New(msgId: nat, exposeThinking: bool): Converter {
    Converter(msgId, exposeThinking, false, 0, false, 0, "", false, 0, "", map[], None, None, None, false)
  }

  datatype Sink = Sink(c: Converter, out: seq<Event>)

  // ---- Operations ----

  function Emit(k: Sink, e: Event): Sink {
    k.(out := k.out + [e])
  }

  /** Cached reads are subtracted from the input count, saturating at 0. */
  function MapUsage(u: Usage): Tokens {
    Tokens(if u.cached <= u.prompt then u.prompt - u.cached else 0, u.completion, u.cached)
  }

  function StopReason(finish: Option<string>): string {
    if finish == Some("tool_calls") || finish == Some("function_call") then "tool_use"
    else if finish == Some("length") then "max_tokens"
    else if finish == Some("stop_sequence") then "stop_sequence"
    else "end_turn"
  }

  /** Opening, feeding and closing blocks neither starts nor finishes the message, and takes back no event. */
  predicate SameMode(k: Sink, r: Sink) {
    k.out <= r.out && r.c.started == k.c.started && r.c.finished == k.c.finished && r.c.exposeThinking == k.c.exposeThinking
  }

  function CloseThinking(k: Sink): (r: Sink)
    ensures SameMode(k, r)
  {
    if !k.c.thinkingOpen then k
    else Emit(k.(c := k.c.(thinkingOpen := false)), BlockStop(k.c.thinkingIdx))
  }

  function OpenThinking(k: Sink): (r: Sink)
    ensures SameMode(k, r)
  {
    if k.c.thinkingOpen then k else
      var i := k.c.nextBlockIdx;
      Emit(k.(c := k.c.(thinkingIdx := i, nextBlockIdx := i + 1, thinkingOpen := true)), BlockStart(i, ThinkingBlock))
  }

  function FeedReasoning(k: Sink, text: string): (r: Sink)
    ensures SameMode(k, r)
  {
    var k := k.(c := k.c.(thinkingAccum := k.c.thinkingAccum + text));
    if !k.c.exposeThinking then k else
      var k := OpenThinking(k);
      Emit(k, BlockDelta(k.c.thinkingIdx, ThinkingDelta, text))
  }

  function OpenText(k: Sink): (r: Sink)
    ensures SameMode(k, r)
  {
    if k.c.textOpen then k else
      var i := k.c.nextBlockIdx;
      Emit(k.(c := k.c.(textIdx := i, nextBlockIdx := i + 1, textOpen := true)), BlockStart(i, TextBlock))
  }

  function FeedText(k: Sink, text: string): (r: Sink)
    ensures SameMode(k, r)
  {
    var k := OpenText(CloseThinking(k));
    Emit(k.(c := k.c.(textAccum := k.c.textAccum + text)), BlockDelta(k.c.textIdx, TextDelta, text))
  }

  function OpenTool(k: Sink, f: ToolFragment): (r: Sink)
    ensures SameMode(k, r)
  {
    if f.Slot() in k.c.tools then k else
      var i := k.c.nextBlockIdx;
      var slot := Slot(f.Id(), f.Name(), "", i, true);
      Emit(k.(c := k.c.(tools := k.c.tools[f.Slot() := slot], nextBlockIdx := i + 1)),
           BlockStart(i, ToolBlock(f.Id(), f.Name())))
  }

  function FeedArguments(k: Sink, f: ToolFragment): (r: Sink)
    ensures SameMode(k, r)
  {
    if f.Slot() !in k.c.tools then k else
      var s := k.c.tools[f.Slot()];
      var s' := s.(id := Later(s.id, f.Id()), name := Later(s.name, f.Name()), arguments := s.arguments + f.Args());
      var k := k.(c := k.c.(tools := k.c.tools[f.Slot() := s']));
      if f.Args() != "" then Emit(k, BlockDelta(s.blockIdx, InputJsonDelta, f.Args())) else k
  }

  function Step(k: Sink, a: Atom): (r: Sink)
    ensures SameMode(k, r)
  {
    match a
    case Finished(r) => k.(c := k.c.(finishReason := Some(r)))
    case Reasoned(t) => FeedReasoning(k, t)
    case Said(t) => FeedText(k, t)
    case Opened(f) => OpenTool(CloseThinking(k), f)
    case Argued(f) => FeedArguments(CloseThinking(k), f)
  }

  function Steps(k: Sink, atoms: seq<Atom>): Sink {
    if atoms == [] then k else Step(Steps(k, atoms[..|atoms| - 1]), atoms[|atoms| - 1])
  }

  lemma {:induction false} StepsAppend(k: Sink, a: seq<Atom>, b: seq<Atom>)
    ensures Steps(k, a + b) == Steps(Steps(k, a), b)
  {
    if b == [] {
      assert a + b == a;
    } else {
      assert (a + b)[..|a + b| - 1] == a + b[..|b| - 1];
      StepsAppend(k, a, b[..|b| - 1]);
    }
  }

  /** `feed_chunk`, before its choices: note the model and the usage, then start the message. */
  function NoteChunk(c: Converter, chunk: Chunk): Converter {
    c.(model := if chunk.model.Some? then chunk.model else c.model,
       usage := if chunk.usage.Some? then Some(MapUsage(chunk.usage.value)) else c.usage)
  }

  function BeginChunk(k: Sink, chunk: Chunk): Sink {
    var k := k.(c := NoteChunk(k.c, chunk));
    if k.c.started then k
    else Emit(k.(c := k.c.(started := true)), MessageStart(k.c.msgId, k.c.model.GetOr("")))
  }

  function FeedChunk(k: Sink, chunk: Chunk): Sink {
    if k.c.finished then k else Steps(BeginChunk(k, chunk), ChunkAtoms(OnePass, chunk))
  }

  function FeedAll(k: Sink, chunks: seq<Chunk>): Sink {
    if chunks == [] then k else FeedChunk(FeedAll(k, chunks[..|chunks| - 1]), chunks[|chunks| - 1])
  }

  function CloseText(k: Sink): (r: Sink)
    ensures SameMode(k, r)
  {
    if !k.c.textOpen then k else Emit(k.(c := k.c.(textOpen := false)), BlockStop(k.c.textIdx))
  }

  function CloseTool(k: Sink, key: int): (r: Sink)
    ensures SameMode(k, r)
  {
    if key !in k.c.tools || !k.c.tools[key].started then k
    else Emit(k.(c := k.c.(tools := k.c.tools[key := k.c.tools[key].(started := false)])), BlockStop(k.c.tools[key].blockIdx))
  }

  function CloseTools(k: Sink, keys: seq<int>): (r: Sink)
    ensures SameMode(k, r)
  {
    if keys == [] then k else CloseTool(CloseTools(k, keys[..|keys| - 1]), keys[|keys| - 1])
  }

  function CloseBlocks(k: Sink): (r: Sink)
    ensures SameMode(k, r)
  {
    CloseTools(CloseText(CloseThinking(k)), SortedKeys.Ascending(k.c.tools.Keys))
  }

  function Finish(k: Sink): Sink {
    if k.c.finished then k else
      var stop, tokens := StopReason(k.c.finishReason), (if k.c.usage.Some? then k.c.usage.value.output else 0);
      var k := CloseBlocks(k);
      Emit(Emit(k.(c := k.c.(finished := true)), MessageDelta(stop, tokens)), MessageStop)
  }

  // ---- The accumulated answer ----

  datatype ToolCallAccum = ToolCallAccum(id: string, name: string, arguments: string)

  datatype Accumulated = Accumulated(
    reasoning: string, text: string, toolCalls: seq<ToolCallAccum>,
    finishReason: Option<string>, usage: Option<Tokens>, model: Option<string>)

  function CallsOf(tools: map<int, Slot>, keys: seq<int>): seq<ToolCallAccum> {
    if keys == [] then [] else
      var init, t := CallsOf(tools, keys[..|keys| - 1]), keys[|keys| - 1];
      if t in tools then init + [ToolCallAccum(tools[t].id, tools[t].name, tools[t].arguments)] else init
  }

  function AccumulatedOf(c: Converter): Accumulated {
    Accumulated(c.thinkingAccum, c.textAccum, CallsOf(c.tools, SortedKeys.Ascending(c.tools.Keys)),
                c.finishReason, c.usage, c.model)
  }

  datatype Content = ThinkingContent(text: string) | TextContent(text: string) | ToolUse(id: string, name: string, input: Json.Json)

  /** The JSON object the arguments spell; an empty one if they spell no object. */
  function ToolInput(num: Json.Numbers, arguments: string): Json.Json {
    var v := Json.Read(num, arguments);
    if v.Some? && v.value.JObject? then v.value else Json.JObject([])
  }

  function ToolUses(num: Json.Numbers, calls: seq<ToolCallAccum>): seq<Content> {
    seq(|calls|, i requires 0 <= i < |calls| => ToolUse(calls[i].id, calls[i].name, ToolInput(num, calls[i].arguments)))
  }

  datatype Message = Message(
    id: nat, content: seq<Content>, model: string, stopReason: string, usage: Tokens)

  function NonstreamContent(num: Json.Numbers, c: Converter): seq<Content> {
    var a := AccumulatedOf(c);
    (if c.exposeThinking && a.reasoning != "" then [ThinkingContent(a.reasoning)] else [])
    + (if a.text != "" then [TextContent(a.text)] else [])
    + ToolUses(num, a.toolCalls)
  }

  function NonstreamResponse(num: Json.Numbers, c: Converter): Message {
    Message(c.msgId, NonstreamContent(num, c), c.model.GetOr(""), StopReason(c.finishReason), c.usage.GetOr(Tokens(0, 0, 0)))
  }

  // ---- The client ----

  /** A content block as a client holds it. */
  datatype Block = Block(kind: BlockKind, text: string, open: bool)

  datatype Phase = Fresh | Streaming | Stopping | Ended

  datatype Client = Client(phase: Phase, blocks: seq<Block>)

  predicate Fits(k: BlockKind, d: DeltaKind) {
    match k
    case ThinkingBlock => d == ThinkingDelta
    case TextBlock => d == TextDelta
    case ToolBlock(_, _) => d == InputJsonDelta
  }

  predicate ThinkingIsOpen(blocks: seq<Block>) {
    exists i :: 0 <= i < |blocks| && blocks[i].kind == ThinkingBlock && blocks[i].open
  }

  predicate AllClosed(blocks: seq<Block>) {
    forall i | 0 <= i < |blocks| :: !blocks[i].open
  }

  /**
   A strict client.  The message starts once, before any block; blocks start at indices
   0, 1, 2, ...; a delta names an open block of its own kind; a block stops once; no text or
   tool content arrives while a thinking block is open, and no thinking at all unless it was
   asked for; `message_delta` comes when every block is closed, `message_stop` right after it,
   and nothing follows.  `None` is a protocol error.
   */
  function Receive(exposed: bool, v: Client, e: Event): Option<Client> {
    match e
    case MessageStart(_, _) => if v.phase.Fresh? then Some(v.(phase := Streaming)) else None
    case BlockStart(i, kind) =>
      if v.phase.Streaming? && i == |v.blocks| && !ThinkingIsOpen(v.blocks) && (kind == ThinkingBlock ==> exposed)
      then Some(v.(blocks := v.blocks + [Block(kind, "", true)])) else None
    case BlockDelta(i, d, t) =>
      if v.phase.Streaming? && i < |v.blocks| && v.blocks[i].open && Fits(v.blocks[i].kind, d)
         && (d == ThinkingDelta || !ThinkingIsOpen(v.blocks))
      then Some(v.(blocks := v.blocks[i := v.blocks[i].(text := v.blocks[i].text + t)])) else None
    case BlockStop(i) =>
      if v.phase.Streaming? && i < |v.blocks| && v.blocks[i].open
      then Some(v.(blocks := v.blocks[i := v.blocks[i].(open := false)])) else None
    case MessageDelta(_, _) =>
      if (v.phase.Streaming? || v.phase.Fresh?) && AllClosed(v.blocks) then Some(v.(phase := Stopping)) else None
    case MessageStop => if v.phase.Stopping? then Some(v.(phase := Ended)) else None
  }

  function Replay(exposed: bool, out: seq<Event>): Option<Client> {
    if out == [] then Some(Client(Fresh, [])) else
      var v := Replay(exposed, out[..|out| - 1]);
      if v.Some? then Receive(exposed, v.value, out[|out| - 1]) else None
  }

  /** What a client holds of one kind: the texts of its blocks of that kind, joined in order. */
  function Joined(blocks: seq<Block>, d: DeltaKind): string {
    if blocks == [] then "" else
      var last := blocks[|blocks| - 1];
      Joined(blocks[..|blocks| - 1], d) + (if Fits(last.kind, d) then last.text else "")
  }
}
