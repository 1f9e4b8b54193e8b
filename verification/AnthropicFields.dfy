/** The Anthropic stream and message against the fields of the upstream's chunks. */
module AnthropicFields {
  import opened Wrappers
  import opened ChatChunk
  import opened ChunkFields
  import opened AnthropicStream
  import opened AnthropicTheorems
  import Json = CanonicalJson
  import SortedKeys

  // ---- What was streamed ----

  /** The deltas of one block, joined. */
  function JoinedDeltas(out: seq<Event>, p: nat): string {
    if out == [] then "" else
      var before := JoinedDeltas(out[..|out| - 1], p);
      match out[|out| - 1]
      case BlockDelta(i, _, text) => if i == p then before + text else before
      case _ => before
  }

  lemma {:induction false} HeldIsJoined(exposed: bool, out: seq<Event>, p: nat)
    requires Replay(exposed, out).Some?
    ensures var blocks := Replay(exposed, out).value.blocks;
      JoinedDeltas(out, p) == if p < |blocks| then blocks[p].text else ""
  {
    if out != [] { HeldIsJoined(exposed, out[..|out| - 1], p); }
  }

  /** The block of call `i`: started with the id and name of its first fragment, and fed all its arguments. */
  ghost predicate CallStreamed(out: seq<Event>, blocks: seq<Block>, p: nat, own: seq<ToolFragment>)
    requires own != []
  {
    p < |blocks| && blocks[p] == Block(ToolBlock(Given(own[0].id), Given(own[0].name)), JoinedArguments(own), false) &&
    JoinedDeltas(out, p) == JoinedArguments(own)
  }

  /**
   For every run: thinking and text are the joined fields; each call some fragment concerns has one block of
   its own, and no other block is a tool block.  `place` says which block.
   */
  lemma BlocksAreTheFields(msgId: nat, exposed: bool, chunks: seq<Chunk>) returns (place: map<int, nat>)
    ensures var k, cs := Stream(msgId, exposed, chunks), Choices(chunks);
      && Joined(Blocks(k), ThinkingDelta) == (if exposed then FieldReasoning(cs) else "")
      && Joined(Blocks(k), TextDelta) == FieldText(cs)
      && (forall i: int :: i in place <==> Own(Fragments(cs), i) != [])
      && (forall i | i in place :: Own(Fragments(cs), i) != [] && CallStreamed(k.out, Blocks(k), place[i], Own(Fragments(cs), i)))
      && (forall i, j | i in place && j in place && i != j :: place[i] != place[j])
      && (forall p | 0 <= p < |Blocks(k)| && Blocks(k)[p].kind.ToolBlock? :: exists i :: i in place && place[i] == p)
  {
    var k, cs, s := Stream(msgId, exposed, chunks), Choices(chunks), RunStory(exposed, chunks);
    StoryIsTheFields(OnePass, exposed, chunks);
    ClientHoldsTheStory(msgId, exposed, chunks);
    StrictClientAccepts(msgId, exposed, chunks);
    place := map i | i in k.c.tools :: k.c.tools[i].blockIdx;
    forall i: int ensures i in place <==> Own(Fragments(cs), i) != [] {}
    forall i | i in place ensures Own(Fragments(cs), i) != [] && CallStreamed(k.out, Blocks(k), place[i], Own(Fragments(cs), i)) {
      assert s.calls[i] == CallOf(Own(Fragments(cs), i));
      HeldIsJoined(exposed, k.out, place[i]);
    }
    forall p | 0 <= p < |Blocks(k)| && Blocks(k)[p].kind.ToolBlock? ensures exists i :: i in place && place[i] == p {
      assert Owned(k.c.tools, p);
      var i :| i in k.c.tools && k.c.tools[i].blockIdx == p;
      assert place[i] == p;
    }
  }

  // ---- The aggregate message ----

  function LastModel(chunks: seq<Chunk>): Option<string> {
    if chunks == [] then None
    else if chunks[|chunks| - 1].model.Some? then chunks[|chunks| - 1].model
    else LastModel(chunks[..|chunks| - 1])
  }

  /** Input tokens exclude the cached ones. */
  predicate Counts(u: Option<Usage>, reported: Tokens) {
    match u
    case None => reported == Tokens(0, 0, 0)
    case Some(u) =>
      reported.cached == u.cached && reported.output == u.completion &&
      reported.input == (if u.prompt > u.cached then u.prompt - u.cached else 0)
  }

  /** What the choices of a chunk leave alone. */
  predicate SameHead(k: Sink, k': Sink) {
    k.out <= k'.out && k'.c.model == k.c.model && k'.c.usage == k.c.usage && k'.c.started == k.c.started &&
    k'.c.finished == k.c.finished && k'.c.msgId == k.c.msgId
  }

  lemma StepKeepsHead(k: Sink, a: Atom)
    ensures SameHead(k, Step(k, a))
  {
    match a {
      case Finished(_) =>
      case Reasoned(t) => assert SameHead(k, FeedReasoning(k, t));
      case Said(t) => assert SameHead(k, FeedText(k, t));
      case Opened(f) => assert SameHead(k, OpenTool(CloseThinking(k), f));
      case Argued(f) => assert SameHead(k, FeedArguments(CloseThinking(k), f));
    }
  }

  lemma {:induction false} StepsKeepHead(k: Sink, atoms: seq<Atom>)
    ensures SameHead(k, Steps(k, atoms))
  {
    if atoms != [] {
      StepsKeepHead(k, atoms[..|atoms| - 1]);
      StepKeepsHead(Steps(k, atoms[..|atoms| - 1]), atoms[|atoms| - 1]);
    }
  }

  ghost predicate HeadRead(k: Sink, msgId: nat, chunks: seq<Chunk>) {
    && k.c.msgId == msgId && k.c.model == LastModel(chunks) && !k.c.finished && k.c.started == (chunks != [])
    && (k.c.usage.Some? == LastUsage(chunks).Some?) && Counts(LastUsage(chunks), k.c.usage.GetOr(Tokens(0, 0, 0)))
    && (if chunks == [] then k.out == [] else k.out != [] && k.out[0] == MessageStart(msgId, Given(chunks[0].model)))
  }

  lemma BeginReads(k: Sink, msgId: nat, init: seq<Chunk>, chunk: Chunk)
    requires HeadRead(k, msgId, init)
    ensures HeadRead(BeginChunk(k, chunk), msgId, init + [chunk])
  {
    assert (init + [chunk])[..|init|] == init;
  }

  lemma {:induction false} RunReadsHead(msgId: nat, exposed: bool, chunks: seq<Chunk>)
    ensures HeadRead(Run(msgId, exposed, chunks), msgId, chunks)
  {
    if chunks != [] {
      var init, chunk := chunks[..|chunks| - 1], chunks[|chunks| - 1];
      RunReadsHead(msgId, exposed, init);
      BeginReads(Run(msgId, exposed, init), msgId, init, chunk);
      assert init + [chunk] == chunks;
      StepsKeepHead(BeginChunk(Run(msgId, exposed, init), chunk), ChunkAtoms(OnePass, chunk));
    }
  }

  predicate StopSays(finish: Option<string>, stop: string) {
    match finish
    case Some("tool_calls") => stop == "tool_use"
    case Some("function_call") => stop == "tool_use"
    case Some("length") => stop == "max_tokens"
    case Some("stop_sequence") => stop == "stop_sequence"
    case _ => stop == "end_turn"
  }

  /** The input of a call: the object its arguments spell, or an empty one. */
  ghost predicate InputSays(num: Json.Numbers, arguments: string, input: Json.Json) {
    match Json.Read(num, arguments)
    case Some(JObject(members)) => input == Json.JObject(members)
    case _ => input == Json.JObject([])
  }

  ghost predicate UseSays(num: Json.Numbers, use: Content, own: seq<ToolFragment>) {
    use.ToolUse? && use.id == LastId(own) && use.name == LastName(own) && InputSays(num, JoinedArguments(own), use.input)
  }

  /** Calls by ascending index. */
  ghost predicate UsesSay(num: Json.Numbers, uses: seq<Content>, keys: seq<int>, fs: seq<ToolFragment>) {
    && SortedKeys.Increasing(keys) && (forall i: int :: i in keys <==> Own(fs, i) != [])
    && |uses| == |keys| && forall j | 0 <= j < |keys| :: UseSays(num, uses[j], Own(fs, keys[j]))
  }

  lemma {:induction false} StoryUse(num: Json.Numbers, s: Story, fs: seq<ToolFragment>, keys: seq<int>, j: nat)
    requires CallsSay(s.calls, fs) && j < |keys| && forall i | 0 <= i < |keys| :: keys[i] in s.calls
    ensures |StoryCalls(s.calls, keys)| == |keys| && UseSays(num, ToolUses(num, StoryCalls(s.calls, keys))[j], Own(fs, keys[j]))
  {
    StoryCallAt(s.calls, keys, j);
    assert s.calls[keys[j]] == CallOf(Own(fs, keys[j]));
  }

  lemma {:induction false} StoryUses(num: Json.Numbers, s: Story, fs: seq<ToolFragment>)
    requires CallsSay(s.calls, fs)
    ensures var keys := SortedKeys.Ascending(s.calls.Keys);
      UsesSay(num, ToolUses(num, StoryCalls(s.calls, keys)), keys, fs)
  {
    var keys := SortedKeys.Ascending(s.calls.Keys);
    assert forall j | 0 <= j < |keys| :: keys[j] in keys;
    forall j | 0 <= j < |keys|
      ensures |StoryCalls(s.calls, keys)| == |keys| && UseSays(num, ToolUses(num, StoryCalls(s.calls, keys))[j], Own(fs, keys[j]))
    {
      StoryUse(num, s, fs, keys, j);
    }
    if keys == [] { assert StoryCalls(s.calls, keys) == []; }
  }

  /**
   For every run the aggregate message is made of the fields: thinking if asked for, text, and the calls by
   index with their last id and name; the last model and usage; and the stop reason, which the last two events repeat.
   */
  lemma MessageIsTheFields(num: Json.Numbers, msgId: nat, exposed: bool, chunks: seq<Chunk>)
      returns (uses: seq<Content>, keys: seq<int>)
    ensures var k, cs := Stream(msgId, exposed, chunks), Choices(chunks);
      NonstreamResponse(num, k.c).content
      == (if exposed && FieldReasoning(cs) != "" then [ThinkingContent(FieldReasoning(cs))] else [])
         + (if FieldText(cs) != "" then [TextContent(FieldText(cs))] else []) + uses
    ensures UsesSay(num, uses, keys, Fragments(Choices(chunks)))
  {
    var s := RunStory(exposed, chunks);
    StoryIsTheFields(OnePass, exposed, chunks);
    NonstreamAgrees(num, msgId, exposed, chunks);
    ClientHoldsTheStory(msgId, exposed, chunks);
    StoryUses(num, s, Fragments(Choices(chunks)));
    keys := SortedKeys.Ascending(s.calls.Keys);
    uses := ToolUses(num, StoryCalls(s.calls, keys));
  }

  lemma FinishKeepsHead(k: Sink)
    requires !k.c.finished
    ensures var k' := Finish(k);
      k.out <= k'.out && k'.c.msgId == k.c.msgId && k'.c.model == k.c.model && k'.c.usage == k.c.usage
  {
    ToolsKeepHead(CloseText(CloseThinking(k)), SortedKeys.Ascending(k.c.tools.Keys));
    assert k.out <= CloseBlocks(k).out;
  }

  lemma {:induction false} ToolsKeepHead(k: Sink, keys: seq<int>)
    ensures SameHead(k, CloseTools(k, keys))
  {
    if keys != [] { ToolsKeepHead(k, keys[..|keys| - 1]); }
  }

  lemma StopReasonSays(finish: Option<string>)
    ensures StopSays(finish, StopReason(finish))
  {
  }

  /** The rest of the message, and the events a stream opens and closes with. */
  lemma EnvelopeIsTheFields(num: Json.Numbers, msgId: nat, exposed: bool, chunks: seq<Chunk>)
    ensures var k := Stream(msgId, exposed, chunks);
      var m, out, finish := NonstreamResponse(num, k.c), k.out, LastFinish(Choices(chunks));
      && m.id == msgId && m.model == Given(LastModel(chunks)) && StopSays(finish, m.stopReason) && Counts(LastUsage(chunks), m.usage)
      && |out| >= 2 && out[|out| - 1] == MessageStop && out[|out| - 2] == MessageDelta(m.stopReason, m.usage.output)
      && (chunks != [] ==> out[0] == MessageStart(msgId, Given(chunks[0].model)))
  {
    RunReadsHead(msgId, exposed, chunks);
    FinishKeepsHead(Run(msgId, exposed, chunks));
    StoryIsTheFields(OnePass, exposed, chunks);
    NonstreamAgrees(num, msgId, exposed, chunks);
    StopReasonSays(LastFinish(Choices(chunks)));
  }
}
