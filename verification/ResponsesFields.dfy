/** The Responses stream against the fields of the upstream's chunks. */
module ResponsesFields {
  import opened Wrappers
  import opened ChatChunk
  import opened ChunkFields
  import opened ResponsesStream
  import opened ResponsesTheorems
  import opened ResponsesDone
  import SortedKeys

  // ---- The output ----

  /** An output item of the terminal response. */
  ghost predicate ItemSays(item: Item, kind: Kind, cs: seq<Choice>) {
    match kind
    case Thinking => item == ReasoningItem(item.id, [FieldReasoning(cs)], Completed)
    case Saying => item == MessageItem(item.id, [FieldText(cs)], Completed)
    case Calling(i) =>
      var own := Own(Fragments(cs), i);
      own != [] && item == FunctionCallItem(item.id, LastId(own), LastName(own), JoinedArguments(own), Completed)
  }

  /** How the item at index `p` was streamed: as it was added, and the deltas that name it. */
  ghost predicate StreamSays(out: seq<Frame>, v: ClientItem, id: Id, p: nat, kind: Kind, cs: seq<Choice>) {
    match kind
    case Thinking => v.added == ReasoningItem(id, [], InProgress) && JoinedDeltas(out, Summary, id, p) == FieldReasoning(cs)
    case Saying => v.added == MessageItem(id, [], InProgress) && JoinedDeltas(out, OutputText, id, p) == FieldText(cs)
    case Calling(i) =>
      var own := Own(Fragments(cs), i);
      own != [] && v.added == FunctionCallItem(id, Given(own[0].id), Given(own[0].name), "", InProgress) &&
      JoinedDeltas(out, Arguments, id, p) == JoinedArguments(own)
  }

  lemma KindSays(s: Story, exposed: bool, cs: seq<Choice>, item: Item, v: ClientItem, kind: Kind)
    requires Says(s, ReadingOf(exposed, cs)) && kind in s.order
    requires item == Final(item.id, s, kind) && v == Copy(item.id, s, kind)
    ensures ItemSays(item, kind, cs)
    ensures kind.Calling? ==>
      var own := Own(Fragments(cs), kind.slot);
      own != [] &&
      v == ClientItem(FunctionCallItem(item.id, Given(own[0].id), Given(own[0].name), "", InProgress), JoinedArguments(own))
  {
    if kind.Calling? {
      assert kind.slot in s.calls;
      assert s.calls[kind.slot] == CallOf(Own(Fragments(cs), kind.slot));
    }
  }

  lemma StreamedSays(out: seq<Frame>, s: Story, exposed: bool, cs: seq<Choice>, item: Item, p: nat, kind: Kind)
    requires Says(s, ReadingOf(exposed, cs)) && kind in s.order && Replay(out).Some?
    requires p < |Replay(out).value.items| && item == Final(item.id, s, kind) && Replay(out).value.items[p] == Copy(item.id, s, kind)
    ensures ItemSays(item, kind, cs) && StreamSays(out, Replay(out).value.items[p], item.id, p, kind, cs)
  {
    KindSays(s, exposed, cs, item, Replay(out).value.items[p], kind);
    HeldIsJoined(out, if kind.Thinking? then Summary else if kind.Saying? then OutputText else Arguments, item.id, p);
  }

  /**
   For every run and either way of finishing: the output has one item for each kind of content, in order of
   first appearance in the chunks; reasoning and text are the joined fields; a call has the joined arguments
   of its own fragments and their last id and name; and the deltas streamed for it joined to the same.
   */
  lemma OutputIsTheFields(config: Config, chunks: seq<Chunk>, error: Option<string>)
    ensures var k, cs := Stream(config, chunks, error), Choices(chunks);
      var output, ks := NonstreamResponse(k.c).output, Firsts(Kinds(config.exposeThinking, cs));
      |output| == |ClientItems(k)| == |ks| &&
      forall p | 0 <= p < |ks| ::
        ItemSays(output[p], ks[p], cs) && StreamSays(k.out, ClientItems(k)[p], output[p].id, p, ks[p], cs)
  {
    var k, cs, s := Stream(config, chunks, error), Choices(chunks), RunStory(config, chunks);
    var output := NonstreamResponse(k.c).output;
    StoryIsTheFields(TwoPass, config.exposeThinking, chunks);
    ClientMirrorsOutput(config, chunks, error);
    StrictClientAccepts(config, chunks, error);
    forall p | 0 <= p < |s.order|
      ensures ItemSays(output[p], s.order[p], cs) && StreamSays(k.out, ClientItems(k)[p], output[p].id, p, s.order[p], cs)
    {
      StreamedSays(k.out, s, config.exposeThinking, cs, output[p], p, s.order[p]);
    }
  }

  /** There is one item for call `i` if some fragment concerns it, and none otherwise. */
  lemma OneItemPerCall(config: Config, chunks: seq<Chunk>, i: int)
    ensures var ks, fs := Firsts(Kinds(config.exposeThinking, Choices(chunks))), Fragments(Choices(chunks));
      (Calling(i) in ks <==> exists j :: 0 <= j < |fs| && Concerns(fs[j], i)) &&
      forall p, q | 0 <= p < q < |ks| :: ks[p] != ks[q]
  {
    var cs := Choices(chunks);
    StoryIsTheFields(TwoPass, config.exposeThinking, chunks);
    assert i in RunStory(config, chunks).calls <==> Own(Fragments(cs), i) != [];
    OwnExists(Fragments(cs), i);
    FirstsMeaning(Kinds(config.exposeThinking, cs));
  }

  lemma FinalIdsDiffer(items: seq<Ref>, s: Story, order: seq<Kind>)
    requires |items| == |order| && forall i, j | 0 <= i < j < |items| :: items[i].id != items[j].id
    ensures var output := Finals(items, s, order); forall p, q | 0 <= p < q < |output| :: output[p].id != output[q].id
  {
    var output := Finals(items, s, order);
    forall p | 0 <= p < |output| ensures output[p].id == items[p].id { FinalId(items[p].id, s, order[p]); }
  }

  lemma FinalId(id: Id, s: Story, kind: Kind)
    ensures Final(id, s, kind).id == id
  {
  }

  lemma RunIdsDiffer(config: Config, chunks: seq<Chunk>)
    ensures var items := Run(config, chunks).c.items; forall i, j | 0 <= i < j < |items| :: items[i].id != items[j].id
  {
    RunInvariant(config, chunks);
    assert DistinctIds(Run(config, chunks).c);
  }

  /** Every item has an id of its own. */
  lemma ItemIdsDiffer(config: Config, chunks: seq<Chunk>, error: Option<string>)
    ensures var output := NonstreamResponse(Stream(config, chunks, error).c).output;
      forall p, q | 0 <= p < q < |output| :: output[p].id != output[q].id
  {
    Ends(config, chunks, error);
    RunIdsDiffer(config, chunks);
    FinalIdsDiffer(Run(config, chunks).c.items, RunStory(config, chunks), RunStory(config, chunks).order);
  }

  lemma {:induction false} OwnExists(fs: seq<ToolFragment>, i: int)
    ensures Own(fs, i) != [] <==> exists j :: 0 <= j < |fs| && Concerns(fs[j], i)
  {
    if fs != [] {
      var init := fs[..|fs| - 1];
      OwnExists(init, i);
      assert forall j | 0 <= j < |init| :: init[j] == fs[j];
      if Own(init, i) != [] {
        var j :| 0 <= j < |init| && Concerns(init[j], i);
        assert Concerns(fs[j], i);
      }
    }
  }

  // ---- The rest of the response ----

  /** The last model that is not empty. */
  function LastModel(chunks: seq<Chunk>): Option<string> {
    if chunks == [] then None else
      match chunks[|chunks| - 1].model
      case Some(m) => if m != "" then Some(m) else LastModel(chunks[..|chunks| - 1])
      case None => LastModel(chunks[..|chunks| - 1])
  }

  /** Totals are the upstream's; the slices of them never exceed them. */
  predicate Counts(u: Option<Usage>, reported: Usage) {
    match u
    case None => reported == Usage(0, 0, 0, 0)
    case Some(u) =>
      reported.prompt == u.prompt && reported.completion == u.completion &&
      reported.cached == (if u.cached > u.prompt then u.prompt else u.cached) &&
      reported.reasoning == (if u.reasoning > u.completion then u.completion else u.reasoning)
  }

  /** What the choices of a chunk leave alone. */
  predicate SameHead(k: Sink, k': Sink) {
    k.out <= k'.out && k'.c.modelSeen == k.c.modelSeen && k'.c.usage == k.c.usage && k'.c.config == k.c.config &&
    k'.c.started == k.c.started
  }

  lemma StepKeepsHead(k: Sink, a: Atom)
    ensures SameHead(k, Step(k, a))
  {
    if a.Opened? && a.fragment.Slot() !in k.c.tools {
      assert SameHead(k, CloseMessage(k));
    }
  }

  lemma {:induction false} StepsKeepHead(k: Sink, atoms: seq<Atom>)
    ensures SameHead(k, Steps(k, atoms))
  {
    if atoms != [] {
      StepsKeepHead(k, atoms[..|atoms| - 1]);
      StepKeepsHead(Steps(k, atoms[..|atoms| - 1]), atoms[|atoms| - 1]);
    }
  }

  function Opening(config: Config): Response {
    Response(config.responseId, config.createdAt, config.model, Running, [], Usage(0, 0, 0, 0), None, None)
  }

  predicate Opens(out: seq<Frame>, config: Config) {
    |out| >= 2 && out[0] == Frame(1, Created(Opening(config))) && out[1] == Frame(2, InProgressed(Opening(config)))
  }

  ghost predicate HeadRead(k: Sink, config: Config, chunks: seq<Chunk>) {
    && k.c.config == config && k.c.modelSeen == LastModel(chunks) && k.c.started == (chunks != [])
    && (k.c.usage.Some? == LastUsage(chunks).Some?) && Counts(LastUsage(chunks), k.c.usage.GetOr(Usage(0, 0, 0, 0)))
    && (if chunks == [] then k == Sink(New(config), []) else Opens(k.out, config))
  }

  lemma BeginReads(k: Sink, config: Config, init: seq<Chunk>, chunk: Chunk)
    requires HeadRead(k, config, init)
    ensures HeadRead(BeginChunk(k, chunk), config, init + [chunk])
  {
    assert (init + [chunk])[..|init|] == init;
  }

  lemma {:induction false} RunReadsHead(config: Config, chunks: seq<Chunk>)
    ensures HeadRead(Run(config, chunks), config, chunks)
  {
    if chunks != [] {
      var init, chunk := chunks[..|chunks| - 1], chunks[|chunks| - 1];
      RunReadsHead(config, init);
      BeginReads(Run(config, init), config, init, chunk);
      assert init + [chunk] == chunks;
      StepsKeepHead(BeginChunk(Run(config, init), chunk), ChunkAtoms(TwoPass, chunk));
    }
  }

  lemma FinishKeepsHead(k: Sink, error: Option<string>)
    ensures SameHead(k, Finish(k, error)) && Finish(k, error).c.error == error && Finish(k, error).c.finishReason == k.c.finishReason
  {
    var k1 := k.(c := k.c.(error := error));
    if error.None? {
      CloseAllState(k1);
      CloseAllExtends(k1);
    }
  }

  lemma CloseAllExtends(k: Sink)
    ensures k.out <= CloseAll(k).out
  {
    var k1 := CloseMessage(CloseReasoning(k));
    SlotsExtend(k1, SortedKeys.Ascending(k1.c.tools.Keys));
  }

  lemma {:induction false} SlotsExtend(k: Sink, keys: seq<int>)
    ensures k.out <= FinishSlots(k, keys).out
  {
    if keys != [] { SlotsExtend(k, keys[..|keys| - 1]); }
  }

  /**
   The rest of the response, and the two frames a stream opens with: identity and time as configured, the last
   model named, the last usage clamped, failed with its error, incomplete exactly if the upstream stopped for length.
   */
  lemma ResponseIsTheFields(config: Config, chunks: seq<Chunk>, error: Option<string>)
    ensures var k := Stream(config, chunks, error);
      var r, length := NonstreamResponse(k.c), LastFinish(Choices(chunks)) == Some("length");
      && r.id == config.responseId && r.createdAt == config.createdAt
      && r.model == (match LastModel(chunks) case Some(m) => m case None => config.model)
      && r.status == (if error.Some? then Failed else if length then Incomplete else Done)
      && Counts(LastUsage(chunks), r.usage) && r.error == error
      && r.incompleteReason == (if error.None? && length then Some("max_output_tokens") else None)
      && (chunks != [] ==> Opens(k.out, config))
  {
    RunReadsHead(config, chunks);
    FinishKeepsHead(Run(config, chunks), error);
    RunInvariant(config, chunks);
    StoryIsTheFields(TwoPass, config.exposeThinking, chunks);
  }
}
