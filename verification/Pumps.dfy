/** The line pump driving each converter, to the end of the stream. */
module Pumps {
  import opened Wrappers
  import opened ChatChunk
  import opened LinePump
  import Anthropic = AnthropicStream
  import Responses = ResponsesStream
  import ResponsesTheorems
  import AnthropicTheorems
  import opened ChunkFields

  /** JSON parsing of a payload into the fields the converters read; `None` for text that is not JSON. */
  type Parser = Bytes -> Option<Chunk>

  const ENDED_EARLY := "upstream stream ended unexpectedly"

  /** A malformed payload is tolerated: it changes nothing. */
  function Feeding<S>(parse: Parser, step: (S, Chunk) -> S): Feed<S> {
    (s: S, payload: Bytes) =>
      var chunk := parse(payload);
      if chunk.Some? then step(s, chunk.value) else s
  }

  function AnthropicFeed(parse: Parser): Feed<Anthropic.Sink> {
    Feeding(parse, Anthropic.FeedChunk)
  }

  function ResponsesFeed(parse: Parser): Feed<Responses.Sink> {
    Feeding(parse, Responses.FeedChunk)
  }

  /** The chunks among some payloads. */
  function Chunks(parse: Parser, payloads: seq<Bytes>): seq<Chunk> {
    if payloads == [] then [] else
      (if parse(payloads[0]).Some? then [parse(payloads[0]).value] else []) + Chunks(parse, payloads[1..])
  }

  function Fold<S>(step: (S, Chunk) -> S, s: S, chunks: seq<Chunk>): S {
    if chunks == [] then s else step(Fold(step, s, chunks[..|chunks| - 1]), chunks[|chunks| - 1])
  }

  lemma {:induction false} FoldFirst<S>(step: (S, Chunk) -> S, s: S, first: Chunk, rest: seq<Chunk>)
    ensures Fold(step, s, [first] + rest) == Fold(step, step(s, first), rest)
  {
    var all := [first] + rest;
    if rest == [] {
      assert all[..|all| - 1] == [];
      assert Fold(step, s, all[..|all| - 1]) == s;
    } else {
      assert all[..|all| - 1] == [first] + rest[..|rest| - 1];
      FoldFirst(step, s, first, rest[..|rest| - 1]);
    }
  }

  /** Feeding payloads is feeding the chunks among them. */
  lemma {:induction false} FeedingFolds<S>(parse: Parser, step: (S, Chunk) -> S, s: S, payloads: seq<Bytes>)
    ensures FeedPayloads(Feeding(parse, step), s, payloads) == Fold(step, s, Chunks(parse, payloads))
    decreases |payloads|
  {
    if payloads == [] {
    } else {
      var chunk, rest := parse(payloads[0]), payloads[1..];
      if chunk.Some? {
        FeedingFolds(parse, step, step(s, chunk.value), rest);
        FoldFirst(step, s, chunk.value, Chunks(parse, rest));
      } else {
        FeedingFolds(parse, step, s, rest);
        assert Chunks(parse, payloads) == Chunks(parse, rest);
      }
    }
  }

  lemma {:induction false} FoldIsResponses(k: Responses.Sink, chunks: seq<Chunk>)
    ensures Fold(Responses.FeedChunk, k, chunks) == Responses.FeedAll(k, chunks)
  {
    if chunks == [] {
    } else {
      FoldIsResponses(k, chunks[..|chunks| - 1]);
    }
  }

  lemma {:induction false} FoldIsAnthropic(k: Anthropic.Sink, chunks: seq<Chunk>)
    ensures Fold(Anthropic.FeedChunk, k, chunks) == Anthropic.FeedAll(k, chunks)
  {
    if chunks == [] {
    } else {
      FoldIsAnthropic(k, chunks[..|chunks| - 1]);
    }
  }

  /** The chunks a byte stream carries, by the plain specification of the pump. */
  function StreamChunks(parse: Parser, bytes: Bytes): seq<Chunk> {
    Chunks(parse, Payloads(CompleteLines(bytes)))
  }

  // ---- The Anthropic pump ----

  /** How the upstream ended: with `[DONE]` or at end of input, or with a transport error or a stall. */
  datatype Ending = Natural | Broken(message: string)

  /** The client's view of a finished Anthropic stream: an error event may precede the closing events. */
  datatype AnthropicEnd = AnthropicEnd(error: Option<string>, sink: Anthropic.Sink)

  /** `StreamPump::finish`: without a finish reason an error event is surfaced, then the stream is closed all the same. */
  function FinishAnthropic(k: Anthropic.Sink, error: Option<string>): AnthropicEnd {
    AnthropicEnd(if k.c.finishReason.None? then Some(error.GetOr(ENDED_EARLY)) else None, Anthropic.Finish(k))
  }

  function AnthropicPump(parse: Parser, start: Anthropic.Sink, chunks: seq<Bytes>): Pump<Anthropic.Sink> {
    RunChunks(AnthropicFeed(parse), Pump([], start, false, false), chunks)
  }

  function AnthropicRun(parse: Parser, start: Anthropic.Sink, chunks: seq<Bytes>, ending: Ending): AnthropicEnd {
    var p := AnthropicPump(parse, start, chunks);
    FinishAnthropic(p.state, if ending.Broken? && !p.done then Some(ending.message) else None)
  }

  /** The whole Anthropic stream, error event included, is a function of the bytes alone, not of how they were cut. */
  lemma AnthropicRunIsCutFree(parse: Parser, msgId: nat, exposed: bool, chunks: seq<Bytes>, ending: Ending)
    ensures var k := Anthropic.FeedAll(Anthropic.Sink(Anthropic.New(msgId, exposed), []), StreamChunks(parse, Concat(chunks)));
            AnthropicRun(parse, Anthropic.Sink(Anthropic.New(msgId, exposed), []), chunks, ending)
            == FinishAnthropic(k, if ending.Broken? && !HasDone(CompleteLines(Concat(chunks))) then Some(ending.message) else None)
  {
    var k0 := Anthropic.Sink(Anthropic.New(msgId, exposed), []);
    PumpMeetsSplit(AnthropicFeed(parse), k0, chunks);
    FeedingFolds(parse, Anthropic.FeedChunk, k0, Payloads(CompleteLines(Concat(chunks))));
    FoldIsAnthropic(k0, StreamChunks(parse, Concat(chunks)));
  }

  /** What went wrong with a stream, if anything, told by its bytes: a break before `[DONE]`, or no finish reason. */
  function Fault(bytes: Bytes, finish: Option<string>, ending: Ending): Option<string> {
    match ending
    case Broken(message) =>
      if !HasDone(CompleteLines(bytes)) then Some(message)
      else if finish == None then Some("upstream stream ended unexpectedly") else None
    case Natural => if finish == None then Some("upstream stream ended unexpectedly") else None
  }

  /** The client is told of a fault exactly if no chunk had a finish reason, and its stream is the finished one either way. */
  lemma AnthropicEndIsTold(parse: Parser, msgId: nat, exposed: bool, chunks: seq<Bytes>, ending: Ending)
    ensures var all := StreamChunks(parse, Concat(chunks));
      var r, finish := AnthropicRun(parse, Anthropic.Sink(Anthropic.New(msgId, exposed), []), chunks, ending), LastFinish(Choices(all));
      r.sink == AnthropicTheorems.Stream(msgId, exposed, all) &&
      r.error == (if finish == None then Fault(Concat(chunks), finish, ending) else None)
  {
    var all := StreamChunks(parse, Concat(chunks));
    AnthropicRunIsCutFree(parse, msgId, exposed, chunks, ending);
    AnthropicTheorems.RunInvariant(msgId, exposed, all);
    StoryIsTheFields(OnePass, exposed, all);
  }

  // ---- The Responses pumps: streaming and aggregate ----

  function ResponsesPump(parse: Parser, start: Responses.Sink, chunks: seq<Bytes>): Pump<Responses.Sink> {
    RunChunks(ResponsesFeed(parse), Pump([], start, false, false), chunks)
  }

  /** The streaming path: a stream without a finish reason ends as failed, `[DONE]` or not. */
  function StreamingEnd(p: Pump<Responses.Sink>, ending: Ending): Responses.Sink {
    var early := if p.state.c.finishReason.None? then Some(ENDED_EARLY) else None;
    Responses.Finish(p.state, if ending.Broken? && !p.done then Some(ending.message) else early)
  }

  /** The aggregate path: `[DONE]` always ends normally; anything else without a finish reason is an error. */
  function AggregateEnd(p: Pump<Responses.Sink>, ending: Ending): Result<Responses.Response, string> {
    if p.done then Ok(Responses.NonstreamResponse(Responses.Finish(p.state, None).c))
    else if ending.Broken? then Err(ending.message)
    else if p.state.c.finishReason.None? then Err(ENDED_EARLY)
    else Ok(Responses.NonstreamResponse(Responses.Finish(p.state, None).c))
  }

  /** The two paths agree: the same response, or a failure with the same message on both sides. */
  ghost predicate SameAnswer(streamed: Responses.Response, aggregated: Result<Responses.Response, string>) {
    match aggregated
    case Ok(r) => streamed == r
    case Err(message) => streamed.status == Responses.Failed && streamed.error == Some(message)
  }

  /** The response carried by the last frame of a stream. */
  function LastResponse(k: Responses.Sink): Responses.Response {
    if k.out != [] && k.out[|k.out| - 1].event.Terminal?
    then k.out[|k.out| - 1].event.response
    else Responses.NonstreamResponse(k.c)
  }

  lemma ResponsesPumpIsCutFree(parse: Parser, config: Responses.Config, chunks: seq<Bytes>)
    ensures var p := ResponsesPump(parse, Responses.Sink(Responses.New(config), []), chunks);
            && p.state == ResponsesTheorems.Run(config, StreamChunks(parse, Concat(chunks)))
            && p.done == HasDone(CompleteLines(Concat(chunks)))
  {
    var k0 := Responses.Sink(Responses.New(config), []);
    PumpMeetsSplit(ResponsesFeed(parse), k0, chunks);
    FeedingFolds(parse, Responses.FeedChunk, k0, Payloads(CompleteLines(Concat(chunks))));
    FoldIsResponses(k0, StreamChunks(parse, Concat(chunks)));
  }

  lemma FinishStatus(k: Responses.Sink, error: Option<string>)
    ensures var r := Responses.NonstreamResponse(Responses.Finish(k, error).c);
            && (error.Some? ==> r.status == Responses.Failed && r.error == error)
            && (error.None? ==> r.status != Responses.Failed)
  {
    if error.None? {
      ResponsesTheorems.CloseAllState(k.(c := k.c.(error := None)));
    }
  }

  lemma FinishIsStory(config: Responses.Config, chunks: seq<Chunk>)
    ensures ResponsesTheorems.Run(config, chunks).c.finishReason == ResponsesTheorems.RunStory(config, chunks).finish
  {
    ResponsesTheorems.RunInvariant(config, chunks);
  }

  /** A Responses stream ends as failed exactly with its fault, a break before `[DONE]` even if there was a finish reason. */
  lemma StreamingEndIsTold(parse: Parser, config: Responses.Config, chunks: seq<Bytes>, ending: Ending)
    ensures var all := StreamChunks(parse, Concat(chunks));
      StreamingEnd(ResponsesPump(parse, Responses.Sink(Responses.New(config), []), chunks), ending)
      == ResponsesTheorems.Stream(config, all, Fault(Concat(chunks), LastFinish(Choices(all)), ending))
  {
    var all := StreamChunks(parse, Concat(chunks));
    ResponsesPumpIsCutFree(parse, config, chunks);
    FinishIsStory(config, all);
    StoryIsTheFields(TwoPass, config.exposeThinking, all);
  }

  /** The aggregate response, or its failure: `[DONE]` is enough for a response. */
  lemma AggregateEndIsTold(parse: Parser, config: Responses.Config, chunks: seq<Bytes>, ending: Ending)
    ensures var all := StreamChunks(parse, Concat(chunks));
      var r, fault := AggregateEnd(ResponsesPump(parse, Responses.Sink(Responses.New(config), []), chunks), ending),
                      Fault(Concat(chunks), LastFinish(Choices(all)), ending);
      if HasDone(CompleteLines(Concat(chunks))) || fault == None
      then r == Ok(Responses.NonstreamResponse(ResponsesTheorems.Stream(config, all, None).c))
      else r == Err(fault.value)
  {
    var all := StreamChunks(parse, Concat(chunks));
    ResponsesPumpIsCutFree(parse, config, chunks);
    FinishIsStory(config, all);
    StoryIsTheFields(TwoPass, config.exposeThinking, all);
  }

  /**
   Streaming and aggregation cannot diverge except in one case: the bytes hold a `[DONE]` line and no
   chunk before it a finish reason, which the streaming path reports as failed and the aggregate path as completed.
   */
  lemma PathsAgree(parse: Parser, config: Responses.Config, chunks: seq<Bytes>, ending: Ending)
    ensures var p := ResponsesPump(parse, Responses.Sink(Responses.New(config), []), chunks);
            SameAnswer(LastResponse(StreamingEnd(p, ending)), AggregateEnd(p, ending))
            <==> !(HasDone(CompleteLines(Concat(chunks))) &&
                   ResponsesTheorems.RunStory(config, StreamChunks(parse, Concat(chunks))).finish.None?)
  {
    var p := ResponsesPump(parse, Responses.Sink(Responses.New(config), []), chunks);
    ResponsesPumpIsCutFree(parse, config, chunks);
    var all := StreamChunks(parse, Concat(chunks));
    FinishIsStory(config, all);
    var early := if p.state.c.finishReason.None? then Some(ENDED_EARLY) else None;
    var error := if ending.Broken? && !p.done then Some(ending.message) else early;
    ResponsesTheorems.TerminalIsNonstream(config, all, error);
    FinishStatus(p.state, error);
    FinishStatus(p.state, None);
  }

  // ---- The end marker alone ----

  /** `data: [DONE]` and a newline. */
  const DONE_LINE: Bytes := DATA_PREFIX + [32] + DONE_MARKER

  lemma LineThenNewline(line: Bytes)
    requires NEWLINE !in line
    ensures CompleteLines(line + [NEWLINE]) == [line]
  {
    SplitOne(line);
    assert (line + [NEWLINE])[..|line|] == line;
  }

  lemma DoneLineReads()
    ensures Read(DONE_LINE) == Done
  {
    var line := DONE_LINE;
    assert TrimStart(line) == line && TrimEnd(line) == line;
    assert line[|DATA_PREFIX|..] == [32] + DONE_MARKER;
    assert ([32] + DONE_MARKER)[1..] == DONE_MARKER;
    assert TrimStart([32] + DONE_MARKER) == TrimStart(DONE_MARKER) == DONE_MARKER;
    assert TrimEnd(DONE_MARKER) == DONE_MARKER;
  }

  lemma DoneAlone(parse: Parser)
    ensures StreamChunks(parse, DONE_LINE + [NEWLINE]) == [] && HasDone(CompleteLines(DONE_LINE + [NEWLINE]))
  {
    DoneLineReads();
    LineThenNewline(DONE_LINE);
    assert Read([DONE_LINE][0]) == Done;
  }

  /** The end marker and nothing else, however it is cut: failed when streamed, completed when aggregated. */
  lemma DoneAloneDivides(parse: Parser, config: Responses.Config, chunks: seq<Bytes>, ending: Ending)
    requires Concat(chunks) == DONE_LINE + [NEWLINE]
    ensures var p := ResponsesPump(parse, Responses.Sink(Responses.New(config), []), chunks);
            !SameAnswer(LastResponse(StreamingEnd(p, ending)), AggregateEnd(p, ending))
  {
    PathsAgree(parse, config, chunks, ending);
    ResponsesPumpIsCutFree(parse, config, chunks);
    DoneAlone(parse);
  }
}
