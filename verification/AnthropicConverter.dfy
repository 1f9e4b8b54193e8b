/** The Anthropic converter as the object it is: fields updated in place, events appended to the caller's buffer. */
module AnthropicConverter {
  import opened Wrappers
  import opened ChatChunk
  import CanonicalJson
  import SortedKeys
  import Spec = AnthropicStream
  import opened AnthropicStream

  class StreamConverter {
    const msgId: nat
    const exposeThinking: bool
    var started: bool
    var nextBlockIdx: nat
    var thinkingOpen: bool
    var thinkingIdx: nat
    var thinkingAccum: string
    var textOpen: bool
    var textIdx: nat
    var textAccum: string
    var tools: map<int, Slot>
    var finishReason: Option<string>
    var usage: Option<Tokens>
    var model: Option<string>
    var finished: bool

    /** The state as a value. */
    ghost function State(): Converter
      reads this
    {
      Converter(msgId, exposeThinking, started, nextBlockIdx, thinkingOpen, thinkingIdx, thinkingAccum,
                textOpen, textIdx, textAccum, tools, finishReason, usage, model, finished)
    }

    constructor (msgId: nat, exposeThinking: bool)
      ensures State() == Spec.New(msgId, exposeThinking)
    {
      this.msgId, this.exposeThinking := msgId, exposeThinking;
      started, nextBlockIdx, finished := false, 0, false;
      thinkingOpen, thinkingIdx, thinkingAccum := false, 0, "";
      textOpen, textIdx, textAccum := false, 0, "";
      tools, finishReason, usage, model := map[], None, None, None;
    }

    method CloseThinking(out: seq<Event>) returns (out': seq<Event>)
      requires thinkingOpen
      modifies this`thinkingOpen
      ensures Sink(State(), out') == Spec.CloseThinking(Sink(old(State()), out))
    {
      thinkingOpen := false;
      out' := out + [BlockStop(thinkingIdx)];
    }

    method FeedReasoning(reasoning: string, out: seq<Event>) returns (out': seq<Event>)
      modifies this
      ensures Sink(State(), out') == Spec.FeedReasoning(Sink(old(State()), out), reasoning)
    {
      out' := out;
      thinkingAccum := thinkingAccum + reasoning;
      if exposeThinking {
        if !thinkingOpen {
          thinkingIdx := nextBlockIdx;
          nextBlockIdx := nextBlockIdx + 1;
          thinkingOpen := true;
          out' := out' + [BlockStart(thinkingIdx, ThinkingBlock)];
        }
        out' := out' + [BlockDelta(thinkingIdx, ThinkingDelta, reasoning)];
      }
    }

    method FeedText(content: string, out: seq<Event>) returns (out': seq<Event>)
      modifies this
      ensures Sink(State(), out') == Spec.FeedText(Sink(old(State()), out), content)
    {
      out' := out;
      if thinkingOpen {
        out' := CloseThinking(out');
      }
      textAccum := textAccum + content;
      if !textOpen {
        textIdx := nextBlockIdx;
        nextBlockIdx := nextBlockIdx + 1;
        textOpen := true;
        out' := out' + [BlockStart(textIdx, TextBlock)];
      }
      out' := out' + [BlockDelta(textIdx, TextDelta, content)];
    }

    /** One fragment, with no thinking open: the slot is made, patched and started in one go. */
    method ExtendTool(f: ToolFragment, out: seq<Event>) returns (out': seq<Event>)
      requires AllStarted(tools) && !thinkingOpen
      modifies this`tools, this`nextBlockIdx
      ensures AllStarted(tools)
      ensures Sink(State(), out') == FeedArguments(OpenTool(Sink(old(State()), out), f), f)
    {
      out' := out;
      var index := f.Slot();
      if index !in tools {
        var blockIdx := nextBlockIdx;
        nextBlockIdx := nextBlockIdx + 1;
        tools := tools[index := Slot(f.Id(), f.Name(), "", blockIdx, false)];
      }
      var slot := tools[index];
      if f.Id() != "" { slot := slot.(id := f.Id()); }
      if f.Name() != "" { slot := slot.(name := f.Name()); }
      slot := slot.(arguments := slot.arguments + f.Args());
      if !slot.started {
        slot := slot.(started := true);
        out' := out' + [BlockStart(slot.blockIdx, ToolBlock(slot.id, slot.name))];
      }
      tools := tools[index := slot];
      if f.Args() != "" {
        out' := out' + [BlockDelta(slot.blockIdx, InputJsonDelta, f.Args())];
      }
    }

    method FeedToolCall(f: ToolFragment, out: seq<Event>) returns (out': seq<Event>)
      requires AllStarted(tools)
      modifies this
      ensures AllStarted(tools)
      ensures Sink(State(), out') == Step(Step(Sink(old(State()), out), Opened(f)), Argued(f))
    {
      out' := out;
      if thinkingOpen {
        out' := CloseThinking(out');
      }
      out' := ExtendTool(f, out');
    }

    method FeedToolCalls(calls: seq<ToolFragment>, out: seq<Event>) returns (out': seq<Event>)
      requires AllStarted(tools)
      modifies this
      ensures AllStarted(tools)
      ensures Sink(State(), out') == Steps(Sink(old(State()), out), CallAtoms(OnePass, calls))
    {
      out' := out;
      ghost var k := Sink(State(), out);
      for i := 0 to |calls|
        invariant AllStarted(tools)
        invariant Sink(State(), out') == Steps(k, Alternating(calls[..i]))
      {
        out' := FeedToolCall(calls[i], out');
        assert calls[..i + 1][..i] == calls[..i];
        StepsSnoc(k, Alternating(calls[..i]), Opened(calls[i]));
        StepsSnoc(k, Alternating(calls[..i]) + [Opened(calls[i])], Argued(calls[i]));
        assert Alternating(calls[..i + 1]) == Alternating(calls[..i]) + [Opened(calls[i])] + [Argued(calls[i])];
      }
      assert calls[..|calls|] == calls;
    }

    /** The reasoning and the text of a delta. */
    method FeedProse(delta: ChoiceDelta, out: seq<Event>) returns (semantic: bool, out': seq<Event>)
      modifies this
      ensures unchanged(this`tools)
      ensures Sink(State(), out') == Steps(Sink(old(State()), out), ProseAtoms(delta))
      ensures semantic <==> ProseAtoms(delta) != []
    {
      out', semantic := out, false;
      ghost var k := Sink(State(), out);
      if delta.reasoning.GetOr("") != "" {
        semantic := true;
        out' := FeedReasoning(delta.reasoning.value, out');
        StepsSnoc(k, [], Reasoned(delta.reasoning.value));
      }
      if delta.content.GetOr("") != "" {
        semantic := true;
        out' := FeedText(delta.content.value, out');
        StepsSnoc(k, ReasoningAtoms(delta), Said(delta.content.value));
      }
    }

    method FeedDelta(delta: ChoiceDelta, out: seq<Event>) returns (semantic: bool, out': seq<Event>)
      requires AllStarted(tools)
      modifies this
      ensures AllStarted(tools)
      ensures Sink(State(), out') == Steps(Sink(old(State()), out), DeltaAtoms(OnePass, delta))
      ensures semantic <==> DeltaAtoms(OnePass, delta) != []
    {
      ghost var k := Sink(State(), out);
      semantic, out' := FeedProse(delta, out);
      if delta.toolCalls.Some? {
        semantic := semantic || delta.toolCalls.value != [];
        CallAtomsEmpty(delta.toolCalls.value);
        out' := FeedToolCalls(delta.toolCalls.value, out');
        StepsAppend(k, ProseAtoms(delta), CallAtoms(OnePass, delta.toolCalls.value));
      }
      DeltaIsProseThenCalls(delta);
    }

    method FeedChoice(choice: Choice, out: seq<Event>) returns (semantic: bool, out': seq<Event>)
      requires AllStarted(tools)
      modifies this
      ensures AllStarted(tools)
      ensures Sink(State(), out') == Steps(Sink(old(State()), out), ChoiceAtoms(OnePass, choice))
      ensures semantic <==> ChoiceAtoms(OnePass, choice) != []
    {
      out' := out;
      semantic := false;
      ghost var k, h := Sink(State(), out), [];
      if choice.finish.Some? {
        finishReason := choice.finish;
        semantic := true;
        h := [Finished(choice.finish.value)];
        StepsSnoc(k, [], Finished(choice.finish.value));
      }
      if choice.delta.Some? {
        var s;
        s, out' := FeedDelta(choice.delta.value, out');
        semantic := semantic || s;
        StepsAppend(k, h, DeltaAtoms(OnePass, choice.delta.value));
      }
    }

    /** Progress is semantic exactly when the chunk asks for anything at all. */
    method FeedChunk(chunk: Chunk, out: seq<Event>) returns (semantic: bool, out': seq<Event>)
      requires !finished ==> AllStarted(tools)
      modifies this
      ensures !finished ==> AllStarted(tools)
      ensures Sink(State(), out') == Spec.FeedChunk(Sink(old(State()), out), chunk)
      ensures semantic <==> !old(finished) && ChunkAtoms(OnePass, chunk) != []
    {
      out' := out;
      semantic := false;
      if finished { return; }
      if chunk.model.Some? { model := chunk.model; }
      if chunk.usage.Some? { usage := Some(MapUsage(chunk.usage.value)); }
      if !started {
        started := true;
        out' := out' + [MessageStart(msgId, model.GetOr(""))];
      }
      ghost var k := Sink(State(), out');
      assert k == BeginChunk(Sink(old(State()), out), chunk);
      if chunk.choices.None? { return; }
      var choices := chunk.choices.value;
      for i := 0 to |choices|
        invariant AllStarted(tools)
        invariant Sink(State(), out') == Steps(k, ChoicesAtoms(OnePass, choices[..i]))
        invariant semantic <==> ChoicesAtoms(OnePass, choices[..i]) != []
      {
        var s;
        s, out' := FeedChoice(choices[i], out');
        semantic := semantic || s;
        assert choices[..i + 1][..i] == choices[..i];
        StepsAppend(k, ChoicesAtoms(OnePass, choices[..i]), ChoiceAtoms(OnePass, choices[i]));
      }
      assert choices[..|choices|] == choices;
    }

    method CloseTool(key: int, out: seq<Event>) returns (out': seq<Event>)
      requires key in tools
      modifies this`tools
      ensures tools.Keys == old(tools).Keys
      ensures Sink(State(), out') == Spec.CloseTool(Sink(old(State()), out), key)
    {
      out' := out;
      var slot := tools[key];
      if slot.started {
        tools := tools[key := slot.(started := false)];
        out' := out' + [BlockStop(slot.blockIdx)];
      }
    }

    method CloseTools(out: seq<Event>) returns (out': seq<Event>)
      modifies this`tools
      ensures Sink(State(), out') == Spec.CloseTools(Sink(old(State()), out), SortedKeys.Ascending(old(tools).Keys))
    {
      out' := out;
      ghost var k := Sink(State(), out);
      var keys := SortedKeys.Ascending(tools.Keys);
      for i := 0 to |keys|
        invariant tools.Keys == old(tools).Keys
        invariant Sink(State(), out') == Spec.CloseTools(k, keys[..i])
      {
        assert keys[..i + 1][..i] == keys[..i] && keys[i] in keys;
        out' := CloseTool(keys[i], out');
      }
      assert keys[..|keys|] == keys;
    }

    method Finish(out: seq<Event>) returns (out': seq<Event>)
      modifies this
      ensures Sink(State(), out') == Spec.Finish(Sink(old(State()), out))
    {
      out' := out;
      var stopReason := StopReason(finishReason);
      if finished { return; }
      if thinkingOpen {
        out' := CloseThinking(out');
      }
      if textOpen {
        textOpen := false;
        out' := out' + [BlockStop(textIdx)];
      }
      out' := CloseTools(out');
      assert Sink(State(), out') == CloseBlocks(Sink(old(State()), out));
      finished := true;
      out' := out' + [MessageDelta(stopReason, if usage.Some? then usage.value.output else 0)] + [MessageStop];
    }

    method Accumulated() returns (a: Accumulated)
      ensures a == AccumulatedOf(State())
    {
      var calls := [];
      var keys := SortedKeys.Ascending(tools.Keys);
      for i := 0 to |keys|
        invariant calls == CallsOf(tools, keys[..i])
      {
        assert keys[..i + 1][..i] == keys[..i] && keys[i] in keys;
        var slot := tools[keys[i]];
        calls := calls + [ToolCallAccum(slot.id, slot.name, slot.arguments)];
      }
      assert keys[..|keys|] == keys;
      a := Spec.Accumulated(thinkingAccum, textAccum, calls, finishReason, usage, model);
    }

    /** The thinking and text blocks of the aggregate answer. */
    method ProseContent(accumulated: Accumulated) returns (content: seq<Content>)
      ensures content == (if exposeThinking && accumulated.reasoning != "" then [ThinkingContent(accumulated.reasoning)] else [])
        + (if accumulated.text != "" then [TextContent(accumulated.text)] else [])
    {
      content := [];
      if exposeThinking && accumulated.reasoning != "" {
        content := content + [ThinkingContent(accumulated.reasoning)];
      }
      if accumulated.text != "" {
        content := content + [TextContent(accumulated.text)];
      }
    }

    /** The tool input of one call, with `num` as the parser's reading of numbers. */
    method ParseInput(num: CanonicalJson.Numbers, arguments: string) returns (input: CanonicalJson.Json)
      ensures input == ToolInput(num, arguments)
    {
      input := CanonicalJson.JObject([]);
      var parsed := CanonicalJson.Read(num, arguments);
      if parsed.Some? && parsed.value.JObject? { input := parsed.value; }
    }

    method NonstreamResponse(num: CanonicalJson.Numbers) returns (message: Message)
      ensures message == Spec.NonstreamResponse(num, State())
    {
      var accumulated := Accumulated();
      var content := ProseContent(accumulated);
      ghost var head := content;
      for i := 0 to |accumulated.toolCalls|
        invariant content == head + ToolUses(num, accumulated.toolCalls[..i])
      {
        var call := accumulated.toolCalls[i];
        var input := ParseInput(num, call.arguments);
        content := content + [ToolUse(call.id, call.name, input)];
      }
      assert accumulated.toolCalls[..|accumulated.toolCalls|] == accumulated.toolCalls;
      message := Message(msgId, content, model.GetOr(""), StopReason(finishReason), usage.GetOr(Tokens(0, 0, 0)));
    }
  }

  /** Between chunks of an open message, every slot's block has been started. */
  predicate AllStarted(tools: map<int, Slot>) {
    forall t | t in tools :: tools[t].started
  }

  lemma CallAtomsEmpty(fs: seq<ToolFragment>)
    ensures CallAtoms(OnePass, fs) == [] <==> fs == []
  {
  }

  lemma StepsSnoc(k: Sink, h: seq<Atom>, a: Atom)
    ensures Steps(k, h + [a]) == Step(Steps(k, h), a)
  {
    assert (h + [a])[..|h|] == h;
  }

  function ReasoningAtoms(delta: ChoiceDelta): seq<Atom> {
    if delta.reasoning.GetOr("") != "" then [Reasoned(delta.reasoning.value)] else []
  }

  function ProseAtoms(delta: ChoiceDelta): seq<Atom> {
    ReasoningAtoms(delta) + (if delta.content.GetOr("") != "" then [Said(delta.content.value)] else [])
  }

  lemma DeltaIsProseThenCalls(delta: ChoiceDelta)
    ensures DeltaAtoms(OnePass, delta) ==
      ProseAtoms(delta) + (if delta.toolCalls.Some? then CallAtoms(OnePass, delta.toolCalls.value) else [])
  {
  }
}
