/** The Responses converter as the object it is: fields updated in place, frames appended to the caller's buffer. */
module ResponsesConverter {
  import opened Wrappers
  import opened ChatChunk
  import SortedKeys
  import Spec = ResponsesStream
  import opened ResponsesStream

  class ResponsesConverter {
    const config: Config
    var started: bool
    var sequence: nat
    var nextOutputIndex: nat
    var reasoning: Option<Block>
    var message: Option<Block>
    var tools: map<int, Slot>
    var outputItems: seq<Ref>
    var finishReason: Option<string>
    var usage: Option<Usage>
    var error: Option<string>
    var modelSeen: Option<string>
    var supply: nat

    /** The state as a value. */
    ghost function State(): Converter
      reads this
    {
      Converter(config, started, sequence, nextOutputIndex, reasoning, message, tools, outputItems,
                finishReason, usage, error, modelSeen, supply)
    }

    /** A block that exists as an item has been added: what the methods keep between calls. */
    ghost predicate Valid()
      reads this
    {
      Ready(State())
    }

    constructor (config: Config)
      ensures Valid() && State() == Spec.New(config)
    {
      this.config := config;
      started, sequence, nextOutputIndex, supply := false, 0, 0, config.responseId + 1;
      reasoning, message, tools, outputItems := None, None, map[], [];
      finishReason, usage, error, modelSeen := None, None, None, None;
    }

    method Emit(e: Event, out: seq<Frame>) returns (out': seq<Frame>)
      modifies this`sequence
      ensures Sink(State(), out') == Spec.Emit(Sink(old(State()), out), e)
    {
      sequence := sequence + 1;
      out' := out + [Frame(sequence, e)];
    }

    function CurrentModel(): string
      reads this
    {
      modelSeen.GetOr(config.model)
    }

    method EnsureStarted(out: seq<Frame>) returns (out': seq<Frame>)
      modifies this
      ensures Sink(State(), out') == Spec.EnsureStarted(Sink(old(State()), out))
    {
      out' := out;
      if started { return; }
      started := true;
      var response := Response(config.responseId, config.createdAt, CurrentModel(), Running, [],
                               Usage(0, 0, 0, 0), None, None);
      out' := Emit(Created(response), out');
      out' := Emit(InProgressed(response), out');
    }

    /** Reasoning the client does not see is still accumulated. */
    method KeepHiddenReasoning(text: string)
      requires Valid() && !config.exposeThinking
      modifies this`reasoning, this`supply
      ensures Valid() && forall out :: Sink(State(), out) == KeepReasoning(Sink(old(State()), out), text)
    {
      if reasoning.Some? {
        reasoning := Some(reasoning.value.(accum := reasoning.value.accum + text));
      } else {
        reasoning := Some(NewBlock(supply).(accum := text));
        supply := supply + 1;
        assert "" + text == text;
      }
    }

    method FeedReasoning(text: string, out: seq<Frame>) returns (out': seq<Frame>)
      requires Valid()
      modifies this
      ensures Valid() && Sink(State(), out') == Spec.FeedReasoning(Sink(old(State()), out), text)
    {
      out' := out;
      if !config.exposeThinking {
        KeepHiddenReasoning(text);
        return;
      }
      if reasoning.None? {
        reasoning := Some(NewBlock(supply));
        supply := supply + 1;
      }
      var state := reasoning.value;
      var itemFirst, partFirst := !state.itemAdded, !state.partAdded;
      state := state.(accum := state.accum + text, itemAdded := true, partAdded := true);
      if state.outputIndex.None? {
        state := state.(outputIndex := Some(nextOutputIndex));
        nextOutputIndex := nextOutputIndex + 1;
      }
      reasoning := Some(state);
      if itemFirst {
        outputItems := outputItems + [ReasoningRef(state.itemId)];
        out' := Emit(ItemAdded(state.Index(), ReasoningItem(state.itemId, [], InProgress)), out');
      }
      if partFirst {
        out' := Emit(PartAdded(Summary, state.itemId, state.Index()), out');
      }
      out' := Emit(Event.Delta(Summary, state.itemId, state.Index(), text), out');
    }

    method FeedText(text: string, out: seq<Frame>) returns (out': seq<Frame>)
      requires Valid()
      modifies this
      ensures Valid() && Sink(State(), out') == Spec.FeedText(Sink(old(State()), out), text)
    {
      out' := out;
      if message.None? {
        message := Some(NewBlock(supply));
        supply := supply + 1;
      }
      var state := message.value;
      var first := !state.itemAdded;
      state := state.(accum := state.accum + text);
      if first {
        state := state.(itemAdded := true, partAdded := true);
      }
      if state.outputIndex.None? {
        state := state.(outputIndex := Some(nextOutputIndex));
        nextOutputIndex := nextOutputIndex + 1;
      }
      message := Some(state);
      if first {
        outputItems := outputItems + [MessageRef(state.itemId)];
        out' := Emit(ItemAdded(state.Index(), MessageItem(state.itemId, [], InProgress)), out');
        out' := Emit(PartAdded(OutputText, state.itemId, state.Index()), out');
      }
      out' := Emit(Event.Delta(OutputText, state.itemId, state.Index(), text), out');
    }

    method CloseMessageItem(out: seq<Frame>) returns (out': seq<Frame>)
      modifies this`message, this`sequence
      ensures Sink(State(), out') == Spec.CloseMessage(Sink(old(State()), out))
    {
      out' := out;
      if message.None? || message.value.itemDone { return; }
      var state := message.value;
      var partOpen := state.partAdded && !state.partDone;
      message := Some(state.(itemDone := true, partDone := true));
      if partOpen {
        out' := Emit(TextDone(OutputText, state.itemId, state.Index(), state.accum), out');
        out' := Emit(PartDone(OutputText, state.itemId, state.Index(), state.accum), out');
      }
      out' := Emit(ItemDone(state.Index(), MessageItem(state.itemId, [state.accum], Completed)), out');
    }

    method CloseReasoningItem(out: seq<Frame>) returns (out': seq<Frame>)
      modifies this`reasoning, this`sequence
      ensures Sink(State(), out') == Spec.CloseReasoning(Sink(old(State()), out))
    {
      out' := out;
      if reasoning.None? || !reasoning.value.itemAdded || reasoning.value.itemDone { return; }
      var state := reasoning.value;
      var partOpen := state.partAdded && !state.partDone;
      reasoning := Some(state.(itemDone := true, partDone := true));
      if partOpen {
        out' := Emit(TextDone(Summary, state.itemId, state.Index(), state.accum), out');
        out' := Emit(PartDone(Summary, state.itemId, state.Index(), state.accum), out');
      }
      out' := Emit(ItemDone(state.Index(), ReasoningItem(state.itemId, [state.accum], Completed)), out');
    }

    method EnsureToolItemAdded(f: ToolFragment, out: seq<Frame>) returns (out': seq<Frame>)
      requires Valid()
      modifies this
      ensures Valid() && Sink(State(), out') == Spec.EnsureToolItemAdded(Sink(old(State()), out), f)
    {
      out' := out;
      var index := f.Slot();
      if index in tools { return; }
      if tools == map[] {
        out' := CloseMessageItem(out');
      }
      out' := AddToolItem(f, out');
    }

    method AddToolItem(f: ToolFragment, out: seq<Frame>) returns (out': seq<Frame>)
      requires Valid()
      modifies this
      ensures Valid() && Sink(State(), out') == Spec.AddToolItem(Sink(old(State()), out), f)
    {
      var outputIndex, itemId := nextOutputIndex, supply;
      nextOutputIndex, supply := nextOutputIndex + 1, supply + 1;
      tools := tools[f.Slot() := Slot(itemId, f.Id(), f.Name(), "", outputIndex, false)];
      out' := Emit(ItemAdded(outputIndex, FunctionCallItem(itemId, f.Id(), f.Name(), "", InProgress)), out);
      outputItems := outputItems + [CallRef(itemId)];
    }

    method FeedToolCallArguments(f: ToolFragment, out: seq<Frame>) returns (out': seq<Frame>)
      requires Valid()
      modifies this
      ensures Valid() && Sink(State(), out') == FeedArguments(Sink(old(State()), out), f)
    {
      out' := out;
      var index := f.Slot();
      if index !in tools { return; }
      var slot := tools[index];
      if f.Id() != "" { slot := slot.(callId := f.Id()); }
      if f.Name() != "" { slot := slot.(name := f.Name()); }
      slot := slot.(arguments := slot.arguments + f.Args());
      tools := tools[index := slot];
      if f.Args() != "" {
        out' := Emit(Event.Delta(Arguments, slot.itemId, slot.outputIndex, f.Args()), out');
      }
    }

    /** Both passes over a `tool_calls` array: every item is added before any argument is sent. */
    method FeedToolCalls(calls: seq<ToolFragment>, out: seq<Frame>) returns (out': seq<Frame>)
      requires Valid()
      modifies this
      ensures Valid() && Sink(State(), out') == Steps(Sink(old(State()), out), CallAtoms(TwoPass, calls))
    {
      out' := out;
      ghost var k := Sink(State(), out);
      for i := 0 to |calls|
        invariant Valid() && Sink(State(), out') == Steps(k, Openings(calls[..i]))
      {
        out' := EnsureToolItemAdded(calls[i], out');
        Grow(calls, i);
        StepsSnoc(k, Openings(calls[..i]), Opened(calls[i]));
      }
      assert calls[..|calls|] == calls;
      ghost var k1 := Sink(State(), out');
      for i := 0 to |calls|
        invariant Valid() && Sink(State(), out') == Steps(k1, Arguings(calls[..i]))
      {
        out' := FeedToolCallArguments(calls[i], out');
        Grow(calls, i);
        StepsSnoc(k1, Arguings(calls[..i]), Argued(calls[i]));
      }
      StepsAppend(k, Openings(calls), Arguings(calls));
    }

    method FeedDelta(delta: ChoiceDelta, out: seq<Frame>) returns (semantic: bool, out': seq<Frame>)
      requires Valid()
      modifies this
      ensures Valid() && Sink(State(), out') == Steps(Sink(old(State()), out), DeltaAtoms(TwoPass, delta))
      ensures semantic <==> DeltaAtoms(TwoPass, delta) != [] || delta.toolCalls.Some?
    {
      out' := out;
      semantic := false;
      ghost var k, h := Sink(State(), out), [];
      if delta.reasoning.GetOr("") != "" {
        semantic := true;
        out' := FeedReasoning(delta.reasoning.value, out');
        h := [Reasoned(delta.reasoning.value)];
        StepsSnoc(k, [], Reasoned(delta.reasoning.value));
      }
      if delta.content.GetOr("") != "" {
        semantic := true;
        out' := FeedText(delta.content.value, out');
        StepsSnoc(k, h, Said(delta.content.value));
        h := h + [Said(delta.content.value)];
      }
      if delta.toolCalls.Some? {
        semantic := true;
        out' := FeedToolCalls(delta.toolCalls.value, out');
        StepsAppend(k, h, CallAtoms(TwoPass, delta.toolCalls.value));
        h := h + CallAtoms(TwoPass, delta.toolCalls.value);
      }
      assert h == DeltaAtoms(TwoPass, delta);
    }

    method FeedChoice(choice: Choice, out: seq<Frame>) returns (semantic: bool, out': seq<Frame>)
      requires Valid()
      modifies this
      ensures Valid() && Sink(State(), out') == Steps(Sink(old(State()), out), ChoiceAtoms(TwoPass, choice))
      ensures semantic <==> HasContent(choice)
    {
      out' := out;
      semantic := false;
      ghost var k, h := Sink(State(), out), [];
      if choice.finish.Some? {
        finishReason := choice.finish;
        semantic := true;
        h := [Finished(choice.finish.value)];
        StepsSnoc(k, [], Finished(choice.finish.value));
      }
      if choice.delta.Some? {
        var s;
        s, out' := FeedDelta(choice.delta.value, out');
        semantic := semantic || s;
        StepsAppend(k, h, DeltaAtoms(TwoPass, choice.delta.value));
      }
    }

    method FeedChunk(chunk: Chunk, out: seq<Frame>) returns (semantic: bool, out': seq<Frame>)
      requires Valid()
      modifies this
      ensures Valid() && Sink(State(), out') == Spec.FeedChunk(Sink(old(State()), out), chunk)
      ensures semantic <==> chunk.choices.Some? && exists i :: 0 <= i < |chunk.choices.value| && HasContent(chunk.choices.value[i])
    {
      out' := EnsureStarted(out);
      semantic := false;
      if chunk.model.GetOr("") != "" { modelSeen := chunk.model; }
      if chunk.usage.Some? { usage := Some(MapUsage(chunk.usage.value)); }
      assert Sink(State(), out') == BeginChunk(Sink(old(State()), out), chunk);
      if chunk.choices.None? { return; }
      semantic, out' := FeedChoices(chunk.choices.value, out');
    }

    method FeedChoices(choices: seq<Choice>, out: seq<Frame>) returns (semantic: bool, out': seq<Frame>)
      requires Valid()
      modifies this
      ensures Valid() && Sink(State(), out') == Steps(Sink(old(State()), out), ChoicesAtoms(TwoPass, choices))
      ensures semantic <==> exists i :: 0 <= i < |choices| && HasContent(choices[i])
    {
      out', semantic := out, false;
      ghost var k := Sink(State(), out);
      for i := 0 to |choices|
        invariant Valid() && Sink(State(), out') == Steps(k, ChoicesAtoms(TwoPass, choices[..i]))
        invariant semantic <==> exists j :: 0 <= j < i && HasContent(choices[j])
      {
        var s;
        s, out' := FeedChoice(choices[i], out');
        semantic := semantic || s;
        StepsChoice(k, choices, i);
      }
      assert choices[..|choices|] == choices;
    }

    method TerminalOutput() returns (output: seq<Item>)
      ensures output == Output(reasoning, message, tools, outputItems)
    {
      output := [];
      for i := 0 to |outputItems|
        invariant output == Output(reasoning, message, tools, outputItems[..i])
      {
        assert outputItems[..i + 1][..i] == outputItems[..i];
        match outputItems[i]
        case ReasoningRef(id) => output := output + [ReasoningItem(id, [BlockText(reasoning, id)], Completed)];
        case MessageRef(id) => output := output + [MessageItem(id, [BlockText(message, id)], Completed)];
        case CallRef(id) =>
          var slot := FindSlot(SortedKeys.Ascending(tools.Keys), tools, id);
          if slot.Some? {
            var s := slot.value;
            output := output + [FunctionCallItem(s.itemId, s.callId, s.name, s.arguments, Completed)];
          }
      }
      assert outputItems[..|outputItems|] == outputItems;
    }

    method TerminalResponse(status: ResponseStatus) returns (response: Response)
      ensures response == Spec.TerminalResponse(State(), status)
    {
      var output := TerminalOutput();
      response := Response(config.responseId, config.createdAt, CurrentModel(), status, output,
                           usage.GetOr(Usage(0, 0, 0, 0)), None, None);
    }

    /** The `done` frames of every call, in the order of the upstream indices. */
    method FinishTools(out: seq<Frame>) returns (out': seq<Frame>)
      modifies this`tools, this`sequence
      ensures var k := FinishSlots(Sink(old(State()), out), SortedKeys.Ascending(old(tools).Keys));
              Sink(State(), out') == k.(c := k.c.(tools := MarkDone(k.c.tools)))
    {
      out' := out;
      ghost var k := Sink(State(), out);
      var keys := SortedKeys.Ascending(tools.Keys);
      for i := 0 to |keys|
        invariant Sink(State(), out') == FinishSlots(k, keys[..i])
        invariant tools == k.c.tools
      {
        assert keys[..i + 1][..i] == keys[..i] && keys[i] in keys;
        var slot := tools[keys[i]];
        if !slot.done {
          out' := Emit(TextDone(Arguments, slot.itemId, slot.outputIndex, slot.arguments), out');
          out' := Emit(ItemDone(slot.outputIndex,
                                FunctionCallItem(slot.itemId, slot.callId, slot.name, slot.arguments, Completed)), out');
        }
      }
      assert keys[..|keys|] == keys;
      tools := map t | t in tools :: tools[t].(done := true);
    }

    method Finish(error: Option<string>, out: seq<Frame>) returns (out': seq<Frame>)
      modifies this
      ensures Sink(State(), out') == Spec.Finish(Sink(old(State()), out), error)
    {
      this.error := error;
      if error.Some? {
        var response := TerminalResponse(Failed);
        out' := Emit(Terminal(response.(error := error)), out);
        return;
      }
      out' := CloseReasoningItem(out);
      out' := CloseMessageItem(out');
      out' := FinishTools(out');
      var incomplete := finishReason == Some("length");
      var response := TerminalResponse(if incomplete then Incomplete else Done);
      if incomplete {
        response := response.(incompleteReason := Some("max_output_tokens"));
      }
      out' := Emit(Terminal(response), out');
    }

    method NonstreamResponse() returns (response: Response)
      ensures response == Spec.NonstreamResponse(State())
    {
      var status := if error.Some? then Failed
                    else if finishReason == Some("length") then Incomplete else Done;
      response := TerminalResponse(status);
      if status == Failed {
        response := response.(error := Some(error.GetOr("upstream error")));
      }
      if status == Incomplete {
        response := response.(incompleteReason := Some("max_output_tokens"));
      }
    }
  }

  /** What counts as semantic progress: a finish reason, non-empty text or reasoning, or a `tool_calls` array. */
  predicate HasContent(choice: Choice) {
    choice.finish.Some?
    || (choice.delta.Some? && (choice.delta.value.reasoning.GetOr("") != ""
                               || choice.delta.value.content.GetOr("") != "" || choice.delta.value.toolCalls.Some?))
  }

  /** A block that exists as an item has been added, with its part, at an output index. */
  ghost predicate Ready(c: Converter) {
    && (c.config.exposeThinking && c.reasoning.Some? ==>
          c.reasoning.value.itemAdded && c.reasoning.value.partAdded && c.reasoning.value.outputIndex.Some?)
    && (c.message.Some? ==> c.message.value.itemAdded && c.message.value.partAdded && c.message.value.outputIndex.Some?)
  }

  lemma Grow(fs: seq<ToolFragment>, i: nat)
    requires i < |fs|
    ensures Openings(fs[..i + 1]) == Openings(fs[..i]) + [Opened(fs[i])]
    ensures Arguings(fs[..i + 1]) == Arguings(fs[..i]) + [Argued(fs[i])]
  {
  }

  lemma StepsSnoc(k: Sink, h: seq<Atom>, a: Atom)
    ensures Steps(k, h + [a]) == Step(Steps(k, h), a)
  {
    assert (h + [a])[..|h|] == h;
  }

  lemma {:induction false} StepsAppend(k: Sink, a: seq<Atom>, b: seq<Atom>)
    ensures Steps(k, a + b) == Steps(Steps(k, a), b)
  {
    if b == [] {
      assert a + b == a;
    } else {
      assert (a + b)[..|a + b| - 1] == a + b[..|b| - 1];
      StepsAppend(k, a, b[..|b| - 1]);
    }
  }

  lemma StepsChoice(k: Sink, choices: seq<Choice>, i: nat)
    requires i < |choices|
    ensures Steps(k, ChoicesAtoms(TwoPass, choices[..i + 1]))
      == Steps(Steps(k, ChoicesAtoms(TwoPass, choices[..i])), ChoiceAtoms(TwoPass, choices[i]))
  {
    assert choices[..i + 1][..i] == choices[..i];
    StepsAppend(k, ChoicesAtoms(TwoPass, choices[..i]), ChoiceAtoms(TwoPass, choices[i]));
  }
}
