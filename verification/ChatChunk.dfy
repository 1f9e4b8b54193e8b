/**
 The upstream's parsed `chat.completion.chunk` objects, reduced to the fields the two
 stream converters read, and what a whole run of them says.  A field that is absent, or
 of the wrong JSON type, is `None`: the source reads every field through
 `get(..).and_then(Value::as_..)`.
 */
module ChatChunk {
  import opened Wrappers

  /** One element of `delta.tool_calls`: a fragment of the call with the given index. */
  datatype ToolFragment = ToolFragment(
    index: Option<int>, id: Option<string>, name: Option<string>, arguments: Option<string>)
  {
    function Slot(): int { index.GetOr(0) }
    function Id(): string { id.GetOr("") }
    function Name(): string { name.GetOr("") }
    function Args(): string { arguments.GetOr("") }
  }

  datatype ChoiceDelta = ChoiceDelta(
    reasoning: Option<string>, content: Option<string>, toolCalls: Option<seq<ToolFragment>>)

  datatype Choice = Choice(finish: Option<string>, delta: Option<ChoiceDelta>)

  /** The upstream `usage` object; a missing counter reads as 0. */
  datatype Usage = Usage(prompt: nat, completion: nat, cached: nat, reasoning: nat)

  datatype Chunk = Chunk(model: Option<string>, usage: Option<Usage>, choices: Option<seq<Choice>>)

  /**
   The elementary things a chunk makes a converter do.  A tool fragment acts twice: it
   opens its call if the call is new, and it adds to the call's id, name and arguments.
   */
  datatype Atom =
    | Finished(reason: string)
    | Reasoned(text: string)
    | Said(text: string)
    | Opened(fragment: ToolFragment)
    | Argued(fragment: ToolFragment)

  /** How a converter walks `tool_calls`: all openings first, or fragment by fragment. */
  datatype Walk = TwoPass | OnePass

  function Openings(fs: seq<ToolFragment>): seq<Atom> {
    seq(|fs|, i requires 0 <= i < |fs| => Opened(fs[i]))
  }

  function Arguings(fs: seq<ToolFragment>): seq<Atom> {
    seq(|fs|, i requires 0 <= i < |fs| => Argued(fs[i]))
  }

  function Alternating(fs: seq<ToolFragment>): seq<Atom> {
    if fs == [] then []
    else Alternating(fs[..|fs| - 1]) + [Opened(fs[|fs| - 1]), Argued(fs[|fs| - 1])]
  }

  function CallAtoms(w: Walk, fs: seq<ToolFragment>): seq<Atom> {
    match w
    case TwoPass => Openings(fs) + Arguings(fs)
    case OnePass => Alternating(fs)
  }

  function DeltaAtoms(w: Walk, d: ChoiceDelta): seq<Atom> {
    (if d.reasoning.GetOr("") != "" then [Reasoned(d.reasoning.value)] else [])
    + (if d.content.GetOr("") != "" then [Said(d.content.value)] else [])
    + (if d.toolCalls.Some? then CallAtoms(w, d.toolCalls.value) else [])
  }

  function ChoiceAtoms(w: Walk, c: Choice): seq<Atom> {
    (if c.finish.Some? then [Finished(c.finish.value)] else [])
    + (if c.delta.Some? then DeltaAtoms(w, c.delta.value) else [])
  }

  function ChoicesAtoms(w: Walk, cs: seq<Choice>): seq<Atom> {
    if cs == [] then [] else ChoicesAtoms(w, cs[..|cs| - 1]) + ChoiceAtoms(w, cs[|cs| - 1])
  }

  function ChunkAtoms(w: Walk, chunk: Chunk): seq<Atom> {
    if chunk.choices.Some? then ChoicesAtoms(w, chunk.choices.value) else []
  }

  /** Everything a run of chunks asks for, in order. */
  function RunAtoms(w: Walk, chunks: seq<Chunk>): seq<Atom> {
    if chunks == [] then [] else RunAtoms(w, chunks[..|chunks| - 1]) + ChunkAtoms(w, chunks[|chunks| - 1])
  }

  // ---- What a history of atoms says, independently of any converter ----

  /** A call as the upstream described it. */
  datatype Call = Call(firstId: string, firstName: string, latestId: string, latestName: string, args: string)

  /** The things an answer consists of. */
  datatype Kind = Thinking | Saying | Calling(slot: int)

  /**
   The answer a history amounts to: all text and reasoning, every call, the kinds of
   content in order of first appearance, and the text there was when the first call opened
   (`None` if there was no text by then, or no call at all).
   */
  datatype Story = Story(
    text: string, reasoning: string, calls: map<int, Call>, order: seq<Kind>,
    textAtFirstCall: Option<string>, finish: Option<string>)

  const BLANK: Story := Story("", "", map[], [], None, None)

  function Join(ks: seq<Kind>, kind: Kind): seq<Kind> {
    if kind in ks then ks else ks + [kind]
  }

  function Later(old_: string, new_: string): string {
    if new_ != "" then new_ else old_
  }

  /** `exposed`: whether reasoning counts among the kinds of content. */
  function Tell(exposed: bool, s: Story, a: Atom): Story {
    match a
    case Finished(r) => s.(finish := Some(r))
    case Reasoned(t) =>
      s.(reasoning := s.reasoning + t, order := if exposed then Join(s.order, Thinking) else s.order)
    case Said(t) => s.(text := s.text + t, order := Join(s.order, Saying))
    case Opened(f) =>
      if f.Slot() in s.calls then s else
        s.(calls := s.calls[f.Slot() := Call(f.Id(), f.Name(), f.Id(), f.Name(), "")],
           order := Join(s.order, Calling(f.Slot())),
           textAtFirstCall := if s.calls == map[] && Saying in s.order then Some(s.text) else s.textAtFirstCall)
    case Argued(f) =>
      if f.Slot() !in s.calls then s else
        var c := s.calls[f.Slot()];
        s.(calls := s.calls[f.Slot() := c.(latestId := Later(c.latestId, f.Id()),
                                           latestName := Later(c.latestName, f.Name()),
                                           args := c.args + f.Args())])
  }

  function StoryOf(exposed: bool, h: seq<Atom>): Story {
    if h == [] then BLANK else Tell(exposed, StoryOf(exposed, h[..|h| - 1]), h[|h| - 1])
  }

  /** All answer text, concatenated. */
  function TextOf(h: seq<Atom>): string {
    if h == [] then "" else TextOf(h[..|h| - 1]) + (if h[|h| - 1].Said? then h[|h| - 1].text else "")
  }

  /** All reasoning, concatenated. */
  function ReasoningOf(h: seq<Atom>): string {
    if h == [] then "" else ReasoningOf(h[..|h| - 1]) + (if h[|h| - 1].Reasoned? then h[|h| - 1].text else "")
  }

  /** The argument fragments of the call at `slot`, concatenated. */
  function ArgsAt(h: seq<Atom>, slot: int): string {
    if h == [] then "" else
      ArgsAt(h[..|h| - 1], slot)
      + (if h[|h| - 1].Argued? && h[|h| - 1].fragment.Slot() == slot then h[|h| - 1].fragment.Args() else "")
  }

  predicate OpenedAt(h: seq<Atom>, slot: int) {
    exists i :: 0 <= i < |h| && h[i].Opened? && h[i].fragment.Slot() == slot
  }

  /** In every real history a call is opened before it is added to. */
  ghost predicate OpenFirst(h: seq<Atom>) {
    forall i | 0 <= i < |h| && h[i].Argued? :: OpenedAt(h[..i], h[i].fragment.Slot())
  }

  lemma {:induction false} OpenedAtAppend(a: seq<Atom>, b: seq<Atom>, slot: int)
    ensures OpenedAt(a + b, slot) <==> OpenedAt(a, slot) || OpenedAt(b, slot)
  {
    if OpenedAt(a, slot) {
      var i :| 0 <= i < |a| && a[i].Opened? && a[i].fragment.Slot() == slot;
      assert (a + b)[i] == a[i];
    }
    if OpenedAt(b, slot) {
      var i :| 0 <= i < |b| && b[i].Opened? && b[i].fragment.Slot() == slot;
      assert (a + b)[|a| + i] == b[i];
    }
  }

  lemma {:induction false} OpenFirstAppend(a: seq<Atom>, b: seq<Atom>)
    requires OpenFirst(a)
    requires forall i | 0 <= i < |b| && b[i].Argued? ::
               OpenedAt(a, b[i].fragment.Slot()) || OpenedAt(b[..i], b[i].fragment.Slot())
    ensures OpenFirst(a + b)
  {
    forall i | 0 <= i < |a + b| && (a + b)[i].Argued?
      ensures OpenedAt((a + b)[..i], (a + b)[i].fragment.Slot())
    {
      if i < |a| {
        assert (a + b)[..i] == a[..i];
      } else {
        assert (a + b)[..i] == a + b[..i - |a|];
        OpenedAtAppend(a, b[..i - |a|], (a + b)[i].fragment.Slot());
      }
    }
  }

  lemma OpenFirstPrefix(h: seq<Atom>, n: nat)
    requires OpenFirst(h) && n <= |h|
    ensures OpenFirst(h[..n])
  {
    forall i | 0 <= i < n && h[i].Argued? ensures OpenedAt(h[..n][..i], h[i].fragment.Slot()) {
      assert h[..n][..i] == h[..i];
    }
  }

  lemma {:induction false} CallsOpenFirst(w: Walk, fs: seq<ToolFragment>)
    ensures OpenFirst(CallAtoms(w, fs))
  {
    if w == TwoPass {
      var a, b := Openings(fs), Arguings(fs);
      forall i | 0 <= i < |b| ensures OpenedAt(a, b[i].fragment.Slot()) {
        assert a[i].Opened? && a[i].fragment == b[i].fragment;
      }
      OpenFirstAppend(a, b);
    } else if fs != [] {
      CallsOpenFirst(w, fs[..|fs| - 1]);
      var b := [Opened(fs[|fs| - 1]), Argued(fs[|fs| - 1])];
      assert b[..1][0].Opened?;
      OpenFirstAppend(Alternating(fs[..|fs| - 1]), b);
    }
  }

  lemma {:induction false} ChoiceOpenFirst(w: Walk, c: Choice)
    ensures OpenFirst(ChoiceAtoms(w, c))
  {
    var fin := if c.finish.Some? then [Finished(c.finish.value)] else [];
    if c.delta.Some? {
      var d := c.delta.value;
      if d.toolCalls.Some? { CallsOpenFirst(w, d.toolCalls.value); }
      var r := if d.reasoning.GetOr("") != "" then [Reasoned(d.reasoning.value)] else [];
      var t := if d.content.GetOr("") != "" then [Said(d.content.value)] else [];
      var calls := if d.toolCalls.Some? then CallAtoms(w, d.toolCalls.value) else [];
      OpenFirstAppend(r + t, calls);
      OpenFirstAppend(fin, DeltaAtoms(w, d));
    }
  }

  lemma {:induction false} ChoicesOpenFirst(w: Walk, cs: seq<Choice>)
    ensures OpenFirst(ChoicesAtoms(w, cs))
  {
    if cs != [] {
      ChoicesOpenFirst(w, cs[..|cs| - 1]);
      ChoiceOpenFirst(w, cs[|cs| - 1]);
      OpenFirstAppend(ChoicesAtoms(w, cs[..|cs| - 1]), ChoiceAtoms(w, cs[|cs| - 1]));
    }
  }

  lemma {:induction false} RunOpenFirst(w: Walk, chunks: seq<Chunk>)
    ensures OpenFirst(RunAtoms(w, chunks))
  {
    if chunks != [] {
      var last := chunks[|chunks| - 1];
      RunOpenFirst(w, chunks[..|chunks| - 1]);
      if last.choices.Some? { ChoicesOpenFirst(w, last.choices.value); }
      OpenFirstAppend(RunAtoms(w, chunks[..|chunks| - 1]), ChunkAtoms(w, last));
    }
  }

  lemma {:induction false} StoryProse(exposed: bool, h: seq<Atom>)
    ensures StoryOf(exposed, h).text == TextOf(h) && StoryOf(exposed, h).reasoning == ReasoningOf(h)
  {
    if h == [] {
    } else {
      StoryProse(exposed, h[..|h| - 1]);
    }
  }

  lemma OpenedAtLast(h: seq<Atom>, t: int)
    requires h != []
    ensures var a := h[|h| - 1]; OpenedAt(h, t) <==> OpenedAt(h[..|h| - 1], t) || (a.Opened? && a.fragment.Slot() == t)
  {
    var init, a := h[..|h| - 1], h[|h| - 1];
    assert h == init + [a];
    OpenedAtAppend(init, [a], t);
    if a.Opened? && a.fragment.Slot() == t { assert [a][0].Opened?; }
  }

  lemma {:induction false} StoryCall(exposed: bool, h: seq<Atom>, t: int)
    requires OpenFirst(h)
    ensures t in StoryOf(exposed, h).calls <==> OpenedAt(h, t)
    ensures OpenedAt(h, t) ==> StoryOf(exposed, h).calls[t].args == ArgsAt(h, t)
  {
    if h == [] {
    } else {
      var init := h[..|h| - 1];
      OpenFirstPrefix(h, |h| - 1);
      StoryCall(exposed, init, t);
      OpenedAtLast(h, t);
      if !OpenedAt(init, t) { NoArgs(init, t); }
    }
  }

  /** The story concatenates the upstream's fields: no fragment is lost, duplicated or moved to another call. */
  lemma StoryMeaning(exposed: bool, h: seq<Atom>)
    requires OpenFirst(h)
    ensures StoryOf(exposed, h).text == TextOf(h)
    ensures StoryOf(exposed, h).reasoning == ReasoningOf(h)
    ensures forall t :: t in StoryOf(exposed, h).calls <==> OpenedAt(h, t)
    ensures forall t | OpenedAt(h, t) :: StoryOf(exposed, h).calls[t].args == ArgsAt(h, t)
  {
    StoryProse(exposed, h);
    forall t
      ensures t in StoryOf(exposed, h).calls <==> OpenedAt(h, t)
      ensures OpenedAt(h, t) ==> StoryOf(exposed, h).calls[t].args == ArgsAt(h, t)
    {
      StoryCall(exposed, h, t);
    }
  }

  lemma {:induction false} NoArgs(h: seq<Atom>, t: int)
    requires OpenFirst(h) && !OpenedAt(h, t)
    ensures ArgsAt(h, t) == ""
  {
    if h != [] {
      var init, a := h[..|h| - 1], h[|h| - 1];
      OpenFirstPrefix(h, |h| - 1);
      assert h == init + [a];
      OpenedAtAppend(init, [a], t);
      NoArgs(init, t);
    }
  }

  // ---- Text around the first call ----

  /** Where the first call opens; the length of the history if none does. */
  function FirstCall(h: seq<Atom>): (n: nat)
    ensures n <= |h| && (n < |h| ==> h[n].Opened?) && forall i | 0 <= i < n :: !h[i].Opened?
  {
    if h == [] then 0 else
      var n := FirstCall(h[..|h| - 1]);
      if n < |h| - 1 then n else if h[|h| - 1].Opened? then n else n + 1
  }

  predicate Speaks(h: seq<Atom>) {
    exists i :: 0 <= i < |h| && h[i].Said?
  }

  lemma {:induction false} SayingSpeaks(exposed: bool, h: seq<Atom>)
    ensures Saying in StoryOf(exposed, h).order <==> Speaks(h)
    ensures StoryOf(exposed, h).calls == map[] <==> FirstCall(h) == |h|
  {
    if h != [] {
      var init := h[..|h| - 1];
      SayingSpeaks(exposed, init);
      assert forall i | 0 <= i < |init| :: init[i] == h[i];
      assert h[|h| - 1].Said? ==> Speaks(h);
      if Speaks(init) { var i :| 0 <= i < |init| && init[i].Said?; assert h[i].Said?; }
      var calls, calls' := StoryOf(exposed, init).calls, StoryOf(exposed, h).calls;
      if h[|h| - 1].Opened? { assert h[|h| - 1].fragment.Slot() in calls'; }
      if h[|h| - 1].Argued? && h[|h| - 1].fragment.Slot() in calls { assert h[|h| - 1].fragment.Slot() in calls'; }
    }
  }

  /** The text a message is closed with early: all text before the first call, if there was any. */
  lemma {:induction false} TextAtFirstCall(exposed: bool, h: seq<Atom>)
    ensures var n := FirstCall(h);
            StoryOf(exposed, h).textAtFirstCall ==
              if n < |h| && Speaks(h[..n]) then Some(TextOf(h[..n])) else None
  {
    if h != [] {
      var init, m := h[..|h| - 1], FirstCall(h[..|h| - 1]);
      TextAtFirstCall(exposed, init);
      SayingSpeaks(exposed, init);
      if m < |init| {
        assert init[..m] == h[..m];
      } else if h[m].Opened? {
        assert init == h[..m];
        StoryProse(exposed, init);
      }
    }
  }

  // ---- Both frontends hear the same story ----

  function TellAll(exposed: bool, s: Story, h: seq<Atom>): Story {
    if h == [] then s else Tell(exposed, TellAll(exposed, s, h[..|h| - 1]), h[|h| - 1])
  }

  lemma {:induction false} TellAllAppend(exposed: bool, s: Story, a: seq<Atom>, b: seq<Atom>)
    ensures TellAll(exposed, s, a + b) == TellAll(exposed, TellAll(exposed, s, a), b)
  {
    if b == [] {
      assert a + b == a;
    } else {
      assert (a + b)[..|a + b| - 1] == a + b[..|b| - 1];
      TellAllAppend(exposed, s, a, b[..|b| - 1]);
    }
  }

  lemma {:induction false} StoryTellsAll(exposed: bool, h: seq<Atom>)
    ensures StoryOf(exposed, h) == TellAll(exposed, BLANK, h)
  {
    if h != [] { StoryTellsAll(exposed, h[..|h| - 1]); }
  }

  /** Adding to an open call and opening another one commute. */
  lemma Commute(exposed: bool, s: Story, f: ToolFragment, g: ToolFragment)
    requires f.Slot() in s.calls
    ensures Tell(exposed, Tell(exposed, s, Argued(f)), Opened(g)) == Tell(exposed, Tell(exposed, s, Opened(g)), Argued(f))
    ensures f.Slot() in Tell(exposed, s, Opened(g)).calls
  {
    var a := Tell(exposed, s, Argued(f));
    assert a.calls != map[] by { assert f.Slot() in a.calls; }
    assert s.calls != map[];
    if g.Slot() !in s.calls {
      assert Tell(exposed, a, Opened(g)).calls == Tell(exposed, Tell(exposed, s, Opened(g)), Argued(f)).calls;
    }
  }

  lemma {:induction false} CommuteAll(exposed: bool, s: Story, fs: seq<ToolFragment>, g: ToolFragment)
    requires forall i | 0 <= i < |fs| :: fs[i].Slot() in s.calls
    ensures Tell(exposed, TellAll(exposed, s, Arguings(fs)), Opened(g)) == TellAll(exposed, Tell(exposed, s, Opened(g)), Arguings(fs))
    ensures TellAll(exposed, s, Arguings(fs)).calls.Keys == s.calls.Keys
  {
    if fs != [] {
      var n := |fs| - 1;
      assert Arguings(fs)[..n] == Arguings(fs[..n]);
      CommuteAll(exposed, s, fs[..n], g);
      assert fs[n].Slot() in s.calls;
      Commute(exposed, TellAll(exposed, s, Arguings(fs[..n])), fs[n], g);
    }
  }

  lemma {:induction false} OpeningsOpen(exposed: bool, s: Story, fs: seq<ToolFragment>)
    ensures forall i | 0 <= i < |fs| :: fs[i].Slot() in TellAll(exposed, s, Openings(fs)).calls
  {
    if fs != [] {
      var n := |fs| - 1;
      assert Openings(fs)[..n] == Openings(fs[..n]);
      OpeningsOpen(exposed, s, fs[..n]);
      forall i | 0 <= i < n ensures fs[i].Slot() in TellAll(exposed, s, Openings(fs)).calls {
        assert fs[i] == fs[..n][i];
      }
    }
  }

  /** Opening every call first, or each just before its own fragment, comes to the same. */
  lemma {:induction false} WalksAgree(exposed: bool, s: Story, fs: seq<ToolFragment>)
    ensures TellAll(exposed, s, CallAtoms(TwoPass, fs)) == TellAll(exposed, s, CallAtoms(OnePass, fs))
  {
    if fs != [] {
      var n, init, g := |fs| - 1, fs[..|fs| - 1], fs[|fs| - 1];
      WalksAgree(exposed, s, init);
      assert Openings(fs) == Openings(init) + [Opened(g)] && Arguings(fs) == Arguings(init) + [Argued(g)];
      var begun := TellAll(exposed, s, Openings(init));
      TellAllAppend(exposed, s, Openings(init), Arguings(init));
      TellAllAppend(exposed, s, Openings(fs), Arguings(fs));
      OpeningsOpen(exposed, s, init);
      CommuteAll(exposed, begun, init, g);
      assert Openings(fs)[..n] == Openings(init) && Arguings(fs)[..n] == Arguings(init);
      var alternating := Alternating(init) + [Opened(g)];
      assert Alternating(fs) == alternating + [Argued(g)];
      assert Alternating(fs)[..|alternating|] == alternating && alternating[..|alternating| - 1] == Alternating(init);
    } else {
      assert CallAtoms(TwoPass, fs) == CallAtoms(OnePass, fs);
    }
  }

  /** The atoms of a choice other than its tool calls, which come last. */
  function BeforeCalls(c: Choice): seq<Atom> {
    (if c.finish.Some? then [Finished(c.finish.value)] else []) +
    if c.delta.Some? then DeltaAtoms(OnePass, c.delta.value.(toolCalls := None)) else []
  }

  lemma ChoiceIsCallsLast(w: Walk, c: Choice)
    requires c.delta.Some? && c.delta.value.toolCalls.Some?
    ensures ChoiceAtoms(w, c) == BeforeCalls(c) + CallAtoms(w, c.delta.value.toolCalls.value)
  {
  }

  lemma ChoicesTellSame(exposed: bool, s: Story, c: Choice)
    ensures TellAll(exposed, s, ChoiceAtoms(TwoPass, c)) == TellAll(exposed, s, ChoiceAtoms(OnePass, c))
  {
    if c.delta.Some? && c.delta.value.toolCalls.Some? {
      var d := c.delta.value;
      var before := BeforeCalls(c);
      var two, one := CallAtoms(TwoPass, d.toolCalls.value), CallAtoms(OnePass, d.toolCalls.value);
      ChoiceIsCallsLast(TwoPass, c);
      ChoiceIsCallsLast(OnePass, c);
      TellAllAppend(exposed, s, before, two);
      TellAllAppend(exposed, s, before, one);
      WalksAgree(exposed, TellAll(exposed, s, before), d.toolCalls.value);
    } else {
      assert ChoiceAtoms(TwoPass, c) == ChoiceAtoms(OnePass, c);
    }
  }

  lemma {:induction false} AllChoicesTellSame(exposed: bool, s: Story, cs: seq<Choice>)
    ensures TellAll(exposed, s, ChoicesAtoms(TwoPass, cs)) == TellAll(exposed, s, ChoicesAtoms(OnePass, cs))
  {
    if cs != [] {
      var init, last := cs[..|cs| - 1], cs[|cs| - 1];
      AllChoicesTellSame(exposed, s, init);
      TellAllAppend(exposed, s, ChoicesAtoms(TwoPass, init), ChoiceAtoms(TwoPass, last));
      TellAllAppend(exposed, s, ChoicesAtoms(OnePass, init), ChoiceAtoms(OnePass, last));
      ChoicesTellSame(exposed, TellAll(exposed, s, ChoicesAtoms(OnePass, init)), last);
    }
  }

  lemma {:induction false} RunsTellSame(exposed: bool, chunks: seq<Chunk>)
    ensures TellAll(exposed, BLANK, RunAtoms(TwoPass, chunks)) == TellAll(exposed, BLANK, RunAtoms(OnePass, chunks))
  {
    if chunks != [] {
      var init, last := chunks[..|chunks| - 1], chunks[|chunks| - 1];
      RunsTellSame(exposed, init);
      TellAllAppend(exposed, BLANK, RunAtoms(TwoPass, init), ChunkAtoms(TwoPass, last));
      TellAllAppend(exposed, BLANK, RunAtoms(OnePass, init), ChunkAtoms(OnePass, last));
      if last.choices.Some? {
        AllChoicesTellSame(exposed, TellAll(exposed, BLANK, RunAtoms(OnePass, init)), last.choices.value);
      }
    }
  }

  /** For every upstream run the two converters, which walk `tool_calls` differently, are told one story. */
  lemma FrontendsAgree(exposed: bool, chunks: seq<Chunk>)
    ensures StoryOf(exposed, RunAtoms(TwoPass, chunks)) == StoryOf(exposed, RunAtoms(OnePass, chunks))
  {
    StoryTellsAll(exposed, RunAtoms(TwoPass, chunks));
    StoryTellsAll(exposed, RunAtoms(OnePass, chunks));
    RunsTellSame(exposed, chunks);
  }

  // ---- Late identities ----

  /** No call changes its id or name after its first fragment. */
  ghost predicate IdentityStable(s: Story) {
    forall t | t in s.calls ::
      s.calls[t].firstId == s.calls[t].latestId && s.calls[t].firstName == s.calls[t].latestName
  }

  function SayingChunk(text: string): Chunk {
    Chunk(None, None, Some([Choice(None, Some(ChoiceDelta(None, Some(text), None)))]))
  }

  function CallingChunk(f: ToolFragment): Chunk {
    Chunk(None, None, Some([Choice(None, Some(ChoiceDelta(None, None, Some([f]))))]))
  }

  lemma OneChoice(chunk: Chunk, c: Choice)
    requires chunk.choices == Some([c])
    ensures ChunkAtoms(TwoPass, chunk) == ChoiceAtoms(TwoPass, c)
  {
    var cs := [c];
    assert cs[..0] == [] && ChoicesAtoms(TwoPass, cs[..0]) == [];
    assert ChoicesAtoms(TwoPass, cs) == [] + ChoiceAtoms(TwoPass, c);
  }

  lemma SayingAtoms(text: string)
    requires text != ""
    ensures ChunkAtoms(TwoPass, SayingChunk(text)) == [Said(text)]
  {
    OneChoice(SayingChunk(text), Choice(None, Some(ChoiceDelta(None, Some(text), None))));
  }

  lemma CallingAtoms(f: ToolFragment)
    ensures ChunkAtoms(TwoPass, CallingChunk(f)) == [Opened(f), Argued(f)]
  {
    OneChoice(CallingChunk(f), Choice(None, Some(ChoiceDelta(None, None, Some([f])))));
    assert Openings([f]) == [Opened(f)] && Arguings([f]) == [Argued(f)];
  }

  lemma AtomsAfter(chunks: seq<Chunk>, chunk: Chunk)
    ensures RunAtoms(TwoPass, chunks + [chunk]) == RunAtoms(TwoPass, chunks) + ChunkAtoms(TwoPass, chunk)
  {
    assert (chunks + [chunk])[..|chunks|] == chunks;
  }

  lemma LateIdStory(exposed: bool, f: ToolFragment, g: ToolFragment)
    requires f.Slot() == g.Slot() && g.Id() != "" && g.Id() != f.Id()
    ensures !IdentityStable(StoryOf(exposed, [Opened(f), Argued(f), Opened(g), Argued(g)]))
  {
    var h := [Opened(f), Argued(f), Opened(g), Argued(g)];
    assert h[..3] == [Opened(f), Argued(f), Opened(g)] && h[..3][..2] == [Opened(f), Argued(f)];
    assert h[..3][..2][..1] == [Opened(f)] && [Opened(f)][..0] == [];
    assert StoryOf(exposed, []) == BLANK;
    var s1 := StoryOf(exposed, [Opened(f)]);
    assert s1 == Tell(exposed, BLANK, Opened(f));
    assert f.Slot() in s1.calls && s1.calls[f.Slot()].firstId == f.Id();
    var s2 := StoryOf(exposed, [Opened(f), Argued(f)]);
    assert f.Slot() in s2.calls && s2.calls[f.Slot()].firstId == f.Id();
    var s3 := StoryOf(exposed, [Opened(f), Argued(f), Opened(g)]);
    assert s3 == s2;
    assert StoryOf(exposed, h).calls[f.Slot()].firstId == f.Id() && StoryOf(exposed, h).calls[f.Slot()].latestId == g.Id();
  }

  /** Two fragments of one call, the second with another id. */
  lemma LateIdRun(exposed: bool, f: ToolFragment, g: ToolFragment)
    requires f.Slot() == g.Slot() && g.Id() != "" && g.Id() != f.Id()
    ensures !IdentityStable(StoryOf(exposed, RunAtoms(TwoPass, [CallingChunk(f), CallingChunk(g)])))
  {
    CallingAtoms(f);
    CallingAtoms(g);
    AtomsAfter([], CallingChunk(f));
    AtomsAfter([CallingChunk(f)], CallingChunk(g));
    assert [] + [CallingChunk(f)] == [CallingChunk(f)];
    assert [CallingChunk(f)] + [CallingChunk(g)] == [CallingChunk(f), CallingChunk(g)];
    assert RunAtoms(TwoPass, [CallingChunk(f), CallingChunk(g)]) == [Opened(f), Argued(f), Opened(g), Argued(g)];
    LateIdStory(exposed, f, g);
  }
}
