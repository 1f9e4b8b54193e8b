/**
 What a run of chunks says, read off the fields of the chunks themselves.  The story both converters
 are told is exactly that.
 */
module ChunkFields {
  import opened Wrappers
  import opened ChatChunk

  // ---- Readers ----

  function Given(field: Option<string>): string {
    match field
    case Some(text) => text
    case None => ""
  }

  /** Every choice of the run, in order. */
  function Choices(chunks: seq<Chunk>): seq<Choice> {
    if chunks == [] then [] else
      Choices(chunks[..|chunks| - 1]) +
      match chunks[|chunks| - 1].choices
      case Some(cs) => cs
      case None => []
  }

  function ContentOf(c: Choice): string {
    match c.delta
    case Some(d) => Given(d.content)
    case None => ""
  }

  function ThoughtsOf(c: Choice): string {
    match c.delta
    case Some(d) => Given(d.reasoning)
    case None => ""
  }

  function FragmentsOf(c: Choice): seq<ToolFragment> {
    match c.delta
    case Some(ChoiceDelta(_, _, Some(fs))) => fs
    case _ => []
  }

  /** All `delta.content`, joined. */
  function FieldText(cs: seq<Choice>): string {
    if cs == [] then "" else FieldText(cs[..|cs| - 1]) + ContentOf(cs[|cs| - 1])
  }

  /** All `delta.reasoning_content`, joined. */
  function FieldReasoning(cs: seq<Choice>): string {
    if cs == [] then "" else FieldReasoning(cs[..|cs| - 1]) + ThoughtsOf(cs[|cs| - 1])
  }

  /** All elements of `delta.tool_calls`. */
  function Fragments(cs: seq<Choice>): seq<ToolFragment> {
    if cs == [] then [] else Fragments(cs[..|cs| - 1]) + FragmentsOf(cs[|cs| - 1])
  }

  /** The last `finish_reason`. */
  function LastFinish(cs: seq<Choice>): Option<string> {
    if cs == [] then None
    else if cs[|cs| - 1].finish.Some? then cs[|cs| - 1].finish
    else LastFinish(cs[..|cs| - 1])
  }

  function LastUsage(chunks: seq<Chunk>): Option<Usage> {
    if chunks == [] then None
    else if chunks[|chunks| - 1].usage.Some? then chunks[|chunks| - 1].usage
    else LastUsage(chunks[..|chunks| - 1])
  }

  /** A fragment without an index belongs to call 0. */
  predicate Concerns(f: ToolFragment, i: int) {
    f.index == Some(i) || (f.index == None && i == 0)
  }

  /** The fragments of call `i`. */
  function Own(fs: seq<ToolFragment>, i: int): seq<ToolFragment> {
    if fs == [] then [] else Own(fs[..|fs| - 1], i) + (if Concerns(fs[|fs| - 1], i) then [fs[|fs| - 1]] else [])
  }

  function JoinedArguments(fs: seq<ToolFragment>): string {
    if fs == [] then "" else JoinedArguments(fs[..|fs| - 1]) + Given(fs[|fs| - 1].arguments)
  }

  /** The last id that is not empty. */
  function LastId(fs: seq<ToolFragment>): string {
    if fs == [] then ""
    else if Given(fs[|fs| - 1].id) != "" then Given(fs[|fs| - 1].id)
    else LastId(fs[..|fs| - 1])
  }

  function LastName(fs: seq<ToolFragment>): string {
    if fs == [] then ""
    else if Given(fs[|fs| - 1].name) != "" then Given(fs[|fs| - 1].name)
    else LastName(fs[..|fs| - 1])
  }

  /** What the fragments of one call amount to. */
  function CallOf(own: seq<ToolFragment>): Call
    requires own != []
  {
    Call(Given(own[0].id), Given(own[0].name), LastId(own), LastName(own), JoinedArguments(own))
  }

  function FragmentKinds(fs: seq<ToolFragment>): seq<Kind> {
    if fs == [] then [] else
      FragmentKinds(fs[..|fs| - 1]) + [match fs[|fs| - 1].index case Some(i) => Calling(i) case None => Calling(0)]
  }

  /** The kinds of content in a choice: reasoning before text before calls. */
  function ChoiceKinds(exposed: bool, c: Choice): seq<Kind> {
    (if exposed && ThoughtsOf(c) != "" then [Thinking] else [])
    + (if ContentOf(c) != "" then [Saying] else [])
    + FragmentKinds(FragmentsOf(c))
  }

  /** The kinds of content of the run, each time they occur. */
  function Kinds(exposed: bool, cs: seq<Choice>): seq<Kind> {
    if cs == [] then [] else Kinds(exposed, cs[..|cs| - 1]) + ChoiceKinds(exposed, cs[|cs| - 1])
  }

  /** First occurrences only. */
  function Firsts(ks: seq<Kind>): seq<Kind> {
    if ks == [] then [] else
      Firsts(ks[..|ks| - 1]) + (if ks[|ks| - 1] in ks[..|ks| - 1] then [] else [ks[|ks| - 1]])
  }

  lemma {:induction false} FirstsMeaning(ks: seq<Kind>)
    ensures forall k :: k in Firsts(ks) <==> k in ks
    ensures forall i, j | 0 <= i < j < |Firsts(ks)| :: Firsts(ks)[i] != Firsts(ks)[j]
  {
    if ks != [] {
      var init, last := ks[..|ks| - 1], ks[|ks| - 1];
      FirstsMeaning(init);
      assert ks == init + [last];
      forall k ensures k in Firsts(ks) <==> k in ks {
        assert k in ks <==> k in init || k == last;
        assert k in Firsts(ks) <==> k in Firsts(init) || (last !in init && k == last);
      }
    }
  }

  // ---- The story is what the fields say ----

  ghost predicate CallsSay(calls: map<int, Call>, fs: seq<ToolFragment>) {
    forall i: int :: (i in calls <==> Own(fs, i) != []) && (i in calls ==> calls[i] == CallOf(Own(fs, i)))
  }

  /** Every call of the story has a place in its order, and every place of a call a call. */
  ghost predicate CallsPlaced(s: Story) {
    forall i: int :: i in s.calls <==> Calling(i) in s.order
  }

  /** The readings of a run, together. */
  datatype Reading = Reading(
    text: string, reasoning: string, fragments: seq<ToolFragment>, kinds: seq<Kind>, finish: Option<string>)

  function ReadingOf(exposed: bool, cs: seq<Choice>): Reading {
    Reading(FieldText(cs), FieldReasoning(cs), Fragments(cs), Kinds(exposed, cs), LastFinish(cs))
  }

  ghost predicate Says(s: Story, r: Reading) {
    && s.text == r.text && s.reasoning == r.reasoning && s.order == Firsts(r.kinds) && s.finish == r.finish
    && CallsSay(s.calls, r.fragments) && CallsPlaced(s)
  }

  lemma OwnMore(fs: seq<ToolFragment>, f: ToolFragment, i: int)
    ensures Own(fs + [f], i) == Own(fs, i) + (if Concerns(f, i) then [f] else [])
  {
    assert (fs + [f])[..|fs|] == fs;
  }

  lemma KindMore(ks: seq<Kind>, k: Kind)
    ensures Firsts(ks + [k]) == Join(Firsts(ks), k)
  {
    assert (ks + [k])[..|ks|] == ks;
    FirstsMeaning(ks);
  }

  lemma CallGrows(own: seq<ToolFragment>, f: ToolFragment)
    requires own != []
    ensures var c, c' := CallOf(own), CallOf(own + [f]);
      c' == Call(c.firstId, c.firstName, Later(c.latestId, Given(f.id)), Later(c.latestName, Given(f.name)), c.args + Given(f.arguments))
  {
    assert (own + [f])[..|own|] == own;
  }

  lemma CallBegins(f: ToolFragment)
    ensures CallOf([f]) == Call(Given(f.id), Given(f.name), Given(f.id), Given(f.name), Given(f.arguments))
  {
    assert [f][..0] == [];
    assert JoinedArguments([f]) == "" + Given(f.arguments);
    assert LastId([f][..0]) == "" && LastName([f][..0]) == "";
  }

  /** What one fragment does to the calls and their order. */
  lemma FragmentTold(exposed: bool, s: Story, f: ToolFragment)
    ensures var t, s' := f.Slot(), Tell(exposed, Tell(exposed, s, Opened(f)), Argued(f));
      var c := if t in s.calls then s.calls[t] else Call(f.Id(), f.Name(), f.Id(), f.Name(), "");
      s'.calls == s.calls[t := c.(latestId := Later(c.latestId, f.Id()), latestName := Later(c.latestName, f.Name()), args := c.args + f.Args())] &&
      s'.order == (if t in s.calls then s.order else Join(s.order, Calling(t))) &&
      s'.text == s.text && s'.reasoning == s.reasoning && s'.finish == s.finish
  {
  }

  lemma FragmentCall(calls: map<int, Call>, fs: seq<ToolFragment>, f: ToolFragment, i: int, calls': map<int, Call>)
    requires (i in calls <==> Own(fs, i) != []) && (i in calls ==> calls[i] == CallOf(Own(fs, i)))
    requires var c := if f.Slot() in calls then calls[f.Slot()] else Call(f.Id(), f.Name(), f.Id(), f.Name(), "");
      calls' == calls[f.Slot() := c.(latestId := Later(c.latestId, f.Id()), latestName := Later(c.latestName, f.Name()), args := c.args + f.Args())]
    ensures (i in calls' <==> Own(fs + [f], i) != []) && (i in calls' ==> calls'[i] == CallOf(Own(fs + [f], i)))
  {
    OwnMore(fs, f, i);
    assert f.Slot() == i <==> Concerns(f, i);
    if !Concerns(f, i) {
      assert Own(fs + [f], i) == Own(fs, i);
    } else if Own(fs, i) != [] {
      CallGrows(Own(fs, i), f);
    } else {
      CallBegins(f);
      assert Own(fs + [f], i) == [f];
    }
  }

  lemma FragmentCalls(exposed: bool, s: Story, fs: seq<ToolFragment>, f: ToolFragment)
    requires CallsSay(s.calls, fs)
    ensures CallsSay(Tell(exposed, Tell(exposed, s, Opened(f)), Argued(f)).calls, fs + [f])
  {
    var calls := Tell(exposed, Tell(exposed, s, Opened(f)), Argued(f)).calls;
    FragmentTold(exposed, s, f);
    forall i: int
      ensures i in calls <==> Own(fs + [f], i) != []
      ensures i in calls ==> calls[i] == CallOf(Own(fs + [f], i))
    {
      FragmentCall(s.calls, fs, f, i, calls);
    }
  }

  function WithFragments(r: Reading, more: seq<ToolFragment>): Reading {
    r.(fragments := r.fragments + more, kinds := r.kinds + FragmentKinds(more))
  }

  /** A fragment, opened if its call is new and then added. */
  lemma FragmentSays(exposed: bool, s: Story, r: Reading, f: ToolFragment, i: int)
    requires Says(s, r) && Concerns(f, i)
    ensures Says(Tell(exposed, Tell(exposed, s, Opened(f)), Argued(f)),
                 r.(fragments := r.fragments + [f], kinds := r.kinds + [Calling(i)]))
  {
    FragmentCalls(exposed, s, r.fragments, f);
    FragmentTold(exposed, s, f);
    KindMore(r.kinds, Calling(i));
  }

  lemma SaysSame(s: Story, r: Reading, s': Story, r': Reading)
    requires Says(s, r) && s == s' && r == r'
    ensures Says(s', r')
  {
  }

  lemma OneFragmentMore(r: Reading, more: seq<ToolFragment>, i: int)
    requires more != [] && Concerns(more[|more| - 1], i)
    ensures var r' := WithFragments(r, more[..|more| - 1]);
      r'.(fragments := r'.fragments + [more[|more| - 1]], kinds := r'.kinds + [Calling(i)]) == WithFragments(r, more)
  {
    var init, f := more[..|more| - 1], more[|more| - 1];
    assert r.fragments + init + [f] == r.fragments + more;
    assert r.kinds + FragmentKinds(init) + [Calling(i)] == r.kinds + FragmentKinds(more);
  }

  lemma FragmentsTold(exposed: bool, s: Story, more: seq<ToolFragment>)
    requires more != []
    ensures var f := more[|more| - 1];
      TellAll(exposed, s, Alternating(more)) == Tell(exposed, Tell(exposed, TellAll(exposed, s, Alternating(more[..|more| - 1])), Opened(f)), Argued(f))
  {
    TwoMore(exposed, s, Alternating(more[..|more| - 1]), Opened(more[|more| - 1]), Argued(more[|more| - 1]));
  }

  /** The last of some fragments, told after the others. */
  lemma LastFragmentSays(exposed: bool, s: Story, r: Reading, more: seq<ToolFragment>)
    requires more != [] && Says(TellAll(exposed, s, Alternating(more[..|more| - 1])), WithFragments(r, more[..|more| - 1]))
    ensures Says(TellAll(exposed, s, Alternating(more)), WithFragments(r, more))
  {
    var init, f := more[..|more| - 1], more[|more| - 1];
    var i := match f.index case Some(i) => i case None => 0;
    var before, r' := TellAll(exposed, s, Alternating(init)), WithFragments(r, init);
    FragmentSays(exposed, before, r', f, i);
    OneFragmentMore(r, more, i);
    FragmentsTold(exposed, s, more);
    SaysSame(Tell(exposed, Tell(exposed, before, Opened(f)), Argued(f)),
             r'.(fragments := r'.fragments + [f], kinds := r'.kinds + [Calling(i)]),
             TellAll(exposed, s, Alternating(more)), WithFragments(r, more));
  }

  lemma {:induction false} FragmentsSay(exposed: bool, s: Story, r: Reading, more: seq<ToolFragment>)
    requires Says(s, r)
    ensures Says(TellAll(exposed, s, Alternating(more)), WithFragments(r, more))
  {
    if more == [] {
      assert WithFragments(r, more) == r;
    } else {
      FragmentsSay(exposed, s, r, more[..|more| - 1]);
      LastFragmentSays(exposed, s, r, more);
    }
  }

  lemma TwoMore(exposed: bool, s: Story, h: seq<Atom>, a: Atom, b: Atom)
    ensures TellAll(exposed, s, h + [a, b]) == Tell(exposed, Tell(exposed, TellAll(exposed, s, h), a), b)
  {
    var all := h + [a, b];
    assert all[..|all| - 1] == h + [a] && (h + [a])[..|h|] == h;
  }

  lemma OneTold(exposed: bool, s: Story, h: seq<Atom>)
    requires |h| <= 1
    ensures TellAll(exposed, s, h) == if h == [] then s else Tell(exposed, s, h[0])
  {
    if h != [] { assert h[..0] == []; }
  }

  lemma ReasoningSays(exposed: bool, s: Story, r: Reading, text: string)
    requires Says(s, r)
    ensures Says(TellAll(exposed, s, if text != "" then [Reasoned(text)] else []),
                 r.(reasoning := r.reasoning + text, kinds := r.kinds + (if exposed && text != "" then [Thinking] else [])))
  {
    OneTold(exposed, s, if text != "" then [Reasoned(text)] else []);
    KindMore(r.kinds, Thinking);
    assert r.kinds + [] == r.kinds && r.reasoning + "" == r.reasoning;
  }

  lemma TextSays(exposed: bool, s: Story, r: Reading, text: string)
    requires Says(s, r)
    ensures Says(TellAll(exposed, s, if text != "" then [Said(text)] else []),
                 r.(text := r.text + text, kinds := r.kinds + (if text != "" then [Saying] else [])))
  {
    OneTold(exposed, s, if text != "" then [Said(text)] else []);
    KindMore(r.kinds, Saying);
    assert r.kinds + [] == r.kinds && r.text + "" == r.text;
  }

  lemma FinishSays(exposed: bool, s: Story, r: Reading, finish: Option<string>)
    requires Says(s, r)
    ensures Says(TellAll(exposed, s, if finish.Some? then [Finished(finish.value)] else []),
                 r.(finish := if finish.Some? then finish else r.finish))
  {
    OneTold(exposed, s, if finish.Some? then [Finished(finish.value)] else []);
  }

  function WithProse(exposed: bool, r: Reading, c: Choice): Reading {
    Reading(r.text + ContentOf(c), r.reasoning + ThoughtsOf(c), r.fragments,
            r.kinds + (if exposed && ThoughtsOf(c) != "" then [Thinking] else []) + (if ContentOf(c) != "" then [Saying] else []),
            if c.finish.Some? then c.finish else r.finish)
  }

  /** A choice before its tool calls. */
  lemma ProseSays(exposed: bool, s: Story, r: Reading, c: Choice)
    requires Says(s, r)
    ensures Says(TellAll(exposed, s, BeforeCalls(c)), WithProse(exposed, r, c))
  {
    var fin := if c.finish.Some? then [Finished(c.finish.value)] else [];
    var thoughts := if ThoughtsOf(c) != "" then [Reasoned(ThoughtsOf(c))] else [];
    var words := if ContentOf(c) != "" then [Said(ContentOf(c))] else [];
    assert BeforeCalls(c) == fin + thoughts + words;
    TellAllAppend(exposed, s, fin + thoughts, words);
    TellAllAppend(exposed, s, fin, thoughts);
    FinishSays(exposed, s, r, c.finish);
    var r1 := r.(finish := if c.finish.Some? then c.finish else r.finish);
    ReasoningSays(exposed, TellAll(exposed, s, fin), r1, ThoughtsOf(c));
    var r2 := r1.(reasoning := r1.reasoning + ThoughtsOf(c), kinds := r1.kinds + (if exposed && ThoughtsOf(c) != "" then [Thinking] else []));
    TextSays(exposed, TellAll(exposed, s, fin + thoughts), r2, ContentOf(c));
  }

  lemma ReadingMore(exposed: bool, cs: seq<Choice>)
    requires cs != []
    ensures var c := cs[|cs| - 1];
      WithFragments(WithProse(exposed, ReadingOf(exposed, cs[..|cs| - 1]), c), FragmentsOf(c)) == ReadingOf(exposed, cs)
  {
    var c, r, more := cs[|cs| - 1], ReadingOf(exposed, cs[..|cs| - 1]), FragmentKinds(FragmentsOf(cs[|cs| - 1]));
    var thoughts := if exposed && ThoughtsOf(c) != "" then [Thinking] else [];
    var words := if ContentOf(c) != "" then [Saying] else [];
    assert r.kinds + thoughts + words + more == r.kinds + (thoughts + words + more);
  }

  lemma ChoiceSays(exposed: bool, s: Story, cs: seq<Choice>)
    requires cs != [] && Says(s, ReadingOf(exposed, cs[..|cs| - 1]))
    ensures Says(TellAll(exposed, s, ChoiceAtoms(OnePass, cs[|cs| - 1])), ReadingOf(exposed, cs))
  {
    var c, r := cs[|cs| - 1], ReadingOf(exposed, cs[..|cs| - 1]);
    ProseSays(exposed, s, r, c);
    FragmentsSay(exposed, TellAll(exposed, s, BeforeCalls(c)), WithProse(exposed, r, c), FragmentsOf(c));
    ReadingMore(exposed, cs);
    TellAllAppend(exposed, s, BeforeCalls(c), Alternating(FragmentsOf(c)));
    if c.delta.Some? && c.delta.value.toolCalls.Some? {
      ChoiceIsCallsLast(OnePass, c);
    } else {
      assert ChoiceAtoms(OnePass, c) == BeforeCalls(c) + Alternating(FragmentsOf(c));
    }
  }

  lemma BlankSays(exposed: bool)
    ensures Says(BLANK, ReadingOf(exposed, []))
  {
  }

  lemma ChoicesTold(exposed: bool, cs: seq<Choice>)
    requires cs != []
    ensures TellAll(exposed, BLANK, ChoicesAtoms(OnePass, cs))
            == TellAll(exposed, TellAll(exposed, BLANK, ChoicesAtoms(OnePass, cs[..|cs| - 1])), ChoiceAtoms(OnePass, cs[|cs| - 1]))
  {
    TellAllAppend(exposed, BLANK, ChoicesAtoms(OnePass, cs[..|cs| - 1]), ChoiceAtoms(OnePass, cs[|cs| - 1]));
  }

  lemma {:induction false} ChoicesSay(exposed: bool, cs: seq<Choice>)
    ensures Says(TellAll(exposed, BLANK, ChoicesAtoms(OnePass, cs)), ReadingOf(exposed, cs))
  {
    if cs == [] {
      BlankSays(exposed);
    } else {
      ChoicesSay(exposed, cs[..|cs| - 1]);
      ChoiceSays(exposed, TellAll(exposed, BLANK, ChoicesAtoms(OnePass, cs[..|cs| - 1])), cs);
      ChoicesTold(exposed, cs);
    }
  }

  lemma {:induction false} ChoicesSplit(a: seq<Choice>, b: seq<Choice>)
    ensures ChoicesAtoms(OnePass, a + b) == ChoicesAtoms(OnePass, a) + ChoicesAtoms(OnePass, b)
  {
    if b == [] {
      assert a + b == a;
    } else {
      assert (a + b)[..|a + b| - 1] == a + b[..|b| - 1];
      ChoicesSplit(a, b[..|b| - 1]);
    }
  }

  lemma {:induction false} RunIsItsChoices(chunks: seq<Chunk>)
    ensures RunAtoms(OnePass, chunks) == ChoicesAtoms(OnePass, Choices(chunks))
  {
    if chunks != [] {
      var init, last := chunks[..|chunks| - 1], chunks[|chunks| - 1];
      RunIsItsChoices(init);
      ChoicesSplit(Choices(init), match last.choices case Some(cs) => cs case None => []);
    }
  }

  /** Whichever way a converter walks the tool calls, its story is what the fields of the chunks say. */
  lemma StoryIsTheFields(w: Walk, exposed: bool, chunks: seq<Chunk>)
    ensures Says(StoryOf(exposed, RunAtoms(w, chunks)), ReadingOf(exposed, Choices(chunks)))
  {
    FrontendsAgree(exposed, chunks);
    StoryTellsAll(exposed, RunAtoms(OnePass, chunks));
    RunIsItsChoices(chunks);
    ChoicesSay(exposed, Choices(chunks));
  }
}
