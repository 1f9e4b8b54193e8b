/** What converting an Anthropic request guarantees: matched tool ids, and token counting that agrees with the wire. */
module AnthropicRequestTheorems {
  import opened Wrappers
  import opened Sequences
  import opened ChatPolicy
  import opened AnthropicRequest
  import CanonicalJson

  // ---- Tool events ----

  /** A call opens its id, a result answers it. */
  datatype Event = Open(id: string) | Answer(id: string)

  function Opens(calls: seq<Call>): (es: seq<Event>) {
    seq(|calls|, i requires 0 <= i < |calls| => Open(calls[i].id))
  }

  function MessageEvents(m: Message): seq<Event> {
    match m
    case Tool(id, _) => [Answer(id)]
    case Assistant(_, _, calls) => Opens(calls)
    case _ => []
  }

  function WireEvents(ms: seq<Message>): seq<Event> {
    if ms == [] then [] else WireEvents(ms[..|ms| - 1]) + MessageEvents(ms[|ms| - 1])
  }

  function BlockEvent(b: Block): seq<Event> {
    if b.ToolUseBlock? then [Open(b.id)] else if b.ToolResultBlock? then [Answer(b.toolUseId)] else []
  }

  function BlockEvents(blocks: seq<Block>): seq<Event> {
    if blocks == [] then [] else BlockEvents(blocks[..|blocks| - 1]) + BlockEvent(blocks[|blocks| - 1])
  }

  /** The tool blocks of one message; a system message contributes none. */
  function TurnEvents(m: InMessage): seq<Event> {
    if m.InMessage? && (m.role == "user" || m.role == "assistant") && m.content.Blocks? then BlockEvents(m.content.blocks) else []
  }

  /** The tool blocks of the request as written, in order. */
  function RequestEvents(ms: seq<InMessage>): seq<Event> {
    if ms == [] then [] else RequestEvents(ms[..|ms| - 1]) + TurnEvents(ms[|ms| - 1])
  }

  /** The events of one id. */
  function Of(es: seq<Event>, id: string): seq<Event> {
    if es == [] then [] else
      var e := es[|es| - 1];
      Of(es[..|es| - 1], id) + (if e.id == id then [e] else [])
  }

  /** Open, answer, open, answer, ... */
  predicate Alternating(es: seq<Event>) {
    forall i | 0 <= i < |es| :: es[i].Open? <==> i % 2 == 0
  }

  predicate Matched(es: seq<Event>) {
    Alternating(es) && |es| % 2 == 0
  }

  ghost predicate AllAlternating(es: seq<Event>) {
    forall id: string :: Alternating(Of(es, id))
  }

  ghost predicate AllMatched(es: seq<Event>) {
    forall id: string :: Matched(Of(es, id))
  }

  predicate EachConverts(ms: seq<InMessage>) {
    forall i | 0 <= i < |ms| :: ConvertOne(ms[i]).Ok?
  }

  // ---- Scanning events with a set of open ids ----

  function Scan(pending: set<string>, es: seq<Event>): Option<set<string>> {
    if es == [] then Some(pending) else
      var r := Scan(pending, es[..|es| - 1]);
      var e := es[|es| - 1];
      if r.None? || (e.id in r.value) == e.Open? then None
      else Some(if e.Open? then r.value + {e.id} else r.value - {e.id})
  }

  lemma {:induction false} ScanSplits(pending: set<string>, a: seq<Event>, b: seq<Event>)
    ensures Scan(pending, a + b) == (var r := Scan(pending, a); if r.None? then None else Scan(r.value, b))
  {
    if b == [] {
      assert a + b == a;
    } else {
      assert (a + b)[..|a + b| - 1] == a + b[..|b| - 1];
      ScanSplits(pending, a, b[..|b| - 1]);
    }
  }

  /** One more event concerns its own id only. */
  lemma AllAlternatingStep(es: seq<Event>)
    requires es != []
    ensures var init, e := es[..|es| - 1], es[|es| - 1];
      AllAlternating(es) <==> AllAlternating(init) && (e.Open? <==> |Of(init, e.id)| % 2 == 0)
  {
    var init, e := es[..|es| - 1], es[|es| - 1];
    AlternatingGrows(Of(init, e.id), e);
    assert Of(es, e.id) == Of(init, e.id) + [e];
    if AllAlternating(es) {
      assert Alternating(Of(es, e.id));
      forall id: string ensures Alternating(Of(init, id)) {
        assert Alternating(Of(es, id));
        if id != e.id { assert Of(es, id) == Of(init, id); }
      }
    }
    if AllAlternating(init) && (e.Open? <==> |Of(init, e.id)| % 2 == 0) {
      forall id: string ensures Alternating(Of(es, id)) {
        assert Alternating(Of(init, id));
        if id != e.id { assert Of(es, id) == Of(init, id); }
      }
    }
  }

  /** An id is open exactly after an odd number of its own events. */
  lemma {:induction false} OpenIsOdd(es: seq<Event>, id: string)
    requires Scan({}, es).Some?
    ensures id in Scan({}, es).value <==> |Of(es, id)| % 2 == 1
  {
    if es == [] {
    } else {
      OpenIsOdd(es[..|es| - 1], id);
      OpenIsOdd(es[..|es| - 1], es[|es| - 1].id);
    }
  }

  /** The scan succeeds exactly when the events of each id alternate. */
  lemma {:induction false} ScanMeaning(es: seq<Event>)
    ensures Scan({}, es).Some? <==> AllAlternating(es)
  {
    if es == [] {
    } else {
      var init := es[..|es| - 1];
      ScanMeaning(init);
      AllAlternatingStep(es);
      if Scan({}, init).Some? { OpenIsOdd(init, es[|es| - 1].id); }
    }
  }

  lemma AlternatingGrows(es: seq<Event>, e: Event)
    ensures Alternating(es + [e]) <==> Alternating(es) && (e.Open? <==> |es| % 2 == 0)
  {
    if Alternating(es + [e]) {
      assert (es + [e])[|es|] == e;
      assert forall i | 0 <= i < |es| :: (es + [e])[i] == es[i];
    }
  }

  // ---- The bookkeeping is a scan ----

  lemma {:induction false} OpeningIsScanning(pending: set<string>, calls: seq<Call>)
    ensures var r, s := OpenIds(pending, calls), Scan(pending, Opens(calls));
      (r.Ok? <==> s.Some?) && (r.Ok? ==> r.value == s.value)
  {
    if calls == [] {
    } else {
      var init := calls[..|calls| - 1];
      OpeningIsScanning(pending, init);
      assert Opens(calls)[..|calls| - 1] == Opens(init);
    }
  }

  lemma {:induction false} SettlingIsScanning(pending: set<string>, ms: seq<Message>)
    ensures var r, s := Settle(pending, ms), Scan(pending, WireEvents(ms));
      (r.Ok? <==> s.Some?) && (r.Ok? ==> r.value == s.value)
  {
    if ms == [] {
    } else {
      var init, m := ms[..|ms| - 1], ms[|ms| - 1];
      SettlingIsScanning(pending, init);
      ScanSplits(pending, WireEvents(init), MessageEvents(m));
      var r := Settle(pending, init);
      if r.Ok? {
        if m.Assistant? { OpeningIsScanning(r.value, m.calls); }
        if m.Tool? { assert [Answer(m.callId)][..0] == []; }
      }
    }
  }

  // ---- The events survive conversion ----

  lemma {:induction false} WireEventsSplit(a: seq<Message>, b: seq<Message>)
    ensures WireEvents(a + b) == WireEvents(a) + WireEvents(b)
  {
    if b == [] {
      assert a + b == a;
    } else {
      assert (a + b)[..|a + b| - 1] == a + b[..|b| - 1];
      WireEventsSplit(a, b[..|b| - 1]);
      Regroup(WireEvents(a), WireEvents(b[..|b| - 1]), MessageEvents(b[|b| - 1]));
    }
  }

  lemma {:induction false} UserToolsAreTools(blocks: seq<Block>)
    requires UserBlocks(blocks).Ok?
    ensures forall i | 0 <= i < |UserBlocks(blocks).value.tools| :: UserBlocks(blocks).value.tools[i].Tool?
  {
    if blocks == [] {
    } else {
      UserToolsAreTools(blocks[..|blocks| - 1]);
    }
  }

  lemma WireEventsAppend(ms: seq<Message>, m: Message)
    ensures WireEvents(ms + [m]) == WireEvents(ms) + MessageEvents(m)
  {
    assert (ms + [m])[..|ms + [m]| - 1] == ms;
  }

  lemma OtherUserStep(u: UserParts, b: Block)
    requires !b.ToolResultBlock? && UserStep(u, b).Ok?
    ensures UserStep(u, b).value.tools == u.tools && BlockEvent(b) == []
  {
  }

  lemma {:induction false} UserBlockEvents(blocks: seq<Block>)
    requires UserBlocks(blocks).Ok?
    ensures WireEvents(UserBlocks(blocks).value.tools) == BlockEvents(blocks)
  {
    if blocks == [] {
    } else {
      var init, b := blocks[..|blocks| - 1], blocks[|blocks| - 1];
      UserBlockEvents(init);
      var tools := UserBlocks(init).value.tools;
      if b.ToolResultBlock? {
        WireEventsAppend(tools, Tool(b.toolUseId, b.result.value));
      } else {
        OtherUserStep(UserBlocks(init).value, b);
        assert BlockEvents(blocks) == BlockEvents(init);
      }
    }
  }

  lemma {:induction false} AssistantBlockEvents(blocks: seq<Block>)
    requires AssistantBlocks(blocks).Ok?
    ensures Opens(AssistantBlocks(blocks).value.calls) == BlockEvents(blocks)
  {
    if blocks == [] {
    } else {
      var init, b := blocks[..|blocks| - 1], blocks[|blocks| - 1];
      AssistantBlockEvents(init);
    }
  }

  lemma SingleEvents(m: Message)
    ensures WireEvents([m]) == MessageEvents(m)
  {
    assert [m][..0] == [];
    assert WireEvents([m][..0]) == [];
  }

  lemma ConvertOneEvents(m: InMessage)
    requires ConvertOne(m).Ok?
    ensures WireEvents(ConvertOne(m).value) == TurnEvents(m)
  {
    if m.role == "user" && m.content.Blocks? {
      UserBlockEvents(m.content.blocks);
      var u := UserBlocks(m.content.blocks).value;
      WireEventsSplit(u.tools, HumanMessage(u.ordinary));
      if u.ordinary != [] { SingleEvents(HumanMessage(u.ordinary)[0]); }
    } else if m.role == "assistant" && m.content.Blocks? {
      AssistantBlockEvents(m.content.blocks);
      SingleEvents(SegmentMessage(AssistantBlocks(m.content.blocks).value));
    } else {
      SingleEvents(ConvertOne(m).value[0]);
    }
  }

  /** The converted messages, before ids are checked. */
  function Flat(ms: seq<InMessage>): seq<Message>
    requires EachConverts(ms)
  {
    if ms == [] then [] else Flat(ms[..|ms| - 1]) + ConvertOne(ms[|ms| - 1]).value
  }

  lemma {:induction false} FlatEvents(ms: seq<InMessage>)
    requires EachConverts(ms)
    ensures WireEvents(Flat(ms)) == RequestEvents(ms)
  {
    if ms == [] {
    } else {
      var init, m := ms[..|ms| - 1], ms[|ms| - 1];
      FlatEvents(init);
      WireEventsSplit(Flat(init), ConvertOne(m).value);
      ConvertOneEvents(m);
    }
  }

  lemma EachConvertsLast(ms: seq<InMessage>)
    requires ms != []
    ensures EachConverts(ms) <==> EachConverts(ms[..|ms| - 1]) && ConvertOne(ms[|ms| - 1]).Ok?
  {
    var init := ms[..|ms| - 1];
    assert forall i | 0 <= i < |init| :: init[i] == ms[i];
    if EachConverts(init) && ConvertOne(ms[|ms| - 1]).Ok? {
      forall i | 0 <= i < |ms| ensures ConvertOne(ms[i]).Ok? {
        if i < |init| { assert ConvertOne(init[i]).Ok?; }
      }
    }
  }

  lemma {:induction false} PrefixMeaning(ms: seq<InMessage>)
    ensures ConvertPrefix(ms).Ok? <==> EachConverts(ms) && Scan({}, RequestEvents(ms)).Some?
    ensures ConvertPrefix(ms).Ok? ==>
      ConvertPrefix(ms).value == Progress(Flat(ms), Scan({}, RequestEvents(ms)).value)
  {
    if ms == [] {
    } else {
      var init, m := ms[..|ms| - 1], ms[|ms| - 1];
      PrefixMeaning(init);
      EachConvertsLast(ms);
      ScanSplits({}, RequestEvents(init), TurnEvents(m));
      if ConvertOne(m).Ok? {
        ConvertOneEvents(m);
        if ConvertPrefix(init).Ok? { SettlingIsScanning(ConvertPrefix(init).value.pending, ConvertOne(m).value); }
      }
    }
  }

  // ---- Ids are matched ----

  /**
   A request is accepted exactly when each message converts by itself and the tool blocks of every id
   read: used, answered, used, answered, ..., answered.
   */
  lemma AcceptedIffMatched(ms: seq<InMessage>)
    ensures ConvertMessages(ms).Ok? <==> EachConverts(ms) && AllMatched(RequestEvents(ms))
  {
    PrefixMeaning(ms);
    ScanEmpties(RequestEvents(ms));
  }

  lemma ScanEmpties(es: seq<Event>)
    ensures Scan({}, es) == Some({}) <==> AllMatched(es)
  {
    ScanMeaning(es);
    if Scan({}, es) == Some({}) {
      forall id: string ensures Matched(Of(es, id)) {
        OpenIsOdd(es, id);
        assert Alternating(Of(es, id));
      }
    }
    if AllMatched(es) {
      forall id: string ensures Alternating(Of(es, id)) {
        assert Matched(Of(es, id));
      }
      assert AllAlternating(es);
      var open := Scan({}, es).value;
      forall id: string ensures id !in open {
        assert Matched(Of(es, id));
        OpenIsOdd(es, id);
      }
      assert open == {};
    }
  }

  /** On success the wire carries the request's tool events, in order, with nothing else in between. */
  lemma IdsSurvive(ms: seq<InMessage>)
    requires ConvertMessages(ms).Ok?
    ensures WireEvents(ConvertMessages(ms).value) == RequestEvents(ms)
    ensures AllMatched(WireEvents(ConvertMessages(ms).value))
  {
    PrefixMeaning(ms);
    FlatEvents(ms);
    AcceptedIffMatched(ms);
  }

  /** A user turn: its tool results, then at most one message of human content. */
  lemma ResultsBeforeHumanContent(content: InContent)
    requires ConvertUser(content).Ok?
    ensures var r := ConvertUser(content).value;
      forall i | 0 <= i < |r| :: if i < |r| - 1 then r[i].Tool? else r[i].Tool? || r[i].User?
  {
    if content.Blocks? { UserToolsAreTools(content.blocks); }
  }

  /**
   A result need not be in the next message: any messages without tool blocks may come first,
   although the comments speak of the immediately following one.
   */
  lemma ResultMayComeLate(id: string, name: string, between: seq<InMessage>, result: Content)
    requires id != "" && name != ""
    requires EachConverts(between) && RequestEvents(between) == []
    ensures var call := InMessage("assistant", Blocks([ToolUseBlock(None, id, name, None)]));
      var answer := InMessage("user", Blocks([ToolResultBlock(None, id, Some(result))]));
      ConvertMessages([call] + between + [answer]).Ok?
  {
    var call := InMessage("assistant", Blocks([ToolUseBlock(None, id, name, None)]));
    var answer := InMessage("user", Blocks([ToolResultBlock(None, id, Some(result))]));
    LoneCall(id, name);
    LoneResult(id, result);
    var ms := [call] + between + [answer];
    var most := [call] + between;
    forall i | 0 <= i < |most| ensures ConvertOne(most[i]).Ok? {
      if i > 0 { assert most[i] == between[i - 1]; }
    }
    EachConvertsLast(ms);
    assert ms[..|ms| - 1] == most;
    RequestEventsSplit([call], between);
    assert [call][..0] == [];
    assert RequestEvents([call]) == [] + TurnEvents(call);
    assert RequestEvents(most) == [Open(id)];
    assert RequestEvents(ms) == [Open(id), Answer(id)];
    CallThenResult(id);
    AcceptedIffMatched(ms);
  }

  lemma LoneCall(id: string, name: string)
    requires id != "" && name != ""
    ensures var call := InMessage("assistant", Blocks([ToolUseBlock(None, id, name, None)]));
      ConvertOne(call).Ok? && TurnEvents(call) == [Open(id)]
  {
    var blocks := [ToolUseBlock(None, id, name, None)];
    assert blocks[..0] == [];
    assert AssistantBlocks(blocks[..0]) == Ok(EMPTY_SEGMENT) && BlockEvents(blocks[..0]) == [];
    assert AssistantBlocks(blocks) == AssistantStep(EMPTY_SEGMENT, blocks[0]);
    assert BlockEvents(blocks) == [] + BlockEvent(blocks[0]);
  }

  lemma LoneResult(id: string, result: Content)
    requires id != ""
    ensures var answer := InMessage("user", Blocks([ToolResultBlock(None, id, Some(result))]));
      ConvertOne(answer).Ok? && TurnEvents(answer) == [Answer(id)]
  {
    var blocks := [ToolResultBlock(None, id, Some(result))];
    assert blocks[..0] == [];
    assert UserBlocks(blocks[..0]) == Ok(UserParts([], [])) && BlockEvents(blocks[..0]) == [];
    assert UserBlocks(blocks) == UserStep(UserParts([], []), blocks[0]);
    assert BlockEvents(blocks) == [] + BlockEvent(blocks[0]);
  }

  lemma CallThenResult(id: string)
    ensures AllMatched([Open(id), Answer(id)])
  {
    var es := [Open(id), Answer(id)];
    forall other: string ensures Matched(Of(es, other)) {
      assert es[..1] == [Open(id)] && es[..1][..0] == [];
      assert Of(es[..1][..0], other) == [];
      assert Of(es[..1], other) == if other == id then [Open(id)] else [];
    }
  }

  lemma {:induction false} RequestEventsSplit(a: seq<InMessage>, b: seq<InMessage>)
    ensures RequestEvents(a + b) == RequestEvents(a) + RequestEvents(b)
  {
    if b == [] {
      assert a + b == a;
    } else {
      var init, m := b[..|b| - 1], b[|b| - 1];
      assert (a + b)[..|a + b| - 1] == a + init;
      RequestEventsSplit(a, init);
      Regroup(RequestEvents(a), RequestEvents(init), TurnEvents(m));
    }
  }

  // ---- Stripping before and after conversion ----

  predicate Speaks(b: Block) {
    b.MediaBlock? || (b.TextBlock? && b.text.GetOr("") != "")
  }

  /** The input messages that become a chat message of role user. */
  predicate YieldsUser(m: InMessage) {
    m.InMessage? &&
    (m.role == "system" || m.role == "developer" ||
     (m.role == "user" && (m.content.Text? || (m.content.Blocks? && exists i | 0 <= i < |m.content.blocks| :: Speaks(m.content.blocks[i])))))
  }

  /** The wire's epoch boundary, read off the request. */
  function WireBoundary(ms: seq<InMessage>): nat {
    LastWhere(ms, (m: InMessage) => YieldsUser(m))
  }

  predicate HasThinking(blocks: seq<Block>) {
    exists i | 0 <= i < |blocks| :: blocks[i].ThinkingBlock? && blocks[i].thinking.Some?
  }

  predicate CarriesThinking(m: InMessage) {
    m.InMessage? && m.role == "assistant" && m.content.Blocks? && HasThinking(m.content.blocks)
  }

  lemma {:induction false} UserPartsSpeak(blocks: seq<Block>)
    requires UserBlocks(blocks).Ok?
    ensures UserBlocks(blocks).value.ordinary == [] <==> forall i | 0 <= i < |blocks| :: !Speaks(blocks[i])
  {
    if blocks == [] {
    } else {
      UserPartsSpeak(blocks[..|blocks| - 1]);
    }
  }

  /** A user message appears at most once, last, and exactly for the messages that yield one. */
  lemma UserComesLast(m: InMessage)
    requires ConvertOne(m).Ok?
    ensures var r := ConvertOne(m).value;
      (forall i | 0 <= i < |r| - 1 :: !r[i].User?) &&
      (YieldsUser(m) ==> r != [] && r[|r| - 1].User? && StrippedAll(r) == r) &&
      (!YieldsUser(m) ==> forall i | 0 <= i < |r| :: !r[i].User?)
  {
    if m.role == "user" && m.content.Blocks? {
      UserToolsAreTools(m.content.blocks);
      UserPartsSpeak(m.content.blocks);
    }
  }

  lemma {:induction false} FlatSplits(a: seq<InMessage>, b: seq<InMessage>)
    requires EachConverts(a) && EachConverts(b)
    ensures EachConverts(a + b) && Flat(a + b) == Flat(a) + Flat(b)
  {
    if b == [] {
      assert a + b == a;
    } else {
      var init := b[..|b| - 1];
      assert (a + b)[..|a + b| - 1] == a + init;
      FlatSplits(a, init);
      EachConvertsLast(a + b);
      Regroup(Flat(a), Flat(init), ConvertOne(b[|b| - 1]).value);
    }
  }

  lemma {:induction false} NoUserInside(ms: seq<InMessage>)
    requires EachConverts(ms) && forall i | 0 <= i < |ms| :: !YieldsUser(ms[i])
    ensures forall j | 0 <= j < |Flat(ms)| :: !Flat(ms)[j].User?
  {
    if ms == [] {
    } else {
      NoUserInside(ms[..|ms| - 1]);
      UserComesLast(ms[|ms| - 1]);
    }
  }

  /** The converted request with everything before message `n` stripped of reasoning. */
  function StrippedTo(ms: seq<InMessage>, n: nat): seq<Message>
    requires EachConverts(ms) && n <= |ms|
  {
    StrippedAll(Flat(ms[..n])) + Flat(ms[n..])
  }

  /** Stripping a message list whose last user message is `user`. */
  lemma StripAt(before: seq<Message>, user: Message, rest: seq<Message>)
    requires user.User? && forall i | 0 <= i < |rest| :: !rest[i].User?
    ensures StripHistorical(before + [user] + rest) == StrippedAll(before) + [user] + rest
  {
    var ms := before + [user] + rest;
    assert ms[|before|] == user;
    forall i | |before| < i < |ms| ensures !ms[i].User? {
      assert ms[i] == rest[i - |before| - 1];
    }
    assert EpochBoundary(ms) == |before|;
    assert ms[..|before|] == before && ms[|before|..] == [user] + rest;
  }

  lemma StripNone(ms: seq<Message>)
    requires forall i | 0 <= i < |ms| :: !ms[i].User?
    ensures StripHistorical(ms) == StrippedAll(ms)
  {
    assert EpochBoundary(ms) == |ms|;
    assert ms[..|ms|] == ms && ms[|ms|..] == [];
  }

  /** Stripping a message list whose last user message is the last message of a converted turn. */
  lemma StripAtTurn(before: seq<Message>, m: InMessage, rest: seq<Message>)
    requires ConvertOne(m).Ok? && YieldsUser(m) && forall i | 0 <= i < |rest| :: !rest[i].User?
    ensures var turn := ConvertOne(m).value;
      StripHistorical(before + (turn + rest)) == StrippedAll(before) + (turn + rest)
  {
    UserComesLast(m);
    var turn := ConvertOne(m).value;
    var tools, user := turn[..|turn| - 1], turn[|turn| - 1];
    assert turn == tools + [user];
    StripAt(before + tools, user, rest);
    StrippedConcat(before, tools);
    StrippedConcat(tools, [user]);
    SplitEqual(StrippedAll(tools), StrippedAll([user]), tools, [user]);
    Around(before, tools, user, rest);
    Around(StrippedAll(before), tools, user, rest);
  }

  lemma Around<T>(a: seq<T>, b: seq<T>, x: T, c: seq<T>)
    ensures a + ((b + [x]) + c) == (a + b) + [x] + c
  {
  }

  lemma StrippedConcat(a: seq<Message>, b: seq<Message>)
    ensures StrippedAll(a + b) == StrippedAll(a) + StrippedAll(b)
  {
  }

  lemma FlatOne(m: InMessage)
    requires ConvertOne(m).Ok?
    ensures Flat([m]) == ConvertOne(m).value
  {
    assert [m][..0] == [];
    assert Flat([m]) == Flat([m][..0]) + ConvertOne(m).value;
  }

  lemma FlatAround(before: seq<InMessage>, m: InMessage, rest: seq<InMessage>)
    requires EachConverts(before) && ConvertOne(m).Ok? && EachConverts(rest)
    ensures EachConverts([m] + rest) && Flat([m] + rest) == ConvertOne(m).value + Flat(rest)
    ensures EachConverts(before + ([m] + rest))
    ensures Flat(before + ([m] + rest)) == Flat(before) + (ConvertOne(m).value + Flat(rest))
  {
    FlatOne(m);
    FlatSplits([m], rest);
    FlatSplits(before, [m] + rest);
  }

  lemma WireStripsAround(before: seq<InMessage>, m: InMessage, rest: seq<InMessage>)
    requires EachConverts(before) && ConvertOne(m).Ok? && EachConverts(rest)
    requires YieldsUser(m) && forall i | 0 <= i < |rest| :: !YieldsUser(rest[i])
    ensures EachConverts([m] + rest) && EachConverts(before + ([m] + rest))
    ensures StripHistorical(Flat(before + ([m] + rest))) == StrippedAll(Flat(before)) + Flat([m] + rest)
  {
    FlatAround(before, m, rest);
    NoUserInside(rest);
    StripAtTurn(Flat(before), m, Flat(rest));
  }

  lemma SlicesConvert(ms: seq<InMessage>, lo: nat, hi: nat)
    requires EachConverts(ms) && lo <= hi <= |ms|
    ensures EachConverts(ms[lo..hi])
  {
  }

  /** The wire path strips up to the wire boundary. */
  lemma WireStrips(ms: seq<InMessage>)
    requires EachConverts(ms)
    ensures StripHistorical(Flat(ms)) == StrippedTo(ms, WireBoundary(ms))
  {
    var w := WireBoundary(ms);
    Cut(ms, w);
    if w == |ms| {
      NoUserInside(ms);
      StripNone(Flat(ms));
      assert ms[..w] == ms;
    } else {
      SlicesConvert(ms, 0, w);
      SlicesConvert(ms, w + 1, |ms|);
      WireStripsAround(ms[..w], ms[w], ms[w + 1..]);
    }
  }

  lemma AssistantBlocksAppend(blocks: seq<Block>, b: Block)
    requires AssistantBlocks(blocks).Ok?
    ensures AssistantBlocks(blocks + [b]) == AssistantStep(AssistantBlocks(blocks).value, b)
  {
    assert (blocks + [b])[..|blocks + [b]| - 1] == blocks;
  }

  lemma {:induction false} WithoutThinkingConverts(blocks: seq<Block>)
    requires AssistantBlocks(blocks).Ok?
    ensures AssistantBlocks(WithoutThinking(blocks)) == Ok(AssistantBlocks(blocks).value.(reasonings := []))
  {
    if blocks == [] {
    } else {
      var init, b := blocks[..|blocks| - 1], blocks[|blocks| - 1];
      WithoutThinkingConverts(init);
      if b.ThinkingBlock? {
        assert WithoutThinking(blocks) == WithoutThinking(init);
      } else {
        AssistantBlocksAppend(WithoutThinking(init), b);
      }
    }
  }

  lemma {:induction false} ThinkingBecomesReasoning(blocks: seq<Block>)
    requires AssistantBlocks(blocks).Ok?
    ensures AssistantBlocks(blocks).value.reasonings == [] <==> !HasThinking(blocks)
  {
    if blocks == [] {
    } else {
      var init, b := blocks[..|blocks| - 1], blocks[|blocks| - 1];
      ThinkingBecomesReasoning(init);
      assert HasThinking(blocks) <==> HasThinking(init) || (b.ThinkingBlock? && b.thinking.Some?);
    }
  }

  /** Dropping thinking blocks, then converting, is converting, then dropping reasoning. */
  lemma ThinkingStrippedConverts(m: InMessage)
    requires ConvertOne(m).Ok?
    ensures ConvertOne(ThinkingStripped(m)) == Ok(StrippedAll(ConvertOne(m).value))
    ensures StrippedAll(ConvertOne(m).value) == ConvertOne(m).value <==> !CarriesThinking(m)
  {
    if m.role == "assistant" && m.content.Blocks? {
      WithoutThinkingConverts(m.content.blocks);
      ThinkingBecomesReasoning(m.content.blocks);
      var s := AssistantBlocks(m.content.blocks).value;
      assert StrippedAll([SegmentMessage(s)]) == [SegmentMessage(s.(reasonings := []))];
    } else if m.role == "user" && m.content.Blocks? {
      UserToolsAreTools(m.content.blocks);
      assert StrippedAll(ConvertOne(m).value) == ConvertOne(m).value;
    } else {
      assert StrippedAll(ConvertOne(m).value) == ConvertOne(m).value;
    }
  }

  lemma {:induction false} StrippedMessagesConvert(ms: seq<InMessage>)
    requires EachConverts(ms)
    ensures EachConverts(ThinkingStrippedAll(ms)) && Flat(ThinkingStrippedAll(ms)) == StrippedAll(Flat(ms))
  {
    if ms == [] {
    } else {
      var init, m := ms[..|ms| - 1], ms[|ms| - 1];
      StrippedMessagesConvert(init);
      ThinkingStrippedConverts(m);
      var after := ThinkingStrippedAll(ms);
      assert after[..|after| - 1] == ThinkingStrippedAll(init);
      EachConvertsLast(after);
      StrippedConcat(Flat(init), ConvertOne(m).value);
    }
  }

  predicate Thoughtless(ms: seq<InMessage>) {
    forall i | 0 <= i < |ms| :: !CarriesThinking(ms[i])
  }

  lemma {:induction false} StrippingChangesThinking(ms: seq<InMessage>)
    requires EachConverts(ms)
    ensures StrippedAll(Flat(ms)) == Flat(ms) <==> Thoughtless(ms)
  {
    if ms == [] {
    } else {
      var init, m := ms[..|ms| - 1], ms[|ms| - 1];
      StrippingChangesThinking(init);
      ThinkingStrippedConverts(m);
      var a, b := Flat(init), ConvertOne(m).value;
      assert Flat(ms) == a + b;
      StrippedConcat(a, b);
      SplitEqual(StrippedAll(a), StrippedAll(b), a, b);
      ThoughtlessLast(ms);
    }
  }

  lemma ThoughtlessLast(ms: seq<InMessage>)
    requires ms != []
    ensures Thoughtless(ms) <==> Thoughtless(ms[..|ms| - 1]) && !CarriesThinking(ms[|ms| - 1])
  {
    assert forall i | 0 <= i < |ms| - 1 :: ms[..|ms| - 1][i] == ms[i];
  }

  lemma {:induction false} StrippedEvents(ms: seq<Message>)
    ensures WireEvents(StrippedAll(ms)) == WireEvents(ms)
  {
    if ms == [] {
    } else {
      StrippedEvents(ms[..|ms| - 1]);
      assert StrippedAll(ms)[..|ms| - 1] == StrippedAll(ms[..|ms| - 1]);
    }
  }

  /** Token counting strips up to its own boundary, and what it strips is still an accepted request. */
  lemma CountingStrips(ms: seq<InMessage>)
    requires ConvertMessages(ms).Ok?
    ensures EachConverts(ms)
    ensures ConvertMessages(StripThinking(ms)) == Ok(StrippedTo(ms, AnthropicBoundary(ms)))
  {
    PrefixMeaning(ms);
    var b := AnthropicBoundary(ms);
    var before, rest := ms[..b], ms[b..];
    assert ms == before + rest;
    StrippedMessagesConvert(before);
    FlatSplits(before, rest);
    FlatSplits(ThinkingStrippedAll(before), rest);
    FlatEvents(ms);
    FlatEvents(StripThinking(ms));
    WireEventsSplit(Flat(before), Flat(rest));
    WireEventsSplit(StrippedAll(Flat(before)), Flat(rest));
    StrippedEvents(Flat(before));
    PrefixMeaning(StripThinking(ms));
  }

  lemma StrippingFurther(a: seq<InMessage>, mid: seq<InMessage>, c: seq<InMessage>)
    requires EachConverts(a) && EachConverts(mid) && EachConverts(c)
    ensures EachConverts(mid + c) && EachConverts(a + mid)
    ensures StrippedAll(Flat(a)) + Flat(mid + c) == StrippedAll(Flat(a + mid)) + Flat(c) <==> Thoughtless(mid)
  {
    FlatSplits(a, mid);
    FlatSplits(mid, c);
    StrippingChangesThinking(mid);
    var fa, fm, fc := Flat(a), Flat(mid), Flat(c);
    StrippedConcat(fa, fm);
    Regroup(StrippedAll(fa), StrippedAll(fm), fc);
    SplitEqual(StrippedAll(fa), fm + fc, StrippedAll(fa), StrippedAll(fm) + fc);
    SplitEqual(fm, fc, StrippedAll(fm), fc);
  }

  /** Two boundaries give the same messages exactly when nothing between them carries thinking. */
  lemma BoundariesAgree(ms: seq<InMessage>, lo: nat, hi: nat)
    requires EachConverts(ms) && lo <= hi <= |ms|
    ensures StrippedTo(ms, lo) == StrippedTo(ms, hi) <==> forall i | lo <= i < hi :: !CarriesThinking(ms[i])
  {
    var mid := ms[lo..hi];
    CutTwice(ms, lo, hi);
    SlicesConvert(ms, 0, lo);
    SlicesConvert(ms, lo, hi);
    SlicesConvert(ms, hi, |ms|);
    StrippingFurther(ms[..lo], mid, ms[hi..]);
    assert forall i | 0 <= i < |mid| :: mid[i] == ms[lo + i];
  }

  /**
   Token counting sees the messages the wire sees exactly when no assistant thinking lies between
   the two boundaries.
   */
  lemma CountingSeesTheWire(ms: seq<InMessage>)
    requires ConvertMessages(ms).Ok?
    ensures ConvertMessages(StripThinking(ms)) == Ok(StripHistorical(ConvertMessages(ms).value)) <==>
      forall i | AnthropicBoundary(ms) <= i < WireBoundary(ms) || WireBoundary(ms) <= i < AnthropicBoundary(ms) ::
        !CarriesThinking(ms[i])
  {
    PrefixMeaning(ms);
    WireStrips(ms);
    CountingStrips(ms);
    var b, w := AnthropicBoundary(ms), WireBoundary(ms);
    if b <= w { BoundariesAgree(ms, b, w); } else { BoundariesAgree(ms, w, b); }
  }

  function ThinkingTurn(thought: string): InMessage {
    InMessage("assistant", Blocks([ThinkingBlock(None, Some(thought))]))
  }

  function Reminded(text: string, thought: string, reminder: string): seq<InMessage> {
    [InMessage("user", Text(text)), ThinkingTurn(thought), InMessage("system", Text(reminder))]
  }

  lemma RemindedAccepted(text: string, thought: string, reminder: string)
    ensures ConvertMessages(Reminded(text, thought, reminder)).Ok?
  {
    var ms := Reminded(text, thought, reminder);
    ThinkingTurnConverts(thought);
    NoToolEvents(ms);
    AcceptedIffMatched(ms);
  }

  lemma RemindedBoundaries(text: string, thought: string, reminder: string)
    requires text != ""
    ensures var ms := Reminded(text, thought, reminder); AnthropicBoundary(ms) == 0 && WireBoundary(ms) == 2
  {
    var ms := Reminded(text, thought, reminder);
    assert IsHuman(ms[0]) && !IsHuman(ms[1]) && !IsHuman(ms[2]);
    assert YieldsUser(ms[2]);
  }

  /**
   Not so in general: after a user text and an assistant turn with thinking, a system message is a user
   message on the wire, and counting does not see it; it keeps thinking that the wire drops.
   */
  lemma ReminderDivides(text: string, thought: string, reminder: string)
    requires text != ""
    ensures var ms := Reminded(text, thought, reminder);
      ConvertMessages(ms).Ok? && ConvertMessages(StripThinking(ms)) != Ok(StripHistorical(ConvertMessages(ms).value))
  {
    var ms := Reminded(text, thought, reminder);
    RemindedAccepted(text, thought, reminder);
    RemindedBoundaries(text, thought, reminder);
    CountingSeesTheWire(ms);
    ThinkingTurnConverts(thought);
    assert CarriesThinking(ms[1]);
  }

  lemma ThinkingTurnConverts(thought: string)
    ensures var turn := ThinkingTurn(thought);
      ConvertOne(turn).Ok? && TurnEvents(turn) == [] && CarriesThinking(turn)
  {
    var blocks := [ThinkingBlock(None, Some(thought))];
    assert blocks[..0] == [] && blocks[0].ThinkingBlock?;
    assert AssistantBlocks(blocks[..0]) == Ok(EMPTY_SEGMENT);
    assert AssistantBlocks(blocks).Ok?;
    assert BlockEvents(blocks[..0]) == [] && BlockEvents(blocks) == [] + [];
  }

  lemma {:induction false} NoToolEvents(ms: seq<InMessage>)
    requires forall i | 0 <= i < |ms| :: TurnEvents(ms[i]) == []
    ensures RequestEvents(ms) == [] && AllMatched(RequestEvents(ms))
  {
    if ms != [] { NoToolEvents(ms[..|ms| - 1]); }
  }

  predicate IsEmptyText(b: Block) {
    b.TextBlock? && b.text.GetOr("") == ""
  }

  /** Not a system or developer message, and no user text that is empty. */
  predicate IsPlain(m: InMessage) {
    m.InMessage? ==>
      m.role != "system" && m.role != "developer" &&
      (m.role == "user" ==>
        m.content != Text("") &&
        (m.content.Blocks? ==> forall j | 0 <= j < |m.content.blocks| :: !IsEmptyText(m.content.blocks[j])))
  }

  predicate PlainHistory(ms: seq<InMessage>) {
    forall i | 0 <= i < |ms| :: IsPlain(ms[i])
  }

  lemma {:induction false} AcceptedUserBlocks(blocks: seq<Block>, i: nat)
    requires UserBlocks(blocks).Ok? && i < |blocks|
    ensures blocks[i].TextBlock? || blocks[i].MediaBlock? || blocks[i].ToolResultBlock?
  {
    if i < |blocks| - 1 { AcceptedUserBlocks(blocks[..|blocks| - 1], i); }
  }

  /** On such a history the two boundaries are the same message. */
  lemma PlainBoundaries(ms: seq<InMessage>)
    requires EachConverts(ms) && PlainHistory(ms)
    ensures AnthropicBoundary(ms) == WireBoundary(ms)
  {
    forall i | 0 <= i < |ms| ensures IsHuman(ms[i]) <==> YieldsUser(ms[i]) {
      var m := ms[i];
      assert IsPlain(m) && ConvertOne(m).Ok?;
      if m.role == "user" && m.content.Blocks? {
        forall j | 0 <= j < |m.content.blocks| ensures m.content.blocks[j].ToolResultBlock? <==> !Speaks(m.content.blocks[j]) {
          AcceptedUserBlocks(m.content.blocks, j);
        }
      }
    }
  }

  /** There, counting tokens and calling upstream always see the same messages. */
  lemma PlainCountingSeesTheWire(ms: seq<InMessage>)
    requires ConvertMessages(ms).Ok? && PlainHistory(ms)
    ensures ConvertMessages(StripThinking(ms)) == Ok(StripHistorical(ConvertMessages(ms).value))
  {
    PrefixMeaning(ms);
    PlainBoundaries(ms);
    CountingSeesTheWire(ms);
  }
}
