/** What an accepted Anthropic request says is what the wire says: every text, result, thought and call, in order. */
module AnthropicContent {
  import opened Wrappers
  import opened Sequences
  import opened ChatPolicy
  import opened AnthropicRequest
  import opened AnthropicRequestTheorems
  import CanonicalJson

  // ---- What there is to say ----

  datatype Utterance =
    | Human(parts: seq<Part>)
    | Result(id: string, content: Content)
    | Reply(text: Option<string>, reasoning: Option<string>, calls: seq<Call>)
    | Prompt(prompt: string)

  /** One message on the wire. */
  function WireSays(m: Message): Utterance {
    match m
    case User(Plain(text)) => Human([TextPart(text)])
    case User(Rich(parts)) => Human(parts)
    case Tool(id, content) => Result(id, content)
    case Assistant(text, reasoning, calls) => Reply(text, reasoning, calls)
    case System(prompt) => Prompt(prompt)
  }

  function WireSaysAll(ms: seq<Message>): seq<Utterance> {
    seq(|ms|, i requires 0 <= i < |ms| => WireSays(ms[i]))
  }

  /** Lines with a separator in between. */
  function Lines(texts: seq<string>, separator: string): string {
    if texts == [] then "" else if |texts| == 1 then texts[0] else texts[0] + separator + Lines(texts[1..], separator)
  }

  /** The text blocks that are not empty, and the media, in order. */
  function HumanParts(blocks: seq<Block>): seq<Part> {
    if blocks == [] then [] else
      HumanParts(blocks[..|blocks| - 1]) +
      match blocks[|blocks| - 1]
      case TextBlock(Some(text)) => if text == "" then [] else [TextPart(text)]
      case MediaBlock(_, Some(payload)) => [MediaPart(payload)]
      case _ => []
  }

  function Results(blocks: seq<Block>): seq<Utterance> {
    if blocks == [] then [] else
      Results(blocks[..|blocks| - 1]) +
      match blocks[|blocks| - 1]
      case ToolResultBlock(_, id, Some(content)) => [Result(id, content)]
      case _ => []
  }

  /** The text of every text block; a missing one is empty. */
  function Texts(blocks: seq<Block>): seq<string> {
    if blocks == [] then [] else
      Texts(blocks[..|blocks| - 1]) +
      match blocks[|blocks| - 1]
      case TextBlock(Some(text)) => [text]
      case TextBlock(None) => [""]
      case _ => []
  }

  function Thoughts(blocks: seq<Block>): seq<string> {
    if blocks == [] then [] else
      Thoughts(blocks[..|blocks| - 1]) +
      match blocks[|blocks| - 1]
      case ThinkingBlock(_, Some(thinking)) => [thinking]
      case _ => []
  }

  function Calls(blocks: seq<Block>): seq<Call> {
    if blocks == [] then [] else
      Calls(blocks[..|blocks| - 1]) +
      match blocks[|blocks| - 1]
      case ToolUseBlock(_, id, name, Some(input)) => [Call(id, name, CanonicalJson.ToText(input))]
      case ToolUseBlock(_, id, name, None) => [Call(id, name, "{}")]
      case _ => []
  }

  /** Every text field, whatever its block. */
  function TextFields(blocks: seq<Block>): seq<string> {
    if blocks == [] then [] else
      TextFields(blocks[..|blocks| - 1]) +
      match blocks[|blocks| - 1].text
      case Some(text) => [text]
      case None => []
  }

  function NonEmpty(text: string): Option<string> {
    if text == "" then None else Some(text)
  }

  function SystemText(content: InContent): string {
    match content
    case Text(text) => text
    case Blocks(blocks) => Lines(TextFields(blocks), "\n")
    case Neither => ""
  }

  /** One message of the request, as it should be heard. */
  function RequestSays(m: InMessage): seq<Utterance> {
    match m
    case NotAnObject => []
    case InMessage("user", Text(text)) => [Human([TextPart(text)])]
    case InMessage("user", Blocks(blocks)) =>
      Results(blocks) + (if HumanParts(blocks) == [] then [] else [Human(HumanParts(blocks))])
    case InMessage("assistant", Text(text)) => [Reply(Some(text), None, [])]
    case InMessage("assistant", Blocks(blocks)) =>
      [Reply(NonEmpty(Lines(Texts(blocks), "\n\n")),
             if Thoughts(blocks) == [] then None else Some(Lines(Thoughts(blocks), "\n\n")), Calls(blocks))]
    case InMessage(_, Neither) => if m.role == "user" || m.role == "assistant" then [] else [Reminded(m.content)]
    case InMessage(_, _) => [Reminded(m.content)]
  }

  function Reminded(content: InContent): Utterance {
    Human([TextPart("<system-reminder>\n" + SystemText(content) + "\n</system-reminder>")])
  }

  function RequestSaysAll(ms: seq<InMessage>): seq<Utterance> {
    if ms == [] then [] else RequestSaysAll(ms[..|ms| - 1]) + RequestSays(ms[|ms| - 1])
  }

  // ---- Joining ----

  lemma {:induction false} LinesAppend(texts: seq<string>, last: string, separator: string)
    requires texts != []
    ensures Lines(texts + [last], separator) == Lines(texts, separator) + separator + last
  {
    var all := texts + [last];
    if |texts| == 1 {
      assert all[1..] == [last];
    } else {
      assert all[1..] == texts[1..] + [last];
      LinesAppend(texts[1..], last, separator);
      var rest := Lines(texts[1..], separator);
      assert texts[0] + separator + (rest + separator + last) == texts[0] + separator + rest + separator + last;
    }
  }

  lemma {:induction false} JoinIsLines(texts: seq<string>, separator: string)
    ensures Join(texts, separator) == Lines(texts, separator)
  {
    if |texts| > 1 {
      JoinIsLines(texts[..|texts| - 1], separator);
      LinesAppend(texts[..|texts| - 1], texts[|texts| - 1], separator);
      assert texts[..|texts| - 1] + [texts[|texts| - 1]] == texts;
    }
  }

  // ---- Message by message ----

  lemma {:induction false} UserHeard(blocks: seq<Block>)
    requires UserBlocks(blocks).Ok?
    ensures var u := UserBlocks(blocks).value;
      u.ordinary == HumanParts(blocks) && WireSaysAll(u.tools) == Results(blocks)
  {
    if blocks == [] {
    } else {
      UserHeard(blocks[..|blocks| - 1]);
      var tools := UserBlocks(blocks[..|blocks| - 1]).value.tools;
      var b := blocks[|blocks| - 1];
      if b.ToolResultBlock? {
        assert WireSaysAll(tools + [Tool(b.toolUseId, b.result.value)]) == WireSaysAll(tools) + [Result(b.toolUseId, b.result.value)];
      }
    }
  }

  lemma EmptyObject()
    ensures CanonicalJson.ToText(CanonicalJson.JObject([])) == "{}"
  {
  }

  lemma {:induction false} AssistantHeard(blocks: seq<Block>)
    requires AssistantBlocks(blocks).Ok?
    ensures AssistantBlocks(blocks).value == Segment(Texts(blocks), Thoughts(blocks), Calls(blocks))
  {
    if blocks == [] {
    } else {
      AssistantHeard(blocks[..|blocks| - 1]);
      EmptyObject();
    }
  }

  lemma {:induction false} FieldsHeard(blocks: seq<Block>)
    ensures BlockTexts(blocks) == TextFields(blocks)
  {
    if blocks != [] { FieldsHeard(blocks[..|blocks| - 1]); }
  }

  lemma HumanHeard(parts: seq<Part>)
    ensures WireSaysAll(HumanMessage(parts)) == if parts == [] then [] else [Human(parts)]
  {
    if |parts| == 1 { assert parts == [parts[0]]; }
  }

  lemma OneHeard(m: InMessage)
    requires ConvertOne(m).Ok?
    ensures WireSaysAll(ConvertOne(m).value) == RequestSays(m)
  {
    match m.content {
      case Text(_) =>
      case Neither =>
      case Blocks(blocks) =>
        if m.role == "user" {
          UserHeard(blocks);
          var u := UserBlocks(blocks).value;
          WireSplits(u.tools, HumanMessage(u.ordinary));
          HumanHeard(u.ordinary);
        } else if m.role == "assistant" {
          AssistantHeard(blocks);
          JoinIsLines(Texts(blocks), "\n\n");
          JoinIsLines(Thoughts(blocks), "\n\n");
        } else {
          FieldsHeard(blocks);
          JoinIsLines(TextFields(blocks), "\n");
        }
    }
  }

  lemma WireSplits(a: seq<Message>, b: seq<Message>)
    ensures WireSaysAll(a + b) == WireSaysAll(a) + WireSaysAll(b)
  {
  }

  lemma {:induction false} FlatHeard(ms: seq<InMessage>)
    requires EachConverts(ms)
    ensures WireSaysAll(Flat(ms)) == RequestSaysAll(ms)
  {
    if ms == [] {
    } else {
      FlatHeard(ms[..|ms| - 1]);
      OneHeard(ms[|ms| - 1]);
      WireSplits(Flat(ms[..|ms| - 1]), ConvertOne(ms[|ms| - 1]).value);
    }
  }

  /** A lone text is not wrapped in a list of parts. */
  predicate AllUnwrapped(ms: seq<Message>) {
    forall i | 0 <= i < |ms| && ms[i].User? && ms[i].content.Rich? ::
      |ms[i].content.parts| > 1 || (|ms[i].content.parts| == 1 && ms[i].content.parts[0].MediaPart?)
  }

  lemma OneUnwrapped(m: InMessage)
    requires ConvertOne(m).Ok?
    ensures AllUnwrapped(ConvertOne(m).value)
  {
    if m.role == "user" && m.content.Blocks? { UserToolsAreTools(m.content.blocks); }
  }

  lemma {:induction false} FlatUnwrapped(ms: seq<InMessage>)
    requires EachConverts(ms)
    ensures AllUnwrapped(Flat(ms))
  {
    if ms != [] {
      FlatUnwrapped(ms[..|ms| - 1]);
      OneUnwrapped(ms[|ms| - 1]);
    }
  }

  /**
   The wire of an accepted request says what the request says, utterance by utterance: no text, medium, result,
   thought, id, name or input is lost, changed, moved or made up.  A single human text is sent as plain text.
   */
  lemma ContentSurvives(ms: seq<InMessage>)
    requires ConvertMessages(ms).Ok?
    ensures WireSaysAll(ConvertMessages(ms).value) == RequestSaysAll(ms)
    ensures AllUnwrapped(ConvertMessages(ms).value)
  {
    PrefixMeaning(ms);
    FlatHeard(ms);
    FlatUnwrapped(ms);
  }

  // ---- Which requests are accepted ----

  predicate GoodUserBlock(b: Block) {
    match b
    case TextBlock(_) => true
    case MediaBlock(_, part) => part != None
    case ToolResultBlock(_, id, result) => id != "" && result != None
    case _ => false
  }

  predicate GoodAssistantBlock(b: Block) {
    match b
    case TextBlock(_) => true
    case ThinkingBlock(_, _) => true
    case RedactedThinkingBlock(_) => true
    case ToolUseBlock(_, id, name, input) => id != "" && name != "" && (input == None || input.value.JObject?)
    case _ => false
  }

  /** What a single message may be. */
  predicate Good(m: InMessage) {
    match m
    case NotAnObject => false
    case InMessage(role, content) =>
      if role == "user" then content.Text? || (content.Blocks? && forall i | 0 <= i < |content.blocks| :: GoodUserBlock(content.blocks[i]))
      else if role == "assistant" then content.Text? || (content.Blocks? && forall i | 0 <= i < |content.blocks| :: GoodAssistantBlock(content.blocks[i]))
      else role == "system" || role == "developer"
  }

  /** What is wrong with a block of a user message that is no good. */
  predicate UserComplaint(b: Block, e: ProtocolError) {
    match b
    case TextBlock(_) => false
    case MediaBlock(_, _) => e == BadMedia
    case ToolResultBlock(_, id, _) => e == (if id == "" then ToolResultNeedsId else BadToolResult)
    case ThinkingBlock(_, _) => e == ThinkingInUserMessage
    case RedactedThinkingBlock(_) => e == ThinkingInUserMessage
    case ToolUseBlock(_, _, _, _) => e == BadBlock("tool_use")
    case OtherBlock(_, kind) => e == BadBlock(kind)
  }

  predicate AssistantComplaint(b: Block, e: ProtocolError) {
    match b
    case ToolUseBlock(_, id, name, _) => e == (if id == "" then ToolUseNeedsId else if name == "" then ToolUseNeedsName else ToolInputNotObject)
    case MediaBlock(_, _) => e == BadBlock("image or document")
    case ToolResultBlock(_, _, _) => e == BadBlock("tool_result")
    case OtherBlock(_, kind) => e == BadBlock(kind)
    case _ => false
  }

  /** The blocks are all good, or the error complains of the first that is not. */
  lemma {:induction false} UserBlocksGood(blocks: seq<Block>)
    ensures match UserBlocks(blocks)
      case Ok(_) => forall i | 0 <= i < |blocks| :: GoodUserBlock(blocks[i])
      case Err(e) => exists i | 0 <= i < |blocks| ::
        !GoodUserBlock(blocks[i]) && UserComplaint(blocks[i], e) && forall j | 0 <= j < i :: GoodUserBlock(blocks[j])
  {
    if blocks != [] {
      var init := blocks[..|blocks| - 1];
      UserBlocksGood(init);
      assert forall i | 0 <= i < |init| :: init[i] == blocks[i];
    }
  }

  lemma {:induction false} AssistantBlocksGood(blocks: seq<Block>)
    ensures match AssistantBlocks(blocks)
      case Ok(_) => forall i | 0 <= i < |blocks| :: GoodAssistantBlock(blocks[i])
      case Err(e) => exists i | 0 <= i < |blocks| ::
        !GoodAssistantBlock(blocks[i]) && AssistantComplaint(blocks[i], e) && forall j | 0 <= j < i :: GoodAssistantBlock(blocks[j])
  {
    if blocks != [] {
      var init := blocks[..|blocks| - 1];
      AssistantBlocksGood(init);
      assert forall i | 0 <= i < |init| :: init[i] == blocks[i];
    }
  }

  lemma GoodConverts(m: InMessage)
    ensures ConvertOne(m).Ok? <==> Good(m)
  {
    if m.InMessage? && m.content.Blocks? {
      UserBlocksGood(m.content.blocks);
      AssistantBlocksGood(m.content.blocks);
    }
  }

  /**
   A request is accepted exactly when every message is good by itself and the tool blocks of every id read:
   used, answered, used, answered, ..., answered.
   */
  lemma AcceptedIffGood(ms: seq<InMessage>)
    ensures ConvertMessages(ms).Ok? <==> (forall i | 0 <= i < |ms| :: Good(ms[i])) && AllMatched(RequestEvents(ms))
  {
    AcceptedIffMatched(ms);
    forall i | 0 <= i < |ms| ensures ConvertOne(ms[i]).Ok? <==> Good(ms[i]) { GoodConverts(ms[i]); }
  }

  // ---- Historical thinking, before conversion ----

  /** `kept` is `blocks` without the thinking blocks, reading from the front. */
  predicate Thoughtless(kept: seq<Block>, blocks: seq<Block>) {
    if blocks == [] then kept == []
    else if blocks[0].ThinkingBlock? then Thoughtless(kept, blocks[1..])
    else kept != [] && kept[0] == blocks[0] && Thoughtless(kept[1..], blocks[1..])
  }

  lemma {:induction false} ThoughtlessAppend(kept: seq<Block>, blocks: seq<Block>, b: Block)
    requires Thoughtless(kept, blocks)
    ensures Thoughtless(if b.ThinkingBlock? then kept else kept + [b], blocks + [b])
  {
    var more := if b.ThinkingBlock? then kept else kept + [b];
    if blocks == [] {
      assert (blocks + [b])[1..] == [];
    } else {
      assert (blocks + [b])[1..] == blocks[1..] + [b];
      if blocks[0].ThinkingBlock? {
        ThoughtlessAppend(kept, blocks[1..], b);
      } else {
        ThoughtlessAppend(kept[1..], blocks[1..], b);
        assert more[1..] == if b.ThinkingBlock? then kept[1..] else kept[1..] + [b];
      }
    }
  }

  lemma {:induction false} WithoutThinkingMeaning(blocks: seq<Block>)
    ensures Thoughtless(WithoutThinking(blocks), blocks)
  {
    if blocks != [] {
      WithoutThinkingMeaning(blocks[..|blocks| - 1]);
      var kept, b := WithoutThinking(blocks[..|blocks| - 1]), blocks[|blocks| - 1];
      ThoughtlessAppend(kept, blocks[..|blocks| - 1], b);
      assert kept + [] == kept;
      assert blocks[..|blocks| - 1] + [blocks[|blocks| - 1]] == blocks;
    }
  }

  /** A user message with text, or with a block that is not a tool result. */
  predicate SpeaksUp(m: InMessage) {
    match m
    case InMessage("user", Text(text)) => text != ""
    case InMessage("user", Blocks(blocks)) => exists k :: 0 <= k < |blocks| && !blocks[k].ToolResultBlock?
    case _ => false
  }

  /** A message of a human follows, or there is none at all. */
  predicate BeforeHuman(ms: seq<InMessage>, i: nat) {
    (exists j | i < j < |ms| :: SpeaksUp(ms[j])) || (forall j | 0 <= j < |ms| :: !SpeaksUp(ms[j]))
  }

  /** Token counting drops exactly the thinking blocks of assistant messages before the last human message. */
  lemma CountingStrips(ms: seq<InMessage>, i: nat)
    requires i < |ms|
    ensures |StripThinking(ms)| == |ms|
    ensures var r := StripThinking(ms)[i];
      if BeforeHuman(ms, i) && ms[i].InMessage? && ms[i].role == "assistant" && ms[i].content.Blocks?
      then r.InMessage? && r.role == "assistant" && r.content.Blocks? && Thoughtless(r.content.blocks, ms[i].content.blocks)
      else r == ms[i]
  {
    BeforeLast(ms, (m: InMessage) => IsHuman(m), i);
    assert forall j | 0 <= j < |ms| :: SpeaksUp(ms[j]) <==> IsHuman(ms[j]);
    if ms[i].InMessage? && ms[i].content.Blocks? { WithoutThinkingMeaning(ms[i].content.blocks); }
  }
}
