/** Anthropic Messages requests to chat messages: the conversion of the `messages` array. */
module AnthropicRequest {
  import opened Wrappers
  import opened ChatPolicy
  import CanonicalJson

  // ---- The request ----

  /**
   A content block.  Any block may have a `text` field, whatever its type.  Image and document blocks
   carry their converted part, or `None` if they are refused.
   */
  datatype Block =
    | TextBlock(text: Option<string>)
    | MediaBlock(text: Option<string>, part: Option<string>)
    | ToolResultBlock(text: Option<string>, toolUseId: string, result: Option<Content>)
    | ThinkingBlock(text: Option<string>, thinking: Option<string>)
    | RedactedThinkingBlock(text: Option<string>)
    | ToolUseBlock(text: Option<string>, id: string, name: string, input: Option<CanonicalJson.Json>)
    | OtherBlock(text: Option<string>, kind: string)

  datatype InContent = Text(text: string) | Blocks(blocks: seq<Block>) | Neither

  /** A missing role reads as the empty string; `NotAnObject` is any other JSON value in the array. */
  datatype InMessage = InMessage(role: string, content: InContent) | NotAnObject

  datatype ProtocolError =
    | MessageNotObject | BadRole(role: string) | BadContent
    | BadBlock(kind: string) | ThinkingInUserMessage | BadMedia
    | ToolResultNeedsId | BadToolResult | ToolUseNeedsId | ToolUseNeedsName | ToolInputNotObject
    | UnknownToolUseId(id: string) | DuplicateToolUseId(id: string) | UnansweredToolUse

  // ---- User messages ----

  /** Tool messages and human parts collected so far. */
  datatype UserParts = UserParts(tools: seq<Message>, ordinary: seq<Part>)

  function UserStep(u: UserParts, b: Block): Result<UserParts, ProtocolError> {
    match b
    case TextBlock(text) => Ok(if text.GetOr("") != "" then u.(ordinary := u.ordinary + [TextPart(text.value)]) else u)
    case MediaBlock(_, part) => if part.Some? then Ok(u.(ordinary := u.ordinary + [MediaPart(part.value)])) else Err(BadMedia)
    case ToolResultBlock(_, id, result) =>
      if id == "" then Err(ToolResultNeedsId)
      else if result.None? then Err(BadToolResult)
      else Ok(u.(tools := u.tools + [Tool(id, result.value)]))
    case ThinkingBlock(_, _) => Err(ThinkingInUserMessage)
    case RedactedThinkingBlock(_) => Err(ThinkingInUserMessage)
    case ToolUseBlock(_, _, _, _) => Err(BadBlock("tool_use"))
    case OtherBlock(_, kind) => Err(BadBlock(kind))
  }

  function UserBlocks(blocks: seq<Block>): Result<UserParts, ProtocolError> {
    if blocks == [] then Ok(UserParts([], [])) else
      var r := UserBlocks(blocks[..|blocks| - 1]);
      if r.Err? then r else UserStep(r.value, blocks[|blocks| - 1])
  }

  /** Human content after the tool messages: none, one plain text, or a list of parts. */
  function HumanMessage(ordinary: seq<Part>): seq<Message> {
    if ordinary == [] then []
    else if |ordinary| == 1 && ordinary[0].TextPart? then [User(Plain(ordinary[0].text))]
    else [User(Rich(ordinary))]
  }

  function ConvertUser(content: InContent): Result<seq<Message>, ProtocolError> {
    match content
    case Text(text) => Ok([User(Plain(text))])
    case Neither => Err(BadContent)
    case Blocks(blocks) =>
      var r := UserBlocks(blocks);
      if r.Err? then Err(r.error) else Ok(r.value.tools + HumanMessage(r.value.ordinary))
  }

  // ---- Assistant messages ----

  datatype Segment = Segment(texts: seq<string>, reasonings: seq<string>, calls: seq<Call>)

  const EMPTY_SEGMENT: Segment := Segment([], [], [])

  function AssistantStep(s: Segment, b: Block): Result<Segment, ProtocolError> {
    match b
    case TextBlock(text) => Ok(s.(texts := s.texts + [text.GetOr("")]))
    case ThinkingBlock(_, thinking) =>
      Ok(if thinking.Some? then s.(reasonings := s.reasonings + [thinking.value]) else s)
    case RedactedThinkingBlock(_) => Ok(s)
    case ToolUseBlock(_, id, name, input) =>
      var value := input.GetOr(CanonicalJson.JObject([]));
      if id == "" then Err(ToolUseNeedsId)
      else if name == "" then Err(ToolUseNeedsName)
      else if !value.JObject? then Err(ToolInputNotObject)
      else Ok(s.(calls := s.calls + [Call(id, name, CanonicalJson.ToText(value))]))
    case MediaBlock(_, _) => Err(BadBlock("image or document"))
    case ToolResultBlock(_, _, _) => Err(BadBlock("tool_result"))
    case OtherBlock(_, kind) => Err(BadBlock(kind))
  }

  function AssistantBlocks(blocks: seq<Block>): Result<Segment, ProtocolError> {
    if blocks == [] then Ok(EMPTY_SEGMENT) else
      var r := AssistantBlocks(blocks[..|blocks| - 1]);
      if r.Err? then r else AssistantStep(r.value, blocks[|blocks| - 1])
  }

  /** Texts and thinking join with a blank line; an empty segment is still a valid, empty turn. */
  function SegmentMessage(s: Segment): Message {
    var text := Join(s.texts, "\n\n");
    Assistant(if text == "" then None else Some(text),
              if s.reasonings == [] then None else Some(Join(s.reasonings, "\n\n")), s.calls)
  }

  function ConvertAssistant(content: InContent): Result<seq<Message>, ProtocolError> {
    match content
    case Text(text) => Ok([Assistant(Some(text), None, [])])
    case Neither => Err(BadContent)
    case Blocks(blocks) =>
      var r := AssistantBlocks(blocks);
      if r.Err? then Err(r.error) else Ok([SegmentMessage(r.value)])
  }

  // ---- The whole array ----

  /** Mid-history system text becomes user content. */
  function ReminderText(content: InContent): string {
    match content
    case Text(text) => text
    case Blocks(blocks) => Join(BlockTexts(blocks), "\n")
    case Neither => ""
  }

  /** Every `text` field there is, in whatever blocks. */
  function BlockTexts(blocks: seq<Block>): seq<string> {
    if blocks == [] then [] else
      var b := blocks[|blocks| - 1];
      BlockTexts(blocks[..|blocks| - 1]) + (if b.text.Some? then [b.text.value] else [])
  }

  function Reminder(content: InContent): Message {
    User(Plain("<system-reminder>\n" + ReminderText(content) + "\n</system-reminder>"))
  }

  /** One message, on its own. */
  function ConvertOne(m: InMessage): Result<seq<Message>, ProtocolError> {
    if m.NotAnObject? then Err(MessageNotObject)
    else if m.role == "user" then ConvertUser(m.content)
    else if m.role == "assistant" then ConvertAssistant(m.content)
    else if m.role == "system" || m.role == "developer" then Ok([Reminder(m.content)])
    else Err(BadRole(m.role))
  }

  /** What has been converted, and the tool calls not answered yet. */
  datatype Progress = Progress(out: seq<Message>, pending: set<string>)

  /** A call opens its id, unless it is open. */
  function OpenIds(pending: set<string>, calls: seq<Call>): Result<set<string>, ProtocolError> {
    if calls == [] then Ok(pending) else
      var r := OpenIds(pending, calls[..|calls| - 1]);
      var id := calls[|calls| - 1].id;
      if r.Err? then r else if id in r.value then Err(DuplicateToolUseId(id)) else Ok(r.value + {id})
  }

  function SettleOne(pending: set<string>, m: Message): Result<set<string>, ProtocolError> {
    match m
    case Tool(id, _) => if id in pending then Ok(pending - {id}) else Err(UnknownToolUseId(id))
    case Assistant(_, _, calls) => OpenIds(pending, calls)
    case _ => Ok(pending)
  }

  function Settle(pending: set<string>, ms: seq<Message>): Result<set<string>, ProtocolError> {
    if ms == [] then Ok(pending) else
      var r := Settle(pending, ms[..|ms| - 1]);
      if r.Err? then r else SettleOne(r.value, ms[|ms| - 1])
  }

  function ConvertPrefix(ms: seq<InMessage>): Result<Progress, ProtocolError> {
    if ms == [] then Ok(Progress([], {})) else
      var r := ConvertPrefix(ms[..|ms| - 1]);
      if r.Err? then r else
        var one := ConvertOne(ms[|ms| - 1]);
        if one.Err? then Err(one.error) else
          var pending := Settle(r.value.pending, one.value);
          if pending.Err? then Err(pending.error) else Ok(Progress(r.value.out + one.value, pending.value))
  }

  function ConvertMessages(ms: seq<InMessage>): Result<seq<Message>, ProtocolError> {
    var r := ConvertPrefix(ms);
    if r.Err? then Err(r.error)
    else if r.value.pending != {} then Err(UnansweredToolUse)
    else Ok(r.value.out)
  }

  // ---- Historical thinking, on the Anthropic side ----

  /** A user message with anything beyond tool results. */
  predicate IsHuman(m: InMessage) {
    m.InMessage? && m.role == "user" &&
    match m.content
    case Text(text) => text != ""
    case Blocks(blocks) => exists i :: 0 <= i < |blocks| && !blocks[i].ToolResultBlock?
    case Neither => false
  }

  function AnthropicBoundary(ms: seq<InMessage>): nat {
    LastWhere(ms, (m: InMessage) => IsHuman(m))
  }

  function WithoutThinking(blocks: seq<Block>): seq<Block> {
    if blocks == [] then [] else
      var b := blocks[|blocks| - 1];
      WithoutThinking(blocks[..|blocks| - 1]) + (if b.ThinkingBlock? then [] else [b])
  }

  function ThinkingStripped(m: InMessage): InMessage {
    if m.InMessage? && m.role == "assistant" && m.content.Blocks?
    then m.(content := Blocks(WithoutThinking(m.content.blocks))) else m
  }

  function ThinkingStrippedAll(ms: seq<InMessage>): (r: seq<InMessage>)
    ensures |r| == |ms| && forall i | 0 <= i < |r| :: r[i] == ThinkingStripped(ms[i])
  {
    seq(|ms|, i requires 0 <= i < |ms| => ThinkingStripped(ms[i]))
  }

  /** `strip_anthropic_thinking`, which token counting applies. */
  function StripThinking(ms: seq<InMessage>): seq<InMessage> {
    var b := AnthropicBoundary(ms);
    ThinkingStrippedAll(ms[..b]) + ms[b..]
  }

  // ---- The same, step by step ----

  /** An error at one block is the error of the message. */
  lemma {:induction false} UserErrorStays(blocks: seq<Block>, n: nat)
    requires n < |blocks| && UserBlocks(blocks[..n]).Ok? && UserStep(UserBlocks(blocks[..n]).value, blocks[n]).Err?
    ensures UserBlocks(blocks) == UserStep(UserBlocks(blocks[..n]).value, blocks[n])
  {
    var init := blocks[..|blocks| - 1];
    if n < |init| {
      assert init[..n] == blocks[..n];
      UserErrorStays(init, n);
    }
  }

  method ConvertUserMessage(content: InContent) returns (r: Result<seq<Message>, ProtocolError>)
    ensures r == ConvertUser(content)
  {
    if content.Text? { return Ok([User(Plain(content.text))]); }
    if content.Neither? { return Err(BadContent); }
    var blocks := content.blocks;
    var toolMessages: seq<Message>, ordinary: seq<Part> := [], [];
    for i := 0 to |blocks|
      invariant UserBlocks(blocks[..i]) == Ok(UserParts(toolMessages, ordinary))
    {
      assert blocks[..i + 1][..i] == blocks[..i];
      if UserStep(UserParts(toolMessages, ordinary), blocks[i]).Err? { UserErrorStays(blocks, i); }
      match blocks[i]
      case TextBlock(text) =>
        if text.GetOr("") != "" { ordinary := ordinary + [TextPart(text.value)]; }
      case MediaBlock(_, part) =>
        if part.None? { return Err(BadMedia); }
        ordinary := ordinary + [MediaPart(part.value)];
      case ToolResultBlock(_, id, result) =>
        if id == "" { return Err(ToolResultNeedsId); }
        if result.None? { return Err(BadToolResult); }
        toolMessages := toolMessages + [Tool(id, result.value)];
      case ThinkingBlock(_, _) => return Err(ThinkingInUserMessage);
      case RedactedThinkingBlock(_) => return Err(ThinkingInUserMessage);
      case ToolUseBlock(_, _, _, _) => return Err(BadBlock("tool_use"));
      case OtherBlock(_, kind) => return Err(BadBlock(kind));
    }
    assert blocks[..|blocks|] == blocks;
    r := Ok(toolMessages + HumanMessage(ordinary));
  }

  lemma {:induction false} AssistantErrorStays(blocks: seq<Block>, n: nat)
    requires n < |blocks| && AssistantBlocks(blocks[..n]).Ok? && AssistantStep(AssistantBlocks(blocks[..n]).value, blocks[n]).Err?
    ensures AssistantBlocks(blocks) == AssistantStep(AssistantBlocks(blocks[..n]).value, blocks[n])
  {
    var init := blocks[..|blocks| - 1];
    if n < |init| {
      assert init[..n] == blocks[..n];
      AssistantErrorStays(init, n);
    }
  }

  method ConvertAssistantMessage(content: InContent) returns (r: Result<seq<Message>, ProtocolError>)
    ensures r == ConvertAssistant(content)
  {
    if content.Text? { return Ok([Assistant(Some(content.text), None, [])]); }
    if content.Neither? { return Err(BadContent); }
    var blocks := content.blocks;
    var segment := EMPTY_SEGMENT;
    for i := 0 to |blocks|
      invariant AssistantBlocks(blocks[..i]) == Ok(segment)
    {
      assert blocks[..i + 1][..i] == blocks[..i];
      if AssistantStep(segment, blocks[i]).Err? { AssistantErrorStays(blocks, i); }
      match blocks[i]
      case TextBlock(text) => segment := segment.(texts := segment.texts + [text.GetOr("")]);
      case ThinkingBlock(_, thinking) =>
        if thinking.Some? { segment := segment.(reasonings := segment.reasonings + [thinking.value]); }
      case RedactedThinkingBlock(_) =>
      case ToolUseBlock(_, id, name, input) =>
        if id == "" { return Err(ToolUseNeedsId); }
        if name == "" { return Err(ToolUseNeedsName); }
        var value := input.GetOr(CanonicalJson.JObject([]));
        if !value.JObject? { return Err(ToolInputNotObject); }
        segment := segment.(calls := segment.calls + [Call(id, name, CanonicalJson.ToText(value))]);
      case MediaBlock(_, _) => return Err(BadBlock("image or document"));
      case ToolResultBlock(_, _, _) => return Err(BadBlock("tool_result"));
      case OtherBlock(_, kind) => return Err(BadBlock(kind));
    }
    assert blocks[..|blocks|] == blocks;
    var output: seq<Message> := [];
    if segment != EMPTY_SEGMENT {
      output := output + [SegmentMessage(segment)];
    }
    if output == [] {
      assert SegmentMessage(segment) == Assistant(None, None, []);
      output := output + [Assistant(None, None, [])];
    }
    assert output == [SegmentMessage(segment)];
    r := Ok(output);
  }

  lemma {:induction false} OpenErrorStays(pending: set<string>, calls: seq<Call>, n: nat)
    requires n < |calls| && OpenIds(pending, calls[..n]).Ok? && calls[n].id in OpenIds(pending, calls[..n]).value
    ensures OpenIds(pending, calls) == Err(DuplicateToolUseId(calls[n].id))
  {
    var init := calls[..|calls| - 1];
    if n < |init| {
      assert init[..n] == calls[..n];
      OpenErrorStays(pending, init, n);
    }
  }

  method RegisterCalls(pending: set<string>, calls: seq<Call>) returns (r: Result<set<string>, ProtocolError>)
    ensures r == OpenIds(pending, calls)
  {
    var open := pending;
    for i := 0 to |calls|
      invariant OpenIds(pending, calls[..i]) == Ok(open)
    {
      assert calls[..i + 1][..i] == calls[..i];
      if calls[i].id in open {
        OpenErrorStays(pending, calls, i);
        return Err(DuplicateToolUseId(calls[i].id));
      }
      open := open + {calls[i].id};
    }
    assert calls[..|calls|] == calls;
    r := Ok(open);
  }

  lemma {:induction false} SettleErrorStays(pending: set<string>, ms: seq<Message>, n: nat)
    requires n < |ms| && Settle(pending, ms[..n]).Ok? && SettleOne(Settle(pending, ms[..n]).value, ms[n]).Err?
    ensures Settle(pending, ms) == SettleOne(Settle(pending, ms[..n]).value, ms[n])
  {
    var init := ms[..|ms| - 1];
    if n < |init| {
      assert init[..n] == ms[..n];
      SettleErrorStays(pending, init, n);
    }
  }

  /** The bookkeeping over one converted message list: results close ids, calls open them. */
  method SettleConverted(pending: set<string>, converted: seq<Message>) returns (r: Result<set<string>, ProtocolError>)
    ensures r == Settle(pending, converted)
  {
    var open := pending;
    for i := 0 to |converted|
      invariant Settle(pending, converted[..i]) == Ok(open)
    {
      assert converted[..i + 1][..i] == converted[..i];
      if SettleOne(open, converted[i]).Err? { SettleErrorStays(pending, converted, i); }
      match converted[i]
      case Tool(id, _) =>
        if id !in open { return Err(UnknownToolUseId(id)); }
        open := open - {id};
      case Assistant(_, _, calls) =>
        var registered := RegisterCalls(open, calls);
        if registered.Err? { return registered; }
        open := registered.value;
      case _ =>
    }
    assert converted[..|converted|] == converted;
    r := Ok(open);
  }

  lemma {:induction false} PrefixErrorStays(ms: seq<InMessage>, n: nat)
    requires n <= |ms| && ConvertPrefix(ms[..n]).Err?
    ensures ConvertPrefix(ms) == ConvertPrefix(ms[..n])
  {
    if n < |ms| {
      var init := ms[..|ms| - 1];
      assert init[..n] == ms[..n];
      PrefixErrorStays(init, n);
    } else {
      assert ms[..n] == ms;
    }
  }

  method ConvertMessage(m: InMessage) returns (r: Result<seq<Message>, ProtocolError>)
    ensures r == ConvertOne(m)
  {
    if m.NotAnObject? { return Err(MessageNotObject); }
    if m.role == "user" {
      r := ConvertUserMessage(m.content);
    } else if m.role == "assistant" {
      r := ConvertAssistantMessage(m.content);
    } else if m.role == "system" || m.role == "developer" {
      r := Ok([Reminder(m.content)]);
    } else {
      r := Err(BadRole(m.role));
    }
  }

  method ConvertAll(ms: seq<InMessage>) returns (r: Result<seq<Message>, ProtocolError>)
    ensures r == ConvertMessages(ms)
  {
    var out: seq<Message>, pending: set<string> := [], {};
    for i := 0 to |ms|
      invariant ConvertPrefix(ms[..i]) == Ok(Progress(out, pending))
    {
      assert ms[..i + 1][..i] == ms[..i];
      if ConvertPrefix(ms[..i + 1]).Err? { PrefixErrorStays(ms, i + 1); }
      var converted := ConvertMessage(ms[i]);
      if converted.Err? { return Err(converted.error); }
      var settled := SettleConverted(pending, converted.value);
      if settled.Err? { return Err(settled.error); }
      pending, out := settled.value, out + converted.value;
    }
    assert ms[..|ms|] == ms;
    if pending != {} { return Err(UnansweredToolUse); }
    r := Ok(out);
  }

  /** How many of the blocks are thinking. */
  function ThinkingIn(blocks: seq<Block>): nat {
    if blocks == [] then 0 else ThinkingIn(blocks[..|blocks| - 1]) + (if blocks[|blocks| - 1].ThinkingBlock? then 1 else 0)
  }

  function AssistantThinking(m: InMessage): nat {
    if m.InMessage? && m.role == "assistant" && m.content.Blocks? then ThinkingIn(m.content.blocks) else 0
  }

  /** How much thinking the first `n` messages carry, in blocks. */
  function ThinkingBefore(ms: seq<InMessage>, n: nat): nat
    requires n <= |ms|
  {
    if n == 0 then 0 else ThinkingBefore(ms, n - 1) + AssistantThinking(ms[n - 1])
  }

  method RetainWithoutThinking(blocks: seq<Block>) returns (kept: seq<Block>)
    ensures kept == WithoutThinking(blocks) && |kept| + ThinkingIn(blocks) == |blocks|
  {
    kept := [];
    for i := 0 to |blocks|
      invariant kept == WithoutThinking(blocks[..i]) && |kept| + ThinkingIn(blocks[..i]) == i
    {
      assert blocks[..i + 1][..i] == blocks[..i];
      if !blocks[i].ThinkingBlock? { kept := kept + [blocks[i]]; }
    }
    assert blocks[..|blocks|] == blocks;
  }

  method StripMessage(message: InMessage) returns (stripped: InMessage, removed: nat)
    ensures stripped == ThinkingStripped(message) && removed == AssistantThinking(message)
  {
    stripped, removed := message, 0;
    if message.NotAnObject? || message.role != "assistant" || !message.content.Blocks? { return; }
    var kept := RetainWithoutThinking(message.content.blocks);
    stripped, removed := message.(content := Blocks(kept)), |message.content.blocks| - |kept|;
  }

  /** What goes is counted. */
  method StripAnthropicThinking(messages: array<InMessage>) returns (removed: nat)
    modifies messages
    ensures messages[..] == StripThinking(old(messages[..]))
    ensures removed == ThinkingBefore(old(messages[..]), AnthropicBoundary(old(messages[..])))
  {
    removed := 0;
    var boundary := AnthropicBoundary(messages[..]);
    for i := 0 to boundary
      invariant forall j | 0 <= j < i :: messages[j] == ThinkingStripped(old(messages[..])[j])
      invariant forall j | i <= j < messages.Length :: messages[j] == old(messages[..])[j]
      invariant removed == ThinkingBefore(old(messages[..]), i)
    {
      var stripped, n := StripMessage(messages[i]);
      messages[i] := stripped;
      removed := removed + n;
    }
  }
}
