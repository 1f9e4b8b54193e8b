/** Responses requests to chat messages: the conversion of the `input` items. */
module ResponsesRequest {
  import opened Wrappers
  import opened Sequences
  import opened ChatPolicy

  // ---- The request ----

  /** A content part.  An image carries its converted part, or `None` if it is refused. */
  datatype ItemPart = PlainText(text: string) | Refusal(text: string) | Image(part: Option<string>) | BadPart

  datatype ItemContent = Text(text: string) | Parts(parts: seq<ItemPart>) | Missing | BadContent

  /** A missing or empty string field reads as ""; a missing role as `None`. */
  datatype Item =
    | MessageItem(role: Option<string>, content: ItemContent)
    | FunctionCall(callId: string, name: string, arguments: Option<string>)
    | FunctionCallOutput(callId: string, output: ItemContent)
    | Reasoning
    | WebSearchCall
    | ItemReference
    | OtherItem(kind: string)
    | NotAnObject

  datatype ProtocolError =
    | ItemNotObject | UnsupportedItem(kind: string) | NoWebSearch | Stateless
    | RoleMissing | UnsupportedRole(role: string) | ContentNotReadable | UnsupportedPart | ImageRefused | ImagesNotAllowed
    | CallNeedsId | CallNeedsName | OutputNeedsId | EmptyInput

  // ---- Content ----

  datatype Collected = Collected(texts: seq<string>, images: seq<Part>)

  function CollectPart(c: Collected, p: ItemPart, refusals: bool): Result<Collected, ProtocolError> {
    match p
    case PlainText(text) => Ok(c.(texts := c.texts + [text]))
    case Refusal(text) => if refusals then Ok(c.(texts := c.texts + [text])) else Err(UnsupportedPart)
    case Image(part) => if part.Some? then Ok(c.(images := c.images + [MediaPart(part.value)])) else Err(ImageRefused)
    case BadPart => Err(UnsupportedPart)
  }

  function Collect(parts: seq<ItemPart>, refusals: bool): Result<Collected, ProtocolError> {
    if parts == [] then Ok(Collected([], [])) else
      var r := Collect(parts[..|parts| - 1], refusals);
      if r.Err? then r else CollectPart(r.value, parts[|parts| - 1], refusals)
  }

  function MessageParts(content: ItemContent): Result<Collected, ProtocolError> {
    match content
    case Text(text) => Ok(Collected([text], []))
    case Parts(parts) => Collect(parts, true)
    case Missing => Ok(Collected([], []))
    case BadContent => Err(ContentNotReadable)
  }

  function ConvertMessage(role: Option<string>, content: ItemContent): Result<Message, ProtocolError> {
    if role.None? then Err(RoleMissing) else
      var r := MessageParts(content);
      if r.Err? then Err(r.error) else
        var text, images := Join(r.value.texts, "\n"), r.value.images;
        if role.value == "system" || role.value == "developer" then
          if images != [] then Err(ImagesNotAllowed) else Ok(System(text))
        else if role.value == "user" then
          if images == [] then Ok(User(Plain(text)))
          else Ok(User(Rich((if text == "" then [] else [TextPart(text)]) + images)))
        else if role.value == "assistant" then
          if images != [] then Err(ImagesNotAllowed)
          else Ok(Assistant(if text == "" then None else Some(text), None, []))
        else Err(UnsupportedRole(role.value))
  }

  function ConvertCall(callId: string, name: string, arguments: Option<string>): Result<Call, ProtocolError> {
    if callId == "" then Err(CallNeedsId)
    else if name == "" then Err(CallNeedsName)
    else Ok(Call(callId, name, arguments.GetOr("{}")))
  }

  function ConvertOutput(callId: string, output: ItemContent): Result<Message, ProtocolError> {
    if callId == "" then Err(OutputNeedsId) else
      match output
      case Text(text) => Ok(Tool(callId, Plain(text)))
      case Missing => Ok(Tool(callId, Plain("")))
      case BadContent => Err(ContentNotReadable)
      case Parts(parts) =>
        var r := Collect(parts, false);
        if r.Err? then Err(r.error)
        else if r.value.images == [] then Ok(Tool(callId, Plain(Join(r.value.texts, "\n"))))
        else Ok(Tool(callId, Rich((if r.value.texts == [] then [] else [TextPart(Join(r.value.texts, "\n"))]) + r.value.images)))
  }

  // ---- Items ----

  /** What one item contributes: a message, a call, a tool result, or a pause (reasoning, which is dropped). */
  datatype Piece = Said(message: Message) | Called(call: Call) | Answered(result: Message) | Paused

  function ConvertItem(item: Item): Result<Piece, ProtocolError> {
    match item
    case MessageItem(role, content) => var r := ConvertMessage(role, content); if r.Err? then Err(r.error) else Ok(Said(r.value))
    case FunctionCall(id, name, arguments) =>
      var r := ConvertCall(id, name, arguments); if r.Err? then Err(r.error) else Ok(Called(r.value))
    case FunctionCallOutput(id, output) => var r := ConvertOutput(id, output); if r.Err? then Err(r.error) else Ok(Answered(r.value))
    case Reasoning => Ok(Paused)
    case WebSearchCall => Err(NoWebSearch)
    case ItemReference => Err(Stateless)
    case OtherItem(kind) => Err(UnsupportedItem(kind))
    case NotAnObject => Err(ItemNotObject)
  }

  /** Messages so far, and the calls waiting to become one assistant turn. */
  datatype Progress = Progress(messages: seq<Message>, pending: seq<Call>)

  /** The assistant turn of some calls; no calls, no turn. */
  function Turn(calls: seq<Call>): seq<Message> {
    if calls == [] then [] else [Assistant(None, None, calls)]
  }

  function Flush(p: Progress): Progress {
    Progress(p.messages + Turn(p.pending), [])
  }

  function Place(p: Progress, piece: Piece): Progress {
    match piece
    case Said(m) => p.(messages := p.messages + [m])
    case Called(c) => p.(pending := p.pending + [c])
    case Answered(m) => Progress(Flush(p).messages + [m], [])
    case Paused => Flush(p)
  }

  function ConvertPrefix(items: seq<Item>): Result<Progress, ProtocolError> {
    if items == [] then Ok(Progress([], [])) else
      var r := ConvertPrefix(items[..|items| - 1]);
      if r.Err? then r else
        var piece := ConvertItem(items[|items| - 1]);
        if piece.Err? then Err(piece.error) else Ok(Place(r.value, piece.value))
  }

  function ConvertItems(items: seq<Item>): Result<seq<Message>, ProtocolError> {
    var r := ConvertPrefix(items);
    if r.Err? then Err(r.error) else
      var messages := Flush(r.value).messages;
      if messages == [] then Err(EmptyInput) else Ok(messages)
  }

  // ---- The same, step by step ----

  lemma {:induction false} CollectErrorStays(parts: seq<ItemPart>, refusals: bool, n: nat)
    requires n < |parts| && Collect(parts[..n], refusals).Ok? && CollectPart(Collect(parts[..n], refusals).value, parts[n], refusals).Err?
    ensures Collect(parts, refusals) == CollectPart(Collect(parts[..n], refusals).value, parts[n], refusals)
  {
    var init := parts[..|parts| - 1];
    if n < |init| {
      assert init[..n] == parts[..n];
      CollectErrorStays(init, refusals, n);
    }
  }

  method CollectParts(parts: seq<ItemPart>, refusals: bool) returns (r: Result<Collected, ProtocolError>)
    ensures r == Collect(parts, refusals)
  {
    var texts: seq<string>, images: seq<Part> := [], [];
    for i := 0 to |parts|
      invariant Collect(parts[..i], refusals) == Ok(Collected(texts, images))
    {
      assert parts[..i + 1][..i] == parts[..i];
      if CollectPart(Collected(texts, images), parts[i], refusals).Err? { CollectErrorStays(parts, refusals, i); }
      match parts[i]
      case PlainText(text) => texts := texts + [text];
      case Refusal(text) =>
        if !refusals { return Err(UnsupportedPart); }
        texts := texts + [text];
      case Image(part) =>
        if part.None? { return Err(ImageRefused); }
        images := images + [MediaPart(part.value)];
      case BadPart => return Err(UnsupportedPart);
    }
    assert parts[..|parts|] == parts;
    r := Ok(Collected(texts, images));
  }

  method ConvertMessageItem(role: Option<string>, content: ItemContent) returns (r: Result<Message, ProtocolError>)
    ensures r == ConvertMessage(role, content)
  {
    if role.None? { return Err(RoleMissing); }
    var texts: seq<string>, images: seq<Part> := [], [];
    match content {
      case Text(text) => texts := [text];
      case Missing =>
      case BadContent => return Err(ContentNotReadable);
      case Parts(parts) =>
        var collected := CollectParts(parts, true);
        if collected.Err? { return Err(collected.error); }
        texts, images := collected.value.texts, collected.value.images;
    }
    var text := Join(texts, "\n");
    if role.value == "system" || role.value == "developer" {
      r := if images != [] then Err(ImagesNotAllowed) else Ok(System(text));
    } else if role.value == "user" {
      if images == [] { return Ok(User(Plain(text))); }
      r := Ok(User(Rich((if text == "" then [] else [TextPart(text)]) + images)));
    } else if role.value == "assistant" {
      r := if images != [] then Err(ImagesNotAllowed) else Ok(Assistant(if text == "" then None else Some(text), None, []));
    } else {
      r := Err(UnsupportedRole(role.value));
    }
  }

  method ConvertOutputItem(callId: string, output: ItemContent) returns (r: Result<Message, ProtocolError>)
    ensures r == ConvertOutput(callId, output)
  {
    if callId == "" { return Err(OutputNeedsId); }
    match output
    case Text(text) => r := Ok(Tool(callId, Plain(text)));
    case Missing => r := Ok(Tool(callId, Plain("")));
    case BadContent => r := Err(ContentNotReadable);
    case Parts(parts) =>
      var collected := CollectParts(parts, false);
      if collected.Err? { return Err(collected.error); }
      var texts, images := collected.value.texts, collected.value.images;
      if images == [] { return Ok(Tool(callId, Plain(Join(texts, "\n")))); }
      r := Ok(Tool(callId, Rich((if texts == [] then [] else [TextPart(Join(texts, "\n"))]) + images)));
  }

  method ConvertInputItem(item: Item) returns (r: Result<Piece, ProtocolError>)
    ensures r == ConvertItem(item)
  {
    match item
    case MessageItem(role, content) =>
      var message := ConvertMessageItem(role, content);
      r := if message.Err? then Err(message.error) else Ok(Said(message.value));
    case FunctionCallOutput(id, output) =>
      var result := ConvertOutputItem(id, output);
      r := if result.Err? then Err(result.error) else Ok(Answered(result.value));
    case _ => r := ConvertItem(item);
  }

  method FlushCalls(messages: seq<Message>, pending: seq<Call>) returns (out: seq<Message>)
    ensures Progress(out, []) == Flush(Progress(messages, pending))
  {
    out := messages;
    if pending != [] {
      out := out + [Assistant(None, None, pending)];
    }
  }

  lemma {:induction false} ItemErrorStays(items: seq<Item>, n: nat)
    requires n < |items| && ConvertPrefix(items[..n]).Ok? && ConvertItem(items[n]).Err?
    ensures ConvertPrefix(items) == Err(ConvertItem(items[n]).error)
  {
    var init := items[..|items| - 1];
    if n < |init| {
      assert init[..n] == items[..n];
      ItemErrorStays(init, n);
    }
  }

  method ConvertInputItems(items: seq<Item>) returns (r: Result<seq<Message>, ProtocolError>)
    ensures r == ConvertItems(items)
  {
    var messages: seq<Message>, pending: seq<Call> := [], [];
    for i := 0 to |items|
      invariant ConvertPrefix(items[..i]) == Ok(Progress(messages, pending))
    {
      assert items[..i + 1][..i] == items[..i];
      var piece := ConvertInputItem(items[i]);
      if piece.Err? {
        ItemErrorStays(items, i);
        return Err(piece.error);
      }
      match piece.value
      case Said(m) => messages := messages + [m];
      case Called(c) => pending := pending + [c];
      case Answered(m) =>
        messages := FlushCalls(messages, pending);
        messages, pending := messages + [m], [];
      case Paused =>
        messages := FlushCalls(messages, pending);
        pending := [];
    }
    assert items[..|items|] == items;
    messages := FlushCalls(messages, pending);
    if messages == [] { return Err(EmptyInput); }
    r := Ok(messages);
  }

  // ---- How the items are arranged ----

  predicate EachConverts(items: seq<Item>) {
    forall i | 0 <= i < |items| :: ConvertItem(items[i]).Ok?
  }

  function Pieces(items: seq<Item>): (r: seq<Piece>)
    requires EachConverts(items)
    ensures |r| == |items| && forall i | 0 <= i < |r| :: Ok(r[i]) == ConvertItem(items[i])
  {
    seq(|items|, i requires 0 <= i < |items| => ConvertItem(items[i]).value)
  }

  /** Messages pass waiting calls; results and pauses turn the waiting calls into one assistant turn first. */
  function Arranged(pieces: seq<Piece>, pending: seq<Call>): seq<Message> {
    if pieces == [] then Turn(pending) else
      match pieces[0]
      case Said(m) => [m] + Arranged(pieces[1..], pending)
      case Called(c) => Arranged(pieces[1..], pending + [c])
      case Answered(m) => Turn(pending) + [m] + Arranged(pieces[1..], [])
      case Paused => Turn(pending) + Arranged(pieces[1..], [])
  }

  /** The order the comments promise: runs of calls merge, and nothing passes anything. */
  function InOrder(pieces: seq<Piece>, pending: seq<Call>): seq<Message> {
    if pieces == [] then Turn(pending) else
      match pieces[0]
      case Said(m) => Turn(pending) + [m] + InOrder(pieces[1..], [])
      case Called(c) => InOrder(pieces[1..], pending + [c])
      case Answered(m) => Turn(pending) + [m] + InOrder(pieces[1..], [])
      case Paused => Turn(pending) + InOrder(pieces[1..], [])
  }

  function PlaceAll(pieces: seq<Piece>): Progress {
    if pieces == [] then Progress([], []) else Place(PlaceAll(pieces[..|pieces| - 1]), pieces[|pieces| - 1])
  }

  lemma {:induction false} PrefixPlacesAll(items: seq<Item>)
    requires EachConverts(items)
    ensures ConvertPrefix(items) == Ok(PlaceAll(Pieces(items)))
  {
    if items == [] {
    } else {
      PrefixPlacesAll(items[..|items| - 1]);
      assert Pieces(items)[..|items| - 1] == Pieces(items[..|items| - 1]);
    }
  }

  /** Placing pieces one by one arranges them. */
  lemma {:induction false} PlacingArranges(before: seq<Piece>, rest: seq<Piece>)
    ensures var p := PlaceAll(before); Arranged(before + rest, []) == p.messages + Arranged(rest, p.pending)
  {
    if before == [] {
      assert before + rest == rest;
    } else {
      var init, last := before[..|before| - 1], before[|before| - 1];
      PlacingArranges(init, [last] + rest);
      assert init + ([last] + rest) == before + rest;
      PlacedArranges(PlaceAll(init), last, rest);
    }
  }

  lemma PlacedArranges(p: Progress, piece: Piece, rest: seq<Piece>)
    ensures p.messages + Arranged([piece] + rest, p.pending) == Place(p, piece).messages + Arranged(rest, Place(p, piece).pending)
  {
    assert ([piece] + rest)[1..] == rest;
    match piece
    case Said(m) => Regroup(p.messages, [m], Arranged(rest, p.pending));
    case Called(c) =>
    case Answered(m) =>
      Regroup(p.messages, Turn(p.pending), [m]);
      Regroup(p.messages, Turn(p.pending) + [m], Arranged(rest, []));
    case Paused => Regroup(p.messages, Turn(p.pending), Arranged(rest, []));
  }

  /** The conversion is the arrangement of the pieces; it fails on the first bad item, or when nothing is left. */
  lemma ConversionArranges(items: seq<Item>)
    requires EachConverts(items)
    ensures var out := Arranged(Pieces(items), []);
      ConvertItems(items) == if out == [] then Err(EmptyInput) else Ok(out)
  {
    PrefixPlacesAll(items);
    PlacingArranges(Pieces(items), []);
    assert Pieces(items) + [] == Pieces(items);
  }

  lemma {:induction false} AcceptedConverts(items: seq<Item>)
    requires ConvertPrefix(items).Ok?
    ensures EachConverts(items)
  {
    if items == [] {
    } else {
      var init := items[..|items| - 1];
      AcceptedConverts(init);
      forall i | 0 <= i < |items| ensures ConvertItem(items[i]).Ok? {
        if i < |init| { assert init[i] == items[i]; }
      }
    }
  }

  predicate Closes(p: Piece) {
    p.Answered? || p.Paused?
  }

  /** Some message passes a waiting call. */
  predicate Overtakes(pieces: seq<Piece>) {
    exists i, j | 0 <= i < j < |pieces| :: pieces[i].Called? && pieces[j].Said? && forall k | i < k < j :: !Closes(pieces[k])
  }

  /** The same, reading on with some calls already waiting. */
  predicate OvertakesFrom(pieces: seq<Piece>, waiting: bool) {
    pieces != [] &&
    match pieces[0]
    case Said(_) => waiting || OvertakesFrom(pieces[1..], waiting)
    case Called(_) => OvertakesFrom(pieces[1..], true)
    case _ => OvertakesFrom(pieces[1..], false)
  }

  predicate SaidWhileWaiting(pieces: seq<Piece>) {
    exists j | 0 <= j < |pieces| :: pieces[j].Said? && forall k | 0 <= k < j :: !Closes(pieces[k])
  }

  lemma {:induction false} OvertakesMeaning(pieces: seq<Piece>, waiting: bool)
    ensures OvertakesFrom(pieces, waiting) <==> Overtakes(pieces) || (waiting && SaidWhileWaiting(pieces))
  {
    if pieces == [] {
    } else {
      var rest := pieces[1..];
      assert forall k | 0 <= k < |rest| :: rest[k] == pieces[k + 1];
      OvertakesMeaning(rest, if pieces[0].Said? then waiting else pieces[0].Called?);
      OvertakesLater(pieces);
      WaitingLater(pieces);
    }
  }

  lemma OvertakesLater(pieces: seq<Piece>)
    requires pieces != []
    ensures Overtakes(pieces) <==> Overtakes(pieces[1..]) || (pieces[0].Called? && SaidWhileWaiting(pieces[1..]))
  {
    if Overtakes(pieces[1..]) { OvertakesInTail(pieces); }
    if pieces[0].Called? && SaidWhileWaiting(pieces[1..]) { OvertakesFirst(pieces); }
    if Overtakes(pieces) { OvertakesWhere(pieces); }
  }

  lemma OvertakesInTail(pieces: seq<Piece>)
    requires pieces != [] && Overtakes(pieces[1..])
    ensures Overtakes(pieces)
  {
    var rest := pieces[1..];
    var i, j :| 0 <= i < j < |rest| && rest[i].Called? && rest[j].Said? && forall k | i < k < j :: !Closes(rest[k]);
    assert pieces[i + 1].Called? && pieces[j + 1].Said?;
    forall k | i + 1 < k < j + 1 ensures !Closes(pieces[k]) { assert rest[k - 1] == pieces[k]; }
  }

  lemma OvertakesFirst(pieces: seq<Piece>)
    requires pieces != [] && pieces[0].Called? && SaidWhileWaiting(pieces[1..])
    ensures Overtakes(pieces)
  {
    var rest := pieces[1..];
    var j :| 0 <= j < |rest| && rest[j].Said? && forall k | 0 <= k < j :: !Closes(rest[k]);
    assert pieces[0].Called? && pieces[j + 1].Said?;
    forall k | 0 < k < j + 1 ensures !Closes(pieces[k]) { assert rest[k - 1] == pieces[k]; }
  }

  lemma OvertakesWhere(pieces: seq<Piece>)
    requires pieces != [] && Overtakes(pieces)
    ensures Overtakes(pieces[1..]) || (pieces[0].Called? && SaidWhileWaiting(pieces[1..]))
  {
    var rest := pieces[1..];
    var i, j :| 0 <= i < j < |pieces| && pieces[i].Called? && pieces[j].Said? && forall k | i < k < j :: !Closes(pieces[k]);
    assert rest[j - 1].Said?;
    forall k | i - 1 < k < j - 1 && k >= 0 ensures !Closes(rest[k]) { assert rest[k] == pieces[k + 1]; }
    if i > 0 { assert rest[i - 1].Called?; }
  }

  lemma WaitingLater(pieces: seq<Piece>)
    requires pieces != []
    ensures SaidWhileWaiting(pieces) <==> pieces[0].Said? || (!Closes(pieces[0]) && SaidWhileWaiting(pieces[1..]))
  {
    var rest := pieces[1..];
    assert forall k | 0 <= k < |rest| :: rest[k] == pieces[k + 1];
    if !Closes(pieces[0]) && SaidWhileWaiting(rest) {
      var j :| 0 <= j < |rest| && rest[j].Said? && forall k | 0 <= k < j :: !Closes(rest[k]);
      assert pieces[j + 1].Said?;
      forall k | 0 <= k < j + 1 ensures !Closes(pieces[k]) { if k > 0 { assert rest[k - 1] == pieces[k]; } }
    }
    if SaidWhileWaiting(pieces) && !pieces[0].Said? {
      var j :| 0 <= j < |pieces| && pieces[j].Said? && forall k | 0 <= k < j :: !Closes(pieces[k]);
      assert rest[j - 1].Said?;
      forall k | 0 <= k < j - 1 ensures !Closes(rest[k]) { assert rest[k] == pieces[k + 1]; }
    }
  }

  /** A message item never becomes a turn of calls. */
  predicate Plainly(pieces: seq<Piece>) {
    forall i | 0 <= i < |pieces| && pieces[i].Said? && pieces[i].message.Assistant? :: pieces[i].message.calls == []
  }

  lemma {:induction false} OrderKeptIff(pieces: seq<Piece>, pending: seq<Call>)
    requires Plainly(pieces)
    ensures Arranged(pieces, pending) == InOrder(pieces, pending) <==> !OvertakesFrom(pieces, pending != [])
    decreases |pieces|
  {
    if pieces == [] {
    } else {
      var rest := pieces[1..];
      assert forall k | 0 <= k < |rest| :: rest[k] == pieces[k + 1];
      match pieces[0]
      case Said(m) =>
        OrderKeptIff(rest, pending);
        if pending == [] {
          SplitEqual([m], Arranged(rest, []), [m], InOrder(rest, []));
          assert [] + [m] == [m];
        } else {
          assert Arranged(pieces, pending)[0] == m;
          assert InOrder(pieces, pending)[0] == Assistant(None, None, pending);
        }
      case Called(c) => OrderKeptIff(rest, pending + [c]);
      case Answered(m) =>
        OrderKeptIff(rest, []);
        SplitEqual(Turn(pending) + [m], Arranged(rest, []), Turn(pending) + [m], InOrder(rest, []));
      case Paused =>
        OrderKeptIff(rest, []);
        SplitEqual(Turn(pending), Arranged(rest, []), Turn(pending), InOrder(rest, []));
    }
  }

  lemma PiecesArePlain(items: seq<Item>)
    requires EachConverts(items)
    ensures Plainly(Pieces(items))
  {
    forall i | 0 <= i < |items| && Pieces(items)[i].Said? && Pieces(items)[i].message.Assistant?
      ensures Pieces(items)[i].message.calls == []
    {
      assert items[i].MessageItem?;
    }
  }

  /**
   The input order is kept, with runs of calls merged and reasoning dropped, exactly when no message
   item arrives while calls are waiting.
   */
  lemma InputOrderKeptIff(items: seq<Item>)
    requires ConvertItems(items).Ok?
    ensures EachConverts(items)
    ensures ConvertItems(items).value == InOrder(Pieces(items), []) <==> !Overtakes(Pieces(items))
  {
    AcceptedConverts(items);
    ConversionArranges(items);
    PiecesArePlain(items);
    OrderKeptIff(Pieces(items), []);
    OvertakesMeaning(Pieces(items), false);
  }

  lemma Overtaken(call: Call, user: Message, tool: Message)
    ensures Arranged([Called(call), Said(user), Answered(tool)], []) == [user, Assistant(None, None, [call]), tool]
  {
    var p := [Called(call), Said(user), Answered(tool)];
    assert p[1..] == [Said(user), Answered(tool)] && [Said(user), Answered(tool)][1..] == [Answered(tool)];
    assert [Answered(tool)][1..] == [] && [] + [call] == [call];
    assert Arranged([Answered(tool)], [call]) == Turn([call]) + [tool] + [];
  }

  /** A call, a user message, and the call's result: the message overtakes the call on the wire. */
  lemma MessageOvertakesCall(id: string, name: string, text: string, output: string)
    requires id != "" && name != ""
    ensures var items := [FunctionCall(id, name, None), MessageItem(Some("user"), Text(text)), FunctionCallOutput(id, Text(output))];
      ConvertItems(items) == Ok([User(Plain(text)), Assistant(None, None, [Call(id, name, "{}")]), Tool(id, Plain(output))]) &&
      EachConverts(items) && ConvertItems(items).value != InOrder(Pieces(items), [])
  {
    var items := [FunctionCall(id, name, None), MessageItem(Some("user"), Text(text)), FunctionCallOutput(id, Text(output))];
    var call, user, tool := Call(id, name, "{}"), User(Plain(text)), Tool(id, Plain(output));
    assert ConvertItem(items[0]) == Ok(Called(call)) && ConvertItem(items[2]) == Ok(Answered(tool));
    assert ConvertItem(items[1]) == Ok(Said(user));
    var p := Pieces(items);
    assert p == [Called(call), Said(user), Answered(tool)];
    Overtaken(call, user, tool);
    ConversionArranges(items);
    InputOrderKeptIff(items);
    assert p[0].Called? && p[1].Said?;
  }

  /** An input is accepted exactly when each item converts and some item is not reasoning. */
  lemma AcceptedIff(items: seq<Item>)
    ensures ConvertItems(items).Ok? <==> EachConverts(items) && exists i | 0 <= i < |items| :: !items[i].Reasoning?
  {
    if EachConverts(items) {
      ConversionArranges(items);
      ArrangedEmpty(Pieces(items), []);
      assert forall i | 0 <= i < |items| :: Pieces(items)[i].Paused? <==> items[i].Reasoning?;
    } else if ConvertPrefix(items).Ok? {
      AcceptedConverts(items);
    }
  }

  lemma {:induction false} ArrangedEmpty(pieces: seq<Piece>, pending: seq<Call>)
    ensures Arranged(pieces, pending) == [] <==> pending == [] && forall i | 0 <= i < |pieces| :: pieces[i].Paused?
    decreases |pieces|
  {
    if pieces == [] {
    } else {
      var rest := pieces[1..];
      assert forall k | 0 <= k < |rest| :: rest[k] == pieces[k + 1];
      match pieces[0]
      case Said(_) =>
      case Called(c) => ArrangedEmpty(rest, pending + [c]);
      case Answered(_) =>
      case Paused => ArrangedEmpty(rest, []);
    }
  }

  // ---- Nothing is lost ----

  /** The messages said, in order. */
  function SaidOf(pieces: seq<Piece>): seq<Message> {
    if pieces == [] then [] else (if pieces[0].Said? then [pieces[0].message] else []) + SaidOf(pieces[1..])
  }

  function CallsOf(pieces: seq<Piece>): seq<Call> {
    if pieces == [] then [] else (if pieces[0].Called? then [pieces[0].call] else []) + CallsOf(pieces[1..])
  }

  /** A stretch without results or pauses: its messages, then all its calls as one turn, with those waiting before. */
  lemma {:induction false} StretchArranges(stretch: seq<Piece>, pending: seq<Call>, rest: seq<Piece>)
    requires forall i | 0 <= i < |stretch| :: !Closes(stretch[i])
    requires rest == [] || Closes(rest[0])
    ensures Arranged(stretch + rest, pending) == SaidOf(stretch) + Arranged(rest, pending + CallsOf(stretch))
    decreases |stretch|
  {
    if stretch == [] {
      assert stretch + rest == rest && pending + [] == pending;
    } else {
      var first, later := stretch[0], stretch[1..];
      assert (stretch + rest)[1..] == later + rest;
      if first.Said? {
        StretchArranges(later, pending, rest);
        assert CallsOf(stretch) == CallsOf(later);
        Regroup([first.message], SaidOf(later), Arranged(rest, pending + CallsOf(later)));
      } else {
        StretchArranges(later, pending + [first.call], rest);
        assert SaidOf(stretch) == SaidOf(later);
        Regroup(pending, [first.call], CallsOf(later));
      }
    }
  }

  function CalledAll(calls: seq<Call>): seq<Piece> {
    seq(|calls|, i requires 0 <= i < |calls| => Called(calls[i]))
  }

  /** The calls and results among the pieces, in order. */
  function ActsOf(pieces: seq<Piece>): seq<Piece> {
    if pieces == [] then [] else (if pieces[0].Called? || pieces[0].Answered? then [pieces[0]] else []) + ActsOf(pieces[1..])
  }

  function ActsIn(m: Message): seq<Piece> {
    if m.Assistant? then CalledAll(m.calls) else if m.Tool? then [Answered(m)] else []
  }

  /** The calls and results on the wire, in order. */
  function Acts(ms: seq<Message>): seq<Piece> {
    if ms == [] then [] else ActsIn(ms[0]) + Acts(ms[1..])
  }

  /** The other messages on the wire, in order. */
  function Spoken(ms: seq<Message>): seq<Message> {
    if ms == [] then [] else (if ActsIn(ms[0]) == [] then [ms[0]] else []) + Spoken(ms[1..])
  }

  lemma {:induction false} WireSplits(a: seq<Message>, b: seq<Message>)
    ensures Acts(a + b) == Acts(a) + Acts(b) && Spoken(a + b) == Spoken(a) + Spoken(b)
  {
    if a == [] {
      assert a + b == b;
    } else {
      assert (a + b)[1..] == a[1..] + b;
      WireSplits(a[1..], b);
      Regroup(ActsIn(a[0]), Acts(a[1..]), Acts(b));
      Regroup(if ActsIn(a[0]) == [] then [a[0]] else [], Spoken(a[1..]), Spoken(b));
    }
  }

  lemma OneMessage(m: Message)
    ensures Acts([m]) == ActsIn(m) && Spoken([m]) == if ActsIn(m) == [] then [m] else []
  {
    assert [m][1..] == [];
  }

  lemma TurnActs(calls: seq<Call>)
    ensures Acts(Turn(calls)) == CalledAll(calls) && Spoken(Turn(calls)) == []
  {
    if calls != [] { OneMessage(Assistant(None, None, calls)); }
  }

  /** What was said carries no calls and is no result; results are tool messages. */
  predicate Proper(pieces: seq<Piece>) {
    forall i | 0 <= i < |pieces| ::
      (pieces[i].Said? ==> ActsIn(pieces[i].message) == []) && (pieces[i].Answered? ==> pieces[i].result.Tool?)
  }

  lemma {:induction false} ArrangedKeeps(pieces: seq<Piece>, pending: seq<Call>)
    requires Proper(pieces)
    ensures Acts(Arranged(pieces, pending)) == CalledAll(pending) + ActsOf(pieces)
    ensures Spoken(Arranged(pieces, pending)) == SaidOf(pieces)
    decreases |pieces|
  {
    TurnActs(pending);
    if pieces == [] {
    } else {
      var first, rest := pieces[0], pieces[1..];
      assert forall k | 0 <= k < |rest| :: rest[k] == pieces[k + 1];
      match first
      case Said(m) =>
        ArrangedKeeps(rest, pending);
        OneMessage(m);
        WireSplits([m], Arranged(rest, pending));
        assert ActsOf(pieces) == ActsOf(rest);
      case Called(c) =>
        ArrangedKeeps(rest, pending + [c]);
        assert CalledAll(pending + [c]) == CalledAll(pending) + [first];
        Regroup(CalledAll(pending), [first], ActsOf(rest));
        assert SaidOf(pieces) == SaidOf(rest);
      case Answered(m) =>
        ArrangedKeeps(rest, []);
        OneMessage(m);
        WireSplits(Turn(pending), [m]);
        WireSplits(Turn(pending) + [m], Arranged(rest, []));
        Regroup(CalledAll(pending), [first], ActsOf(rest));
        assert SaidOf(pieces) == SaidOf(rest) && CalledAll([]) + ActsOf(rest) == ActsOf(rest);
      case Paused =>
        ArrangedKeeps(rest, []);
        WireSplits(Turn(pending), Arranged(rest, []));
        assert SaidOf(pieces) == SaidOf(rest) && ActsOf(pieces) == ActsOf(rest) && CalledAll([]) + ActsOf(rest) == ActsOf(rest);
    }
  }

  /**
   On success every call and every result is on the wire, unchanged and in input order, so a result
   follows every call before it; and so is every message item.
   */
  lemma NothingIsLost(items: seq<Item>)
    requires ConvertItems(items).Ok?
    ensures EachConverts(items)
    ensures Acts(ConvertItems(items).value) == ActsOf(Pieces(items))
    ensures Spoken(ConvertItems(items).value) == SaidOf(Pieces(items))
  {
    AcceptedConverts(items);
    ConversionArranges(items);
    forall i | 0 <= i < |items|
      ensures Pieces(items)[i].Said? ==> ActsIn(Pieces(items)[i].message) == []
      ensures Pieces(items)[i].Answered? ==> Pieces(items)[i].result.Tool?
    {
      assert Ok(Pieces(items)[i]) == ConvertItem(items[i]);
    }
    ArrangedKeeps(Pieces(items), []);
    assert CalledAll([]) + ActsOf(Pieces(items)) == ActsOf(Pieces(items));
  }
}
