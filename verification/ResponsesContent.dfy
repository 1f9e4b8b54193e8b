/** What an accepted Responses input says is what the wire says: every text, image, call and result. */
module ResponsesContent {
  import opened Wrappers
  import opened ChatPolicy
  import opened ResponsesRequest
  import AnthropicContent

  // ---- What an item says ----

  datatype Speaker = Instructor | Asker | Answerer

  datatype Utterance =
    | Spoke(speaker: Speaker, text: string, images: seq<string>)
    | Used(call: Call)
    | Returned(id: string, text: string, images: seq<string>)

  /** The texts among the parts; a refusal is text, too. */
  function Texts(parts: seq<ItemPart>): seq<string> {
    if parts == [] then [] else
      Texts(parts[..|parts| - 1]) +
      match parts[|parts| - 1]
      case PlainText(text) => [text]
      case Refusal(text) => [text]
      case _ => []
  }

  function Images(parts: seq<ItemPart>): seq<string> {
    if parts == [] then [] else
      Images(parts[..|parts| - 1]) +
      match parts[|parts| - 1]
      case Image(Some(payload)) => [payload]
      case _ => []
  }

  function ContentText(content: ItemContent): string {
    match content
    case Text(text) => text
    case Parts(parts) => AnthropicContent.Lines(Texts(parts), "\n")
    case _ => ""
  }

  function ContentImages(content: ItemContent): seq<string> {
    match content
    case Parts(parts) => Images(parts)
    case _ => []
  }

  function SpeakerOf(role: Option<string>): Speaker {
    if role == Some("user") then Asker else if role == Some("assistant") then Answerer else Instructor
  }

  /** One item, as it should be heard; reasoning is not. */
  function ItemSays(item: Item): seq<Utterance> {
    match item
    case MessageItem(role, content) => [Spoke(SpeakerOf(role), ContentText(content), ContentImages(content))]
    case FunctionCall(id, name, Some(arguments)) => [Used(Call(id, name, arguments))]
    case FunctionCall(id, name, None) => [Used(Call(id, name, "{}"))]
    case FunctionCallOutput(id, output) => [Returned(id, ContentText(output), ContentImages(output))]
    case _ => []
  }

  // ---- What the wire says ----

  /** The payloads of parts that are all media. */
  function Payloads(parts: seq<Part>): seq<string> {
    if parts == [] then [] else
      Payloads(parts[..|parts| - 1]) +
      match parts[|parts| - 1]
      case MediaPart(payload) => [payload]
      case TextPart(_) => []
  }

  function FirstText(content: Content): string {
    match content
    case Plain(text) => text
    case Rich(parts) => if parts != [] && parts[0].TextPart? then parts[0].text else ""
  }

  function ContentPayloads(content: Content): seq<string> {
    match content
    case Plain(_) => []
    case Rich(parts) => Payloads(parts)
  }

  /** A message that is neither calls nor a result. */
  function MessageSays(m: Message): Utterance {
    match m
    case System(prompt) => Spoke(Instructor, prompt, [])
    case User(content) => Spoke(Asker, FirstText(content), ContentPayloads(content))
    case Assistant(text, _, _) => Spoke(Answerer, match text case Some(t) => t case None => "", [])
    case Tool(id, content) => Returned(id, FirstText(content), ContentPayloads(content))
  }

  function PieceSays(p: Piece): seq<Utterance> {
    match p
    case Said(m) => [MessageSays(m)]
    case Called(call) => [Used(call)]
    case Answered(m) => [MessageSays(m)]
    case Paused => []
  }

  // ---- Item by item ----

  lemma CollectedMore(c: Collected, p: ItemPart, refusals: bool)
    requires CollectPart(c, p, refusals).Ok? && forall i | 0 <= i < |c.images| :: c.images[i].MediaPart?
    ensures var c' := CollectPart(c, p, refusals).value;
      c'.texts == c.texts + Texts([p]) && Payloads(c'.images) == Payloads(c.images) + Images([p]) &&
      forall i | 0 <= i < |c'.images| :: c'.images[i].MediaPart?
  {
    assert [p][..0] == [];
    assert Texts([p][..0]) == [] && Images([p][..0]) == [];
    if p.Image? { assert (c.images + [MediaPart(p.part.value)])[..|c.images|] == c.images; }
  }

  lemma LastPart(parts: seq<ItemPart>)
    requires parts != []
    ensures var n := |parts| - 1;
      Texts(parts) == Texts(parts[..n]) + Texts([parts[n]]) && Images(parts) == Images(parts[..n]) + Images([parts[n]])
  {
    var p := parts[|parts| - 1];
    assert [p][..0] == [];
    assert Texts([p][..0]) == [] && Images([p][..0]) == [];
  }

  lemma {:induction false} Collected(parts: seq<ItemPart>, refusals: bool)
    requires Collect(parts, refusals).Ok?
    ensures var c := Collect(parts, refusals).value;
      c.texts == Texts(parts) && Payloads(c.images) == Images(parts) && forall i | 0 <= i < |c.images| :: c.images[i].MediaPart?
  {
    if parts == [] {
    } else {
      Collected(parts[..|parts| - 1], refusals);
      CollectedMore(Collect(parts[..|parts| - 1], refusals).value, parts[|parts| - 1], refusals);
      LastPart(parts);
    }
  }

  lemma {:induction false} PayloadsAfterText(text: string, images: seq<Part>)
    ensures Payloads([TextPart(text)] + images) == Payloads(images)
  {
    var all := [TextPart(text)] + images;
    if images == [] {
      assert all[..|all| - 1] == [];
    } else {
      assert all[..|all| - 1] == [TextPart(text)] + images[..|images| - 1];
      PayloadsAfterText(text, images[..|images| - 1]);
    }
  }

  /** Images with an optional text before them. */
  lemma RichSays(text: string, given: bool, images: seq<Part>)
    requires images != [] && (!given ==> text == "") && forall i | 0 <= i < |images| :: images[i].MediaPart?
    ensures var content := Rich((if given then [TextPart(text)] else []) + images);
      FirstText(content) == text && ContentPayloads(content) == Payloads(images)
  {
    if given {
      PayloadsAfterText(text, images);
    } else {
      assert [] + images == images;
    }
  }

  lemma PartsHeard(content: ItemContent)
    requires MessageParts(content).Ok?
    ensures var c := MessageParts(content).value;
      Join(c.texts, "\n") == ContentText(content) && Payloads(c.images) == ContentImages(content) &&
      forall i | 0 <= i < |c.images| :: c.images[i].MediaPart?
  {
    var c := MessageParts(content).value;
    if content.Parts? { Collected(content.parts, true); }
    AnthropicContent.JoinIsLines(c.texts, "\n");
  }

  lemma MessageHeard(role: Option<string>, content: ItemContent)
    requires ConvertMessage(role, content).Ok?
    ensures MessageSays(ConvertMessage(role, content).value) == Spoke(SpeakerOf(role), ContentText(content), ContentImages(content))
  {
    var c := MessageParts(content).value;
    PartsHeard(content);
    if c.images != [] { RichSays(Join(c.texts, "\n"), Join(c.texts, "\n") != "", c.images); }
  }

  lemma OutputHeard(id: string, output: ItemContent)
    requires ConvertOutput(id, output).Ok?
    ensures var m := ConvertOutput(id, output).value;
      m.Tool? && MessageSays(m) == Returned(id, ContentText(output), ContentImages(output))
  {
    if output.Parts? {
      Collected(output.parts, false);
      var c := Collect(output.parts, false).value;
      AnthropicContent.JoinIsLines(c.texts, "\n");
      if c.images != [] { RichSays(Join(c.texts, "\n"), c.texts != [], c.images); }
    }
  }

  lemma ItemHeard(item: Item)
    requires ConvertItem(item).Ok?
    ensures PieceSays(ConvertItem(item).value) == ItemSays(item)
  {
    match item
    case MessageItem(role, content) => MessageHeard(role, content);
    case FunctionCallOutput(id, output) => OutputHeard(id, output);
    case _ =>
  }

  // ---- The whole input ----

  /** What the items say that is neither a call nor a result. */
  function Talk(items: seq<Item>): seq<Utterance> {
    if items == [] then [] else (if items[0].MessageItem? then ItemSays(items[0]) else []) + Talk(items[1..])
  }

  /** The calls and results of the items. */
  function Work(items: seq<Item>): seq<Utterance> {
    if items == [] then [] else (if items[0].MessageItem? then [] else ItemSays(items[0])) + Work(items[1..])
  }

  /** The messages on the wire that hold neither calls nor a result. */
  function WireTalk(ms: seq<Message>): seq<Utterance> {
    if ms == [] then [] else
      (if ms[0].Tool? || (ms[0].Assistant? && ms[0].calls != []) then [] else [MessageSays(ms[0])]) + WireTalk(ms[1..])
  }

  function UsedAll(calls: seq<Call>): seq<Utterance> {
    seq(|calls|, i requires 0 <= i < |calls| => Used(calls[i]))
  }

  /** The calls and results on the wire. */
  function WireWork(ms: seq<Message>): seq<Utterance> {
    if ms == [] then [] else
      (match ms[0]
       case Assistant(_, _, calls) => UsedAll(calls)
       case Tool(_, _) => [MessageSays(ms[0])]
       case _ => []) + WireWork(ms[1..])
  }

  function SayAll(pieces: seq<Piece>): seq<Utterance> {
    if pieces == [] then [] else PieceSays(pieces[0]) + SayAll(pieces[1..])
  }

  function MessagesSay(ms: seq<Message>): seq<Utterance> {
    if ms == [] then [] else [MessageSays(ms[0])] + MessagesSay(ms[1..])
  }

  lemma {:induction false} SpokenIsTalk(ms: seq<Message>)
    ensures MessagesSay(Spoken(ms)) == WireTalk(ms)
  {
    if ms != [] {
      SpokenIsTalk(ms[1..]);
      if ms[0].Assistant? { assert |ActsIn(ms[0])| == |ms[0].calls|; }
      assert ActsIn(ms[0]) == [] <==> !(ms[0].Tool? || (ms[0].Assistant? && ms[0].calls != []));
      if ActsIn(ms[0]) == [] {
        assert ([ms[0]] + Spoken(ms[1..]))[1..] == Spoken(ms[1..]);
      } else {
        assert Spoken(ms) == Spoken(ms[1..]);
      }
    }
  }

  lemma {:induction false} SayAllSplits(a: seq<Piece>, b: seq<Piece>)
    ensures SayAll(a + b) == SayAll(a) + SayAll(b)
  {
    if a == [] {
      assert a + b == b;
    } else {
      assert (a + b)[1..] == a[1..] + b;
      SayAllSplits(a[1..], b);
    }
  }

  lemma {:induction false} CallsSay(calls: seq<Call>)
    ensures SayAll(CalledAll(calls)) == UsedAll(calls)
  {
    if calls != [] {
      assert CalledAll(calls)[1..] == CalledAll(calls[1..]);
      CallsSay(calls[1..]);
    }
  }

  lemma {:induction false} ActsAreWork(ms: seq<Message>)
    ensures SayAll(Acts(ms)) == WireWork(ms)
  {
    if ms != [] {
      ActsAreWork(ms[1..]);
      SayAllSplits(ActsIn(ms[0]), Acts(ms[1..]));
      if ms[0].Assistant? { CallsSay(ms[0].calls); }
      if ms[0].Tool? { assert [Answered(ms[0])][1..] == []; }
    }
  }

  /** The first piece, said or worked or neither. */
  lemma FirstPiece(items: seq<Item>)
    requires EachConverts(items) && items != []
    ensures Pieces(items)[1..] == Pieces(items[1..]) && PieceSays(Pieces(items)[0]) == ItemSays(items[0])
    ensures Pieces(items)[0].Said? <==> items[0].MessageItem?
    ensures Pieces(items)[0].Paused? ==> ItemSays(items[0]) == []
  {
    ItemHeard(items[0]);
    assert Ok(Pieces(items)[0]) == ConvertItem(items[0]);
  }

  lemma {:induction false} PiecesTalk(items: seq<Item>)
    requires EachConverts(items)
    ensures MessagesSay(SaidOf(Pieces(items))) == Talk(items)
  {
    if items != [] {
      var p, rest := Pieces(items)[0], Pieces(items[1..]);
      FirstPiece(items);
      PiecesTalk(items[1..]);
      if p.Said? {
        assert SaidOf(Pieces(items)) == [p.message] + SaidOf(rest);
        assert ([p.message] + SaidOf(rest))[1..] == SaidOf(rest);
      } else {
        assert SaidOf(Pieces(items)) == SaidOf(rest);
      }
    }
  }

  lemma {:induction false} PiecesWork(items: seq<Item>)
    requires EachConverts(items)
    ensures SayAll(ActsOf(Pieces(items))) == Work(items)
  {
    if items != [] {
      var p, rest := Pieces(items)[0], Pieces(items[1..]);
      FirstPiece(items);
      PiecesWork(items[1..]);
      if p.Called? || p.Answered? {
        assert ActsOf(Pieces(items)) == [p] + ActsOf(rest);
        assert ([p] + ActsOf(rest))[1..] == ActsOf(rest);
      } else {
        assert ActsOf(Pieces(items)) == ActsOf(rest);
      }
    }
  }

  /**
   The wire of an accepted input says what the items say: all talk in order, and all calls and results in
   order, with every text, image, id, name and argument as given.
   */
  lemma ContentSurvives(items: seq<Item>)
    requires ConvertItems(items).Ok?
    ensures WireTalk(ConvertItems(items).value) == Talk(items)
    ensures WireWork(ConvertItems(items).value) == Work(items)
  {
    NothingIsLost(items);
    PiecesTalk(items);
    PiecesWork(items);
    SpokenIsTalk(ConvertItems(items).value);
    ActsAreWork(ConvertItems(items).value);
  }

  // ---- Which inputs are accepted ----

  predicate GoodPart(p: ItemPart, refusals: bool) {
    match p
    case PlainText(_) => true
    case Refusal(_) => refusals
    case Image(part) => part != None
    case BadPart => false
  }

  predicate GoodContent(content: ItemContent, refusals: bool) {
    match content
    case Text(_) => true
    case Missing => true
    case BadContent => false
    case Parts(parts) => forall i | 0 <= i < |parts| :: GoodPart(parts[i], refusals)
  }

  predicate HasImage(content: ItemContent) {
    content.Parts? && exists i :: 0 <= i < |content.parts| && content.parts[i].Image?
  }

  /** What a single item may be: a message of a known role, images from the user only; a named call; an output with an id; reasoning. */
  predicate Good(item: Item) {
    match item
    case MessageItem(role, content) =>
      GoodContent(content, true) &&
      (role == Some("user") || ((role == Some("system") || role == Some("developer") || role == Some("assistant")) && !HasImage(content)))
    case FunctionCall(id, name, _) => id != "" && name != ""
    case FunctionCallOutput(id, output) => id != "" && GoodContent(output, false)
    case Reasoning => true
    case _ => false
  }

  lemma {:induction false} CollectsIff(parts: seq<ItemPart>, refusals: bool)
    ensures Collect(parts, refusals).Ok? <==> forall i | 0 <= i < |parts| :: GoodPart(parts[i], refusals)
    ensures Collect(parts, refusals).Ok? ==> (Collect(parts, refusals).value.images != [] <==> exists i :: 0 <= i < |parts| && parts[i].Image?)
  {
    if parts == [] {
    } else {
      var init := parts[..|parts| - 1];
      CollectsIff(init, refusals);
      assert forall i | 0 <= i < |init| :: init[i] == parts[i];
      if exists i :: 0 <= i < |init| && init[i].Image? {
        var i :| 0 <= i < |init| && init[i].Image?;
        assert parts[i].Image?;
      }
    }
  }

  lemma GoodConverts(item: Item)
    ensures ConvertItem(item).Ok? <==> Good(item)
  {
    match item
    case MessageItem(role, content) => if content.Parts? { CollectsIff(content.parts, true); }
    case FunctionCallOutput(_, output) => if output.Parts? { CollectsIff(output.parts, false); }
    case _ =>
  }

  /** An input is accepted exactly when every item is good and some item is not reasoning. */
  lemma AcceptedIffGood(items: seq<Item>)
    ensures ConvertItems(items).Ok? <==>
      (forall i | 0 <= i < |items| :: Good(items[i])) && exists i | 0 <= i < |items| :: !items[i].Reasoning?
  {
    AcceptedIff(items);
    forall i | 0 <= i < |items| ensures ConvertItem(items[i]).Ok? <==> Good(items[i]) { GoodConverts(items[i]); }
  }
}
