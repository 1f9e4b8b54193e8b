/** The reader accepts the texts of the JSON grammar and no others, and reads them as what they mean. */
module JsonReader {
  import opened Wrappers
  import opened CanonicalJson
  import JsonGrammar

  // ---- Texts by the grammar ----

  /** A text as RFC 8259 puts it together, with its white space and its spellings. */
  datatype Source =
    | Word(text: string)
    | Number(text: string)
    | Quoted(body: string, value: string)
    | Listed(gap: string, items: seq<Item>)
    | Braced(gap: string, pairs: seq<Pair>)

  datatype Item = Item(before: string, value: Source, after: string)

  /** A quoted key, a colon and a value, with white space around each. */
  datatype Pair = Pair(before: string, body: string, key: string, middle: string, item: Item)

  function Write(s: Source): string
    decreases s, 0
  {
    match s
    case Word(text) => text
    case Number(text) => text
    case Quoted(body, _) => "\"" + body + "\""
    case Listed(gap, items) => "[" + (if items == [] then gap else WriteItems(items)) + "]"
    case Braced(gap, pairs) => "{" + (if pairs == [] then gap else WritePairs(pairs)) + "}"
  }

  function WriteItem(i: Item): string
    decreases i, 1
  {
    i.before + Write(i.value) + i.after
  }

  function WriteItems(items: seq<Item>): string
    requires items != []
    decreases items, 2
  {
    if |items| == 1 then WriteItem(items[0]) else WriteItem(items[0]) + "," + WriteItems(items[1..])
  }

  function WritePair(p: Pair): string
    decreases p, 2
  {
    p.before + "\"" + p.body + "\"" + p.middle + ":" + WriteItem(p.item)
  }

  function WritePairs(pairs: seq<Pair>): string
    requires pairs != []
    decreases pairs, 3
  {
    if |pairs| == 1 then WritePair(pairs[0]) else WritePair(pairs[0]) + "," + WritePairs(pairs[1..])
  }

  /** White space is white space, strings are spelled, numbers are taken, and nesting is within bounds. */
  ghost predicate Fine(num: Numbers, s: Source, depth: nat)
    decreases s, 0
  {
    match s
    case Word(text) => text == "null" || text == "true" || text == "false"
    case Number(text) => IsNumber(text) && num(text).Some?
    case Quoted(body, value) => JsonGrammar.Spells(body, value)
    case Listed(gap, items) => depth > 1 && JsonGrammar.Space(gap) && forall i | 0 <= i < |items| :: FineItem(num, items[i], depth - 1)
    case Braced(gap, pairs) => depth > 1 && JsonGrammar.Space(gap) && forall i | 0 <= i < |pairs| :: FinePair(num, pairs[i], depth - 1)
  }

  ghost predicate FineItem(num: Numbers, i: Item, depth: nat)
    decreases i, 1
  {
    JsonGrammar.Space(i.before) && JsonGrammar.Space(i.after) && Fine(num, i.value, depth)
  }

  ghost predicate FinePair(num: Numbers, p: Pair, depth: nat)
    decreases p, 2
  {
    JsonGrammar.Space(p.before) && JsonGrammar.Space(p.middle) && JsonGrammar.Spells(p.body, p.key) && FineItem(num, p.item, depth)
  }

  /** The value of a text; a repeated key keeps its place and takes the last value. */
  function Meaning(num: Numbers, s: Source): Json
    decreases s, 0
  {
    match s
    case Word(text) => if text == "null" then JNull else JBool(text == "true")
    case Number(text) => JNumber(num(text).GetOr(text))
    case Quoted(_, value) => JString(value)
    case Listed(_, items) => JArray(ItemMeanings(num, items))
    case Braced(_, pairs) => JObject(PairMeanings(num, pairs, []))
  }

  function ItemMeanings(num: Numbers, items: seq<Item>): (r: seq<Json>)
    ensures |r| == |items|
    decreases items, 1
  {
    if items == [] then [] else [Meaning(num, items[0].value)] + ItemMeanings(num, items[1..])
  }

  function PairMeanings(num: Numbers, pairs: seq<Pair>, before: seq<Member>): seq<Member>
    decreases pairs, 1
  {
    if pairs == [] then before
    else PairMeanings(num, pairs[1..], Put(before, pairs[0].key, Meaning(num, pairs[0].item.value)))
  }

  // ---- Every such text is read ----

  /** Nothing that would continue a number. */
  predicate Stops(rest: string) {
    rest == "" || !IsNumberChar(rest[0])
  }

  predicate Solid(s: string) {
    s != "" && !IsSpace(s[0])
  }

  lemma {:induction false} SpaceSkipped(space: string, s: string)
    requires JsonGrammar.Space(space) && (s == "" || Solid(s))
    ensures SkipSpace(space + s) == s
  {
    if s != "" { assert s[..1] == [s[0]] && s[..1][0] == s[0]; }
    JsonGrammar.SpaceIsSkipped(space, s);
  }

  lemma NumberStarts(text: string)
    requires IsNumber(text)
    ensures text != "" && (text[0] == '-' || IsDigit(text[0]))
  {
  }

  lemma WriteStarts(num: Numbers, s: Source, depth: nat)
    requires Fine(num, s, depth)
    ensures Solid(Write(s)) && Write(s)[0] != ']' && Write(s)[0] != '}' && Write(s)[0] != ',' && Write(s)[0] != ':'
  {
    if s.Number? { NumberStarts(s.text); }
  }

  lemma {:induction false} NumberRunIs(text: string, rest: string)
    requires (forall i | 0 <= i < |text| :: IsNumberChar(text[i])) && Stops(rest)
    ensures NumberRun(text + rest) == |text|
  {
    if text == "" {
      assert text + rest == rest;
    } else {
      assert (text + rest)[1..] == text[1..] + rest;
      NumberRunIs(text[1..], rest);
    }
  }

  lemma StringRead(body: string, value: string, rest: string)
    requires JsonGrammar.Spells(body, value)
    ensures ReadString(body + "\"" + rest) == Parse(value, rest)
  {
    var t := body + "\"" + rest;
    assert t == body + ("\"" + rest);
    JsonGrammar.SpellingThenQuote(body, value, rest);
  }

  lemma WordRead(num: Numbers, text: string, rest: string, depth: nat)
    requires text == "null" || text == "true" || text == "false"
    ensures ReadValue(num, text + rest, depth) == Parse(Meaning(num, Word(text)), rest)
  {
    assert (text + rest)[0] == text[0];
    assert text <= text + rest && (text + rest)[|text|..] == rest;
    assert !(text == "true" && "null" <= text + rest) && !(text == "false" && ("null" <= text + rest || "true" <= text + rest));
  }

  lemma NotWord(t: string)
    requires t != "" && t[0] != 'n' && t[0] != 't' && t[0] != 'f'
    ensures !("null" <= t) && !("true" <= t) && !("false" <= t)
  {
  }

  lemma NumberIsRead(num: Numbers, text: string, rest: string, depth: nat)
    requires IsNumber(text) && num(text).Some? && Stops(rest)
    ensures ReadValue(num, text + rest, depth) == Parse(JNumber(num(text).value), rest)
  {
    var t := text + rest;
    NumberStarts(text);
    NotWord(t);
    NumberRunIs(text, rest);
    assert t[..|text|] == text && t[|text|..] == rest;
  }

  lemma QuotedIsRead(num: Numbers, body: string, value: string, rest: string, depth: nat)
    requires JsonGrammar.Spells(body, value)
    ensures ReadValue(num, "\"" + body + "\"" + rest, depth) == Parse(JString(value), rest)
  {
    var t := "\"" + body + "\"" + rest;
    NotWord(t);
    assert t[1..] == body + "\"" + rest;
    StringRead(body, value, rest);
  }

  /** White space before a value is skipped. */
  lemma LeadingSpace(num: Numbers, space: string, t: string, depth: nat)
    requires JsonGrammar.Space(space) && Solid(t)
    ensures ReadValue(num, space + t, depth) == ReadValue(num, t, depth)
  {
    SpaceSkipped(space, t);
    assert SkipSpace(t) == t;
  }

  /** What may follow a value inside a container. */
  predicate Closes(tail: string) {
    tail != "" && (tail[0] == ',' || tail[0] == ']' || tail[0] == '}')
  }

  lemma AfterValue(after: string, tail: string)
    requires JsonGrammar.Space(after) && Closes(tail)
    ensures Stops(after + tail) && SkipSpace(after + tail) == tail
  {
    SpaceSkipped(after, tail);
    if after != "" { assert (after + tail)[0] == after[0]; } else { assert after + tail == tail; }
  }

  lemma {:induction false} SkippedTwice(t: string)
    ensures SkipSpace(SkipSpace(t)) == SkipSpace(t)
  {
    if t != "" && IsSpace(t[0]) { SkippedTwice(t[1..]); }
  }

  lemma ItemsFromSolid(num: Numbers, t: string, depth: nat)
    ensures ReadValue(num, SkipSpace(t), depth) == ReadValue(num, t, depth)
    ensures ReadItems(num, SkipSpace(t), depth) == ReadItems(num, t, depth)
    ensures forall before :: ReadMembers(num, SkipSpace(t), depth, before) == ReadMembers(num, t, depth, before)
  {
    SkippedTwice(t);
  }

  lemma {:induction false} SourceRead(num: Numbers, s: Source, rest: string, depth: nat)
    requires Fine(num, s, depth) && (s.Number? ==> Stops(rest))
    ensures ReadValue(num, Write(s) + rest, depth) == Parse(Meaning(num, s), rest)
    decreases s, 0
  {
    match s
    case Word(text) => WordRead(num, text, rest, depth);
    case Number(text) => NumberIsRead(num, text, rest, depth);
    case Quoted(body, value) => QuotedIsRead(num, body, value, rest, depth);
    case Listed(gap, items) =>
      if items == [] {
        EmptyRead(num, gap, rest, depth);
      } else {
        ItemsRead(num, items, rest, depth - 1);
        ListRead(num, items, rest, depth);
      }
    case Braced(gap, pairs) =>
      if pairs == [] {
        EmptyRead(num, gap, rest, depth);
      } else {
        PairsRead(num, pairs, rest, depth - 1, []);
        BraceRead(num, pairs, rest, depth);
      }
  }

  lemma EmptyRead(num: Numbers, gap: string, rest: string, depth: nat)
    requires JsonGrammar.Space(gap) && depth > 1
    ensures ReadValue(num, "[" + gap + "]" + rest, depth) == Parse(JArray([]), rest)
    ensures ReadValue(num, "{" + gap + "}" + rest, depth) == Parse(JObject([]), rest)
  {
    var a, b := "[" + gap + "]" + rest, "{" + gap + "}" + rest;
    NotWord(a);
    NotWord(b);
    assert a[1..] == gap + ("]" + rest) && b[1..] == gap + ("}" + rest);
    SpaceSkipped(gap, "]" + rest);
    SpaceSkipped(gap, "}" + rest);
  }

  lemma WrappedText(open: string, inner: string, close: string, rest: string)
    requires |open| == 1
    ensures (open + inner + close + rest)[1..] == inner + close + rest && (open + inner + close + rest)[0] == open[0]
  {
  }

  lemma MoreText(first: string, more: string, close: string, rest: string)
    ensures first + close + rest == first + (close + rest)
    ensures first + "," + more + close + rest == first + ("," + (more + close + rest))
  {
  }

  /** The texts inside a container start with white space and then a value or a key. */
  lemma ItemsStart(num: Numbers, items: seq<Item>, rest: string, depth: nat)
    requires items != [] && FineItem(num, items[0], depth)
    ensures var inner := SkipSpace(WriteItems(items) + "]" + rest); inner != "" && inner[0] != ']'
  {
    var i := items[0];
    WriteStarts(num, i.value, depth);
    var more := i.after + AfterItem(items, rest);
    ItemsText(items, rest);
    ItemText(i, AfterItem(items, rest));
    assert (Write(i.value) + more)[0] == Write(i.value)[0];
    SpaceSkipped(i.before, Write(i.value) + more);
  }

  lemma ItemText(i: Item, tail: string)
    ensures WriteItem(i) + tail == i.before + (Write(i.value) + (i.after + tail))
  {
  }

  lemma ItemsText(items: seq<Item>, rest: string)
    requires items != []
    ensures WriteItems(items) + "]" + rest == WriteItem(items[0]) + AfterItem(items, rest)
  {
    if |items| == 1 {
      MoreText(WriteItem(items[0]), "", "]", rest);
    } else {
      MoreText(WriteItem(items[0]), WriteItems(items[1..]), "]", rest);
    }
  }

  /** What follows the first item. */
  function AfterItem(items: seq<Item>, rest: string): string
    requires items != []
  {
    if |items| == 1 then "]" + rest else "," + (WriteItems(items[1..]) + "]" + rest)
  }

  /** An array that is not empty is read item by item, an object member by member. */
  lemma ContainerStep(num: Numbers, t: string, depth: nat)
    requires t != "" && (t[0] == '[' || t[0] == '{') && depth > 1
    requires var inner := SkipSpace(t[1..]); inner != "" && inner[0] != if t[0] == '[' then ']' else '}'
    ensures t[0] == '[' ==> ReadValue(num, t, depth) == AsArray(ReadItems(num, t[1..], depth - 1))
    ensures t[0] == '{' ==> ReadValue(num, t, depth) == AsObject(ReadMembers(num, t[1..], depth - 1, []))
  {
    NotWord(t);
    ItemsFromSolid(num, t[1..], depth - 1);
  }

  function AsArray(r: Parsed<seq<Json>>): Parsed<Json> {
    if r.NoParse? then NoParse else Parse(JArray(r.value), r.rest)
  }

  function AsObject(r: Parsed<seq<Member>>): Parsed<Json> {
    if r.NoParse? then NoParse else Parse(JObject(r.value), r.rest)
  }

  lemma ListRead(num: Numbers, items: seq<Item>, rest: string, depth: nat)
    requires items != [] && depth > 1 && FineItem(num, items[0], depth - 1)
    requires ReadItems(num, WriteItems(items) + "]" + rest, depth - 1) == Parse(ItemMeanings(num, items), rest)
    ensures ReadValue(num, "[" + WriteItems(items) + "]" + rest, depth) == Parse(JArray(ItemMeanings(num, items)), rest)
  {
    var t := "[" + WriteItems(items) + "]" + rest;
    WrappedText("[", WriteItems(items), "]", rest);
    ItemsStart(num, items, rest, depth - 1);
    ContainerStep(num, t, depth);
  }

  /** One item and what follows it. */
  lemma {:induction false} ItemRead(num: Numbers, i: Item, tail: string, depth: nat)
    requires FineItem(num, i, depth) && Closes(tail)
    ensures var r := ReadValue(num, WriteItem(i) + tail, depth);
      r == Parse(Meaning(num, i.value), i.after + tail) && SkipSpace(r.rest) == tail
    decreases i, 1
  {
    var rest := i.after + tail;
    AfterValue(i.after, tail);
    SourceRead(num, i.value, rest, depth);
    WriteStarts(num, i.value, depth);
    assert WriteItem(i) + tail == i.before + (Write(i.value) + rest);
    assert (Write(i.value) + rest)[0] == Write(i.value)[0];
    LeadingSpace(num, i.before, Write(i.value) + rest, depth);
  }

  function Preceded(v: Json, tail: Parsed<seq<Json>>): Parsed<seq<Json>> {
    if tail.NoParse? then NoParse else Parse([v] + tail.value, tail.rest)
  }

  lemma ReadItemsStep(num: Numbers, text: string, v: Json, after: string, depth: nat)
    requires ReadValue(num, text, depth) == Parse(v, after)
    ensures var s := SkipSpace(after);
      (s != "" && s[0] == ']' ==> ReadItems(num, text, depth) == Parse([v], s[1..])) &&
      (s != "" && s[0] == ',' ==> ReadItems(num, text, depth) == Preceded(v, ReadItems(num, s[1..], depth)))
  {
  }

  lemma {:induction false} ItemsRead(num: Numbers, items: seq<Item>, rest: string, depth: nat)
    requires items != [] && forall i | 0 <= i < |items| :: FineItem(num, items[i], depth)
    ensures ReadItems(num, WriteItems(items) + "]" + rest, depth) == Parse(ItemMeanings(num, items), rest)
    decreases items, 2
  {
    var first, more := items[0], items[1..];
    var v := Meaning(num, first.value);
    if |items| == 1 {
      MoreText(WriteItem(first), "", "]", rest);
      ItemRead(num, first, "]" + rest, depth);
      ReadItemsStep(num, WriteItem(first) + ("]" + rest), v, first.after + ("]" + rest), depth);
      assert ItemMeanings(num, items) == [v] && ("]" + rest)[1..] == rest;
    } else {
      var tail := WriteItems(more) + "]" + rest;
      MoreText(WriteItem(first), WriteItems(more), "]", rest);
      ItemsRead(num, more, rest, depth);
      ItemRead(num, first, "," + tail, depth);
      ReadItemsStep(num, WriteItem(first) + ("," + tail), v, first.after + ("," + tail), depth);
      assert ("," + tail)[1..] == tail;
    }
  }

  lemma PairText(p: Pair, tail: string)
    ensures WritePair(p) + tail == p.before + ("\"" + (p.body + "\"" + (p.middle + (":" + (WriteItem(p.item) + tail)))))
  {
  }

  lemma PairsStart(num: Numbers, pairs: seq<Pair>, rest: string, depth: nat)
    requires pairs != [] && FinePair(num, pairs[0], depth)
    ensures var inner := SkipSpace(WritePairs(pairs) + "}" + rest); inner != "" && inner[0] != '}'
  {
    var p, tail := pairs[0], AfterPair(pairs, rest);
    PairsText(pairs, rest);
    PairText(p, tail);
    SpaceSkipped(p.before, "\"" + (p.body + "\"" + (p.middle + (":" + (WriteItem(p.item) + tail)))));
  }

  lemma PairsText(pairs: seq<Pair>, rest: string)
    requires pairs != []
    ensures WritePairs(pairs) + "}" + rest == WritePair(pairs[0]) + AfterPair(pairs, rest)
  {
    if |pairs| == 1 {
      MoreText(WritePair(pairs[0]), "", "}", rest);
    } else {
      MoreText(WritePair(pairs[0]), WritePairs(pairs[1..]), "}", rest);
    }
  }

  /** What follows the first pair. */
  function AfterPair(pairs: seq<Pair>, rest: string): string
    requires pairs != []
  {
    if |pairs| == 1 then "}" + rest else "," + (WritePairs(pairs[1..]) + "}" + rest)
  }

  lemma BraceRead(num: Numbers, pairs: seq<Pair>, rest: string, depth: nat)
    requires pairs != [] && depth > 1 && FinePair(num, pairs[0], depth - 1)
    requires ReadMembers(num, WritePairs(pairs) + "}" + rest, depth - 1, []) == Parse(PairMeanings(num, pairs, []), rest)
    ensures ReadValue(num, "{" + WritePairs(pairs) + "}" + rest, depth) == Parse(JObject(PairMeanings(num, pairs, [])), rest)
  {
    var t := "{" + WritePairs(pairs) + "}" + rest;
    WrappedText("{", WritePairs(pairs), "}", rest);
    PairsStart(num, pairs, rest, depth - 1);
    ContainerStep(num, t, depth);
  }

  lemma ReadMembersStep(num: Numbers, text: string, quoted: string, key: string, middle: string, value: string, v: Json, after: string,
      depth: nat, before: seq<Member>)
    requires SkipSpace(text) == "\"" + quoted && ReadString(quoted) == Parse(key, middle) && SkipSpace(middle) == ":" + value
    requires ReadValue(num, value, depth) == Parse(v, after)
    ensures var s, members := SkipSpace(after), Put(before, key, v);
      (s != "" && s[0] == '}' ==> ReadMembers(num, text, depth, before) == Parse(members, s[1..])) &&
      (s != "" && s[0] == ',' ==> ReadMembers(num, text, depth, before) == ReadMembers(num, s[1..], depth, members))
  {
    assert ("\"" + quoted)[1..] == quoted && (":" + value)[1..] == value;
  }

  /** One key and value, and what follows them. */
  lemma {:induction false} PairRead(num: Numbers, p: Pair, tail: string, depth: nat, before: seq<Member>)
    requires FinePair(num, p, depth) && Closes(tail)
    ensures var members := Put(before, p.key, Meaning(num, p.item.value));
      (tail[0] == '}' ==> ReadMembers(num, WritePair(p) + tail, depth, before) == Parse(members, tail[1..])) &&
      (tail[0] == ',' ==> ReadMembers(num, WritePair(p) + tail, depth, before) == ReadMembers(num, tail[1..], depth, members))
    decreases p, 2
  {
    var value := WriteItem(p.item) + tail;
    var middle := p.middle + (":" + value);
    var quoted := p.body + "\"" + middle;
    ItemRead(num, p.item, tail, depth);
    StringRead(p.body, p.key, middle);
    SpaceSkipped(p.middle, ":" + value);
    SpaceSkipped(p.before, "\"" + quoted);
    PairText(p, tail);
    ReadMembersStep(num, p.before + ("\"" + quoted), quoted, p.key, middle, value, Meaning(num, p.item.value), p.item.after + tail, depth, before);
  }

  lemma {:induction false} PairsRead(num: Numbers, pairs: seq<Pair>, rest: string, depth: nat, before: seq<Member>)
    requires pairs != [] && forall i | 0 <= i < |pairs| :: FinePair(num, pairs[i], depth)
    ensures ReadMembers(num, WritePairs(pairs) + "}" + rest, depth, before) == Parse(PairMeanings(num, pairs, before), rest)
    decreases pairs, 3
  {
    var first, more := pairs[0], pairs[1..];
    var members := Put(before, first.key, Meaning(num, first.item.value));
    if |pairs| == 1 {
      MoreText(WritePair(first), "", "}", rest);
      PairRead(num, first, "}" + rest, depth, before);
      assert PairMeanings(num, pairs, before) == members && ("}" + rest)[1..] == rest;
    } else {
      var tail := WritePairs(more) + "}" + rest;
      MoreText(WritePair(first), WritePairs(more), "}", rest);
      PairRead(num, first, "," + tail, depth, before);
      PairsRead(num, more, rest, depth, members);
      assert ("," + tail)[1..] == tail;
    }
  }

  /** A whole text: a value with white space around it. */
  lemma GrammarIsRead(num: Numbers, i: Item)
    requires FineItem(num, i, 128)
    ensures Read(num, WriteItem(i)) == Some(Meaning(num, i.value))
  {
    WriteStarts(num, i.value, 128);
    if i.after != "" { assert IsSpace(i.after[0]); }
    SourceRead(num, i.value, i.after, 128);
    assert WriteItem(i) == i.before + (Write(i.value) + i.after);
    assert (Write(i.value) + i.after)[0] == Write(i.value)[0];
    LeadingSpace(num, i.before, Write(i.value) + i.after, 128);
    SpaceSkipped(i.after, "");
    assert i.after + "" == i.after;
  }

  // ---- Nothing else is read ----

  lemma OneMoreInFront(t: string, more: string, rest: string)
    requires t != "" && t[1..] == more + rest
    ensures t == [t[0]] + more + rest
  {
  }

  lemma {:induction false} SpaceWritten(t: string) returns (space: string)
    ensures JsonGrammar.Space(space) && t == space + SkipSpace(t)
  {
    if t != "" && IsSpace(t[0]) {
      var more := SpaceWritten(t[1..]);
      space := [t[0]] + more;
      OneMoreInFront(t, more, SkipSpace(t[1..]));
    } else {
      space := "";
    }
  }

  /** What was read of a text, put together again by the grammar. */
  ghost predicate Written(num: Numbers, text: string, s: Source, v: Json, rest: string, depth: nat) {
    Fine(num, s, depth) && Meaning(num, s) == v && text == Write(s) + rest
  }

  lemma WordWritten(num: Numbers, t: string, depth: nat) returns (s: Source)
    requires "null" <= t || "true" <= t || "false" <= t
    ensures var r := ReadValue(num, t, depth); r.Parse? && Written(num, t, s, r.value, r.rest, depth)
  {
    s := Word(if "null" <= t then "null" else if "true" <= t then "true" else "false");
    assert t == s.text + t[|s.text|..];
    WordRead(num, s.text, t[|s.text|..], depth);
  }

  lemma StringWritten(num: Numbers, t: string, depth: nat) returns (s: Source)
    requires t != "" && t[0] == '\"' && ReadValue(num, t, depth).Parse?
    ensures var r := ReadValue(num, t, depth); Written(num, t, s, r.value, r.rest, depth)
  {
    NotWord(t);
    var r := ReadString(t[1..]);
    var n := JsonGrammar.StringSpells(t[1..], r.value, r.rest);
    s := Quoted(t[1..][..n], r.value);
    QuotedText(t, n);
  }

  lemma QuotedText(t: string, n: nat)
    requires t != "" && t[0] == '\"' && n < |t[1..]| && t[1..][n] == '\"'
    ensures t == "\"" + t[1..][..n] + "\"" + t[1..][n + 1..]
  {
  }

  lemma NumberIsWritten(num: Numbers, t: string, depth: nat) returns (s: Source)
    requires t != "" && (t[0] == '-' || IsDigit(t[0])) && ReadValue(num, t, depth).Parse?
    ensures var r := ReadValue(num, t, depth); Written(num, t, s, r.value, r.rest, depth)
  {
    NotWord(t);
    var n := NumberRun(t);
    s := Number(t[..n]);
    assert t == t[..n] + t[n..];
  }

  lemma EmptyWritten(num: Numbers, t: string, depth: nat) returns (s: Source)
    requires t != "" && (t[0] == '[' || t[0] == '{') && depth > 1
    requires var inner := SkipSpace(t[1..]); inner != "" && inner[0] == if t[0] == '[' then ']' else '}'
    ensures var r := ReadValue(num, t, depth); r.Parse? && Written(num, t, s, r.value, r.rest, depth)
  {
    NotWord(t);
    var inner := SkipSpace(t[1..]);
    var gap := SpaceWritten(t[1..]);
    s := if t[0] == '[' then Listed(gap, []) else Braced(gap, []);
    assert inner == [inner[0]] + inner[1..];
    Reopened(t, gap, [inner[0]], inner[1..]);
  }

  lemma {:induction false} ValueWritten(num: Numbers, text: string, depth: nat) returns (before: string, s: Source)
    requires ReadValue(num, text, depth).Parse?
    ensures var r := ReadValue(num, text, depth);
      JsonGrammar.Space(before) && SkipSpace(text) == Write(s) + r.rest && text == before + (Write(s) + r.rest) &&
      Fine(num, s, depth) && Meaning(num, s) == r.value
    decreases |text|, 1
  {
    before := SpaceWritten(text);
    var t := SkipSpace(text);
    ItemsFromSolid(num, text, depth);
    if "null" <= t || "true" <= t || "false" <= t {
      s := WordWritten(num, t, depth);
    } else if t[0] == '\"' {
      s := StringWritten(num, t, depth);
    } else if t[0] == '-' || IsDigit(t[0]) {
      s := NumberIsWritten(num, t, depth);
    } else {
      s := ContainerWritten(num, t, depth);
    }
  }

  lemma Reopened(t: string, inner: string, close: string, rest: string)
    requires t != "" && t[1..] == inner + (close + rest)
    ensures t == [t[0]] + inner + close + rest
  {
  }

  lemma ListWritten(num: Numbers, t: string, depth: nat, items: seq<Item>)
    requires t != "" && t[0] == '[' && depth > 1 && items != [] && forall i | 0 <= i < |items| :: FineItem(num, items[i], depth - 1)
    requires SkipSpace(t[1..]) != "" && SkipSpace(t[1..])[0] != ']'
    requires var r := ReadItems(num, t[1..], depth - 1);
      r.Parse? && ItemMeanings(num, items) == r.value && t[1..] == WriteItems(items) + ("]" + r.rest)
    ensures var r := ReadValue(num, t, depth); r.Parse? && Written(num, t, Listed("", items), r.value, r.rest, depth)
  {
    ContainerStep(num, t, depth);
    Reopened(t, WriteItems(items), "]", ReadItems(num, t[1..], depth - 1).rest);
  }

  lemma ObjectWritten(num: Numbers, t: string, depth: nat, pairs: seq<Pair>)
    requires t != "" && t[0] == '{' && depth > 1 && pairs != [] && forall i | 0 <= i < |pairs| :: FinePair(num, pairs[i], depth - 1)
    requires SkipSpace(t[1..]) != "" && SkipSpace(t[1..])[0] != '}'
    requires var r := ReadMembers(num, t[1..], depth - 1, []);
      r.Parse? && PairMeanings(num, pairs, []) == r.value && t[1..] == WritePairs(pairs) + ("}" + r.rest)
    ensures var r := ReadValue(num, t, depth); r.Parse? && Written(num, t, Braced("", pairs), r.value, r.rest, depth)
  {
    ContainerStep(num, t, depth);
    Reopened(t, WritePairs(pairs), "}", ReadMembers(num, t[1..], depth - 1, []).rest);
  }

  /** What a container was read from. */
  lemma ContainerReads(num: Numbers, t: string, depth: nat)
    requires SkipSpace(t) == t && t != "" && (t[0] == '[' || t[0] == '{') && ReadValue(num, t, depth).Parse?
    ensures depth > 1
    ensures var inner := SkipSpace(t[1..]);
      if t[0] == '[' then (inner != "" && inner[0] == ']') || (inner != "" && ReadItems(num, t[1..], depth - 1).Parse?)
      else (inner != "" && inner[0] == '}') || (inner != "" && ReadMembers(num, t[1..], depth - 1, []).Parse?)
  {
    NotWord(t);
    if depth > 1 { ItemsFromSolid(num, t[1..], depth - 1); }
  }

  lemma {:induction false} ContainerWritten(num: Numbers, t: string, depth: nat) returns (s: Source)
    requires SkipSpace(t) == t && t != "" && (t[0] == '[' || t[0] == '{') && ReadValue(num, t, depth).Parse?
    ensures var r := ReadValue(num, t, depth); Written(num, t, s, r.value, r.rest, depth)
    decreases |t|, 0
  {
    ContainerReads(num, t, depth);
    var inner := SkipSpace(t[1..]);
    if inner[0] == if t[0] == '[' then ']' else '}' {
      s := EmptyWritten(num, t, depth);
    } else if t[0] == '[' {
      var items := ItemsWritten(num, t[1..], depth - 1);
      s := Listed("", items);
      ListWritten(num, t, depth, items);
    } else {
      var pairs := PairsWritten(num, t[1..], depth - 1, []);
      s := Braced("", pairs);
      ObjectWritten(num, t, depth, pairs);
    }
  }

  lemma LastItemText(item: Item, tail: string)
    requires tail != "" && tail[0] == ']'
    ensures WriteItem(item) + tail == WriteItems([item]) + ("]" + tail[1..])
  {
  }

  lemma NextItemText(item: Item, more: seq<Item>, tail: string, rest: string)
    requires more != [] && tail != "" && tail[0] == ',' && tail[1..] == WriteItems(more) + rest
    ensures WriteItem(item) + tail == WriteItems([item] + more) + rest && ([item] + more)[1..] == more
  {
    assert tail == "," + tail[1..];
    assert ([item] + more)[1..] == more;
  }

  lemma {:induction false} ItemsWritten(num: Numbers, text: string, depth: nat) returns (items: seq<Item>)
    requires ReadItems(num, text, depth).Parse?
    ensures var r := ReadItems(num, text, depth);
      items != [] && (forall i | 0 <= i < |items| :: FineItem(num, items[i], depth)) &&
      ItemMeanings(num, items) == r.value && text == WriteItems(items) + ("]" + r.rest)
    decreases |text|, 2
  {
    var v := ReadValue(num, text, depth);
    var before, s := ValueWritten(num, text, depth);
    var after := SpaceWritten(v.rest);
    var tail := SkipSpace(v.rest);
    var item := Item(before, s, after);
    ItemText(item, tail);
    ReadItemsStep(num, text, v.value, v.rest, depth);
    if tail[0] == ']' {
      items := [item];
      LastItemText(item, tail);
    } else {
      var more := ItemsWritten(num, tail[1..], depth);
      items := [item] + more;
      NextItemText(item, more, tail, "]" + ReadItems(num, tail[1..], depth).rest);
    }
  }

  lemma LastPairText(p: Pair, tail: string)
    requires tail != "" && tail[0] == '}'
    ensures WritePair(p) + tail == WritePairs([p]) + ("}" + tail[1..])
  {
  }

  lemma NextPairText(p: Pair, more: seq<Pair>, tail: string, rest: string)
    requires more != [] && tail != "" && tail[0] == ',' && tail[1..] == WritePairs(more) + rest
    ensures WritePair(p) + tail == WritePairs([p] + more) + rest && ([p] + more)[1..] == more
  {
    assert tail == "," + tail[1..];
    assert ([p] + more)[1..] == more;
  }

  /** The steps by which a member was read. */
  lemma MemberReads(num: Numbers, text: string, depth: nat, members: seq<Member>)
    requires ReadMembers(num, text, depth, members).Parse?
    ensures var quoted := SkipSpace(text);
      quoted != "" && quoted[0] == '\"' &&
      var key := ReadString(quoted[1..]);
      key.Parse? &&
      var colon := SkipSpace(key.rest);
      colon != "" && colon[0] == ':' &&
      var v := ReadValue(num, colon[1..], depth);
      v.Parse? &&
      var tail, members' := SkipSpace(v.rest), Put(members, key.value, v.value);
      tail != "" && |tail| < |text| &&
      if tail[0] == '}' then ReadMembers(num, text, depth, members) == Parse(members', tail[1..])
      else tail[0] == ',' && ReadMembers(num, text, depth, members) == ReadMembers(num, tail[1..], depth, members')
  {
  }

  /** The first member of a text, put together again, and what follows it. */
  lemma {:induction false} MemberWritten(num: Numbers, text: string, depth: nat, members: seq<Member>) returns (p: Pair, tail: string)
    requires ReadMembers(num, text, depth, members).Parse?
    ensures FinePair(num, p, depth) && text == WritePair(p) + tail && tail != "" && |tail| < |text|
    ensures var members' := Put(members, p.key, Meaning(num, p.item.value));
      if tail[0] == '}' then ReadMembers(num, text, depth, members) == Parse(members', tail[1..])
      else tail[0] == ',' && ReadMembers(num, text, depth, members) == ReadMembers(num, tail[1..], depth, members')
    decreases |text|, 2
  {
    MemberReads(num, text, depth, members);
    var space := SpaceWritten(text);
    var quoted := SkipSpace(text);
    var key := ReadString(quoted[1..]);
    var n := JsonGrammar.StringSpells(quoted[1..], key.value, key.rest);
    var middle := SpaceWritten(key.rest);
    var colon := SkipSpace(key.rest);
    var v := ReadValue(num, colon[1..], depth);
    var before, s := ValueWritten(num, colon[1..], depth);
    var after := SpaceWritten(v.rest);
    tail := SkipSpace(v.rest);
    p := Pair(space, quoted[1..][..n], key.value, middle, Item(before, s, after));
    QuotedText(quoted, n);
    PairIsWritten(p, text, quoted, colon, v.rest, tail);
  }

  lemma {:induction false} PairsWritten(num: Numbers, text: string, depth: nat, members: seq<Member>) returns (pairs: seq<Pair>)
    requires ReadMembers(num, text, depth, members).Parse?
    ensures var r := ReadMembers(num, text, depth, members);
      pairs != [] && (forall i | 0 <= i < |pairs| :: FinePair(num, pairs[i], depth)) &&
      PairMeanings(num, pairs, members) == r.value && text == WritePairs(pairs) + ("}" + r.rest)
    decreases |text|, 3
  {
    var p, tail := MemberWritten(num, text, depth, members);
    var members' := Put(members, p.key, Meaning(num, p.item.value));
    if tail[0] == '}' {
      pairs := [p];
      assert PairMeanings(num, pairs, members) == members';
      LastPairText(p, tail);
    } else {
      var more := PairsWritten(num, tail[1..], depth, members');
      pairs := [p] + more;
      NextPairText(p, more, tail, "}" + ReadMembers(num, tail[1..], depth, members').rest);
    }
  }

  lemma PairIsWritten(p: Pair, text: string, quoted: string, colon: string, rest: string, tail: string)
    requires text == p.before + quoted && quoted != "" && quoted[0] == '\"' && colon != "" && colon[0] == ':'
    requires quoted[1..] == p.body + "\"" + (p.middle + colon)
    requires colon[1..] == p.item.before + (Write(p.item.value) + rest) && rest == p.item.after + tail
    ensures text == WritePair(p) + tail
  {
    PairText(p, tail);
    assert quoted == "\"" + quoted[1..] && colon == ":" + colon[1..];
    assert colon[1..] == WriteItem(p.item) + tail;
  }

  /** A text is read exactly if the grammar puts it together, nested less than 128 deep and with its numbers taken, and as what it means there. */
  lemma ReadIsGrammar(num: Numbers, text: string, v: Json)
    ensures Read(num, text) == Some(v) <==>
      exists i: Item :: FineItem(num, i, 128) && text == WriteItem(i) && Meaning(num, i.value) == v
  {
    if exists i: Item :: FineItem(num, i, 128) && text == WriteItem(i) && Meaning(num, i.value) == v {
      var i: Item :| FineItem(num, i, 128) && text == WriteItem(i) && Meaning(num, i.value) == v;
      GrammarIsRead(num, i);
    }
    if Read(num, text) == Some(v) {
      var i := WholeWritten(num, text);
    }
  }

  lemma WholeWritten(num: Numbers, text: string) returns (i: Item)
    requires Read(num, text).Some?
    ensures FineItem(num, i, 128) && text == WriteItem(i) && Meaning(num, i.value) == Read(num, text).value
  {
    var r := ReadValue(num, text, RECURSION_LIMIT);
    var before, s := ValueWritten(num, text, RECURSION_LIMIT);
    var after := SpaceWritten(r.rest);
    i := Item(before, s, after);
    assert text == before + (Write(s) + after);
  }
}
