/**
 JSON values, their compact text, their canonical text (object keys sorted at every depth),
 and a reader for JSON text (RFC 8259).

 Numbers are carried as the literal the serializer renders, which need not be the one that was read.
 Strings are sequences of
 Unicode scalar values, so comparing them by code point is comparing their UTF-8 bytes.
 */
module CanonicalJson {
  import opened Wrappers

  datatype Json =
    | JNull
    | JBool(b: bool)
    | JNumber(literal: string)
    | JString(text: string)
    | JArray(items: seq<Json>)
    | JObject(members: seq<Member>)

  datatype Keyed<T> = Keyed(key: string, value: T)

  type Member = Keyed<Json>

  type MemberText = Keyed<string>

  // ---- Text of a value ----

  function HexDigit(n: nat): char
    requires n < 16
  {
    "0123456789abcdef"[n]
  }

  /** String escaping, section 7 of RFC 8259, as the serializer does it: the short forms where they exist. */
  function EscapeChar(c: char): string {
    if c == '\"' then "\\\""
    else if c == '\\' then "\\\\"
    else if c == 8 as char then "\\b"
    else if c == 12 as char then "\\f"
    else if c == '\n' then "\\n"
    else if c == '\r' then "\\r"
    else if c == '\t' then "\\t"
    else if c < ' ' then "\\u00" + [HexDigit(c as nat / 16), HexDigit(c as nat % 16)]
    else [c]
  }

  function Escape(s: string): string {
    if s == "" then "" else EscapeChar(s[0]) + Escape(s[1..])
  }

  function Quote(s: string): string {
    "\"" + Escape(s) + "\""
  }

  /** Compact text, members in their own order: `serde_json::to_string`. */
  function ToText(v: Json): string
    decreases v, 0
  {
    match v
    case JNull => "null"
    case JBool(b) => if b then "true" else "false"
    case JNumber(literal) => literal
    case JString(text) => Quote(text)
    case JArray(items) => if items == [] then "[]" else "[" + ItemsText(items) + "]"
    case JObject(members) => if members == [] then "{}" else "{" + MembersText(members) + "}"
  }

  function ItemsText(items: seq<Json>): string
    requires items != []
    decreases items, 1
  {
    if |items| == 1 then ToText(items[0]) else ToText(items[0]) + "," + ItemsText(items[1..])
  }

  function MembersText(members: seq<Member>): string
    requires members != []
    decreases members, 1
  {
    var m := members[0];
    if |members| == 1 then Quote(m.key) + ":" + ToText(m.value)
    else Quote(m.key) + ":" + ToText(m.value) + "," + MembersText(members[1..])
  }

  // ---- Canonical text ----

  /** Strict lexicographic order by code point. */
  predicate Before(a: string, b: string) {
    if b == "" then false
    else if a == "" then true
    else if a[0] != b[0] then a[0] < b[0]
    else Before(a[1..], b[1..])
  }

  function Insert<T>(p: Keyed<T>, ps: seq<Keyed<T>>): seq<Keyed<T>> {
    if ps == [] then [p]
    else if Before(ps[0].key, p.key) then [ps[0]] + Insert(p, ps[1..])
    else [p] + ps
  }

  function SortByKey<T>(ps: seq<Keyed<T>>): seq<Keyed<T>> {
    if ps == [] then [] else Insert(ps[0], SortByKey(ps[1..]))
  }

  /** `canonical_json_string`: each member's text, in key order. */
  function Canonical(v: Json): string
    decreases v, 0
  {
    match v
    case JArray(items) => if items == [] then "[]" else "[" + CanonicalItems(items) + "]"
    case JObject(members) => "{" + JoinMembers(SortByKey(CanonicalMembers(members))) + "}"
    case _ => ToText(v)
  }

  function CanonicalItems(items: seq<Json>): string
    requires items != []
    decreases items, 1
  {
    if |items| == 1 then Canonical(items[0]) else Canonical(items[0]) + "," + CanonicalItems(items[1..])
  }

  function CanonicalMembers(members: seq<Member>): seq<MemberText>
    decreases members, 1
  {
    if members == [] then [] else [Keyed(members[0].key, Canonical(members[0].value))] + CanonicalMembers(members[1..])
  }

  function JoinMembers(texts: seq<MemberText>): string {
    if texts == [] then ""
    else if |texts| == 1 then Quote(texts[0].key) + ":" + texts[0].value
    else Quote(texts[0].key) + ":" + texts[0].value + "," + JoinMembers(texts[1..])
  }

  // ---- The reader ----

  /**
   What the parser makes of a number literal, as the serializer renders it: an integer of a machine
   word as it is, any other number through floating point (`1e2` as `100.0`), `None` out of range.
   */
  type Numbers = string -> Option<string>

  /** What is rendered is itself a literal; reading it again need not give the same number. */
  ghost predicate Renders(num: Numbers) {
    forall s: string | IsNumber(s) && num(s).Some? :: IsNumber(num(s).value)
  }

  datatype Parsed<+T> = NoParse | Parse(value: T, rest: string)

  /** A recursion limit of 128 means at most 127 nested containers. */
  const RECURSION_LIMIT: nat := 128

  predicate IsSpace(c: char) {
    c == ' ' || c == '\n' || c == '\t' || c == '\r'
  }

  function SkipSpace(s: string): (r: string)
    ensures |r| <= |s|
  {
    if s != "" && IsSpace(s[0]) then SkipSpace(s[1..]) else s
  }

  predicate IsDigit(c: char) {
    '0' <= c <= '9'
  }

  predicate IsNumberChar(c: char) {
    IsDigit(c) || c == '-' || c == '+' || c == '.' || c == 'e' || c == 'E'
  }

  /** How many characters at the front are digits. */
  function Digits(s: string): (n: nat)
    ensures n <= |s|
  {
    if s != "" && IsDigit(s[0]) then 1 + Digits(s[1..]) else 0
  }

  /** `[ frac ] [ exp ]`, section 6 of RFC 8259. */
  predicate IsFractionAndExponent(s: string) {
    if s != "" && s[0] == '.' then Digits(s[1..]) > 0 && IsExponent(s[1..][Digits(s[1..])..])
    else IsExponent(s)
  }

  predicate IsExponent(s: string) {
    s == "" ||
    ((s[0] == 'e' || s[0] == 'E') &&
     var t := if |s| > 1 && (s[1] == '+' || s[1] == '-') then s[2..] else s[1..];
     Digits(t) > 0 && Digits(t) == |t|)
  }

  /** A JSON number literal: `[ minus ] int [ frac ] [ exp ]`, no leading zeros. */
  predicate IsNumber(s: string) {
    var t := if s != "" && s[0] == '-' then s[1..] else s;
    && (forall i | 0 <= i < |s| :: IsNumberChar(s[i]))
    && Digits(t) > 0 && (t[0] == '0' ==> Digits(t) == 1) && IsFractionAndExponent(t[Digits(t)..])
  }

  function NumberRun(s: string): (n: nat)
    ensures n <= |s|
  {
    if s != "" && IsNumberChar(s[0]) then 1 + NumberRun(s[1..]) else 0
  }

  function HexValue(c: char): Option<nat> {
    if '0' <= c <= '9' then Some(c as nat - '0' as nat)
    else if 'a' <= c <= 'f' then Some(10 + (c as nat - 'a' as nat))
    else if 'A' <= c <= 'F' then Some(10 + (c as nat - 'A' as nat))
    else None
  }

  function Hex4(s: string): (r: Option<nat>)
    ensures r.Some? ==> |s| >= 4 && r.value < 0x1_0000
  {
    if |s| < 4 then None else
      var a, b, c, d := HexValue(s[0]), HexValue(s[1]), HexValue(s[2]), HexValue(s[3]);
      if a.None? || b.None? || c.None? || d.None? then None
      else Some(((a.value * 16 + b.value) * 16 + c.value) * 16 + d.value)
  }

  /** After `\u`: one scalar value, or a surrogate pair; a lone surrogate is an error. */
  function ReadUnicode(s: string): (r: Parsed<char>)
    ensures r.Parse? ==> |r.rest| < |s|
  {
    var hi := Hex4(s);
    if hi.None? then NoParse
    else if hi.value < 0xD800 || 0xE000 <= hi.value then Parse(hi.value as char, s[4..])
    else if 0xDC00 <= hi.value || |s| < 6 || s[4] != '\\' || s[5] != 'u' then NoParse
    else
      var lo := Hex4(s[6..]);
      if lo.None? || lo.value < 0xDC00 || 0xE000 <= lo.value then NoParse
      else Parse((0x1_0000 + (hi.value - 0xD800) * 0x400 + (lo.value - 0xDC00)) as char, s[10..])
  }

  function ReadEscape(s: string): (r: Parsed<char>)
    ensures r.Parse? ==> |r.rest| < |s|
  {
    if s == "" then NoParse
    else if s[0] == '\"' || s[0] == '\\' || s[0] == '/' then Parse(s[0], s[1..])
    else if s[0] == 'b' then Parse(8 as char, s[1..])
    else if s[0] == 'f' then Parse(12 as char, s[1..])
    else if s[0] == 'n' then Parse('\n', s[1..])
    else if s[0] == 'r' then Parse('\r', s[1..])
    else if s[0] == 't' then Parse('\t', s[1..])
    else if s[0] == 'u' then ReadUnicode(s[1..])
    else NoParse
  }

  /** The inside of a string and its closing quote. */
  function ReadString(s: string): (r: Parsed<string>)
    ensures r.Parse? ==> |r.rest| < |s|
  {
    if s == "" || s[0] < ' ' then NoParse
    else if s[0] == '\"' then Parse("", s[1..])
    else
      var c := if s[0] == '\\' then ReadEscape(s[1..]) else Parse(s[0], s[1..]);
      if c.NoParse? then NoParse else
        var tail := ReadString(c.rest);
        if tail.NoParse? then NoParse else Parse([c.value] + tail.value, tail.rest)
  }

  /** A repeated key keeps its first place and takes the new value. */
  function Put(members: seq<Member>, key: string, v: Json): seq<Member> {
    if members == [] then [Keyed(key, v)]
    else if members[0].key == key then [Keyed(key, v)] + members[1..]
    else [members[0]] + Put(members[1..], key, v)
  }

  function ReadValue(num: Numbers, text: string, depth: nat): (r: Parsed<Json>)
    ensures r.Parse? ==> |r.rest| < |text|
    decreases |text|, 0
  {
    var s := SkipSpace(text);
    if s == "" then NoParse
    else if "null" <= s then Parse(JNull, s[4..])
    else if "true" <= s then Parse(JBool(true), s[4..])
    else if "false" <= s then Parse(JBool(false), s[5..])
    else if s[0] == '\"' then
      var r := ReadString(s[1..]);
      if r.NoParse? then NoParse else Parse(JString(r.value), r.rest)
    else if s[0] == '-' || IsDigit(s[0]) then
      var n := NumberRun(s);
      if IsNumber(s[..n]) && num(s[..n]).Some? then Parse(JNumber(num(s[..n]).value), s[n..]) else NoParse
    else if s[0] == '[' && depth > 1 then
      var inner := SkipSpace(s[1..]);
      if inner != "" && inner[0] == ']' then Parse(JArray([]), inner[1..]) else
        var r := ReadItems(num, inner, depth - 1);
        if r.NoParse? then NoParse else Parse(JArray(r.value), r.rest)
    else if s[0] == '{' && depth > 1 then
      var inner := SkipSpace(s[1..]);
      if inner != "" && inner[0] == '}' then Parse(JObject([]), inner[1..]) else
        var r := ReadMembers(num, inner, depth - 1, []);
        if r.NoParse? then NoParse else Parse(JObject(r.value), r.rest)
    else NoParse
  }

  /** One or more items and the closing bracket. */
  function ReadItems(num: Numbers, text: string, depth: nat): (r: Parsed<seq<Json>>)
    ensures r.Parse? ==> |r.rest| < |text|
    decreases |text|, 1
  {
    var v := ReadValue(num, text, depth);
    if v.NoParse? then NoParse else
      var s := SkipSpace(v.rest);
      if s != "" && s[0] == ']' then Parse([v.value], s[1..])
      else if s != "" && s[0] == ',' then
        var tail := ReadItems(num, s[1..], depth);
        if tail.NoParse? then NoParse else Parse([v.value] + tail.value, tail.rest)
      else NoParse
  }

  /** One or more members, added to those read before, and the closing brace. */
  function ReadMembers(num: Numbers, text: string, depth: nat, before: seq<Member>): (r: Parsed<seq<Member>>)
    ensures r.Parse? ==> |r.rest| < |text|
    decreases |text|, 1
  {
    var s := SkipSpace(text);
    if s == "" || s[0] != '\"' then NoParse else
      var key := ReadString(s[1..]);
      if key.NoParse? then NoParse else
        var colon := SkipSpace(key.rest);
        if colon == "" || colon[0] != ':' then NoParse else
          var v := ReadValue(num, colon[1..], depth);
          if v.NoParse? then NoParse else
            var members := Put(before, key.value, v.value);
            var after := SkipSpace(v.rest);
            if after != "" && after[0] == '}' then Parse(members, after[1..])
            else if after != "" && after[0] == ',' then ReadMembers(num, after[1..], depth, members)
            else NoParse
  }

  /** `serde_json::from_str`: one value, and nothing but space after it. */
  function Read(num: Numbers, text: string): Option<Json> {
    var r := ReadValue(num, text, RECURSION_LIMIT);
    if r.Parse? && SkipSpace(r.rest) == "" then Some(r.value) else None
  }

  // ---- Well-formed values ----

  predicate DistinctKeys<T>(ps: seq<Keyed<T>>) {
    forall i, j | 0 <= i < j < |ps| :: ps[i].key != ps[j].key
  }

  /** Numbers are number literals, and no object repeats a key. */
  predicate WellFormed(v: Json) {
    match v
    case JNumber(literal) => IsNumber(literal)
    case JArray(items) => forall i | 0 <= i < |items| :: WellFormed(items[i])
    case JObject(members) => DistinctKeys(members) && forall i | 0 <= i < |members| :: WellFormed(members[i].value)
    case _ => true
  }

  /** Every number literal of the value, at every depth, satisfies `p`. */
  predicate EachNumber(v: Json, p: string -> bool)
    decreases v, 0
  {
    match v
    case JNumber(literal) => p(literal)
    case JArray(items) => EachItem(items, p)
    case JObject(members) => EachMember(members, p)
    case _ => true
  }

  predicate EachItem(items: seq<Json>, p: string -> bool)
    decreases items, 1
  {
    items == [] || (EachNumber(items[0], p) && EachItem(items[1..], p))
  }

  predicate EachMember(members: seq<Member>, p: string -> bool)
    decreases members, 1
  {
    members == [] || (EachNumber(members[0].value, p) && EachMember(members[1..], p))
  }

  function TakenBy(num: Numbers): string -> bool {
    (literal: string) => num(literal).Some?
  }

  function KeptBy(num: Numbers): string -> bool {
    (literal: string) => num(literal) == Some(literal)
  }

  /** No number of the value is refused. */
  predicate Accepted(num: Numbers, v: Json) {
    EachNumber(v, TakenBy(num))
  }

  /** Every number of the value reads back as itself. */
  predicate Settled(num: Numbers, v: Json) {
    EachNumber(v, KeptBy(num))
  }

  /** The value with every number read again; one that is refused stays. */
  function Reread(num: Numbers, v: Json): Json
    decreases v, 0
  {
    match v
    case JNumber(literal) => JNumber(num(literal).GetOr(literal))
    case JArray(items) => JArray(RereadItems(num, items))
    case JObject(members) => JObject(RereadMembers(num, members))
    case _ => v
  }

  function RereadItems(num: Numbers, items: seq<Json>): (r: seq<Json>)
    ensures |r| == |items| && forall i | 0 <= i < |r| :: r[i] == Reread(num, items[i])
    decreases items, 1
  {
    if items == [] then [] else [Reread(num, items[0])] + RereadItems(num, items[1..])
  }

  function RereadMembers(num: Numbers, members: seq<Member>): (r: seq<Member>)
    ensures |r| == |members| && forall i | 0 <= i < |r| :: r[i] == Keyed(members[i].key, Reread(num, members[i].value))
    decreases members, 1
  {
    if members == [] then [] else [Keyed(members[0].key, Reread(num, members[0].value))] + RereadMembers(num, members[1..])
  }

  function Max(a: nat, b: nat): nat { if a < b then b else a }

  /** How deeply containers are nested. */
  function Depth(v: Json): nat
    decreases v, 0
  {
    match v
    case JArray(items) => 1 + ItemsDepth(items)
    case JObject(members) => 1 + MembersDepth(members)
    case _ => 0
  }

  function ItemsDepth(items: seq<Json>): nat
    decreases items, 1
  {
    if items == [] then 0 else Max(Depth(items[0]), ItemsDepth(items[1..]))
  }

  function MembersDepth(members: seq<Member>): nat
    decreases members, 1
  {
    if members == [] then 0 else Max(Depth(members[0].value), MembersDepth(members[1..]))
  }

  /** The value with the members of every object in key order. */
  function Sorted(v: Json): Json
    decreases v, 0
  {
    match v
    case JArray(items) => JArray(SortedItems(items))
    case JObject(members) => JObject(SortByKey(SortedMembers(members)))
    case _ => v
  }

  function SortedItems(items: seq<Json>): (r: seq<Json>)
    ensures |r| == |items| && forall i | 0 <= i < |r| :: r[i] == Sorted(items[i])
    decreases items, 1
  {
    if items == [] then [] else [Sorted(items[0])] + SortedItems(items[1..])
  }

  function SortedMembers(members: seq<Member>): (r: seq<Member>)
    ensures |r| == |members| && forall i | 0 <= i < |r| :: r[i] == Keyed(members[i].key, Sorted(members[i].value))
    decreases members, 1
  {
    if members == [] then [] else [Keyed(members[0].key, Sorted(members[0].value))] + SortedMembers(members[1..])
  }

  /** Equality up to the order of object members, at every depth. */
  ghost predicate SameValue(v: Json, w: Json)
    decreases v
  {
    match v
    case JArray(items) =>
      w.JArray? && |items| == |w.items| && forall i | 0 <= i < |items| :: SameValue(items[i], w.items[i])
    case JObject(members) =>
      && w.JObject?
      && (forall i | 0 <= i < |members| ::
            exists m :: m in w.members && m.key == members[i].key && SameValue(members[i].value, m.value))
      && (forall m | m in w.members :: HasKey(members, m.key))
    case _ => v == w
  }

  predicate HasKey<T>(ps: seq<Keyed<T>>, key: string) {
    exists i :: 0 <= i < |ps| && ps[i].key == key
  }

  /** What `canonicalize_tool_arguments` makes of one `arguments` string: text that is not JSON stays as it is. */
  function CanonicalArguments(num: Numbers, text: string): string {
    var v := Read(num, text);
    if v.Some? then Canonical(v.value) else text
  }

  /** Canonicalizing the text has nothing left to do: it is no JSON, or its numbers are settled, or one is refused when read again. */
  predicate Steady(num: Numbers, text: string) {
    var v := Read(num, text);
    v.None? || Settled(num, v.value) || !Accepted(num, v.value)
  }
}
