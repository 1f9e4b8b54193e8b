/** Canonical text is a normal form: it forgets member order, and nothing else. */
module CanonicalTheorems {
  import opened Wrappers
  import opened CanonicalJson

  // ---- Sorting by key ----

  lemma {:induction false} BeforeTrichotomy(a: string, b: string)
    ensures a == b || Before(a, b) || Before(b, a)
    ensures !(Before(a, b) && Before(b, a)) && !Before(a, a)
  {
    if a != "" && b != "" && a[0] == b[0] {
      BeforeTrichotomy(a[1..], b[1..]);
      assert a == [a[0]] + a[1..] && b == [b[0]] + b[1..];
    }
    if a != "" { BeforeTrichotomy(a[1..], a[1..]); }
  }

  lemma {:induction false} BeforeTransitive(a: string, b: string, c: string)
    requires Before(a, b) && Before(b, c)
    ensures Before(a, c)
  {
    if a != "" && a[0] == b[0] == c[0] { BeforeTransitive(a[1..], b[1..], c[1..]); }
  }

  ghost predicate InKeyOrder<T>(ps: seq<Keyed<T>>) {
    forall i, j | 0 <= i < j < |ps| :: Before(ps[i].key, ps[j].key)
  }

  lemma IndexOf<T>(s: seq<T>, x: T) returns (i: nat)
    requires x in s
    ensures i < |s| && s[i] == x
  {
    i :| 0 <= i < |s| && s[i] == x;
  }

  lemma {:induction false} InsertSorts<T(!new)>(p: Keyed<T>, ps: seq<Keyed<T>>)
    requires InKeyOrder(ps) && forall q | q in ps :: q.key != p.key
    ensures InKeyOrder(Insert(p, ps))
    ensures forall q :: q in Insert(p, ps) <==> q == p || q in ps
    ensures |Insert(p, ps)| == |ps| + 1
  {
    if ps != [] {
      assert ps == [ps[0]] + ps[1..];
      BeforeTrichotomy(ps[0].key, p.key);
      if Before(ps[0].key, p.key) {
        InsertSorts(p, ps[1..]);
        var rest := Insert(p, ps[1..]);
        forall j | 0 <= j < |rest| ensures Before(ps[0].key, rest[j].key) {
          assert rest[j] in rest;
          if rest[j] != p {
            var i := IndexOf(ps[1..], rest[j]);
            assert ps[i + 1] == rest[j];
          }
        }
      } else {
        forall j | 0 < j < |ps| ensures Before(p.key, ps[j].key) { BeforeTransitive(p.key, ps[0].key, ps[j].key); }
      }
    }
  }

  /** Sorting by key keeps the members and puts them in key order. */
  lemma {:induction false} SortSorts<T(!new)>(ps: seq<Keyed<T>>)
    requires DistinctKeys(ps)
    ensures InKeyOrder(SortByKey(ps)) && |SortByKey(ps)| == |ps|
    ensures forall q :: q in SortByKey(ps) <==> q in ps
  {
    if ps != [] {
      SortSorts(ps[1..]);
      assert ps == [ps[0]] + ps[1..];
      forall q | q in SortByKey(ps[1..]) ensures q.key != ps[0].key {
        var i := IndexOf(ps[1..], q);
        assert ps[i + 1] == q;
      }
      InsertSorts(ps[0], SortByKey(ps[1..]));
    }
  }

  /** Two sequences in key order with the same members are the same sequence. */
  lemma {:induction false} OrderIsUnique<T(!new)>(a: seq<Keyed<T>>, b: seq<Keyed<T>>)
    requires InKeyOrder(a) && InKeyOrder(b) && forall q :: q in a <==> q in b
    ensures a == b
  {
    assert (a != [] ==> a[0] in a) && (b != [] ==> b[0] in b);
    if a != [] && b != [] {
      BeforeTrichotomy(a[0].key, b[0].key);
      forall q ensures q in a[1..] <==> q in b[1..] { TailMembers(a, q); TailMembers(b, q); }
      OrderIsUnique(a[1..], b[1..]);
      assert a == [a[0]] + a[1..] && b == [b[0]] + b[1..];
    }
  }

  lemma TailMembers<T>(a: seq<Keyed<T>>, q: Keyed<T>)
    requires InKeyOrder(a) && a != []
    ensures q in a[1..] <==> q in a && q != a[0]
  {
    assert a == [a[0]] + a[1..];
    if q in a[1..] {
      var i :| 0 <= i < |a[1..]| && a[1..][i] == q;
      assert a[i + 1] == q;
      BeforeTrichotomy(a[0].key, q.key);
    }
  }

  /** Sorting tells two sequences apart exactly when their members differ. */
  lemma SortEqual<T(!new)>(a: seq<Keyed<T>>, b: seq<Keyed<T>>)
    requires DistinctKeys(a) && DistinctKeys(b)
    ensures SortByKey(a) == SortByKey(b) <==> (forall q :: q in a <==> q in b)
  {
    SortSorts(a);
    SortSorts(b);
    if forall q :: q in a <==> q in b {
      OrderIsUnique(SortByKey(a), SortByKey(b));
    } else {
      var q :| q in a <==> q !in b;
      assert q in SortByKey(a) <==> q !in SortByKey(b);
    }
  }

  // ---- Canonical text is the compact text of the sorted value ----

  function Texts(members: seq<Member>): (r: seq<MemberText>)
    ensures |r| == |members|
  {
    seq(|members|, i requires 0 <= i < |members| => Keyed(members[i].key, ToText(members[i].value)))
  }

  lemma {:induction false} InsertTexts(p: Member, ps: seq<Member>)
    ensures Texts(Insert(p, ps)) == Insert(Keyed(p.key, ToText(p.value)), Texts(ps))
  {
    if ps != [] {
      assert Texts(ps)[1..] == Texts(ps[1..]);
      InsertTexts(p, ps[1..]);
    }
  }

  lemma {:induction false} SortTexts(ps: seq<Member>)
    ensures Texts(SortByKey(ps)) == SortByKey(Texts(ps))
  {
    if ps != [] {
      assert Texts(ps)[1..] == Texts(ps[1..]);
      SortTexts(ps[1..]);
      InsertTexts(ps[0], SortByKey(ps[1..]));
    }
  }

  lemma {:induction false} JoinTexts(ps: seq<Member>)
    requires ps != []
    ensures JoinMembers(Texts(ps)) == MembersText(ps)
  {
    if |ps| > 1 {
      assert Texts(ps)[1..] == Texts(ps[1..]);
      JoinTexts(ps[1..]);
    }
  }

  lemma {:induction false} CanonicalIsSortedText(v: Json)
    ensures Canonical(v) == ToText(Sorted(v))
    decreases v, 0
  {
    match v
    case JArray(items) => if items != [] { CanonicalItemsText(items); }
    case JObject(members) =>
      CanonicalMembersText(members);
      SortTexts(SortedMembers(members));
      SortLength(SortedMembers(members));
      if members != [] { JoinTexts(SortByKey(SortedMembers(members))); }
    case _ =>
  }

  lemma {:induction false} SortLength<T>(ps: seq<Keyed<T>>)
    ensures |SortByKey(ps)| == |ps|
  {
    if ps != [] {
      SortLength(ps[1..]);
      InsertLength(ps[0], SortByKey(ps[1..]));
    }
  }

  lemma {:induction false} InsertLength<T>(p: Keyed<T>, ps: seq<Keyed<T>>)
    ensures |Insert(p, ps)| == |ps| + 1
  {
    if ps != [] { InsertLength(p, ps[1..]); }
  }

  lemma {:induction false} CanonicalItemsText(items: seq<Json>)
    requires items != []
    ensures CanonicalItems(items) == ItemsText(SortedItems(items))
    decreases items, 1
  {
    CanonicalIsSortedText(items[0]);
    if |items| > 1 {
      CanonicalItemsText(items[1..]);
      assert SortedItems(items)[1..] == SortedItems(items[1..]);
    }
  }

  lemma {:induction false} CanonicalMembersText(members: seq<Member>)
    ensures CanonicalMembers(members) == Texts(SortedMembers(members))
    decreases members, 1
  {
    if members != [] {
      var x := SortedMembers(members);
      CanonicalIsSortedText(members[0].value);
      CanonicalMembersText(members[1..]);
      assert x[1..] == SortedMembers(members[1..]);
      assert Texts(x) == [Keyed(x[0].key, ToText(x[0].value))] + Texts(x[1..]);
    }
  }

  // ---- Equality up to member order is equality of the sorted values ----

  lemma {:induction false} SameIsSortedEqual(v: Json, w: Json)
    requires WellFormed(v) && WellFormed(w)
    ensures SameValue(v, w) <==> Sorted(v) == Sorted(w)
    decreases v
  {
    if v.JArray? && w.JArray? && |v.items| == |w.items| {
      forall i | 0 <= i < |v.items| ensures SameValue(v.items[i], w.items[i]) <==> Sorted(v.items[i]) == Sorted(w.items[i]) {
        SameIsSortedEqual(v.items[i], w.items[i]);
      }
      SameItems(v.items, w.items);
    } else if v.JArray? && w.JArray? {
      assert |SortedItems(v.items)| != |SortedItems(w.items)|;
    } else if v.JObject? && w.JObject? {
      forall i, m | 0 <= i < |v.members| && m in w.members
        ensures SameValue(v.members[i].value, m.value) <==> Sorted(v.members[i].value) == Sorted(m.value)
      {
        SameIsSortedEqual(v.members[i].value, m.value);
      }
      SameIsPartnered(v.members, w.members);
      PartneredSorts(v.members, w.members);
      SortsPartnered(v.members, w.members);
    }
  }

  /** Every member of `a` has a partner in `b` under the same key and with the same sorted value, and `b` has no other keys. */
  ghost predicate Partnered(a: seq<Member>, b: seq<Member>) {
    && (forall i | 0 <= i < |a| :: Partner(a[i], b))
    && (forall m | m in b :: HasKey(a, m.key))
  }

  ghost predicate Partner(n: Member, b: seq<Member>) {
    exists m :: m in b && m.key == n.key && Sorted(n.value) == Sorted(m.value)
  }

  /** A member of `b` with this key and the same value. */
  ghost predicate Twin(n: Member, b: seq<Member>) {
    exists m :: m in b && m.key == n.key && SameValue(n.value, m.value)
  }

  lemma TwinIsPartner(n: Member, b: seq<Member>)
    requires forall m | m in b :: SameValue(n.value, m.value) <==> Sorted(n.value) == Sorted(m.value)
    ensures Twin(n, b) <==> Partner(n, b)
  {
    if Twin(n, b) {
      var m :| m in b && m.key == n.key && SameValue(n.value, m.value);
      assert Sorted(n.value) == Sorted(m.value);
    }
    if Partner(n, b) {
      var m :| m in b && m.key == n.key && Sorted(n.value) == Sorted(m.value);
      assert SameValue(n.value, m.value);
    }
  }

  lemma SameObjects(a: seq<Member>, b: seq<Member>)
    ensures SameValue(JObject(a), JObject(b)) <==> (forall i | 0 <= i < |a| :: Twin(a[i], b)) && forall m | m in b :: HasKey(a, m.key)
  {
    var v, w := JObject(a), JObject(b);
    if SameValue(v, w) {
      forall i | 0 <= i < |a| ensures Twin(a[i], b) { assert v.members[i] == a[i]; }
    }
    if (forall i | 0 <= i < |a| :: Twin(a[i], b)) && forall m | m in b :: HasKey(a, m.key) {
      forall i | 0 <= i < |v.members|
        ensures exists m :: m in w.members && m.key == v.members[i].key && SameValue(v.members[i].value, m.value)
      {
        assert Twin(a[i], b);
      }
    }
  }

  lemma SameIsPartnered(a: seq<Member>, b: seq<Member>)
    requires forall i, m | 0 <= i < |a| && m in b :: SameValue(a[i].value, m.value) <==> Sorted(a[i].value) == Sorted(m.value)
    ensures SameValue(JObject(a), JObject(b)) <==> Partnered(a, b)
  {
    SameObjects(a, b);
    forall i | 0 <= i < |a| ensures Twin(a[i], b) <==> Partner(a[i], b) {
      TwinIsPartner(a[i], b);
    }
  }

  lemma SameItems(a: seq<Json>, b: seq<Json>)
    requires |a| == |b|
    requires forall i | 0 <= i < |a| :: SameValue(a[i], b[i]) <==> Sorted(a[i]) == Sorted(b[i])
    ensures SameValue(JArray(a), JArray(b)) <==> Sorted(JArray(a)) == Sorted(JArray(b))
  {
    if Sorted(JArray(a)) == Sorted(JArray(b)) {
      forall i | 0 <= i < |a| ensures Sorted(a[i]) == Sorted(b[i]) { assert SortedItems(a)[i] == SortedItems(b)[i]; }
    }
    if SameValue(JArray(a), JArray(b)) {
      assert SortedItems(a) == SortedItems(b);
    }
  }

  /** A member of the sorted object is a member of the object, with its value sorted. */
  lemma SortedMember(a: seq<Member>, q: Member)
    ensures q in SortedMembers(a) <==> exists m :: m in a && q == Keyed(m.key, Sorted(m.value))
  {
    if q in SortedMembers(a) {
      var i :| 0 <= i < |a| && SortedMembers(a)[i] == q;
      assert a[i] in a;
    }
    if m :| m in a && q == Keyed(m.key, Sorted(m.value)) {
      var i :| 0 <= i < |a| && a[i] == m;
      assert SortedMembers(a)[i] == q;
    }
  }

  lemma KeyIsUnique(a: seq<Member>, m: Member, n: Member)
    requires DistinctKeys(a) && m in a && n in a && m.key == n.key
    ensures m == n
  {
  }

  lemma PartneredSorts(a: seq<Member>, b: seq<Member>)
    requires DistinctKeys(a) && DistinctKeys(b)
    ensures Partnered(a, b) ==> SortByKey(SortedMembers(a)) == SortByKey(SortedMembers(b))
  {
    var x, y := SortedMembers(a), SortedMembers(b);
    if Partnered(a, b) {
      forall q | q in x ensures q in y {
        var i := IndexOf(x, q);
        assert Partner(a[i], b);
        SortedMember(b, q);
      }
      forall q | q in y ensures q in x {
        var j := IndexOf(y, q);
        assert b[j] in b && HasKey(a, b[j].key);
        var i :| 0 <= i < |a| && a[i].key == b[j].key;
        assert Partner(a[i], b);
        var m :| m in b && m.key == a[i].key && Sorted(a[i].value) == Sorted(m.value);
        KeyIsUnique(b, m, b[j]);
        assert x[i] == q;
      }
      SortEqual(x, y);
    }
  }

  lemma SortsPartnered(a: seq<Member>, b: seq<Member>)
    requires DistinctKeys(a) && DistinctKeys(b)
    ensures SortByKey(SortedMembers(a)) == SortByKey(SortedMembers(b)) ==> Partnered(a, b)
  {
    var x, y := SortedMembers(a), SortedMembers(b);
    SortEqual(x, y);
    if SortByKey(x) == SortByKey(y) {
      forall i | 0 <= i < |a| ensures Partner(a[i], b) {
        assert x[i] in x;
        SortedMember(b, x[i]);
      }
      forall m | m in b ensures HasKey(a, m.key) {
        var q := Keyed(m.key, Sorted(m.value));
        SortedMember(b, q);
        var i := IndexOf(x, q);
        assert a[i].key == m.key;
      }
    }
  }

  // ---- Reading the text of a value back ----

  /** Text after a value must not continue a number. */
  predicate Boundary(rest: string) {
    rest == "" || !IsNumberChar(rest[0])
  }

  /** A control character without a short form. */
  predicate NeedsHex(c: char) {
    c < ' ' && c != 8 as char && c != 12 as char && c != '\n' && c != '\r' && c != '\t'
  }

  lemma HexReads(c: char, rest: string)
    requires NeedsHex(c)
    ensures ReadEscape(EscapeChar(c)[1..] + rest) == Parse(c, rest)
  {
    var t, n := EscapeChar(c)[1..] + rest, c as nat;
    assert t[0] == 'u' && t[1..] == "00" + [HexDigit(n / 16), HexDigit(n % 16)] + rest;
    assert HexValue(HexDigit(n / 16)) == Some(n / 16) && HexValue(HexDigit(n % 16)) == Some(n % 16);
    assert Hex4(t[1..]) == Some(n);
    assert t[1..][4..] == rest;
  }

  lemma EscapeReads(c: char, rest: string)
    requires EscapeChar(c)[0] == '\\'
    ensures ReadEscape(EscapeChar(c)[1..] + rest) == Parse(c, rest)
  {
    if NeedsHex(c) {
      HexReads(c, rest);
    } else {
      assert (EscapeChar(c)[1..] + rest)[1..] == rest;
    }
  }

  lemma PlainReads(c: char, tail: string)
    requires EscapeChar(c)[0] != '\\' && ReadString(tail).Parse?
    ensures ReadString(EscapeChar(c) + tail) == Parse([c] + ReadString(tail).value, ReadString(tail).rest)
  {
    var text := EscapeChar(c) + tail;
    assert EscapeChar(c) == [c] && text[0] == c && text[1..] == tail;
  }

  /** One character of a string, escaped or plain, and the rest. */
  lemma ReadStringStep(c: char, tail: string)
    requires ReadString(tail).Parse?
    ensures ReadString(EscapeChar(c) + tail) == Parse([c] + ReadString(tail).value, ReadString(tail).rest)
  {
    var e := EscapeChar(c);
    if e[0] == '\\' {
      EscapeReads(c, tail);
      assert (e + tail)[0] == '\\' && (e + tail)[1..] == e[1..] + tail;
    } else {
      PlainReads(c, tail);
    }
  }

  lemma {:induction false} StringReadsBack(s: string, rest: string)
    ensures ReadString(Escape(s) + "\"" + rest) == Parse(s, rest)
  {
    if s == "" {
      assert Escape(s) + "\"" + rest == "\"" + rest;
    } else {
      var tail := Escape(s[1..]) + "\"" + rest;
      StringReadsBack(s[1..], rest);
      ReadStringStep(s[0], tail);
      Wrapped(EscapeChar(s[0]), Escape(s[1..]), "\"", rest);
      assert [s[0]] + s[1..] == s;
    }
  }

  lemma QuoteReadsBack(s: string, rest: string)
    ensures var t := Quote(s) + rest; t != "" && t[0] == '\"' && ReadString(t[1..]) == Parse(s, rest)
  {
    assert (Quote(s) + rest)[1..] == Escape(s) + "\"" + rest;
    StringReadsBack(s, rest);
  }

  lemma {:induction false} NumberRunStops(literal: string, rest: string)
    requires (forall i | 0 <= i < |literal| :: IsNumberChar(literal[i])) && Boundary(rest)
    ensures NumberRun(literal + rest) == |literal|
  {
    if literal == "" {
      assert literal + rest == rest;
    } else {
      assert (literal + rest)[1..] == literal[1..] + rest;
      NumberRunStops(literal[1..], rest);
    }
  }

  /** The text of a value starts with a character that is neither space nor a closing bracket. */
  lemma TextStarts(v: Json)
    requires WellFormed(v)
    ensures ToText(v) != "" && !IsSpace(ToText(v)[0]) && ToText(v)[0] != ']' && ToText(v)[0] != '}'
  {
    if v.JNumber? { NumberStarts(v.literal); }
  }

  lemma NumberStarts(s: string)
    requires IsNumber(s)
    ensures s != "" && (s[0] == '-' || IsDigit(s[0]))
  {
  }

  lemma NotAWord(s: string)
    requires s != "" && s[0] != 'n' && s[0] != 't' && s[0] != 'f'
    ensures !("null" <= s) && !("true" <= s) && !("false" <= s)
  {
    assert forall w: string | w <= s && w != "" :: w[0] == s[0];
    assert "null"[0] == 'n' && "true"[0] == 't' && "false"[0] == 'f';
  }

  lemma ScalarReadsBack(num: Numbers, v: Json, rest: string, depth: nat)
    requires WellFormed(v) && Boundary(rest) && !v.JArray? && !v.JObject?
    ensures ReadValue(num, ToText(v) + rest, depth) == if Accepted(num, v) then Parse(Reread(num, v), rest) else NoParse
  {
    var t := ToText(v) + rest;
    TextStarts(v);
    assert t[0] == ToText(v)[0] && SkipSpace(t) == t;
    match v
    case JNull => assert "null" <= t && t[4..] == rest;
    case JBool(b) =>
      if b {
        assert t[0] == 't' && "true" <= t && t[4..] == rest;
        assert !("null" <= t) by { assert "null"[0] != t[0]; }
      } else {
        assert t[0] == 'f' && "false" <= t && t[5..] == rest;
        assert !("null" <= t) by { assert "null"[0] != t[0]; }
        assert !("true" <= t) by { assert "true"[0] != t[0]; }
      }
    case JNumber(literal) =>
      NotAWord(t);
      NumberStarts(literal);
      NumberRunStops(literal, rest);
      assert t[..|literal|] == literal && t[|literal|..] == rest;
    case JString(text) =>
      NotAWord(t);
      QuoteReadsBack(text, rest);
  }

  lemma {:induction false} ReadsBack(num: Numbers, v: Json, rest: string, depth: nat)
    requires WellFormed(v) && Boundary(rest) && Accepted(num, v) && Depth(v) < depth
    ensures ReadValue(num, ToText(v) + rest, depth) == Parse(Reread(num, v), rest)
    decreases v, 1
  {
    if v.JArray? {
      ArrayReadsBack(num, v.items, rest, depth);
    } else if v.JObject? {
      ObjectReadsBack(num, v.members, rest, depth);
    } else {
      ScalarReadsBack(num, v, rest, depth);
    }
  }

  lemma EmptyArrayReadsBack(num: Numbers, rest: string, depth: nat)
    requires depth > 1
    ensures ReadValue(num, "[]" + rest, depth) == Parse(JArray([]), rest)
  {
    var t := "[]" + rest;
    assert SkipSpace(t) == t && t[1..] == "]" + rest && SkipSpace(t[1..]) == t[1..] && t[1..][1..] == rest;
    NotAWord(t);
  }

  lemma ReadArrayStep(num: Numbers, inner: string, items: seq<Json>, rest: string, depth: nat)
    requires depth > 1 && inner != "" && !IsSpace(inner[0]) && inner[0] != ']'
    requires ReadItems(num, inner, depth - 1) == Parse(items, rest)
    ensures ReadValue(num, "[" + inner, depth) == Parse(JArray(items), rest)
  {
    var t := "[" + inner;
    assert SkipSpace(t) == t && t[1..] == inner && SkipSpace(inner) == inner;
    NotAWord(t);
  }

  lemma ArrayText(items: seq<Json>, rest: string) returns (inner: string)
    requires items != [] && forall i | 0 <= i < |items| :: WellFormed(items[i])
    ensures inner == ItemsText(items) + "]" + rest && !IsSpace(inner[0]) && inner[0] != ']'
    ensures ToText(JArray(items)) + rest == "[" + inner
  {
    inner := ItemsText(items) + "]" + rest;
    ItemsStart(items);
    Wrapped("[", ItemsText(items), "]", rest);
  }

  lemma {:induction false} ArrayReadsBack(num: Numbers, items: seq<Json>, rest: string, depth: nat)
    requires WellFormed(JArray(items)) && EachItem(items, TakenBy(num)) && 1 + ItemsDepth(items) < depth
    ensures ReadValue(num, ToText(JArray(items)) + rest, depth) == Parse(JArray(RereadItems(num, items)), rest)
    decreases items, 2
  {
    if items == [] {
      EmptyArrayReadsBack(num, rest, depth);
      assert ToText(JArray(items)) == "[]";
    } else {
      var inner := ArrayText(items, rest);
      ItemsReadBack(num, items, rest, depth - 1);
      ReadArrayStep(num, inner, RereadItems(num, items), rest, depth);
    }
  }

  lemma ItemsStart(items: seq<Json>)
    requires items != [] && forall i | 0 <= i < |items| :: WellFormed(items[i])
    ensures ItemsText(items) != "" && !IsSpace(ItemsText(items)[0]) && ItemsText(items)[0] != ']'
  {
    TextStarts(items[0]);
  }

  /** One item, and what follows it. */
  lemma ReadItemsStep(num: Numbers, text: string, v: Json, after: string, depth: nat)
    requires ReadValue(num, text, depth) == Parse(v, after) && after != "" && !IsSpace(after[0])
    ensures after[0] == ']' ==> ReadItems(num, text, depth) == Parse([v], after[1..])
    ensures after[0] == ',' ==>
              var tail := ReadItems(num, after[1..], depth);
              ReadItems(num, text, depth) == (if tail.Parse? then Parse([v] + tail.value, tail.rest) else NoParse)
  {
    assert SkipSpace(after) == after;
  }

  lemma ReadNextItem(num: Numbers, text: string, v: Json, after: string, depth: nat, more: seq<Json>, rest: string)
    requires ReadValue(num, text, depth) == Parse(v, after) && after != "" && after[0] == ','
    requires ReadItems(num, after[1..], depth) == Parse(more, rest)
    ensures ReadItems(num, text, depth) == Parse([v] + more, rest)
  {
    ReadItemsStep(num, text, v, after, depth);
  }

  function AfterItem(items: seq<Json>, rest: string): string
    requires items != []
  {
    if |items| == 1 then "]" + rest else "," + (ItemsText(items[1..]) + "]" + rest)
  }

  lemma Comma(first: string, tail: string, right: string, rest: string)
    ensures first + "," + tail + right + rest == first + ("," + (tail + right + rest))
    ensures ("," + (tail + right + rest))[1..] == tail + right + rest
  {
  }

  lemma ItemsTextIs(items: seq<Json>, rest: string)
    requires items != []
    ensures ItemsText(items) + "]" + rest == ToText(items[0]) + AfterItem(items, rest)
    ensures AfterItem(items, rest)[1..] == if |items| == 1 then rest else ItemsText(items[1..]) + "]" + rest
  {
    var first := ToText(items[0]);
    if |items| == 1 {
      assert first + "]" + rest == first + ("]" + rest) && ("]" + rest)[1..] == rest;
    } else {
      Comma(first, ItemsText(items[1..]), "]", rest);
    }
  }

  lemma {:induction false} ItemsReadBack(num: Numbers, items: seq<Json>, rest: string, depth: nat)
    requires items != [] && (forall i | 0 <= i < |items| :: WellFormed(items[i]))
    requires EachItem(items, TakenBy(num)) && ItemsDepth(items) < depth
    ensures ReadItems(num, ItemsText(items) + "]" + rest, depth) == Parse(RereadItems(num, items), rest)
    decreases items, 1
  {
    var text, after := ItemsText(items) + "]" + rest, AfterItem(items, rest);
    ItemsTextIs(items, rest);
    ReadsBack(num, items[0], after, depth);
    if |items| == 1 {
      ReadItemsStep(num, text, Reread(num, items[0]), after, depth);
      assert items[1..] == [] && RereadItems(num, items) == [Reread(num, items[0])];
    } else {
      ItemsReadBack(num, items[1..], rest, depth);
      ReadNextItem(num, text, Reread(num, items[0]), after, depth, RereadItems(num, items[1..]), rest);
    }
  }

  lemma ReadObjectStep(num: Numbers, text: string, inner: string, members: seq<Member>, rest: string, depth: nat)
    requires depth > 1 && inner != "" && inner[0] == '\"' && text == "{" + inner
    requires ReadMembers(num, inner, depth - 1, []) == Parse(members, rest)
    ensures ReadValue(num, text, depth) == Parse(JObject(members), rest)
  {
    assert SkipSpace(text) == text && text[1..] == inner && SkipSpace(inner) == inner;
    NotAWord(text);
  }

  lemma Wrapped(left: string, body: string, right: string, rest: string)
    ensures left + body + right + rest == left + (body + right + rest)
  {
  }

  lemma MembersStart(members: seq<Member>, rest: string)
    requires members != []
    ensures (MembersText(members) + rest)[0] == '\"'
  {
    assert MembersText(members)[0] == Quote(members[0].key)[0] == '\"';
  }

  lemma EmptyObjectReadsBack(num: Numbers, rest: string, depth: nat)
    requires depth > 1
    ensures ReadValue(num, "{}" + rest, depth) == Parse(JObject([]), rest)
  {
    var t := "{}" + rest;
    assert SkipSpace(t) == t && t[1..] == "}" + rest && SkipSpace(t[1..]) == t[1..] && t[1..][1..] == rest;
    NotAWord(t);
  }

  lemma ObjectText(members: seq<Member>, rest: string) returns (inner: string)
    requires members != []
    ensures inner == MembersText(members) + "}" + rest && inner[0] == '\"'
    ensures ToText(JObject(members)) + rest == "{" + inner
  {
    inner := MembersText(members) + "}" + rest;
    MembersStart(members, "}" + rest);
    assert inner == MembersText(members) + ("}" + rest);
    Wrapped("{", MembersText(members), "}", rest);
  }

  lemma {:induction false} AllMembersReadBack(num: Numbers, members: seq<Member>, rest: string, depth: nat)
    returns (inner: string)
    requires members != [] && DistinctKeys(members) && forall i | 0 <= i < |members| :: WellFormed(members[i].value)
    requires EachMember(members, TakenBy(num)) && MembersDepth(members) < depth
    ensures inner != "" && inner[0] == '\"' && ToText(JObject(members)) + rest == "{" + inner
    ensures ReadMembers(num, inner, depth, []) == Parse(RereadMembers(num, members), rest)
    decreases members, 1, 1
  {
    inner := ObjectText(members, rest);
    assert [] + members == members && [] + RereadMembers(num, members) == RereadMembers(num, members);
    MembersReadBack(num, [], members, rest, depth);
  }

  lemma {:induction false} FullObjectReadsBack(num: Numbers, members: seq<Member>, rest: string, depth: nat)
    requires members != [] && DistinctKeys(members) && forall i | 0 <= i < |members| :: WellFormed(members[i].value)
    requires EachMember(members, TakenBy(num)) && 1 + MembersDepth(members) < depth
    ensures ReadValue(num, ToText(JObject(members)) + rest, depth) == Parse(JObject(RereadMembers(num, members)), rest)
    decreases members, 2
  {
    var inner := AllMembersReadBack(num, members, rest, depth - 1);
    ReadObjectStep(num, "{" + inner, inner, RereadMembers(num, members), rest, depth);
  }

  lemma {:induction false} ObjectReadsBack(num: Numbers, members: seq<Member>, rest: string, depth: nat)
    requires WellFormed(JObject(members)) && EachMember(members, TakenBy(num)) && 1 + MembersDepth(members) < depth
    ensures ReadValue(num, ToText(JObject(members)) + rest, depth) == Parse(JObject(RereadMembers(num, members)), rest)
    decreases members, 3
  {
    if members == [] {
      EmptyObjectReadsBack(num, rest, depth);
    } else {
      FullObjectReadsBack(num, members, rest, depth);
    }
  }

  lemma {:induction false} PutNew(before: seq<Member>, key: string, v: Json)
    requires forall i | 0 <= i < |before| :: before[i].key != key
    ensures Put(before, key, v) == before + [Keyed(key, v)]
  {
    if before != [] { PutNew(before[1..], key, v); }
  }

  /** One member, and what follows it. */
  lemma ReadMembersStep(num: Numbers, text: string, m: Member, colon: string, after: string, depth: nat, before: seq<Member>)
    requires text != "" && text[0] == '\"' && ReadString(text[1..]) == Parse(m.key, colon)
    requires colon != "" && colon[0] == ':' && ReadValue(num, colon[1..], depth) == Parse(m.value, after)
    requires after != "" && !IsSpace(after[0])
    requires Put(before, m.key, m.value) == before + [m]
    ensures after[0] == '}' ==> ReadMembers(num, text, depth, before) == Parse(before + [m], after[1..])
    ensures after[0] == ',' ==> ReadMembers(num, text, depth, before) == ReadMembers(num, after[1..], depth, before + [m])
  {
    assert SkipSpace(text) == text && SkipSpace(colon) == colon && SkipSpace(after) == after;
  }

  lemma MemberText(m: Member, after: string) returns (colon: string)
    ensures colon == ":" + ToText(m.value) + after && colon[1..] == ToText(m.value) + after
    ensures var text := Quote(m.key) + ":" + ToText(m.value) + after;
            text[0] == '\"' && ReadString(text[1..]) == Parse(m.key, colon)
  {
    colon := ":" + ToText(m.value) + after;
    QuoteReadsBack(m.key, colon);
    assert Quote(m.key) + ":" + ToText(m.value) + after == Quote(m.key) + colon;
  }

  function AfterMember(members: seq<Member>, rest: string): string
    requires members != []
  {
    if |members| == 1 then "}" + rest else "," + (MembersText(members[1..]) + "}" + rest)
  }

  lemma MembersTextIs(members: seq<Member>, rest: string)
    requires members != []
    ensures MembersText(members) + "}" + rest
            == Quote(members[0].key) + ":" + ToText(members[0].value) + AfterMember(members, rest)
  {
    var first := Quote(members[0].key) + ":" + ToText(members[0].value);
    if |members| == 1 {
      assert first + "}" + rest == first + ("}" + rest);
    } else {
      Comma(first, MembersText(members[1..]), "}", rest);
    }
  }

  lemma FreshKey(before: seq<Member>, members: seq<Member>, v: Json)
    requires members != [] && DistinctKeys(before + members)
    ensures Put(before, members[0].key, v) == before + [Keyed(members[0].key, v)]
  {
    forall i | 0 <= i < |before| ensures before[i].key != members[0].key {
      assert (before + members)[i] == before[i] && (before + members)[|before|] == members[0];
    }
    PutNew(before, members[0].key, v);
  }

  lemma RestOfMembers(before: seq<Member>, members: seq<Member>, v: Json)
    requires members != [] && (forall i | 0 <= i < |members| :: WellFormed(members[i].value))
    requires DistinctKeys(before + members)
    ensures WellFormed(members[0].value) && forall i | 0 <= i < |members[1..]| :: WellFormed(members[1..][i].value)
    ensures DistinctKeys(before + [Keyed(members[0].key, v)] + members[1..])
  {
    var all, next := before + members, before + [Keyed(members[0].key, v)] + members[1..];
    assert |next| == |all| && forall i | 0 <= i < |all| :: next[i].key == all[i].key;
  }

  lemma RereadFirst(num: Numbers, before: seq<Member>, members: seq<Member>, read: Member)
    requires members != [] && read == Keyed(members[0].key, Reread(num, members[0].value))
    ensures before + RereadMembers(num, members) == before + [read] + RereadMembers(num, members[1..])
  {
    assert before + ([read] + RereadMembers(num, members[1..])) == before + [read] + RereadMembers(num, members[1..]);
  }

  /** The first member is read, and what follows it. */
  lemma FirstMemberReads(num: Numbers, before: seq<Member>, members: seq<Member>, rest: string, depth: nat, read: Member)
    requires members != [] && DistinctKeys(before + members) && read == Keyed(members[0].key, Reread(num, members[0].value))
    requires ReadValue(num, ToText(members[0].value) + AfterMember(members, rest), depth) == Parse(read.value, AfterMember(members, rest))
    ensures ReadMembers(num, MembersText(members) + "}" + rest, depth, before) ==
      if |members| == 1 then Parse(before + [read], rest)
      else ReadMembers(num, MembersText(members[1..]) + "}" + rest, depth, before + [read])
  {
    var m, after := members[0], AfterMember(members, rest);
    FreshKey(before, members, read.value);
    MembersTextIs(members, rest);
    var colon := MemberText(m, after);
    ReadMembersStep(num, Quote(m.key) + ":" + ToText(m.value) + after, read, colon, after, depth, before);
    assert after[1..] == if |members| == 1 then rest else MembersText(members[1..]) + "}" + rest;
  }

  lemma {:induction false} MembersReadBack(num: Numbers, before: seq<Member>, members: seq<Member>, rest: string, depth: nat)
    requires members != [] && (forall i | 0 <= i < |members| :: WellFormed(members[i].value))
    requires DistinctKeys(before + members) && EachMember(members, TakenBy(num)) && MembersDepth(members) < depth
    ensures ReadMembers(num, MembersText(members) + "}" + rest, depth, before) == Parse(before + RereadMembers(num, members), rest)
    decreases members, 1, 0
  {
    var read := Keyed(members[0].key, Reread(num, members[0].value));
    RestOfMembers(before, members, read.value);
    ReadsBack(num, members[0].value, AfterMember(members, rest), depth);
    FirstMemberReads(num, before, members, rest, depth, read);
    RereadFirst(num, before, members, read);
    if |members| == 1 {
      assert members[1..] == [] && before + [read] + [] == before + [read];
    } else {
      MembersReadBack(num, before + [read], members[1..], rest, depth);
    }
  }

  // ---- Text nested too deeply, or with a number that is refused, is refused ----

  lemma {:induction false} Refused(num: Numbers, v: Json, rest: string, depth: nat)
    requires WellFormed(v) && Boundary(rest) && depth >= 1 && !(Accepted(num, v) && Depth(v) < depth)
    ensures ReadValue(num, ToText(v) + rest, depth).NoParse?
    decreases v, 1
  {
    if v.JArray? {
      ArrayRefused(num, v.items, rest, depth);
    } else if v.JObject? {
      ObjectRefused(num, v.members, rest, depth);
    } else {
      ScalarReadsBack(num, v, rest, depth);
    }
  }

  lemma ReadArrayFails(num: Numbers, inner: string, depth: nat)
    requires inner != "" && !IsSpace(inner[0]) && inner[0] != ']'
    requires depth > 1 ==> ReadItems(num, inner, depth - 1).NoParse?
    ensures ReadValue(num, "[" + inner, depth).NoParse?
  {
    var t := "[" + inner;
    assert SkipSpace(t) == t && t[1..] == inner && SkipSpace(inner) == inner;
    NotAWord(t);
  }

  lemma ReadObjectFails(num: Numbers, inner: string, depth: nat)
    requires inner != "" && inner[0] == '\"'
    requires depth > 1 ==> ReadMembers(num, inner, depth - 1, []).NoParse?
    ensures ReadValue(num, "{" + inner, depth).NoParse?
  {
    var t := "{" + inner;
    assert SkipSpace(t) == t && t[1..] == inner && SkipSpace(inner) == inner;
    NotAWord(t);
  }

  lemma EmptyTooDeep(num: Numbers, t: string)
    requires t != "" && (t[0] == '[' || t[0] == '{')
    ensures ReadValue(num, t, 1).NoParse?
  {
    assert SkipSpace(t) == t;
    NotAWord(t);
  }

  lemma {:induction false} ArrayRefused(num: Numbers, items: seq<Json>, rest: string, depth: nat)
    requires WellFormed(JArray(items)) && depth >= 1 && !(EachItem(items, TakenBy(num)) && 1 + ItemsDepth(items) < depth)
    ensures ReadValue(num, ToText(JArray(items)) + rest, depth).NoParse?
    decreases items, 2
  {
    if items == [] {
      EmptyTooDeep(num, ToText(JArray(items)) + rest);
    } else {
      var inner := ArrayText(items, rest);
      if depth > 1 { ItemsRefused(num, items, rest, depth - 1); }
      ReadArrayFails(num, inner, depth);
    }
  }

  lemma {:induction false} ObjectRefused(num: Numbers, members: seq<Member>, rest: string, depth: nat)
    requires WellFormed(JObject(members)) && depth >= 1
    requires !(EachMember(members, TakenBy(num)) && 1 + MembersDepth(members) < depth)
    ensures ReadValue(num, ToText(JObject(members)) + rest, depth).NoParse?
    decreases members, 2
  {
    if members == [] {
      EmptyTooDeep(num, ToText(JObject(members)) + rest);
    } else {
      var inner := AllMembersRefused(num, members, rest, depth);
      ReadObjectFails(num, inner, depth);
    }
  }

  lemma {:induction false} AllMembersRefused(num: Numbers, members: seq<Member>, rest: string, depth: nat) returns (inner: string)
    requires members != [] && WellFormed(JObject(members)) && depth >= 1
    requires !(EachMember(members, TakenBy(num)) && 1 + MembersDepth(members) < depth)
    ensures inner != "" && inner[0] == '\"' && ToText(JObject(members)) + rest == "{" + inner
    ensures depth > 1 ==> ReadMembers(num, inner, depth - 1, []).NoParse?
    decreases members, 1, 1
  {
    inner := ObjectText(members, rest);
    assert [] + members == members;
    if depth > 1 { MembersRefused(num, [], members, rest, depth - 1); }
  }

  lemma {:induction false} ItemsRefused(num: Numbers, items: seq<Json>, rest: string, depth: nat)
    requires items != [] && (forall i | 0 <= i < |items| :: WellFormed(items[i]))
    requires depth >= 1 && !(EachItem(items, TakenBy(num)) && ItemsDepth(items) < depth)
    ensures ReadItems(num, ItemsText(items) + "]" + rest, depth).NoParse?
    decreases items, 1
  {
    var after := AfterItem(items, rest);
    ItemsTextIs(items, rest);
    if |items| == 1 { assert items[1..] == []; }
    if Accepted(num, items[0]) && Depth(items[0]) < depth {
      ReadsBack(num, items[0], after, depth);
      ReadItemsStep(num, ToText(items[0]) + after, Reread(num, items[0]), after, depth);
      ItemsRefused(num, items[1..], rest, depth);
    } else {
      Refused(num, items[0], after, depth);
    }
  }

  lemma ReadMembersFails(num: Numbers, text: string, key: string, colon: string, depth: nat, before: seq<Member>)
    requires text != "" && text[0] == '\"' && ReadString(text[1..]) == Parse(key, colon)
    requires colon != "" && colon[0] == ':' && ReadValue(num, colon[1..], depth).NoParse?
    ensures ReadMembers(num, text, depth, before).NoParse?
  {
    assert SkipSpace(text) == text && SkipSpace(colon) == colon;
  }

  lemma {:induction false} MembersRefused(num: Numbers, before: seq<Member>, members: seq<Member>, rest: string, depth: nat)
    requires members != [] && (forall i | 0 <= i < |members| :: WellFormed(members[i].value)) && DistinctKeys(before + members)
    requires depth >= 1 && !(EachMember(members, TakenBy(num)) && MembersDepth(members) < depth)
    ensures ReadMembers(num, MembersText(members) + "}" + rest, depth, before).NoParse?
    decreases members, 1, 0
  {
    var m, after := members[0], AfterMember(members, rest);
    var read := Keyed(m.key, Reread(num, m.value));
    RestOfMembers(before, members, read.value);
    if |members| == 1 { assert members[1..] == []; }
    if Accepted(num, m.value) && Depth(m.value) < depth {
      ReadsBack(num, m.value, after, depth);
      FirstMemberReads(num, before, members, rest, depth, read);
      MembersRefused(num, before + [read], members[1..], rest, depth);
    } else {
      Refused(num, m.value, after, depth);
      MembersTextIs(members, rest);
      var colon := MemberText(m, after);
      ReadMembersFails(num, Quote(m.key) + ":" + ToText(m.value) + after, m.key, colon, depth, before);
    }
  }

  // ---- What the reader accepts is well formed ----

  lemma {:induction false} PutKeeps(members: seq<Member>, key: string, v: Json, depth: nat)
    requires DistinctKeys(members) && WellFormed(v) && Depth(v) < depth && MembersDepth(members) < depth
    requires forall i | 0 <= i < |members| :: WellFormed(members[i].value)
    ensures var r := Put(members, key, v);
            && DistinctKeys(r) && MembersDepth(r) < depth
            && (forall i | 0 <= i < |r| :: WellFormed(r[i].value))
            && (forall i | 0 <= i < |r| :: r[i].key == key || HasKey(members, r[i].key))
  {
    if members != [] {
      if members[0].key == key {
        var r := Put(members, key, v);
        assert r[1..] == members[1..];
        forall i | 0 <= i < |r| ensures r[i].key == key || HasKey(members, r[i].key) {
          if i > 0 { assert members[i].key == r[i].key; }
        }
      } else {
        PutKeeps(members[1..], key, v, depth);
        var rest := Put(members[1..], key, v);
        var r := Put(members, key, v);
        assert r == [members[0]] + rest;
        forall i | 0 <= i < |rest| && HasKey(members[1..], rest[i].key)
          ensures rest[i].key != members[0].key && HasKey(members, rest[i].key)
        {
          var j :| 0 <= j < |members[1..]| && members[1..][j].key == rest[i].key;
          assert members[j + 1].key == rest[i].key;
        }
        assert members[0].key == r[0].key;
      }
    }
  }

  lemma {:induction false} ReadIsWellFormed(num: Numbers, text: string, depth: nat)
    requires Renders(num)
    requires depth > 0
    ensures var r := ReadValue(num, text, depth); r.Parse? ==> WellFormed(r.value) && Depth(r.value) < depth
    decreases |text|, 1
  {
    if ReadValue(num, text, depth).Parse? {
      if SkipSpace(text)[0] == '[' && depth > 1 {
        ArrayIsWellFormed(num, text, depth);
      } else if SkipSpace(text)[0] == '{' && depth > 1 {
        ObjectIsWellFormed(num, text, depth);
      } else {
        ScalarIsWellFormed(num, text, depth);
      }
    }
  }

  lemma {:induction false} ArrayIsWellFormed(num: Numbers, text: string, depth: nat)
    requires Renders(num) && depth > 1 && ReadValue(num, text, depth).Parse? && SkipSpace(text)[0] == '['
    ensures var v := ReadValue(num, text, depth).value; WellFormed(v) && Depth(v) < depth
    decreases |text|, 0
  {
    ReadItemsWellFormed(num, SkipSpace(SkipSpace(text)[1..]), depth - 1);
    ReadArrayIs(num, text, depth);
  }

  lemma {:induction false} ObjectIsWellFormed(num: Numbers, text: string, depth: nat)
    requires Renders(num) && depth > 1 && ReadValue(num, text, depth).Parse? && SkipSpace(text)[0] == '{'
    ensures var v := ReadValue(num, text, depth).value; WellFormed(v) && Depth(v) < depth
    decreases |text|, 0
  {
    ReadMembersWellFormed(num, SkipSpace(SkipSpace(text)[1..]), depth - 1, []);
    ReadObjectIs(num, text, depth);
  }

  lemma ReadArrayIs(num: Numbers, text: string, depth: nat)
    requires ReadValue(num, text, depth).Parse? && SkipSpace(text)[0] == '[' && depth > 1
    ensures var v, r := ReadValue(num, text, depth).value, ReadItems(num, SkipSpace(SkipSpace(text)[1..]), depth - 1);
      v == JArray([]) || (r.Parse? && v == JArray(r.value))
  {
  }

  lemma ReadObjectIs(num: Numbers, text: string, depth: nat)
    requires ReadValue(num, text, depth).Parse? && SkipSpace(text)[0] == '{' && depth > 1
    ensures var v, r := ReadValue(num, text, depth).value, ReadMembers(num, SkipSpace(SkipSpace(text)[1..]), depth - 1, []);
      v == JObject([]) || (r.Parse? && v == JObject(r.value))
  {
  }

  lemma ScalarIsWellFormed(num: Numbers, text: string, depth: nat)
    requires Renders(num) && ReadValue(num, text, depth).Parse?
    requires var s := SkipSpace(text); !(s[0] == '[' && depth > 1) && !(s[0] == '{' && depth > 1)
    ensures WellFormed(ReadValue(num, text, depth).value) && Depth(ReadValue(num, text, depth).value) == 0
  {
  }

  lemma {:induction false} ReadItemsWellFormed(num: Numbers, text: string, depth: nat)
    requires Renders(num)
    requires depth > 0
    ensures var r := ReadItems(num, text, depth);
            r.Parse? ==> (forall i | 0 <= i < |r.value| :: WellFormed(r.value[i])) && ItemsDepth(r.value) < depth
    decreases |text|, 2
  {
    var v, r := ReadValue(num, text, depth), ReadItems(num, text, depth);
    if r.Parse? {
      ReadIsWellFormed(num, text, depth);
      var s := SkipSpace(v.rest);
      if s[0] != ']' {
        ReadItemsWellFormed(num, s[1..], depth);
        assert r.value[1..] == ReadItems(num, s[1..], depth).value;
      }
    }
  }

  lemma {:induction false} ReadMembersWellFormed(num: Numbers, text: string, depth: nat, before: seq<Member>)
    requires Renders(num)
    requires depth > 0 && DistinctKeys(before) && MembersDepth(before) < depth
    requires forall i | 0 <= i < |before| :: WellFormed(before[i].value)
    ensures var r := ReadMembers(num, text, depth, before);
            r.Parse? ==> WellFormed(JObject(r.value)) && MembersDepth(r.value) < depth
    decreases |text|, 2
  {
    if ReadMembers(num, text, depth, before).Parse? {
      var s := SkipSpace(text);
      var key := ReadString(s[1..]);
      var colon := SkipSpace(key.rest);
      var v := ReadValue(num, colon[1..], depth);
      ReadIsWellFormed(num, colon[1..], depth);
      PutKeeps(before, key.value, v.value, depth);
      var after := SkipSpace(v.rest);
      if after[0] != '}' { ReadMembersWellFormed(num, after[1..], depth, Put(before, key.value, v.value)); }
    }
  }

  // ---- Sorting a value keeps it well formed and as deep ----

  lemma {:induction false} SortedTwice(v: Json)
    requires WellFormed(v)
    ensures WellFormed(Sorted(v)) && Sorted(Sorted(v)) == Sorted(v) && Depth(Sorted(v)) == Depth(v)
    decreases v
  {
    match v
    case JArray(items) =>
      forall i | 0 <= i < |items| ensures WellFormed(Sorted(items[i])) && Sorted(Sorted(items[i])) == Sorted(items[i]) && Depth(Sorted(items[i])) == Depth(items[i]) {
        SortedTwice(items[i]);
      }
      assert SortedItems(SortedItems(items)) == SortedItems(items);
      SameItemsDepth(items, SortedItems(items));
    case JObject(members) =>
      forall i | 0 <= i < |members| ensures WellFormed(Sorted(members[i].value)) && Sorted(Sorted(members[i].value)) == Sorted(members[i].value) && Depth(Sorted(members[i].value)) == Depth(members[i].value) {
        SortedTwice(members[i].value);
      }
      SortedObjectTwice(members);
    case _ =>
  }

  lemma {:induction false} SameItemsDepth(a: seq<Json>, b: seq<Json>)
    requires |a| == |b| && forall i | 0 <= i < |a| :: Depth(a[i]) == Depth(b[i])
    ensures ItemsDepth(a) == ItemsDepth(b)
  {
    if a != [] { SameItemsDepth(a[1..], b[1..]); }
  }

  /** The depth of an object's members is the greatest of their depths, whatever their order. */
  lemma {:induction false} MembersDepthBound(members: seq<Member>, d: nat)
    ensures MembersDepth(members) <= d <==> forall m | m in members :: Depth(m.value) <= d
  {
    if members != [] {
      assert members == [members[0]] + members[1..];
      MembersDepthBound(members[1..], d);
    }
  }

  lemma SortedObjectTwice(members: seq<Member>)
    requires DistinctKeys(members)
    requires forall i | 0 <= i < |members| ::
      WellFormed(Sorted(members[i].value)) && Sorted(Sorted(members[i].value)) == Sorted(members[i].value)
      && Depth(Sorted(members[i].value)) == Depth(members[i].value)
    ensures var v := JObject(SortByKey(SortedMembers(members)));
            WellFormed(v) && Sorted(v) == v && MembersDepth(v.members) == MembersDepth(members)
  {
    var x := SortedMembers(members);
    var y := SortByKey(x);
    SortSorts(x);
    forall q | q in y ensures WellFormed(q.value) && Sorted(q.value) == q.value {
      assert q in x;
      var i := IndexOf(x, q);
    }
    forall i, j | 0 <= i < j < |y| ensures y[i].key != y[j].key { BeforeTrichotomy(y[i].key, y[j].key); }
    SortedStays(y);
    forall i | 0 <= i < |y| ensures WellFormed(y[i].value) { assert y[i] in y; }
    SameDepths(members, y);
  }

  /** Sorting members that are sorted inside and out changes nothing. */
  lemma SortedStays(y: seq<Member>)
    requires (forall q | q in y :: Sorted(q.value) == q.value) && InKeyOrder(y) && DistinctKeys(y)
    ensures SortByKey(SortedMembers(y)) == y
  {
    forall i | 0 <= i < |y| ensures SortedMembers(y)[i] == y[i] { assert y[i] in y; }
    assert SortedMembers(y) == y;
    SortSorts(y);
    OrderIsUnique(y, SortByKey(y));
  }

  lemma SameDepths(members: seq<Member>, y: seq<Member>)
    requires forall i | 0 <= i < |members| :: Depth(Sorted(members[i].value)) == Depth(members[i].value)
    requires forall q :: q in y <==> q in SortedMembers(members)
    ensures MembersDepth(y) == MembersDepth(members)
  {
    var a, b := MembersDepth(members), MembersDepth(y);
    MembersDepthBound(members, a);
    MembersDepthBound(y, b);
    forall m | m in members ensures Depth(m.value) <= b {
      var i := IndexOf(members, m);
      assert SortedMembers(members)[i] in SortedMembers(members);
    }
    forall q | q in y ensures Depth(q.value) <= a {
      var i := IndexOf(SortedMembers(members), q);
      assert members[i] in members;
    }
    MembersDepthBound(members, b);
    MembersDepthBound(y, a);
  }

  // ---- Numbers read again ----

  lemma {:induction false} MembersNumbers(members: seq<Member>, p: string -> bool)
    ensures EachMember(members, p) <==> forall m | m in members :: EachNumber(m.value, p)
  {
    if members != [] {
      assert members == [members[0]] + members[1..];
      MembersNumbers(members[1..], p);
    }
  }

  /** Sorting moves members, not numbers. */
  lemma {:induction false} SortedNumbers(v: Json, p: string -> bool)
    requires WellFormed(v)
    ensures EachNumber(Sorted(v), p) <==> EachNumber(v, p)
    decreases v, 1
  {
    match v
    case JArray(items) => SortedItemNumbers(items, p);
    case JObject(members) =>
      SortedMemberNumbers(members, p);
      var x := SortedMembers(members);
      SortSorts(x);
      MembersNumbers(x, p);
      MembersNumbers(SortByKey(x), p);
    case _ =>
  }

  lemma {:induction false} SortedItemNumbers(items: seq<Json>, p: string -> bool)
    requires forall i | 0 <= i < |items| :: WellFormed(items[i])
    ensures EachItem(SortedItems(items), p) <==> EachItem(items, p)
    decreases items, 2
  {
    if items != [] {
      SortedNumbers(items[0], p);
      SortedItemNumbers(items[1..], p);
      assert SortedItems(items)[1..] == SortedItems(items[1..]);
    }
  }

  lemma {:induction false} SortedMemberNumbers(members: seq<Member>, p: string -> bool)
    requires forall i | 0 <= i < |members| :: WellFormed(members[i].value)
    ensures EachMember(SortedMembers(members), p) <==> EachMember(members, p)
    decreases members, 2
  {
    if members != [] {
      SortedNumbers(members[0].value, p);
      SortedMemberNumbers(members[1..], p);
      assert SortedMembers(members)[1..] == SortedMembers(members[1..]);
    }
  }

  /** Reading again changes nothing exactly when every number reads back as itself. */
  lemma {:induction false} RereadSame(num: Numbers, v: Json)
    ensures Accepted(num, v) && Reread(num, v) == v <==> Settled(num, v)
    decreases v, 1
  {
    match v
    case JArray(items) => RereadItemsSame(num, items);
    case JObject(members) => RereadMembersSame(num, members);
    case _ =>
  }

  lemma {:induction false} RereadItemsSame(num: Numbers, items: seq<Json>)
    ensures EachItem(items, TakenBy(num)) && RereadItems(num, items) == items <==> EachItem(items, KeptBy(num))
    decreases items, 2
  {
    if items != [] {
      RereadSame(num, items[0]);
      RereadItemsSame(num, items[1..]);
      SplitFirst(RereadItems(num, items), items);
    }
  }

  lemma {:induction false} RereadMembersSame(num: Numbers, members: seq<Member>)
    ensures EachMember(members, TakenBy(num)) && RereadMembers(num, members) == members <==> EachMember(members, KeptBy(num))
    decreases members, 2
  {
    if members != [] {
      RereadSame(num, members[0].value);
      RereadMembersSame(num, members[1..]);
      SplitFirst(RereadMembers(num, members), members);
    }
  }

  lemma SplitFirst<T>(a: seq<T>, b: seq<T>)
    requires a != [] && b != []
    ensures a == b <==> a[0] == b[0] && a[1..] == b[1..]
  {
    assert a == [a[0]] + a[1..] && b == [b[0]] + b[1..];
  }

  lemma {:induction false} RereadInserts(num: Numbers, p: Member, ps: seq<Member>)
    ensures RereadMembers(num, Insert(p, ps)) == Insert(Keyed(p.key, Reread(num, p.value)), RereadMembers(num, ps))
  {
    if ps != [] {
      assert RereadMembers(num, ps)[1..] == RereadMembers(num, ps[1..]);
      RereadInserts(num, p, ps[1..]);
    }
  }

  lemma {:induction false} RereadSorts(num: Numbers, ps: seq<Member>)
    ensures RereadMembers(num, SortByKey(ps)) == SortByKey(RereadMembers(num, ps))
  {
    if ps != [] {
      assert RereadMembers(num, ps)[1..] == RereadMembers(num, ps[1..]);
      RereadSorts(num, ps[1..]);
      RereadInserts(num, ps[0], SortByKey(ps[1..]));
    }
  }

  /** Reading numbers again and sorting members commute. */
  lemma {:induction false} SortedReread(num: Numbers, v: Json)
    ensures Sorted(Reread(num, v)) == Reread(num, Sorted(v))
    decreases v
  {
    match v
    case JArray(items) =>
      forall i | 0 <= i < |items| ensures Sorted(Reread(num, items[i])) == Reread(num, Sorted(items[i])) {
        SortedReread(num, items[i]);
      }
      assert SortedItems(RereadItems(num, items)) == RereadItems(num, SortedItems(items));
    case JObject(members) =>
      forall i | 0 <= i < |members| ensures Sorted(Reread(num, members[i].value)) == Reread(num, Sorted(members[i].value)) {
        SortedReread(num, members[i].value);
      }
      assert SortedMembers(RereadMembers(num, members)) == RereadMembers(num, SortedMembers(members));
      RereadSorts(num, SortedMembers(members));
    case _ =>
  }

  lemma {:induction false} RereadWellFormed(num: Numbers, v: Json)
    requires Renders(num) && WellFormed(v)
    ensures WellFormed(Reread(num, v))
    decreases v
  {
    match v
    case JArray(items) =>
      forall i | 0 <= i < |items| ensures WellFormed(Reread(num, items[i])) { RereadWellFormed(num, items[i]); }
    case JObject(members) =>
      forall i | 0 <= i < |members| ensures WellFormed(Reread(num, members[i].value)) { RereadWellFormed(num, members[i].value); }
    case _ =>
  }

  // ---- The guarantees ----

  /**
   The compact text of a value reads back as the value with its numbers read again, exactly when none of
   them is refused and it is not nested beyond the recursion limit; it is the value itself exactly when
   its numbers are settled, too.
   */
  lemma TextReadsBack(num: Numbers, v: Json)
    requires WellFormed(v)
    ensures Read(num, ToText(v)) == if Accepted(num, v) && Depth(v) < 128 then Some(Reread(num, v)) else None
    ensures Read(num, ToText(v)) == Some(v) <==> Settled(num, v) && Depth(v) < 128
  {
    assert ToText(v) + "" == ToText(v);
    RereadSame(num, v);
    if Accepted(num, v) && Depth(v) < 128 {
      ReadsBack(num, v, "", RECURSION_LIMIT);
    } else {
      Refused(num, v, "", RECURSION_LIMIT);
    }
  }

  /** The same for canonical text, with members in key order. */
  lemma CanonicalReadsBack(num: Numbers, v: Json)
    requires WellFormed(v)
    ensures Read(num, Canonical(v)) ==
      if Accepted(num, v) && Depth(v) < 128 then Some(Sorted(Reread(num, v))) else None
    ensures Read(num, Canonical(v)) == Some(Sorted(v)) <==> Settled(num, v) && Depth(v) < 128
    ensures SameValue(v, Sorted(v))
  {
    SortedTwice(v);
    CanonicalIsSortedText(v);
    TextReadsBack(num, Sorted(v));
    SortedNumbers(v, TakenBy(num));
    SortedNumbers(v, KeptBy(num));
    SortedReread(num, v);
    SameIsSortedEqual(v, Sorted(v));
  }

  /** Reading every number as it is written. */
  function Verbatim(): Numbers {
    (s: string) => Some(s)
  }

  lemma {:induction false} VerbatimSettles(v: Json)
    ensures Settled(Verbatim(), v)
    decreases v, 1
  {
    match v
    case JArray(items) => VerbatimItems(items);
    case JObject(members) => VerbatimMembers(members);
    case _ =>
  }

  lemma {:induction false} VerbatimItems(items: seq<Json>)
    ensures EachItem(items, KeptBy(Verbatim()))
    decreases items, 2
  {
    if items != [] {
      VerbatimSettles(items[0]);
      VerbatimItems(items[1..]);
    }
  }

  lemma {:induction false} VerbatimMembers(members: seq<Member>)
    ensures EachMember(members, KeptBy(Verbatim()))
    decreases members, 2
  {
    if members != [] {
      VerbatimSettles(members[0].value);
      VerbatimMembers(members[1..]);
    }
  }

  lemma ReadsVerbatim(v: Json, depth: nat)
    requires WellFormed(v) && Depth(v) < depth
    ensures ReadValue(Verbatim(), ToText(v), depth) == Parse(v, "")
  {
    VerbatimSettles(v);
    RereadSame(Verbatim(), v);
    ReadsBack(Verbatim(), v, "", depth);
    assert ToText(v) + "" == ToText(v);
  }

  /** Text determines the value. */
  lemma SameTextSameValue(v: Json, w: Json)
    requires WellFormed(v) && WellFormed(w)
    ensures ToText(v) == ToText(w) <==> v == w
  {
    var depth := 1 + Max(Depth(v), Depth(w));
    ReadsVerbatim(v, depth);
    ReadsVerbatim(w, depth);
  }

  /** Normal form: two values have the same canonical text exactly when they are equal up to member order at every depth. */
  lemma CanonicalIsNormalForm(v: Json, w: Json)
    requires WellFormed(v) && WellFormed(w)
    ensures Canonical(v) == Canonical(w) <==> SameValue(v, w)
  {
    SameIsSortedEqual(v, w);
    SortedTwice(v);
    SortedTwice(w);
    CanonicalIsSortedText(v);
    CanonicalIsSortedText(w);
    SameTextSameValue(Sorted(v), Sorted(w));
  }

  /** A value and its canonical text read again are equal, as values and as canonical text, exactly when the numbers are settled. */
  lemma RereadIsSameIff(num: Numbers, v: Json)
    requires Renders(num) && WellFormed(v) && Accepted(num, v)
    ensures var w := Sorted(Reread(num, v));
      WellFormed(w) && (Canonical(w) == Canonical(v) <==> Settled(num, v)) && (SameValue(v, w) <==> Settled(num, v))
  {
    RereadWellFormed(num, v);
    SortedTwice(Reread(num, v));
    SortedTwice(v);
    var w := Sorted(Reread(num, v));
    CanonicalIsNormalForm(v, w);
    SameIsSortedEqual(v, w);
    SortedReread(num, v);
    SortedNumbers(v, TakenBy(num));
    SortedNumbers(v, KeptBy(num));
    RereadSame(num, Sorted(v));
  }

  /**
   Canonicalizing arguments a second time changes nothing exactly when the text is no JSON, or every number
   of its value reads back as itself, or some rendered number is refused.
   */
  lemma CanonicalArgumentsTwice(num: Numbers, text: string)
    requires Renders(num)
    ensures CanonicalArguments(num, CanonicalArguments(num, text)) == CanonicalArguments(num, text) <==> Steady(num, text)
  {
    if Read(num, text).Some? {
      var v := Read(num, text).value;
      ReadIsWellFormed(num, text, RECURSION_LIMIT);
      CanonicalReadsBack(num, v);
      if Accepted(num, v) { RereadIsSameIff(num, v); }
    }
  }
}
