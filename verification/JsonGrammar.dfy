/** The reader of JSON against the grammar of RFC 8259, and the order of canonical text, both told character by character. */
module JsonGrammar {
  import opened Wrappers
  import opened Sequences
  import opened CanonicalJson
  import opened CanonicalTheorems

  // ---- The order of keys ----

  /** `a` comes before `b`: a proper prefix of it, or smaller at the first character where they differ. */
  predicate Precedes(a: string, b: string) {
    exists n | 0 <= n <= |a| && n <= |b| ::
      a[..n] == b[..n] && n < |b| && (n == |a| || a[n] < b[n])
  }

  lemma DifferAtOnce(a: string, b: string)
    requires a != "" && b != "" && a[0] != b[0]
    ensures Precedes(a, b) ==> a[0] < b[0]
  {
    forall n | 0 < n <= |a| && n <= |b| ensures a[..n] != b[..n] { assert a[..n][0] != b[..n][0]; }
  }

  lemma {:induction false} BeforeIsPrecedes(a: string, b: string)
    ensures Before(a, b) <==> Precedes(a, b)
  {
    if a != "" && b != "" && a[0] == b[0] {
      BeforeIsPrecedes(a[1..], b[1..]);
      if Precedes(a[1..], b[1..]) {
        var n :| 0 <= n <= |a[1..]| && n <= |b[1..]| && a[1..][..n] == b[1..][..n] && n < |b[1..]| && (n == |a[1..]| || a[1..][n] < b[1..][n]);
        assert a[..n + 1] == [a[0]] + a[1..][..n] && b[..n + 1] == [b[0]] + b[1..][..n];
      }
      if Precedes(a, b) {
        var n :| 0 <= n <= |a| && n <= |b| && a[..n] == b[..n] && n < |b| && (n == |a| || a[n] < b[n]);
        assert n > 0;
        assert a[1..][..n - 1] == a[..n][1..] && b[1..][..n - 1] == b[..n][1..];
      }
    } else if a == "" && b != "" {
      assert a[..0] == b[..0];
    } else if a != "" && b != "" {
      assert a[..0] == b[..0];
      DifferAtOnce(a, b);
    }
  }

  /** The keys of every object ascend, at every depth. */
  ghost predicate Ascends(v: Json) {
    match v
    case JArray(items) => forall i | 0 <= i < |items| :: Ascends(items[i])
    case JObject(members) =>
      (forall i, j | 0 <= i < j < |members| :: Precedes(members[i].key, members[j].key)) &&
      forall i | 0 <= i < |members| :: Ascends(members[i].value)
    case _ => true
  }

  /** Canonical text is the compact text of the same value with the keys of every object ascending. */
  lemma CanonicalAscends(v: Json)
    requires WellFormed(v)
    ensures exists w :: Canonical(v) == ToText(w) && Ascends(w) && SameValue(v, w)
  {
    CanonicalIsSortedText(v);
    SortedAscends(v);
    SortedTwice(v);
    SameIsSortedEqual(v, Sorted(v));
  }

  lemma {:induction false} SortedAscends(v: Json)
    requires WellFormed(v)
    ensures Ascends(Sorted(v))
    decreases v
  {
    match v
    case JArray(items) =>
      forall i | 0 <= i < |items| ensures Ascends(Sorted(items[i])) { SortedAscends(items[i]); }
    case JObject(members) =>
      var ms := SortedMembers(members);
      assert forall i | 0 <= i < |members| :: ms[i].key == members[i].key;
      SortSorts(ms);
      var sorted := SortByKey(ms);
      forall i, j | 0 <= i < j < |sorted| ensures Precedes(sorted[i].key, sorted[j].key) { BeforeIsPrecedes(sorted[i].key, sorted[j].key); }
      forall i | 0 <= i < |sorted| ensures Ascends(sorted[i].value) {
        assert sorted[i] in sorted;
        var k := IndexOf(ms, sorted[i]);
        SortedAscends(members[k].value);
      }
    case _ =>
  }

  // ---- White space ----

  /** Section 2: space, tab, line feed, carriage return. */
  predicate Space(s: string) {
    forall i | 0 <= i < |s| :: s[i] == ' ' || s[i] == '\t' || s[i] == '\n' || s[i] == '\r'
  }

  lemma {:induction false} SpaceIsSkipped(space: string, s: string)
    requires Space(space) && (s == "" || !Space(s[..1]))
    ensures SkipSpace(space + s) == s
  {
    if space == "" {
      assert space + s == s;
      if s != "" { assert s[..1] == [s[0]]; }
    } else {
      assert (space + s)[1..] == space[1..] + s;
      SpaceIsSkipped(space[1..], s);
    }
  }

  // ---- Strings ----

  /** A hexadecimal digit of either case. */
  predicate HexIs(c: char, n: nat) {
    ('0' <= c <= '9' && n == c as nat - 48) || ('a' <= c <= 'f' && n == c as nat - 87) || ('A' <= c <= 'F' && n == c as nat - 55)
  }

  ghost predicate Hex4Is(s: string, n: nat) {
    |s| == 4 && exists a: nat, b: nat, c: nat, d: nat ::
      HexIs(s[0], a) && HexIs(s[1], b) && HexIs(s[2], c) && HexIs(s[3], d) && n == a * 4096 + b * 256 + c * 16 + d
  }

  /** One character as section 7 lets it be spelled: itself, a short escape, one `\u` escape, or a surrogate pair. */
  ghost predicate Spelled(s: string, c: char) {
    || (s == [c] && c >= ' ' && c != '\"' && c != '\\')
    || (|s| == 2 && s[0] == '\\' &&
        ((s[1] == '\"' && c == '\"') || (s[1] == '\\' && c == '\\') || (s[1] == '/' && c == '/') ||
         (s[1] == 'b' && c as int == 8) || (s[1] == 'f' && c as int == 12) || (s[1] == 'n' && c as int == 10) ||
         (s[1] == 'r' && c as int == 13) || (s[1] == 't' && c as int == 9)))
    || (|s| == 6 && s[0] == '\\' && s[1] == 'u' && Hex4Is(s[2..], c as nat))
    || (|s| == 12 && s[0] == '\\' && s[1] == 'u' && s[6] == '\\' && s[7] == 'u' && c as int >= 0x1_0000 &&
        Hex4Is(s[2..6], 0xD800 + (c as int - 0x1_0000) / 0x400) && Hex4Is(s[8..], 0xDC00 + (c as int - 0x1_0000) % 0x400))
  }

  lemma HexReadsIff(c: char, n: nat)
    ensures HexValue(c) == Some(n) <==> HexIs(c, n)
  {
  }

  lemma Hex4ReadsIff(s: string, n: nat)
    requires |s| >= 4
    ensures Hex4(s) == Some(n) <==> Hex4Is(s[..4], n)
  {
    var t := s[..4];
    assert t[0] == s[0] && t[1] == s[1] && t[2] == s[2] && t[3] == s[3];
    var a, b, c, d := HexValue(s[0]), HexValue(s[1]), HexValue(s[2]), HexValue(s[3]);
    if a.Some? && b.Some? && c.Some? && d.Some? {
      HexReadsIff(s[0], a.value);
      HexReadsIff(s[1], b.value);
      HexReadsIff(s[2], c.value);
      HexReadsIff(s[3], d.value);
      assert ((a.value * 16 + b.value) * 16 + c.value) * 16 + d.value == a.value * 4096 + b.value * 256 + c.value * 16 + d.value;
    }
  }

  lemma OneUnicode(t: string, c: char)
    requires |t| >= 6 && t[0] == '\\' && t[1] == 'u'
    ensures Spelled(t[..6], c) <==> Hex4(t[2..]) == Some(c as nat)
  {
    assert |t[..6]| == 6 && t[..6][0] == t[0] && t[..6][1] == t[1] && t[..6][2..] == t[2..][..4];
    Hex4ReadsIff(t[2..], c as nat);
  }

  lemma PairUnicode(t: string, c: char)
    requires |t| >= 12 && t[0] == '\\' && t[1] == 'u'
    ensures Spelled(t[..12], c) <==>
      t[6] == '\\' && t[7] == 'u' && c as int >= 0x1_0000 &&
      Hex4(t[2..]) == Some(0xD800 + (c as int - 0x1_0000) / 0x400) && Hex4(t[8..]) == Some(0xDC00 + (c as int - 0x1_0000) % 0x400)
  {
    var p := t[..12];
    assert |p| == 12 && p[0] == t[0] && p[1] == t[1] && p[6] == t[6] && p[7] == t[7];
    assert p[2..6] == t[2..][..4] && p[8..] == t[8..][..4];
    if c as int >= 0x1_0000 {
      Hex4ReadsIff(t[2..], 0xD800 + (c as int - 0x1_0000) / 0x400);
      Hex4ReadsIff(t[8..], 0xDC00 + (c as int - 0x1_0000) % 0x400);
    }
  }

  /** A `\u` escape is one of six characters, or of twelve. */
  lemma UnicodeReadsIff(t: string, c: char, rest: string)
    requires |t| >= 2 && t[0] == '\\' && t[1] == 'u'
    ensures ReadUnicode(t[2..]) == Parse(c, rest) <==>
      (|t| >= 6 && Spelled(t[..6], c) && rest == t[6..]) || (|t| >= 12 && Spelled(t[..12], c) && rest == t[12..])
  {
    if |t| >= 6 {
      OneUnicode(t, c);
      assert t[2..][4..] == t[6..];
    }
    if |t| >= 12 {
      PairUnicode(t, c);
      assert t[2..][6..] == t[8..] && t[2..][10..] == t[12..] && t[2..][4] == t[6] && t[2..][5] == t[7];
    }
  }

  /** `t` is a spelling of the characters of `v`, one after the other. */
  ghost predicate Spells(t: string, v: string)
    decreases |v|
  {
    if v == "" then t == ""
    else exists n | 1 <= n <= |t| :: Spelled(t[..n], v[0]) && Spells(t[n..], v[1..])
  }

  /** An escape is read as the character it spells, and the rest is left. */
  lemma EscapeReadsIff(s: string, c: char, rest: string)
    requires s != "" && s[0] == '\\'
    ensures ReadEscape(s[1..]) == Parse(c, rest) <==> exists n | 1 <= n <= |s| :: Spelled(s[..n], c) && s[n..] == rest
  {
    if |s| > 1 && s[1] == 'u' {
      UnicodeReadsIff(s, c, rest);
      assert s[1..][1..] == s[2..] && ReadEscape(s[1..]) == ReadUnicode(s[2..]);
      LongEscape(s, c, rest);
    } else {
      ShortEscape(s, c, rest);
    }
  }

  lemma LongEscape(t: string, c: char, rest: string)
    requires |t| > 1 && t[0] == '\\' && t[1] == 'u'
    ensures (|t| >= 6 && Spelled(t[..6], c) && rest == t[6..]) || (|t| >= 12 && Spelled(t[..12], c) && rest == t[12..]) <==>
      exists n | 1 <= n <= |t| :: Spelled(t[..n], c) && t[n..] == rest
  {
    forall n | 1 <= n <= |t| && Spelled(t[..n], c) ensures n == 6 || n == 12 { SpelledLong(t, n, c); }
  }

  lemma SpelledLong(t: string, n: nat, c: char)
    requires |t| > 1 && t[0] == '\\' && t[1] == 'u' && 1 <= n <= |t| && Spelled(t[..n], c)
    ensures n == 6 || n == 12
  {
    assert t[..n][0] == t[0] && (n > 1 ==> t[..n][1] == t[1]);
  }

  lemma ShortEscape(s: string, c: char, rest: string)
    requires s != "" && s[0] == '\\' && (|s| > 1 ==> s[1] != 'u')
    ensures ReadEscape(s[1..]) == Parse(c, rest) <==> exists n | 1 <= n <= |s| :: Spelled(s[..n], c) && s[n..] == rest
  {
    if |s| > 1 { assert s[..2][0] == s[0] && s[..2][1] == s[1]; }
    if ReadEscape(s[1..]) == Parse(c, rest) {
      assert Spelled(s[..2], c) && s[2..] == rest;
    }
    if exists n | 1 <= n <= |s| :: Spelled(s[..n], c) && s[n..] == rest {
      var n :| 1 <= n <= |s| && Spelled(s[..n], c) && s[n..] == rest;
      assert s[..n][0] == '\\';
      assert n > 1 ==> s[..n][1] == s[1];
      assert n == 2;
    }
  }

  /** A character other than a quote is read, plain or escaped, as what it spells. */
  lemma CharReadsIff(s: string, c: char, rest: string)
    requires s != "" && s[0] >= ' ' && s[0] != '\"'
    ensures (if s[0] == '\\' then ReadEscape(s[1..]) else Parse(s[0], s[1..])) == Parse(c, rest) <==>
      exists n | 1 <= n <= |s| :: Spelled(s[..n], c) && s[n..] == rest
  {
    if s[0] == '\\' {
      EscapeReadsIff(s, c, rest);
    } else {
      if c == s[0] && rest == s[1..] { assert s[..1] == [c] && Spelled(s[..1], c); }
      if exists n | 1 <= n <= |s| :: Spelled(s[..n], c) && s[n..] == rest {
        var n :| 1 <= n <= |s| && Spelled(s[..n], c) && s[n..] == rest;
        assert s[..n][0] == s[0];
        assert n == 1;
      }
    }
  }

  /** A spelled character starts neither with a quote nor with a control character. */
  lemma SpelledStarts(s: string, c: char)
    requires Spelled(s, c)
    ensures s != "" && s[0] >= ' ' && s[0] != '\"'
  {
  }

  /** The inside of a string is read as the characters it spells, up to the first quote that is not escaped. */
  lemma {:induction false} StringReadsIff(t: string, v: string, rest: string)
    ensures ReadString(t) == Parse(v, rest) <==>
      exists n | 0 <= n < |t| :: Spells(t[..n], v) && t[n] == '\"' && t[n + 1..] == rest
    decreases |t|
  {
    if ReadString(t) == Parse(v, rest) {
      var n := StringSpells(t, v, rest);
    }
    if exists n | 0 <= n < |t| :: Spells(t[..n], v) && t[n] == '\"' && t[n + 1..] == rest {
      var n :| 0 <= n < |t| && Spells(t[..n], v) && t[n] == '\"' && t[n + 1..] == rest;
      SpellingReads(t, n, v);
    }
  }

  lemma SpellsMore(a: string, b: string, v: string)
    requires a != "" && v != "" && Spelled(a, v[0]) && Spells(b, v[1..])
    ensures Spells(a + b, v)
  {
    assert (a + b)[..|a|] == a && (a + b)[|a|..] == b;
  }

  lemma SpellsFirst(t: string, v: string) returns (a: string, b: string)
    requires v != "" && Spells(t, v)
    ensures a != "" && t == a + b && Spelled(a, v[0]) && Spells(b, v[1..])
  {
    var k :| 1 <= k <= |t| && Spelled(t[..k], v[0]) && Spells(t[k..], v[1..]);
    a, b := t[..k], t[k..];
  }

  lemma CharWritten(t: string, c: char, rest: string) returns (k: nat)
    requires t != "" && t[0] >= ' ' && t[0] != '\"'
    requires (if t[0] == '\\' then ReadEscape(t[1..]) else Parse(t[0], t[1..])) == Parse(c, rest)
    ensures 1 <= k <= |t| && Spelled(t[..k], c) && t[k..] == rest
  {
    CharReadsIff(t, c, rest);
    k :| 1 <= k <= |t| && Spelled(t[..k], c) && t[k..] == rest;
  }

  lemma TwoCuts(t: string, k: nat, m: nat)
    requires k + m < |t|
    ensures t[..k + m] == t[..k] + t[k..][..m] && t[k + m] == t[k..][m] && t[k + m + 1..] == t[k..][m + 1..]
  {
  }

  /** How a string that does not end at once was read. */
  lemma StringSteps(t: string)
    requires ReadString(t).Parse? && t[0] != '\"'
    ensures t[0] >= ' '
    ensures var c := if t[0] == '\\' then ReadEscape(t[1..]) else Parse(t[0], t[1..]);
      c.Parse? && |c.rest| < |t| &&
      var tail := ReadString(c.rest);
      tail.Parse? && ReadString(t) == Parse([c.value] + tail.value, tail.rest)
  {
  }

  lemma {:induction false} StringSpells(t: string, v: string, rest: string) returns (n: nat)
    requires ReadString(t) == Parse(v, rest)
    ensures n < |t| && Spells(t[..n], v) && t[n] == '\"' && t[n + 1..] == rest
    decreases |t|
  {
    if t[0] == '\"' {
      n := 0;
    } else {
      StringSteps(t);
      var c := if t[0] == '\\' then ReadEscape(t[1..]) else Parse(t[0], t[1..]);
      var k := CharWritten(t, c.value, c.rest);
      var m := StringSpells(c.rest, v[1..], rest);
      n := k + m;
      TwoCuts(t, k, m);
      SpellsMore(t[..k], t[k..][..m], v);
    }
  }

  /** One spelled character, and the rest of the string. */
  lemma CharThenString(a: string, c: char, tail: string, v: string, rest: string)
    requires Spelled(a, c) && ReadString(tail) == Parse(v, rest)
    ensures ReadString(a + tail) == Parse([c] + v, rest)
  {
    var t := a + tail;
    SpelledStarts(a, c);
    assert t[0] == a[0] && t[..|a|] == a && t[|a|..] == tail;
    CharReadsIff(t, c, tail);
  }

  lemma FirstAndRest(v: string)
    requires v != ""
    ensures [v[0]] + v[1..] == v
  {
  }

  lemma {:induction false} SpellingThenQuote(u: string, v: string, rest: string)
    requires Spells(u, v)
    ensures ReadString(u + ("\"" + rest)) == Parse(v, rest)
    decreases |v|
  {
    var q := "\"" + rest;
    if v == "" {
      assert u + q == q && q[1..] == rest;
    } else {
      var a, b := SpellsFirst(u, v);
      SpellingThenQuote(b, v[1..], rest);
      CharThenString(a, v[0], b + q, v[1..], rest);
      Regroup(a, b, q);
      FirstAndRest(v);
    }
  }

  lemma SpellingReads(t: string, n: nat, v: string)
    requires n < |t| && Spells(t[..n], v) && t[n] == '\"'
    ensures ReadString(t) == Parse(v, t[n + 1..])
  {
    SpellingThenQuote(t[..n], v, t[n + 1..]);
    assert t == t[..n] + ("\"" + t[n + 1..]);
  }

  /** The serializer spells every character in the shortest way there is, with lower-case digits where it needs any. */
  lemma EscapeIsShortest(c: char)
    ensures Spelled(EscapeChar(c), c)
    ensures forall s | Spelled(s, c) :: |EscapeChar(c)| <= |s|
    ensures |EscapeChar(c)| > 1 ==> forall i | 0 <= i < |EscapeChar(c)| :: !('A' <= EscapeChar(c)[i] <= 'F')
  {
    if NeedsHex(c) { HexIsSpelled(c); }
  }

  lemma HexIsSpelled(c: char)
    requires NeedsHex(c)
    ensures Spelled(EscapeChar(c), c)
    ensures forall i | 0 <= i < |EscapeChar(c)| :: !('A' <= EscapeChar(c)[i] <= 'F')
  {
    var n, t := c as nat, EscapeChar(c)[2..];
    assert |EscapeChar(c)| == 6 && t == "00" + [HexDigit(n / 16), HexDigit(n % 16)];
    assert HexIs(t[0], 0) && HexIs(t[1], 0) && HexIs(t[2], n / 16) && HexIs(t[3], n % 16);
    assert n == 0 * 4096 + 0 * 256 + (n / 16) * 16 + n % 16;
    assert Hex4Is(t, n);
  }

  // ---- Numbers ----

  predicate AllDigits(s: string) {
    s != "" && forall i | 0 <= i < |s| :: '0' <= s[i] <= '9'
  }

  /** Section 6: no sign but minus, no leading zero, digits after the point and in the exponent. */
  predicate NumberIs(sign: string, whole: string, fraction: string, exponent: string) {
    && (sign == "" || sign == "-")
    && AllDigits(whole) && (whole == "0" || whole[0] != '0')
    && (fraction == "" || (fraction[0] == '.' && AllDigits(fraction[1..])))
    && (exponent == "" || ((exponent[0] == 'e' || exponent[0] == 'E') &&
         (AllDigits(exponent[1..]) || (|exponent| > 1 && (exponent[1] == '+' || exponent[1] == '-') && AllDigits(exponent[2..])))))
  }

  lemma {:induction false} DigitsMeaning(s: string)
    ensures forall i | 0 <= i < Digits(s) :: IsDigit(s[i])
    ensures Digits(s) < |s| ==> !IsDigit(s[Digits(s)])
  {
    if s != "" && IsDigit(s[0]) { DigitsMeaning(s[1..]); }
  }

  /** Digits, and then no digit. */
  lemma DigitsThen(digits: string, rest: string)
    requires (forall i | 0 <= i < |digits| :: '0' <= digits[i] <= '9') && (rest != "" ==> !('0' <= rest[0] <= '9'))
    ensures Digits(digits + rest) == |digits|
  {
    var s := digits + rest;
    DigitsMeaning(s);
    assert forall i | 0 <= i < |digits| :: s[i] == digits[i];
    if rest != "" { assert s[|digits|] == rest[0]; }
  }

  ghost predicate ExponentIs(exponent: string) {
    NumberIs("", "1", "", exponent)
  }

  lemma ExponentIff(s: string)
    ensures IsExponent(s) <==> ExponentIs(s)
  {
    if s != "" {
      var t := if |s| > 1 && (s[1] == '+' || s[1] == '-') then s[2..] else s[1..];
      DigitsMeaning(t);
      if AllDigits(t) {
        DigitsThen(t, "");
        assert t + "" == t;
      }
      if |s| > 1 { assert s[1..][0] == s[1]; }
    }
  }

  lemma FractionReads(fraction: string, exponent: string)
    requires NumberIs("", "1", fraction, exponent)
    ensures IsFractionAndExponent(fraction + exponent)
  {
    assert ExponentIs(exponent);
    ExponentIff(exponent);
    if fraction == "" {
      assert fraction + exponent == exponent;
    } else {
      var s := fraction + exponent;
      assert s[1..] == fraction[1..] + exponent;
      DigitsThen(fraction[1..], exponent);
      assert s[1..][|fraction| - 1..] == exponent;
    }
  }

  lemma PointWritten(s: string, d: nat)
    requires s != "" && s[0] == '.' && 0 < d <= |s[1..]| && (forall i | 0 <= i < d :: IsDigit(s[1..][i])) && ExponentIs(s[1..][d..])
    ensures s == s[..d + 1] + s[1..][d..] && NumberIs("", "1", s[..d + 1], s[1..][d..])
  {
    assert s[..d + 1][1..] == s[1..][..d];
  }

  lemma FractionWritten(s: string) returns (fraction: string, exponent: string)
    requires IsFractionAndExponent(s)
    ensures s == fraction + exponent && NumberIs("", "1", fraction, exponent)
  {
    if s != "" && s[0] == '.' {
      var d := Digits(s[1..]);
      DigitsMeaning(s[1..]);
      ExponentIff(s[1..][d..]);
      PointWritten(s, d);
      fraction, exponent := s[..d + 1], s[1..][d..];
    } else {
      ExponentIff(s);
      fraction, exponent := "", s;
      assert ExponentIs(exponent);
    }
  }

  lemma {:induction false} DigitCharacters(s: string)
    requires s == "" || AllDigits(s)
    ensures forall i | 0 <= i < |s| :: IsNumberChar(s[i])
  {
  }

  lemma NumberCharacters(sign: string, whole: string, fraction: string, exponent: string)
    requires NumberIs(sign, whole, fraction, exponent)
    ensures forall i | 0 <= i < |sign + whole + fraction + exponent| :: IsNumberChar((sign + whole + fraction + exponent)[i])
  {
    assert fraction != "" ==> fraction == [fraction[0]] + fraction[1..];
    if |exponent| > 1 {
      assert exponent == [exponent[0]] + exponent[1..] && exponent == [exponent[0], exponent[1]] + exponent[2..];
    }
  }

  lemma UnsignedReads(whole: string, fraction: string, exponent: string)
    requires NumberIs("", whole, fraction, exponent)
    ensures var t := whole + (fraction + exponent);
      Digits(t) == |whole| > 0 && t[0] == whole[0] && t[0] != '-' && IsFractionAndExponent(t[|whole|..])
  {
    var rest := fraction + exponent;
    assert rest != "" ==> rest[0] == if fraction != "" then fraction[0] else exponent[0];
    DigitsThen(whole, rest);
    assert (whole + rest)[|whole|..] == rest && (whole + rest)[0] == whole[0];
    assert NumberIs("", "1", fraction, exponent);
    FractionReads(fraction, exponent);
  }

  /** What the grammar takes for a number, the reader does. */
  lemma NumberReads(sign: string, whole: string, fraction: string, exponent: string)
    requires NumberIs(sign, whole, fraction, exponent)
    ensures IsNumber(sign + whole + fraction + exponent)
  {
    var t := whole + (fraction + exponent);
    NumberCharacters(sign, whole, fraction, exponent);
    UnsignedReads(whole, fraction, exponent);
    Regrouped(sign, whole, fraction, exponent);
    assert sign == "-" ==> (sign + t)[0] == '-' && (sign + t)[1..] == t;
    assert sign == "" ==> sign + t == t;
  }

  lemma Regrouped(sign: string, whole: string, fraction: string, exponent: string)
    ensures sign + (whole + (fraction + exponent)) == sign + whole + fraction + exponent
  {
  }

  lemma UnsignedWritten(t: string) returns (whole: string, fraction: string, exponent: string)
    requires Digits(t) > 0 && (t[0] == '0' ==> Digits(t) == 1) && IsFractionAndExponent(t[Digits(t)..])
    ensures t == whole + (fraction + exponent) && NumberIs("", whole, fraction, exponent)
  {
    DigitsMeaning(t);
    whole := t[..Digits(t)];
    fraction, exponent := FractionWritten(t[Digits(t)..]);
    if Digits(t) == 1 { assert whole == [t[0]]; }
  }

  /** And the reader takes nothing else. */
  lemma NumberWritten(s: string) returns (sign: string, whole: string, fraction: string, exponent: string)
    requires IsNumber(s)
    ensures s == sign + whole + fraction + exponent && NumberIs(sign, whole, fraction, exponent)
  {
    sign := if s[0] == '-' then "-" else "";
    whole, fraction, exponent := UnsignedWritten(if s[0] == '-' then s[1..] else s);
    Regrouped(sign, whole, fraction, exponent);
  }

  // ---- Repeated keys ----

  /** A key seen before keeps its place and takes the new value; a new one goes to the end. */
  lemma {:induction false} PutMeaning(members: seq<Member>, key: string, v: Json)
    requires DistinctKeys(members)
    ensures var r := Put(members, key, v);
      if HasKey(members, key)
      then |r| == |members| && forall i | 0 <= i < |r| ::
             r[i] == Keyed(members[i].key, if members[i].key == key then v else members[i].value)
      else r == members + [Keyed(key, v)]
  {
    if members != [] && members[0].key != key {
      var rest := members[1..];
      PutMeaning(rest, key, v);
      assert HasKey(members, key) <==> HasKey(rest, key) by {
        if HasKey(rest, key) {
          var i :| 0 <= i < |rest| && rest[i].key == key;
          assert members[i + 1].key == key;
        }
        if HasKey(members, key) {
          var i :| 0 <= i < |members| && members[i].key == key;
          assert rest[i - 1].key == key;
        }
      }
    }
  }
}
