/** A number whose rendering is read as another number: canonicalizing rewrites it again. */
module NumberDrift {
  import opened Wrappers
  import opened CanonicalJson
  import opened CanonicalTheorems

  lemma {:induction false} DigitsOnly(s: string)
    requires forall i | 0 <= i < |s| :: IsDigit(s[i])
    ensures Digits(s) == |s|
  {
    if s != "" { DigitsOnly(s[1..]); }
  }

  lemma FractionIsNumber(s: string)
    requires s != "" && forall i | 0 <= i < |s| :: IsDigit(s[i])
    ensures IsNumber("0." + s)
  {
    var t := "0." + s;
    DigitsOnly(s);
    assert t[1..] == "." + s && t[1..][1..] == s && Digits(t[1..]) == 0 && Digits(t) == 1;
    assert s[Digits(s)..] == "";
  }

  /** An object with one number. */
  function Field(literal: string): Json {
    JObject([Keyed("x", JNumber(literal))])
  }

  function FieldText(literal: string): string {
    "{\"x\":" + literal + "}"
  }

  lemma FieldTexts(literal: string)
    ensures ToText(Field(literal)) == Canonical(Field(literal)) == FieldText(literal)
  {
    var m, texts := [Keyed("x", JNumber(literal))], [Keyed("x", literal)];
    assert Escape("x") == "x" by { assert "x"[1..] == ""; }
    assert Quote("x") == "\"x\"";
    assert m[1..] == [] && texts[1..] == [];
    assert SortByKey(texts[1..]) == [] && SortByKey(texts) == texts;
    assert CanonicalMembers(m) == texts + [];
  }

  lemma FieldShape(num: Numbers, literal: string)
    requires num(literal).Some?
    ensures Depth(Field(literal)) == 1 && Accepted(num, Field(literal))
    ensures Reread(num, Field(literal)) == Field(num(literal).value)
  {
    var m := [Keyed("x", JNumber(literal))];
    assert m[1..] == [] && m[0].value == JNumber(literal);
    assert MembersDepth(m[1..]) == 0 && RereadMembers(num, m[1..]) == [];
    assert MembersDepth(m) == 0 && RereadMembers(num, m) == [Keyed("x", JNumber(num(literal).value))];
    assert EachMember(m, TakenBy(num));
  }

  /** Canonicalizing an object with one number is reading that number. */
  lemma FieldReads(num: Numbers, literal: string)
    requires IsNumber(literal) && num(literal).Some?
    ensures CanonicalArguments(num, FieldText(literal)) == FieldText(num(literal).value)
  {
    FieldTexts(literal);
    FieldTexts(num(literal).value);
    FieldShape(num, literal);
    TextReadsBack(num, Field(literal));
  }

  /** Reads `a` as `b`, `b` as `c`, and everything else as it is written. */
  function Drifting(a: string, b: string, c: string): Numbers {
    (s: string) => if s == a then Some(b) else if s == b then Some(c) else Some(s)
  }

  lemma ReadsTwice(a: string, b: string, c: string)
    requires IsNumber(a) && IsNumber(b) && IsNumber(c) && a != b
    ensures var num := Drifting(a, b, c);
      Renders(num) && CanonicalArguments(num, FieldText(a)) == FieldText(b) && CanonicalArguments(num, FieldText(b)) == FieldText(c)
  {
    FieldReads(Drifting(a, b, c), a);
    FieldReads(Drifting(a, b, c), b);
  }

  lemma FirstDigits() returns (s: string)
    ensures s == "0." + "99622830388368595" && |s| == 19 && IsNumber(s)
  {
    var d := "99622830388368595";
    FractionIsNumber(d);
    s := "0." + d;
  }

  lemma SecondDigits() returns (s: string)
    ensures s == "0." + "9962283038836859" && |s| == 18 && IsNumber(s)
  {
    var d := "9962283038836859";
    FractionIsNumber(d);
    s := "0." + d;
  }

  lemma ThirdDigits() returns (s: string)
    ensures s == "0." + "996228303883686" && IsNumber(s)
  {
    var d := "996228303883686";
    FractionIsNumber(d);
    s := "0." + d;
  }

  /**
   Both passes rewrite such a number.  A parser that rounds the significand, and then its quotient by a power
   of ten, reads these three literals so.
   */
  lemma DriftIsRewrittenTwice() returns (num: Numbers, text: string, once: string, twice: string)
    ensures Renders(num)
    ensures text == "{\"x\":" + ("0." + "99622830388368595") + "}"
    ensures once == "{\"x\":" + ("0." + "9962283038836859") + "}"
    ensures twice == "{\"x\":" + ("0." + "996228303883686") + "}"
    ensures once != twice && CanonicalArguments(num, text) == once && CanonicalArguments(num, once) == twice
  {
    var a := FirstDigits();
    var b := SecondDigits();
    var c := ThirdDigits();
    ReadsTwice(a, b, c);
    num, text, once, twice := Drifting(a, b, c), FieldText(a), FieldText(b), FieldText(c);
    assert |b| == 18 && |c| == 17;
  }
}
