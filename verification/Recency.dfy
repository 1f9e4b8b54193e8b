/** Key lists kept in the order of the last touch of each key. */
module Recency {

  /** One touch of a key, at a time. */
  datatype Touch = Touch(key: string, at: int)

  /** `retain(|k| k != x)`. */
  function Without(s: seq<string>, x: string): (r: seq<string>)
    ensures |r| <= |s| && (x in s ==> |r| < |s|)
    ensures forall y :: y in r <==> y in s && y != x
  {
    if s == [] then [] else
      var init, y := s[..|s| - 1], s[|s| - 1];
      assert forall z :: z in s <==> z in init || z == y;
      if y == x then Without(init, x) else Without(init, x) + [y]
  }

  /** `retain(|k| !gone.contains(k))`. */
  function WithoutAll(s: seq<string>, gone: set<string>): (r: seq<string>)
    ensures forall y :: y in r <==> y in s && y !in gone
  {
    if s == [] then [] else
      var init, y := s[..|s| - 1], s[|s| - 1];
      assert forall z :: z in s <==> z in init || z == y;
      if y in gone then WithoutAll(init, gone) else WithoutAll(init, gone) + [y]
  }

  predicate Distinct(s: seq<string>) {
    forall i, j | 0 <= i < j < |s| :: s[i] != s[j]
  }

  lemma {:induction false} WithoutAbsent(s: seq<string>, x: string)
    requires x !in s
    ensures Without(s, x) == s
  {
    if s == [] {
    } else {
      WithoutAbsent(s[..|s| - 1], x);
    }
  }

  /** Removing the front of a list without repetitions leaves its tail. */
  lemma {:induction false} WithoutFront(s: seq<string>)
    requires s != [] && Distinct(s)
    ensures Without(s, s[0]) == s[1..]
  {
    if |s| == 1 {
      assert s[..0] == [];
    } else {
      var init := s[..|s| - 1];
      WithoutFront(init);
      assert s[1..] == init[1..] + [s[|s| - 1]];
    }
  }

  lemma {:induction false} WithoutStep(s: seq<string>, gone: set<string>, x: string)
    requires x in gone
    ensures WithoutAll(Without(s, x), gone - {x}) == WithoutAll(s, gone)
  {
    if s == [] {
    } else {
      var init, y := s[..|s| - 1], s[|s| - 1];
      WithoutStep(init, gone, x);
      if y != x {
        assert (Without(init, x) + [y])[..|Without(init, x)|] == Without(init, x);
      }
    }
  }

  lemma {:induction false} WithoutNone(s: seq<string>)
    ensures WithoutAll(s, {}) == s
  {
    if s == [] {
    } else {
      WithoutNone(s[..|s| - 1]);
    }
  }

  lemma {:induction false} DistinctCount(s: seq<string>)
    requires Distinct(s)
    ensures |set x | x in s| == |s|
  {
    if s == [] {
      assert (set x | x in s) == {};
    } else {
      var init, y := s[..|s| - 1], s[|s| - 1];
      DistinctCount(init);
      assert (set x | x in s) == (set x | x in init) + {y};
    }
  }

  // ---- The touch log ----

  /** The last time `key` was touched, as a position in the log; -1 if never. */
  function Last(log: seq<Touch>, key: string): (n: int)
    ensures -1 <= n < |log|
    ensures n >= 0 ==> log[n].key == key
    ensures forall i | n < i < |log| :: log[i].key != key
  {
    if log == [] then -1
    else if log[|log| - 1].key == key then |log| - 1
    else Last(log[..|log| - 1], key)
  }

  lemma LastAfter(log: seq<Touch>, t: Touch, key: string)
    ensures Last(log + [t], key) == if key == t.key then |log| else Last(log, key)
  {
    assert (log + [t])[..|log|] == log;
  }

  /** The keys were last touched in this order. */
  predicate InTouchOrder(keys: seq<string>, log: seq<Touch>) {
    forall i, j | 0 <= i < j < |keys| :: Last(log, keys[i]) < Last(log, keys[j])
  }

  lemma TouchOrderIsDistinct(keys: seq<string>, log: seq<Touch>)
    requires InTouchOrder(keys, log)
    ensures Distinct(keys)
  {
    forall i, j | 0 <= i < j < |keys| ensures keys[i] != keys[j] {
      assert Last(log, keys[i]) < Last(log, keys[j]);
    }
  }

  lemma {:induction false} OrderWithoutAll(keys: seq<string>, log: seq<Touch>, gone: set<string>)
    requires InTouchOrder(keys, log)
    ensures InTouchOrder(WithoutAll(keys, gone), log)
  {
    if keys == [] {
    } else {
      var init, y := keys[..|keys| - 1], keys[|keys| - 1];
      OrderWithoutAll(init, log, gone);
      var r := WithoutAll(init, gone);
      forall i | 0 <= i < |r| ensures Last(log, r[i]) < Last(log, y) {
        assert r[i] in init;
        var k :| 0 <= k < |init| && init[k] == r[i];
        assert keys[k] == r[i];
      }
    }
  }

  lemma {:induction false} WithoutIsWithoutAll(s: seq<string>, x: string)
    ensures Without(s, x) == WithoutAll(s, {x})
  {
    if s == [] {
    } else {
      WithoutIsWithoutAll(s[..|s| - 1], x);
    }
  }

  /** Moving a key to the back is touching it. */
  lemma OrderAfterTouch(keys: seq<string>, log: seq<Touch>, t: Touch)
    requires InTouchOrder(keys, log)
    ensures InTouchOrder(Without(keys, t.key) + [t.key], log + [t])
  {
    WithoutIsWithoutAll(keys, t.key);
    OrderWithoutAll(keys, log, {t.key});
    var kept := Without(keys, t.key);
    forall i | 0 <= i < |kept| ensures Last(log + [t], kept[i]) == Last(log, kept[i]) < |log| {
      assert kept[i] in kept;
      LastAfter(log, t, kept[i]);
    }
    LastAfter(log, t, t.key);
  }
}
