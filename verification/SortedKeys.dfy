/** Iteration order of the source's `BTreeMap<i64, _>`: ascending keys. */
module SortedKeys {

  ghost predicate Increasing(ks: seq<int>) {
    forall i, j | 0 <= i < j < |ks| :: ks[i] < ks[j]
  }

  predicate Least(s: set<int>, m: int) {
    m in s && forall x | x in s :: m <= x
  }

  lemma SomeMember<T>(s: set<T>) returns (x: T)
    requires s != {}
    ensures x in s
  {
    x :| x in s;
  }

  lemma {:induction false} LeastExists(s: set<int>)
    requires s != {}
    ensures exists m :: Least(s, m)
    decreases |s|
  {
    var a := SomeMember(s);
    var rest := s - {a};
    assert forall x | x in s :: x == a || x in rest;
    if rest == {} {
      assert Least(s, a);
    } else {
      LeastExists(rest);
      var m :| Least(rest, m);
      assert Least(s, if m < a then m else a);
    }
  }

  /** The elements of a finite set, each once, in ascending order. */
  function Ascending(s: set<int>): (ks: seq<int>)
    ensures Increasing(ks)
    ensures forall x :: x in ks <==> x in s
    decreases |s|
  {
    if s == {} then [] else
      LeastExists(s);
      assert exists m :: m in s && Least(s, m) by { var m :| Least(s, m); }
      var m :| m in s && Least(s, m);
      var rest := Ascending(s - {m});
      assert forall i | 0 <= i < |rest| :: rest[i] in s - {m};
      [m] + rest
  }
}
