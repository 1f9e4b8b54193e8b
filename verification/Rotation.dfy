/** Turns of the rotation counter, across its wrap: when a round of picks is fair. */
module Rotation {
  import opened Wrappers
  import opened Recency
  import opened Pool
  import opened PoolTheorems

  // ---- What a run of picks serves ----

  /** The account a pick returned, if any. */
  function Served(s: PoolState, e: Timed, lim: Limits): seq<string> {
    if !e.step.DoPick? then [] else
      var account := Pick(s, e.step.session, e.step.model, e.step.files, e.at, lim).account;
      if account.Some? then [account.value] else []
  }

  /** The accounts a run returned, in order. */
  function AllServed(s: PoolState, es: seq<Timed>, lim: Limits): seq<string> {
    if es == [] then [] else AllServed(s, es[..|es| - 1], lim) + Served(RunFrom(s, es[..|es| - 1], lim), es[|es| - 1], lim)
  }

  /** The step is a pick without a binding to keep, and it faces these accounts. */
  predicate Faces(s: PoolState, e: Timed, lim: Limits, top: seq<string>) {
    e.step.DoPick? &&
    var s' := Swept(s, e.step.files, e.at, lim);
    !Keeps(s', e.step.session, e.step.model, e.at) && Top(s', e.step.model, e.at) == top
  }

  /** Such a pick returns the next account in turn and moves the counter on. */
  lemma TakesTurn(s: PoolState, e: Timed, lim: Limits, top: seq<string>, rr: nat)
    requires Faces(s, e, lim, top) && top != [] && s.rr == rr
    ensures Served(s, e, lim) == [top[Turn(rr, |top|)]]
    ensures Apply(s, e, lim).rr == NextTurn(rr)
  {
    var s' := Unbind(Swept(s, e.step.files, e.at, lim), e.step.session);
    ChooseShape(s', e.step.session, e.step.model, e.at, lim);
  }

  /** Every step of the run does. */
  predicate AllFace(s: PoolState, es: seq<Timed>, lim: Limits, top: seq<string>) {
    es == [] ||
    (AllFace(s, es[..|es| - 1], lim, top) && Faces(RunFrom(s, es[..|es| - 1], lim), es[|es| - 1], lim, top))
  }

  // ---- The counter ----

  /** The counter after `n` turns. */
  function Counter(rr: nat, n: nat): nat {
    if n == 0 then rr else NextTurn(Counter(rr, n - 1))
  }

  lemma {:induction false} CounterValue(rr: nat, n: nat)
    requires rr < WORD && rr + n < 2 * WORD
    ensures Counter(rr, n) == if rr + n < WORD then rr + n else rr + n - WORD
  {
    if n > 0 { CounterValue(rr, n - 1); }
  }

  lemma {:induction false} CounterMoves(s: PoolState, es: seq<Timed>, lim: Limits, top: seq<string>, n: nat)
    requires top != [] && n == |es| && AllFace(s, es, lim, top)
    ensures RunFrom(s, es, lim).rr == Counter(s.rr, n)
  {
    if n > 0 {
      var init, e := es[..|es| - 1], es[|es| - 1];
      CounterMoves(s, init, lim, top, n - 1);
      TakesTurn(RunFrom(s, init, lim), e, lim, top, Counter(s.rr, n - 1));
    }
  }

  /** `n` accounts from the list, each in its turn. */
  function Turns(top: seq<string>, rr: nat, n: nat): (r: seq<string>)
    requires top != []
    ensures |r| == n
  {
    if n == 0 then [] else Turns(top, rr, n - 1) + [top[Turn(Counter(rr, n - 1), |top|)]]
  }

  lemma {:induction false} TurnsAt(top: seq<string>, rr: nat, n: nat, i: nat)
    requires top != [] && i < n
    ensures Turns(top, rr, n)[i] == top[Turn(Counter(rr, i), |top|)]
  {
    if i < n - 1 { TurnsAt(top, rr, n - 1, i); }
  }

  lemma {:induction false} TurnsTaken(s: PoolState, es: seq<Timed>, lim: Limits, top: seq<string>, n: nat)
    requires top != [] && n == |es| && AllFace(s, es, lim, top)
    ensures AllServed(s, es, lim) == Turns(top, s.rr, n)
  {
    if n > 0 {
      var init, e := es[..|es| - 1], es[|es| - 1];
      TurnsTaken(s, init, lim, top, n - 1);
      CounterMoves(s, init, lim, top, n - 1);
      TakesTurn(RunFrom(s, init, lim), e, lim, top, Counter(s.rr, n - 1));
    }
  }

  // ---- Remainders around the wrap ----

  lemma {:induction false} TurnShift(rr: nat, i: nat, n: nat)
    requires i < n
    ensures Turn(rr + i, n) == if Turn(rr, n) + i < n then Turn(rr, n) + i else Turn(rr, n) + i - n
  {
    if rr >= n { TurnShift(rr - n, i, n); }
  }

  lemma {:induction false} TurnBack(rr: nat, d: nat, n: nat)
    requires n > 0 && d <= Turn(rr, n)
    ensures d <= rr && Turn(rr - d, n) == Turn(rr, n) - d
  {
    if rr >= n { TurnBack(rr - n, d, n); }
  }

  /** The counter may pass its wrap only if the number of accounts divides the word. */
  predicate Fair(rr: nat, n: nat)
    requires n > 0
  {
    rr + n <= WORD || WORD % n == 0
  }

  /** In a fair round the turns follow one another. */
  lemma FairTurn(rr: nat, i: nat, n: nat)
    requires i < n && rr < WORD && Fair(rr, n)
    ensures Turn(Counter(rr, i), n) == if Turn(rr, n) + i < n then Turn(rr, n) + i else Turn(rr, n) + i - n
  {
    TurnIsRemainder(WORD, n);
    assert rr + i < WORD || Turn(WORD, n) == 0;
    TurnShift(rr, i, n);
    CounterValue(rr, i);
    if rr + i >= WORD {
      PastTheWrap(rr, i, n);
    }
  }

  lemma PastTheWrap(rr: nat, i: nat, n: nat)
    requires i < n && rr < WORD <= rr + i && Turn(WORD, n) == 0
    ensures rr + i - WORD < n && Turn(rr + i, n) == Turn(rr + i - WORD, n)
  {
    TurnShift(WORD, rr + i - WORD, n);
  }

  /** A round that wraps unfairly has two places with the same turn. */
  lemma SameTurn(rr: nat, n: nat) returns (i: nat, j: nat)
    requires n > 0 && rr < WORD && !Fair(rr, n)
    ensures i < j < n && Turn(Counter(rr, i), n) == Turn(Counter(rr, j), n)
  {
    var a, m := WORD - rr, Turn(WORD, n);
    TurnIsRemainder(WORD, n);
    TurnBound(WORD, n);
    if m <= n - a {
      i, j := a - 1, a + m - 1;
      TurnBack(WORD, 1, n);
    } else {
      i, j := n - m - 1, n - 1;
      TurnBack(WORD, m - (n - a - 1), n);
    }
    CounterValue(rr, i);
    CounterValue(rr, j);
  }

  lemma TurnBound(rr: nat, n: nat)
    requires n > 0
    ensures Turn(rr, n) <= rr
  {
    TurnBack(rr, Turn(rr, n), n);
  }

  // ---- Rounds ----

  function Rotated(s: seq<string>, r: nat): seq<string>
    requires r <= |s|
  {
    s[r..] + s[..r]
  }

  lemma RotatedServesAll(s: seq<string>, r: nat)
    requires r <= |s| && Distinct(s)
    ensures |Rotated(s, r)| == |s| && multiset(Rotated(s, r)) == multiset(s) && Distinct(Rotated(s, r))
  {
    assert s == s[..r] + s[r..];
  }

  lemma FairTurns(top: seq<string>, rr: nat)
    requires top != [] && rr < WORD && Fair(rr, |top|)
    ensures Turns(top, rr, |top|) == Rotated(top, Turn(rr, |top|))
  {
    forall i | 0 <= i < |top| ensures Turns(top, rr, |top|)[i] == Rotated(top, Turn(rr, |top|))[i] {
      FairTurnsAt(top, rr, i, |top|);
    }
  }

  lemma FairTurnsAt(top: seq<string>, rr: nat, i: nat, n: nat)
    requires i < n == |top| && rr < WORD && Fair(rr, n)
    ensures Turns(top, rr, n)[i] == Rotated(top, Turn(rr, n))[i]
  {
    TurnsAt(top, rr, n, i);
    FairTurn(rr, i, n);
  }

  lemma UnfairTurns(top: seq<string>, rr: nat)
    requires top != [] && rr < WORD && !Fair(rr, |top|)
    ensures !Distinct(Turns(top, rr, |top|))
  {
    var i, j := SameTurn(rr, |top|);
    TurnsAt(top, rr, |top|, i);
    TurnsAt(top, rr, |top|, j);
  }

  lemma SameAccountsDistinct(s: seq<string>, t: seq<string>)
    requires multiset(s) == multiset(t) && Distinct(s)
    ensures Distinct(t)
  {
    forall i, j | 0 <= i < j < |t| ensures t[i] != t[j] {
      if t[i] == t[j] { TwiceCounted(t, i, j); OnceCounted(s, t[i]); }
    }
  }

  lemma TwiceCounted(t: seq<string>, i: nat, j: nat)
    requires i < j < |t| && t[i] == t[j]
    ensures multiset(t)[t[i]] >= 2
  {
    assert t == t[..j] + [t[j]] + t[j + 1..];
    assert t[..j][i] == t[i];
  }

  lemma {:induction false} OnceCounted(s: seq<string>, x: string)
    requires Distinct(s)
    ensures multiset(s)[x] <= 1
  {
    if s == [] {
    } else {
      var init, y := s[..|s| - 1], s[|s| - 1];
      OnceCounted(init, x);
      assert s == init + [y];
      assert y !in init;
    }
  }

  /**
   As many unbound picks in a row as there are accounts of top rank return each account once, in
   rotation, exactly when the counter does not pass its wrap or their number divides the word.
   */
  lemma RoundIsFairIff(s: PoolState, es: seq<Timed>, lim: Limits, top: seq<string>)
    requires top != [] && Distinct(top) && |es| == |top| && s.rr < WORD && AllFace(s, es, lim, top)
    ensures multiset(AllServed(s, es, lim)) == multiset(top) <==> s.rr + |top| <= WORD || WORD % |top| == 0
    ensures AllServed(s, es, lim) == Rotated(top, Turn(s.rr, |top|)) <==> s.rr + |top| <= WORD || WORD % |top| == 0
    ensures Distinct(AllServed(s, es, lim)) <==> s.rr + |top| <= WORD || WORD % |top| == 0
  {
    TurnsTaken(s, es, lim, top, |top|);
    RotatedServesAll(top, Turn(s.rr, |top|));
    if Fair(s.rr, |top|) {
      FairTurns(top, s.rr);
    } else {
      UnfairTurns(top, s.rr);
      if multiset(top) == multiset(AllServed(s, es, lim)) { SameAccountsDistinct(top, AllServed(s, es, lim)); }
    }
  }

  // ---- Rounds by their inputs ----

  /** The sessions a run asks for. */
  function Asked(es: seq<Timed>): set<string> {
    if es == [] then {} else Asked(es[..|es| - 1]) + AskedBy(es[|es| - 1])
  }

  function AskedBy(e: Timed): set<string> {
    if e.step.DoPick? && e.step.session.Some? then {e.step.session.value} else {}
  }

  /** The accounts of top rank whose files are there. */
  function TopNow(s: PoolState, model: string, files: set<string>, now: int): seq<string> {
    BestOf(s.credits, Candidates(s.health, Present(s.entries, files), model, now))
  }

  /** The time of the step finds the loaded accounts in the same health. */
  predicate SameHealth(s: PoolState, model: string, now: int, at: int) {
    forall id | id in s.entries :: Healthy(s.health, id, model, at) <==> Healthy(s.health, id, model, now)
  }

  /** Picks for one model under fixed files and health, each without a session or with a new one. */
  predicate Round(s: PoolState, es: seq<Timed>, model: string, files: set<string>, now: int) {
    es == [] ||
    (var init, e := es[..|es| - 1], es[|es| - 1];
     Round(s, init, model, files, now) &&
     e.step.DoPick? && e.step.model == model && e.step.files == files && SameHealth(s, model, now, e.at) &&
     AskedBy(e) !! s.table.bindings.Keys && AskedBy(e) !! Asked(init))
  }

  lemma {:induction false} EvictBindsNone(t: Table, now: int, lim: Limits)
    ensures Evict(t, now, lim).bindings.Keys <= t.bindings.Keys
    decreases |t.order|
  {
    if t.order != [] && (Expired(t, t.order[0], now, lim) || |t.bindings| > lim.stickyMax) {
      EvictBindsNone(Remove(t, t.order[0]), now, lim);
    }
  }

  /** A pick binds at most the session it is for, and leaves credits and health alone. */
  lemma PickTouchesLittle(s: PoolState, e: Timed, lim: Limits)
    requires e.step.DoPick?
    ensures var s' := Apply(s, e, lim);
      s'.table.bindings.Keys <= s.table.bindings.Keys + AskedBy(e) &&
      s'.entries == Present(s.entries, e.step.files) && s'.credits == s.credits && s'.health == s.health
  {
    EvictBindsNone(s.table, e.at, lim);
    PickEntries(s, e.step.session, e.step.model, e.step.files, e.at, lim);
    var s' := Unbind(Swept(s, e.step.files, e.at, lim), e.step.session);
    ChooseShape(s', e.step.session, e.step.model, e.at, lim);
  }

  lemma {:induction false} SameCandidates(s: PoolState, ids: seq<string>, model: string, now: int, at: int)
    requires SameHealth(s, model, now, at) && forall id | id in ids :: id in s.entries
    ensures Candidates(s.health, ids, model, at) == Candidates(s.health, ids, model, now)
  {
    if ids == [] {
    } else {
      var init, id := ids[..|ids| - 1], ids[|ids| - 1];
      assert forall x | x in init :: x in ids;
      SameCandidates(s, init, model, now, at);
      assert id in s.entries;
    }
  }

  /** What the picks of a round leave as it was. */
  predicate Midway(s: PoolState, s': PoolState, asked: set<string>, files: set<string>) {
    s'.table.bindings.Keys <= s.table.bindings.Keys + asked && Present(s'.entries, files) == Present(s.entries, files) &&
    s'.credits == s.credits && s'.health == s.health
  }

  lemma MidwayFaces(s: PoolState, s': PoolState, e: Timed, lim: Limits, model: string, files: set<string>, now: int,
      asked: set<string>)
    requires Midway(s, s', asked, files)
    requires e.step.DoPick? && e.step.model == model && e.step.files == files && SameHealth(s, model, now, e.at)
    requires AskedBy(e) !! s.table.bindings.Keys && AskedBy(e) !! asked
    ensures Faces(s', e, lim, TopNow(s, model, files, now))
    ensures Midway(s, Apply(s', e, lim), asked + AskedBy(e), files)
  {
    PickTouchesLittle(s', e, lim);
    PresentTwice(s'.entries, files);
    EvictBindsNone(s'.table, e.at, lim);
    SameCandidates(s, Present(s.entries, files), model, now, e.at);
  }

  /** Every pick of a round faces the accounts the first one does. */
  lemma {:induction false} RoundFaces(s: PoolState, es: seq<Timed>, lim: Limits, model: string, files: set<string>, now: int)
    requires Round(s, es, model, files, now)
    ensures AllFace(s, es, lim, TopNow(s, model, files, now))
    ensures Midway(s, RunFrom(s, es, lim), Asked(es), files)
  {
    if es == [] {
    } else {
      var init, e := es[..|es| - 1], es[|es| - 1];
      RoundFaces(s, init, lim, model, files, now);
      MidwayFaces(s, RunFrom(s, init, lim), e, lim, model, files, now, Asked(init));
    }
  }

  lemma {:induction false} CandidatesDistinct(h: Health, ids: seq<string>, model: string, now: int)
    requires Distinct(ids)
    ensures Distinct(Candidates(h, ids, model, now))
  {
    if ids == [] {
    } else {
      var init, id := ids[..|ids| - 1], ids[|ids| - 1];
      CandidatesDistinct(h, init, model, now);
      assert id !in init;
      assert id !in Candidates(h, init, model, now);
    }
  }

  lemma {:induction false} WithRankDistinct(credits: map<string, int>, ids: seq<string>, rank: int)
    requires Distinct(ids)
    ensures Distinct(WithRank(credits, ids, rank))
  {
    if ids == [] {
    } else {
      var init, id := ids[..|ids| - 1], ids[|ids| - 1];
      WithRankDistinct(credits, init, rank);
      assert id !in init;
      assert id !in WithRank(credits, init, rank);
    }
  }

  lemma TopDistinct(s: PoolState, model: string, files: set<string>, now: int)
    requires Distinct(s.entries)
    ensures Distinct(TopNow(s, model, files, now))
  {
    PresentIsDistinct(s.entries, files);
    var candidates := Candidates(s.health, Present(s.entries, files), model, now);
    CandidatesDistinct(s.health, Present(s.entries, files), model, now);
    if candidates != [] { WithRankDistinct(s.credits, candidates, BestRank(s.credits, candidates)); }
  }

  /**
   From any reachable state, as many picks for one model as there are usable accounts of top rank,
   under fixed files and health and for new sessions, return each of them once, in rotation, exactly
   when the counter does not pass its wrap on the way or their number divides the word.
   */
  lemma FairRoundIff(s: PoolState, log: seq<Touch>, was: int, es: seq<Timed>, lim: Limits, model: string, files: set<string>,
      now: int)
    requires StateOk(s, log, was, lim) && Round(s, es, model, files, now)
    requires es != [] && |es| == |TopNow(s, model, files, now)|
    ensures var top := TopNow(s, model, files, now);
      multiset(AllServed(s, es, lim)) == multiset(top) <==> s.rr + |top| <= WORD || WORD % |top| == 0
    ensures var top := TopNow(s, model, files, now);
      AllServed(s, es, lim) == Rotated(top, Turn(s.rr, |top|)) <==> s.rr + |top| <= WORD || WORD % |top| == 0
    ensures Distinct(AllServed(s, es, lim)) <==> s.rr + |es| <= WORD || WORD % |es| == 0
  {
    TopDistinct(s, model, files, now);
    RoundFaces(s, es, lim, model, files, now);
    RoundIsFairIff(s, es, lim, TopNow(s, model, files, now));
  }

  // ---- A round that wraps ----

  const THREE: seq<string> := ["a", "b", "c"]

  const LOAD_THREE: Timed := Timed(DoLoad(THREE), 0)

  const ASK: Timed := Timed(DoPick(None, "m", {"a", "b", "c"}), 0)

  /** The pick without a session, `n` times. */
  function Asks(n: nat): (es: seq<Timed>)
    ensures |es| == n
  {
    if n == 0 then [] else Asks(n - 1) + [ASK]
  }

  /** Three accounts just loaded. */
  function Loaded(lim: Limits): PoolState {
    Run([LOAD_THREE], lim)
  }

  lemma {:induction false} AllCandidates(h: Health, ids: seq<string>, model: string, now: int)
    requires forall id | id in ids :: Healthy(h, id, model, now)
    ensures Candidates(h, ids, model, now) == ids
  {
    if ids == [] {
    } else {
      var init, id := ids[..|ids| - 1], ids[|ids| - 1];
      assert forall x | x in init :: x in ids;
      AllCandidates(h, init, model, now);
      assert id in ids;
    }
  }

  lemma {:induction false} AllOfRank(credits: map<string, int>, ids: seq<string>, rank: int)
    requires forall id | id in ids :: Rank(credits, id) == rank
    ensures WithRank(credits, ids, rank) == ids
  {
    if ids == [] {
    } else {
      var init, id := ids[..|ids| - 1], ids[|ids| - 1];
      assert forall x | x in init :: x in ids;
      AllOfRank(credits, init, rank);
      assert id in ids;
    }
  }

  lemma ThreeLoaded(lim: Limits)
    ensures Loaded(lim) == EMPTY.(entries := THREE)
  {
    LoadThree();
    AfterLast([], LOAD_THREE, lim);
    assert [] + [LOAD_THREE] == [LOAD_THREE];
  }

  lemma LoadThree()
    ensures Load(EMPTY, THREE) == EMPTY.(entries := THREE)
  {
    assert THREE[..2] == ["a", "b"] && ["a", "b"][..1] == ["a"] && ["a"][..0] == [];
    assert Load(EMPTY, ["a"]).entries == ["a"];
    assert Load(EMPTY, ["a", "b"]).entries == ["a", "b"];
  }

  lemma ThreeFaced(lim: Limits)
    ensures TopNow(Loaded(lim), "m", {"a", "b", "c"}, 0) == THREE
  {
    ThreeLoaded(lim);
    PresentShrinks(THREE, {"a", "b", "c"});
    AllCandidates(EMPTY.health, THREE, "m", 0);
    AllOfRank(EMPTY.credits, THREE, -1);
  }

  lemma {:induction false} AsksAreRound(s: PoolState, n: nat)
    ensures Round(s, Asks(n), "m", {"a", "b", "c"}, 0)
    ensures Asked(Asks(n)) == {}
  {
    if n > 0 {
      AsksAreRound(s, n - 1);
      assert Asks(n)[..|Asks(n)| - 1] == Asks(n - 1);
    }
  }

  lemma {:induction false} RunOn(s: PoolState, before: seq<Timed>, es: seq<Timed>, lim: Limits)
    ensures RunFrom(s, before + es, lim) == RunFrom(RunFrom(s, before, lim), es, lim)
  {
    if es == [] {
      assert before + es == before;
    } else {
      RunOn(s, before, es[..|es| - 1], lim);
      assert (before + es)[..|before + es| - 1] == before + es[..|es| - 1];
    }
  }

  lemma OneAsk(s: PoolState, lim: Limits, rr: nat)
    requires Midway(Loaded(lim), s, {}, {"a", "b", "c"}) && s.rr == rr
    ensures Served(s, ASK, lim) == [THREE[Turn(rr, 3)]]
    ensures Midway(Loaded(lim), Apply(s, ASK, lim), {}, {"a", "b", "c"}) && Apply(s, ASK, lim).rr == NextTurn(rr)
  {
    ThreeFaced(lim);
    assert AskedBy(ASK) == {};
    MidwayFaces(Loaded(lim), s, ASK, lim, "m", {"a", "b", "c"}, 0, {});
    TakesTurn(s, ASK, lim, THREE, rr);
  }

  lemma TwoAsks(s: PoolState, lim: Limits, rr: nat)
    requires Midway(Loaded(lim), s, {}, {"a", "b", "c"}) && s.rr == rr && rr % 3 == 0 && NextTurn(rr) == 0
    ensures AllServed(s, [ASK, ASK], lim) == ["a", "a"]
  {
    OneAsk(s, lim, rr);
    TurnIsRemainder(rr, 3);
    var next := NextTurn(rr);
    OneAsk(Apply(s, ASK, lim), lim, next);
    ServedTwice(s, ASK, lim);
  }

  lemma ServedTwice(s: PoolState, e: Timed, lim: Limits)
    ensures AllServed(s, [e, e], lim) == Served(s, e, lim) + Served(Apply(s, e, lim), e, lim)
  {
    assert [e, e][..1] == [e] && [e][..0] == [];
    assert RunFrom(s, [e], lim) == Apply(s, e, lim);
    assert AllServed(s, [e], lim) == Served(s, e, lim);
  }

  lemma AfterAsks(lim: Limits, n: nat)
    requires n < WORD && n % 3 == 0 && NextTurn(n) == 0
    ensures var s := Run([LOAD_THREE] + Asks(n), lim);
      s.rr == n && AllServed(s, [ASK, ASK], lim) == ["a", "a"]
  {
    var s, es := Loaded(lim), Asks(n);
    RunOn(EMPTY, [LOAD_THREE], es, lim);
    AsksAreRound(s, n);
    ThreeLoaded(lim);
    ThreeFaced(lim);
    RoundFaces(s, es, lim, "m", {"a", "b", "c"}, 0);
    CounterMoves(s, es, lim, THREE, n);
    CounterValue(0, n);
    TwoAsks(RunFrom(s, es, lim), lim, n);
  }

  /**
   Rotation fails across the wrap: three accounts are loaded, and after as many picks as bring the
   counter to its last value, two picks in a row return the same account.
   */
  lemma WrapRepeats(lim: Limits)
    ensures var s := Run([LOAD_THREE] + Asks(WORD - 1), lim);
      s.rr == WORD - 1 && AllServed(s, [ASK, ASK], lim) == ["a", "a"]
  {
    AfterAsks(lim, WORD - 1);
  }
}
