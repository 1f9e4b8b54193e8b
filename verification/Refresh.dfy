/**
 Single-flight token refresh: any number of callers, interleaved step by step around one lock.
 `ensure_fresh` checks, waits for the lock, checks again and refreshes; `force_refresh` does not check.
 */
module Refresh {
  import opened Wrappers

  datatype Kind = Ensure | Force

  datatype Place =
    | Arrived
    | Waiting
    | Holding
    | Calling
    | Returned(outcome: Outcome)

  datatype Outcome = AlreadyFresh | Refreshed | Failed | Abandoned

  datatype Caller = Caller(kind: Kind, place: Place)

  /** What happens to the token, in order, with the time. */
  datatype Event =
    | Began(who: nat, kind: Kind, at: int)
    | Succeeded(who: nat, expiresAt: int, at: int)
    | Ended(who: nat, at: int)
    | Reused(who: nat, at: int)

  datatype System = System(callers: seq<Caller>, holder: Option<nat>, expiresAt: int, now: int, log: seq<Event>)

  datatype Action =
    | Tick(seconds: nat)
    | Check(who: nat)
    | Acquire(who: nat)
    | Recheck(who: nat)
    | Succeed(who: nat, expiresAt: int)
    | Fail(who: nat)
    | Abandon(who: nat)

  /** No recorded expiry, or within `margin` of it. */
  predicate NeedsRefresh(expiresAt: int, margin: int, now: int) {
    expiresAt == 0 || now >= expiresAt - margin
  }

  predicate At(s: System, who: nat, place: Place) {
    who < |s.callers| && s.callers[who].place == place
  }

  function Move(s: System, who: nat, place: Place): System
    requires who < |s.callers|
  {
    s.(callers := s.callers[who := s.callers[who].(place := place)])
  }

  /** The caller is done and gives up the lock if it has it. */
  function Leave(s: System, who: nat, outcome: Outcome, event: seq<Event>): System
    requires who < |s.callers|
  {
    Move(s, who, Returned(outcome)).(holder := if s.holder == Some(who) then None else s.holder, log := s.log + event)
  }

  /** One atomic step; an action whose turn it is not changes nothing. */
  function Step(s: System, a: Action, margin: int): System {
    match a
    case Tick(seconds) => s.(now := s.now + seconds)
    case Check(who) =>
      if !At(s, who, Arrived) then s
      else if s.callers[who].kind.Ensure? && !NeedsRefresh(s.expiresAt, margin, s.now)
      then Leave(s, who, AlreadyFresh, [Reused(who, s.now)])
      else Move(s, who, Waiting)
    case Acquire(who) =>
      if !At(s, who, Waiting) || s.holder.Some? then s else Move(s, who, Holding).(holder := Some(who))
    case Recheck(who) =>
      if !At(s, who, Holding) then s
      else if s.callers[who].kind.Ensure? && !NeedsRefresh(s.expiresAt, margin, s.now)
      then Leave(s, who, AlreadyFresh, [Reused(who, s.now)])
      else Move(s, who, Calling).(log := s.log + [Began(who, s.callers[who].kind, s.now)])
    case Succeed(who, expiresAt) =>
      if !At(s, who, Calling) then s
      else Leave(s, who, Refreshed, [Succeeded(who, expiresAt, s.now)]).(expiresAt := expiresAt)
    case Fail(who) =>
      if !At(s, who, Calling) then s else Leave(s, who, Failed, [Ended(who, s.now)])
    case Abandon(who) =>
      if who >= |s.callers| || s.callers[who].place.Returned? then s
      else Leave(s, who, Abandoned, if s.callers[who].place.Calling? then [Ended(who, s.now)] else [])
  }

  function Run(s: System, actions: seq<Action>, margin: int): System {
    if actions == [] then s else Step(Run(s, actions[..|actions| - 1], margin), actions[|actions| - 1], margin)
  }

  /** Callers of these kinds arrive at a token that expires at `expiresAt`. */
  predicate Initial(s: System) {
    s.holder.None? && s.log == [] && forall i | 0 <= i < |s.callers| :: s.callers[i].place.Arrived?
  }

  // ---- Reading a log ----

  /** How an event changes which call is in flight. */
  function FlightAfter(flight: Option<nat>, e: Event): Option<nat> {
    match e
    case Began(who, _, _) => Some(who)
    case Succeeded(_, _, _) => None
    case Ended(_, _) => None
    case Reused(_, _) => flight
  }

  function ExpiryAfter(expiresAt: int, e: Event): int {
    if e.Succeeded? then e.expiresAt else expiresAt
  }

  /** Calls never overlap, `ensure_fresh` calls only for a token in need, and reuses only a fresh one. */
  predicate Permitted(flight: Option<nat>, expiresAt: int, e: Event, margin: int) {
    match e
    case Began(_, kind, at) => flight.None? && (kind.Ensure? ==> NeedsRefresh(expiresAt, margin, at))
    case Succeeded(who, _, _) => flight == Some(who)
    case Ended(who, _) => flight == Some(who)
    case Reused(_, at) => !NeedsRefresh(expiresAt, margin, at)
  }

  /** The call in flight at the end of the log. */
  function InFlight(log: seq<Event>): Option<nat> {
    if log == [] then None else FlightAfter(InFlight(log[..|log| - 1]), log[|log| - 1])
  }

  /** The expiry after the log. */
  function Expiry(log: seq<Event>, first: int): int {
    if log == [] then first else ExpiryAfter(Expiry(log[..|log| - 1], first), log[|log| - 1])
  }

  predicate SingleFlight(log: seq<Event>, first: int, margin: int) {
    log == [] ||
    (var init := log[..|log| - 1];
     SingleFlight(init, first, margin) && Permitted(InFlight(init), Expiry(init, first), log[|log| - 1], margin))
  }

  predicate UpTo(log: seq<Event>, now: int) {
    (forall i, j | 0 <= i < j < |log| :: log[i].at <= log[j].at) && forall i | 0 <= i < |log| :: log[i].at <= now
  }

  predicate Inside(place: Place) {
    place.Holding? || place.Calling?
  }

  /** The lock is held by exactly the caller inside. */
  predicate LockOk(s: System) {
    (s.holder.Some? ==> s.holder.value < |s.callers| && Inside(s.callers[s.holder.value].place)) &&
    forall i: nat | i < |s.callers| && Inside(s.callers[i].place) :: s.holder == Some(i)
  }

  /** The call under way, if the caller inside has begun one. */
  function Flight(s: System): Option<nat>
    requires LockOk(s)
  {
    if s.holder.Some? && s.callers[s.holder.value].place.Calling? then s.holder else None
  }

  /** The lock is exclusive, and the log agrees with the state. */
  predicate SystemOk(s: System, first: int, margin: int) {
    LockOk(s) && InFlight(s.log) == Flight(s) && Expiry(s.log, first) == s.expiresAt &&
    SingleFlight(s.log, first, margin) && UpTo(s.log, s.now)
  }

  lemma LockStays(s: System, a: Action, margin: int)
    requires LockOk(s)
    ensures LockOk(Step(s, a, margin))
  {
  }

  /** The step logged `e`, which was permitted, and the state says what the log says. */
  predicate Logs(s: System, r: System, e: Event, margin: int)
    requires LockOk(s) && LockOk(r)
  {
    r.log == s.log + [e] && e.at == s.now && r.now == s.now && Permitted(Flight(s), s.expiresAt, e, margin) &&
    Flight(r) == FlightAfter(Flight(s), e) && r.expiresAt == ExpiryAfter(s.expiresAt, e)
  }

  /** A step logs one permitted event, or changes neither log nor token nor the call under way. */
  lemma StepLogs(s: System, a: Action, margin: int)
    requires LockOk(s)
    ensures LockOk(Step(s, a, margin))
    ensures var r := Step(s, a, margin);
      (r.log == s.log && r.expiresAt == s.expiresAt && Flight(r) == Flight(s) && r.now >= s.now) ||
      exists e: Event :: Logs(s, r, e, margin)
  {
    LockStays(s, a, margin);
    assert s.log + [] == s.log;
    var r := Step(s, a, margin);
    if |r.log| == |s.log| + 1 { assert Logs(s, r, r.log[|s.log|], margin); }
  }

  lemma LogGrows(log: seq<Event>, e: Event, first: int, margin: int)
    ensures InFlight(log + [e]) == FlightAfter(InFlight(log), e) && Expiry(log + [e], first) == ExpiryAfter(Expiry(log, first), e)
    ensures SingleFlight(log + [e], first, margin) <==>
      SingleFlight(log, first, margin) && Permitted(InFlight(log), Expiry(log, first), e, margin)
  {
    assert (log + [e])[..|log + [e]| - 1] == log;
  }

  lemma StepKeeps(s: System, a: Action, first: int, margin: int)
    requires SystemOk(s, first, margin)
    ensures SystemOk(Step(s, a, margin), first, margin)
  {
    StepLogs(s, a, margin);
    var r := Step(s, a, margin);
    if r.log != s.log {
      var e: Event :| Logs(s, r, e, margin);
      LogGrows(s.log, e, first, margin);
    }
  }

  /** Every interleaving of any number of callers keeps the lock exclusive and the log single-flight. */
  lemma {:induction false} EveryRunIsOk(s: System, actions: seq<Action>, margin: int)
    requires Initial(s)
    ensures SystemOk(Run(s, actions, margin), s.expiresAt, margin)
  {
    if actions == [] {
    } else {
      EveryRunIsOk(s, actions[..|actions| - 1], margin);
      StepKeeps(Run(s, actions[..|actions| - 1], margin), actions[|actions| - 1], s.expiresAt, margin);
    }
  }

  // ---- What single flight means ----

  lemma {:induction false} PrefixSingleFlight(log: seq<Event>, first: int, margin: int, n: nat)
    requires SingleFlight(log, first, margin) && n <= |log|
    ensures SingleFlight(log[..n], first, margin)
  {
    if n < |log| {
      var init := log[..|log| - 1];
      assert init[..n] == log[..n];
      PrefixSingleFlight(init, first, margin, n);
    } else {
      assert log[..n] == log;
    }
  }

  /** The expiry set by the last success. */
  lemma {:induction false} ExpiryOfLast(log: seq<Event>, first: int, a: nat)
    requires a < |log| && log[a].Succeeded? && forall i | a < i < |log| :: !log[i].Succeeded?
    ensures Expiry(log, first) == log[a].expiresAt
  {
    if a < |log| - 1 { ExpiryOfLast(log[..|log| - 1], first, a); }
  }

  /**
   After a success, `ensure_fresh` starts no other refresh until the new token is itself within the
   margin of its expiry.
   */
  lemma NoRefreshWhileFresh(log: seq<Event>, first: int, margin: int, a: nat, b: nat)
    requires SingleFlight(log, first, margin) && a < b < |log|
    requires log[a].Succeeded? && forall i | a < i < b :: !log[i].Succeeded?
    requires log[b].Began? && log[b].kind.Ensure?
    ensures NeedsRefresh(log[a].expiresAt, margin, log[b].at)
  {
    PrefixSingleFlight(log, first, margin, b + 1);
    assert log[..b + 1][..b] == log[..b];
    ExpiryOfLast(log[..b], first, a);
  }

  /** One wave, one success: while the token a success brought stays fresh, there is no call after it at all. */
  lemma {:induction false} OneSuccessPerWave(log: seq<Event>, first: int, margin: int, a: nat)
    requires SingleFlight(log, first, margin) && a < |log| && log[a].Succeeded?
    requires forall i | a < i < |log| :: !NeedsRefresh(log[a].expiresAt, margin, log[i].at)
    requires forall i | a < i < |log| && log[i].Began? :: log[i].kind.Ensure?
    ensures forall i | a < i < |log| :: log[i].Reused?
  {
    if a < |log| - 1 {
      var init := log[..|log| - 1];
      OneSuccessPerWave(init, first, margin, a);
      assert forall i | a < i < |init| :: init[i].Reused?;
      ExpiryOfLast(init, first, a);
      FlightEnds(init, a);
    }
  }

  lemma {:induction false} FlightEnds(log: seq<Event>, a: nat)
    requires a < |log| && log[a].Succeeded? && forall i | a < i < |log| :: log[i].Reused?
    ensures InFlight(log).None?
  {
    if a < |log| - 1 { FlightEnds(log[..|log| - 1], a); }
  }

  /** Between two calls the first one ended: without success, or the second began because its token needed refresh again. */
  lemma SecondCallHasCause(log: seq<Event>, first: int, margin: int, a: nat, b: nat)
    requires SingleFlight(log, first, margin) && a < b < |log|
    requires log[a].Began? && log[b].Began? && forall i | a < i < b :: !log[i].Began?
    ensures exists e | a < e < b ::
      (log[e].Ended? || log[e].Succeeded?) && log[e].who == log[a].who &&
      (log[e].Succeeded? && log[b].kind.Ensure? ==> NeedsRefresh(log[e].expiresAt, margin, log[b].at))
  {
    PrefixSingleFlight(log, first, margin, b + 1);
    assert log[..b + 1][..b] == log[..b];
    var e := FlightEnd(log[..b], first, margin, a);
    if log[e].Succeeded? && log[b].kind.Ensure? {
      NoRefreshWhileFresh(log, first, margin, e, b);
    }
  }

  /** Where a call ended, given that none is in flight any more. */
  lemma {:induction false} FlightEnd(log: seq<Event>, first: int, margin: int, a: nat) returns (e: nat)
    requires SingleFlight(log, first, margin) && a < |log| && log[a].Began? && InFlight(log).None?
    requires forall i | a < i < |log| :: !log[i].Began?
    ensures a < e < |log| && (log[e].Ended? || log[e].Succeeded?) && log[e].who == log[a].who
    ensures forall i | e < i < |log| :: log[i].Reused?
  {
    var init := log[..|log| - 1];
    if log[|log| - 1].Reused? {
      e := FlightEnd(init, first, margin, a);
    } else {
      e := |log| - 1;
      StillFlying(init, first, margin, a);
    }
  }

  /** A call that has not ended is the one in flight. */
  lemma {:induction false} StillFlying(log: seq<Event>, first: int, margin: int, a: nat)
    requires SingleFlight(log, first, margin) && a < |log| && log[a].Began? && InFlight(log).Some?
    requires forall i | a < i < |log| :: !log[i].Began?
    ensures InFlight(log) == Some(log[a].who)
  {
    if a < |log| - 1 {
      StillFlying(log[..|log| - 1], first, margin, a);
    }
  }

  /** A caller told the token is fresh was told so of a token outside the margin. */
  lemma ReuseIsFresh(log: seq<Event>, first: int, margin: int, i: nat)
    requires SingleFlight(log, first, margin) && i < |log| && log[i].Reused?
    ensures !NeedsRefresh(Expiry(log[..i], first), margin, log[i].at)
  {
    PrefixSingleFlight(log, first, margin, i + 1);
    assert log[..i + 1][..i] == log[..i];
  }

  /** A caller that returned well is on the log, as having found or made the token fresh. */
  predicate ReturnsLogged(s: System) {
    forall i | 0 <= i < |s.callers| && s.callers[i].place.Returned? ::
      (s.callers[i].place.outcome.AlreadyFresh? ==> exists k :: 0 <= k < |s.log| && s.log[k].Reused? && s.log[k].who == i) &&
      (s.callers[i].place.outcome.Refreshed? ==> exists k :: 0 <= k < |s.log| && s.log[k].Succeeded? && s.log[k].who == i)
  }

  lemma {:induction false} ReturnsAreLogged(s: System, actions: seq<Action>, margin: int)
    requires Initial(s)
    ensures ReturnsLogged(Run(s, actions, margin))
  {
    if actions == [] {
    } else {
      ReturnsAreLogged(s, actions[..|actions| - 1], margin);
      StepLogsReturns(Run(s, actions[..|actions| - 1], margin), actions[|actions| - 1], margin);
    }
  }

  lemma StepLogsReturns(s: System, a: Action, margin: int)
    requires ReturnsLogged(s)
    ensures ReturnsLogged(Step(s, a, margin))
  {
    var r := Step(s, a, margin);
    assert forall k | 0 <= k < |s.log| :: k < |r.log| && r.log[k] == s.log[k];
    forall i | 0 <= i < |r.callers| && r.callers[i].place.Returned?
      ensures r.callers[i].place.outcome.AlreadyFresh? ==> exists k :: 0 <= k < |r.log| && r.log[k].Reused? && r.log[k].who == i
      ensures r.callers[i].place.outcome.Refreshed? ==> exists k :: 0 <= k < |r.log| && r.log[k].Succeeded? && r.log[k].who == i
    {
      if s.callers[i] != r.callers[i] && |r.log| > |s.log| {
        assert r.log[|s.log|].who == i;
      }
    }
  }

  /** Whoever is told the token is fresh was told so at a moment when it was. */
  lemma OkMeansFresh(s: System, actions: seq<Action>, margin: int, i: nat) returns (k: nat)
    requires Initial(s)
    requires At(Run(s, actions, margin), i, Returned(AlreadyFresh))
    ensures var log := Run(s, actions, margin).log;
      k < |log| && log[k].Reused? && log[k].who == i && !NeedsRefresh(Expiry(log[..k], s.expiresAt), margin, log[k].at)
  {
    EveryRunIsOk(s, actions, margin);
    ReturnsAreLogged(s, actions, margin);
    var log := Run(s, actions, margin).log;
    k :| 0 <= k < |log| && log[k].Reused? && log[k].who == i;
    ReuseIsFresh(log, s.expiresAt, margin, k);
  }

  /** Where the call in flight began; only reuses came after it. */
  lemma {:induction false} FlightBegan(log: seq<Event>, first: int, margin: int) returns (b: nat)
    requires SingleFlight(log, first, margin) && InFlight(log).Some?
    ensures b < |log| && log[b].Began? && InFlight(log) == Some(log[b].who)
    ensures forall j | b < j < |log| :: log[j].Reused?
  {
    b := |log| - 1;
    if !log[b].Began? { b := FlightBegan(log[..b], first, margin); }
  }

  lemma SuccessHasCall(log: seq<Event>, first: int, margin: int, k: nat) returns (b: nat)
    requires SingleFlight(log, first, margin) && k < |log| && log[k].Succeeded?
    ensures b < k && log[b].Began? && log[b].who == log[k].who && forall j | b < j < k :: log[j].Reused?
    ensures log[b].kind.Ensure? ==> NeedsRefresh(Expiry(log[..b], first), margin, log[b].at)
    ensures Expiry(log[..k + 1], first) == log[k].expiresAt
  {
    PrefixSingleFlight(log, first, margin, k + 1);
    assert log[..k + 1][..k] == log[..k];
    b := FlightBegan(log[..k], first, margin);
    PrefixSingleFlight(log, first, margin, b + 1);
    assert log[..b + 1][..b] == log[..b];
  }

  /**
   Whoever is told the token was refreshed made the one call that brought it: one that `ensure_fresh` began
   for a token in need, and whose answer became the token's expiry.  What it brought is fresh exactly when that
   expiry is known and further away than the margin; nothing checks it.
   */
  lemma OkMeansRefreshed(s: System, actions: seq<Action>, margin: int, i: nat) returns (b: nat, k: nat)
    requires Initial(s)
    requires At(Run(s, actions, margin), i, Returned(Refreshed))
    ensures var log := Run(s, actions, margin).log;
      b < k < |log| && log[b].Began? && log[b].who == i && log[k].Succeeded? && log[k].who == i &&
      (forall j | b < j < k :: log[j].Reused?) &&
      (log[b].kind.Ensure? ==> NeedsRefresh(Expiry(log[..b], s.expiresAt), margin, log[b].at)) &&
      (!NeedsRefresh(Expiry(log[..k + 1], s.expiresAt), margin, log[k].at) <==>
       log[k].expiresAt != 0 && log[k].expiresAt - log[k].at > margin)
  {
    EveryRunIsOk(s, actions, margin);
    ReturnsAreLogged(s, actions, margin);
    var log := Run(s, actions, margin).log;
    k :| 0 <= k < |log| && log[k].Succeeded? && log[k].who == i;
    b := SuccessHasCall(log, s.expiresAt, margin, k);
  }

  /** `force_refresh` has no second check: two of them refresh twice, the second time a fresh token. */
  lemma ForcedTwice(expiresAt: int, renewed: int, now: int, margin: int)
    requires !NeedsRefresh(renewed, margin, now)
    ensures var s := System([Caller(Force, Arrived), Caller(Force, Arrived)], None, expiresAt, now, []);
      var actions := [Check(0), Check(1), Acquire(0), Recheck(0), Succeed(0, renewed), Acquire(1), Recheck(1)];
      Run(s, actions, margin).log == [Began(0, Force, now), Succeeded(0, renewed, now), Began(1, Force, now)]
  {
    var s := System([Caller(Force, Arrived), Caller(Force, Arrived)], None, expiresAt, now, []);
    var actions := [Check(0), Check(1), Acquire(0), Recheck(0), Succeed(0, renewed), Acquire(1), Recheck(1)];
    var s4 := Run(s, actions[..4], margin);
    assert s4.log == [Began(0, Force, now)] && s4.holder == Some(0) && s4.expiresAt == expiresAt && s4.now == now &&
           s4.callers == [Caller(Force, Calling), Caller(Force, Waiting)] by {
      assert actions[..4][..3] == actions[..3] && actions[..3][..2] == actions[..2] && actions[..2][..1] == actions[..1];
      assert actions[..1][..0] == [];
      assert Run(s, actions[..1][..0], margin) == s;
      assert Run(s, actions[..1], margin) == Step(s, Check(0), margin);
      assert Run(s, actions[..2], margin) == Step(Run(s, actions[..1], margin), Check(1), margin);
      assert Run(s, actions[..3], margin) == Step(Run(s, actions[..2], margin), Acquire(0), margin);
    }
    assert actions[..7] == actions && actions[..7][..6] == actions[..6] && actions[..6][..5] == actions[..5] && actions[..5][..4] == actions[..4];
    assert Run(s, actions[..5], margin) == Step(s4, Succeed(0, renewed), margin);
    assert Run(s, actions[..6], margin) == Step(Run(s, actions[..5], margin), Acquire(1), margin);
  }

  /** A caller of `ensure_fresh` that finds the token outside the margin returns at once, whoever holds the lock. */
  lemma FreshNeedsNoLock(s: System, who: nat, margin: int)
    requires At(s, who, Arrived) && s.callers[who].kind == Ensure
    requires s.expiresAt != 0 && s.expiresAt - s.now > margin
    ensures var r := Step(s, Check(who), margin);
      At(r, who, Returned(AlreadyFresh)) && r.log == s.log + [Reused(who, s.now)] && r.expiresAt == s.expiresAt &&
      (s.holder != Some(who) ==> r.holder == s.holder)
  {
  }

  lemma TwoSteps(s: System, actions: seq<Action>, margin: int)
    requires |actions| == 2
    ensures Run(s, actions, margin) == Step(Step(s, actions[0], margin), actions[1], margin)
  {
    assert actions[..1][..0] == [];
    assert Run(s, actions[..1], margin) == Step(s, actions[0], margin);
  }

  lemma {:induction false} RunOn(s: System, a: seq<Action>, b: seq<Action>, margin: int)
    ensures Run(s, a + b, margin) == Run(Run(s, a, margin), b, margin)
  {
    if b == [] {
      assert a + b == a;
    } else {
      assert (a + b)[..|a + b| - 1] == a + b[..|b| - 1];
      RunOn(s, a, b[..|b| - 1], margin);
    }
  }

  /**
   Two callers of `ensure_fresh` on a token in need: the first refreshes, and the second, which was waiting
   for the lock, finds the token fresh and makes no call.
   */
  lemma WaiterReuses(expiresAt: int, renewed: int, now: int, margin: int)
    requires expiresAt == 0 || expiresAt - now <= margin
    requires renewed != 0 && renewed - now > margin
    ensures var s := System([Caller(Ensure, Arrived), Caller(Ensure, Arrived)], None, expiresAt, now, []);
      Run(s, [Check(0), Check(1), Acquire(0), Recheck(0), Succeed(0, renewed), Acquire(1), Recheck(1)], margin) ==
        System([Caller(Ensure, Returned(Refreshed)), Caller(Ensure, Returned(AlreadyFresh))], None, renewed, now,
               [Began(0, Ensure, now), Succeeded(0, renewed, now), Reused(1, now)])
  {
    var s := System([Caller(Ensure, Arrived), Caller(Ensure, Arrived)], None, expiresAt, now, []);
    var s4 := System([Caller(Ensure, Calling), Caller(Ensure, Waiting)], Some(0), expiresAt, now, [Began(0, Ensure, now)]);
    var a, b := [Check(0), Check(1), Acquire(0), Recheck(0)], [Succeed(0, renewed), Acquire(1), Recheck(1)];
    FirstCalls(expiresAt, now, margin);
    SecondReuses(expiresAt, renewed, now, margin);
    RunOn(s, a, b, margin);
    assert a + b == [Check(0), Check(1), Acquire(0), Recheck(0), Succeed(0, renewed), Acquire(1), Recheck(1)];
  }

  lemma FirstCalls(expiresAt: int, now: int, margin: int)
    requires expiresAt == 0 || expiresAt - now <= margin
    ensures Run(System([Caller(Ensure, Arrived), Caller(Ensure, Arrived)], None, expiresAt, now, []),
                [Check(0), Check(1), Acquire(0), Recheck(0)], margin) ==
      System([Caller(Ensure, Calling), Caller(Ensure, Waiting)], Some(0), expiresAt, now, [Began(0, Ensure, now)])
  {
    var s := System([Caller(Ensure, Arrived), Caller(Ensure, Arrived)], None, expiresAt, now, []);
    var s2 := System([Caller(Ensure, Waiting), Caller(Ensure, Waiting)], None, expiresAt, now, []);
    var a, b := [Check(0), Check(1)], [Acquire(0), Recheck(0)];
    TwoSteps(s, a, margin);
    assert Run(s, a, margin) == s2;
    TwoSteps(s2, b, margin);
    RunOn(s, a, b, margin);
    assert a + b == [Check(0), Check(1), Acquire(0), Recheck(0)];
  }

  lemma SecondReuses(expiresAt: int, renewed: int, now: int, margin: int)
    requires renewed != 0 && renewed - now > margin
    ensures Run(System([Caller(Ensure, Calling), Caller(Ensure, Waiting)], Some(0), expiresAt, now, [Began(0, Ensure, now)]),
                [Succeed(0, renewed), Acquire(1), Recheck(1)], margin) ==
      System([Caller(Ensure, Returned(Refreshed)), Caller(Ensure, Returned(AlreadyFresh))], None, renewed, now,
             [Began(0, Ensure, now), Succeeded(0, renewed, now), Reused(1, now)])
  {
    var s := System([Caller(Ensure, Calling), Caller(Ensure, Waiting)], Some(0), expiresAt, now, [Began(0, Ensure, now)]);
    var a, b := [Succeed(0, renewed), Acquire(1)], [Recheck(1)];
    TwoSteps(s, a, margin);
    assert b[..0] == [];
    assert Run(Run(s, a, margin), b, margin) == Step(Run(s, a, margin), Recheck(1), margin);
    RunOn(s, a, b, margin);
    assert a + b == [Succeed(0, renewed), Acquire(1), Recheck(1)];
  }

  // ---- The shared credential ----

  /** The credential with its lock; each method is one uninterrupted step of the caller named. */
  class Credential {
    const margin: int
    var callers: seq<Caller>
    var holder: Option<nat>
    var expiresAt: int
    var now: int
    var log: seq<Event>

    constructor (kinds: seq<Kind>, expiresAt: int, now: int, margin: int)
      ensures this.margin == margin && Initial(State()) && State().expiresAt == expiresAt && State().now == now
      ensures |State().callers| == |kinds| && forall i | 0 <= i < |kinds| :: State().callers[i].kind == kinds[i]
    {
      this.margin, this.expiresAt, this.now, holder, log := margin, expiresAt, now, None, [];
      callers := seq(|kinds|, i requires 0 <= i < |kinds| => Caller(kinds[i], Arrived));
    }

    function State(): System
      reads this
    {
      System(callers, holder, expiresAt, now, log)
    }

    method Place(who: nat, place: Place)
      requires who < |callers|
      modifies this`callers
      ensures State() == Move(old(State()), who, place)
    {
      callers := callers[who := callers[who].(place := place)];
    }

    method Return(who: nat, outcome: Outcome)
      requires who < |callers|
      modifies this`callers, this`holder
      ensures State() == Leave(old(State()), who, outcome, [])
    {
      assert log + [] == log;
      Place(who, Returned(outcome));
      if holder == Some(who) { holder := None; }
    }

    method FirstCheck(who: nat)
      requires At(State(), who, Arrived)
      modifies this`callers, this`holder, this`log
      ensures State() == Step(old(State()), Check(who), margin)
    {
      if callers[who].kind.Ensure? && !NeedsRefresh(expiresAt, margin, now) {
        Return(who, AlreadyFresh);
        log := log + [Reused(who, now)];
      } else {
        Place(who, Waiting);
      }
    }

    method TakeLock(who: nat)
      requires At(State(), who, Waiting) && holder.None?
      modifies this`callers, this`holder
      ensures State() == Step(old(State()), Acquire(who), margin)
    {
      Place(who, Holding);
      holder := Some(who);
    }

    method SecondCheck(who: nat)
      requires At(State(), who, Holding)
      modifies this`callers, this`holder, this`log
      ensures State() == Step(old(State()), Recheck(who), margin)
    {
      if callers[who].kind.Ensure? && !NeedsRefresh(expiresAt, margin, now) {
        Return(who, AlreadyFresh);
        log := log + [Reused(who, now)];
      } else {
        log := log + [Began(who, callers[who].kind, now)];
        Place(who, Calling);
      }
    }

    /** The refresh call's answer: a new expiry, or a failure. */
    method Answer(who: nat, answer: Option<int>)
      requires At(State(), who, Calling)
      modifies this`callers, this`holder, this`expiresAt, this`log
      ensures State() == Step(old(State()), if answer.Some? then Succeed(who, answer.value) else Fail(who), margin)
    {
      if answer.Some? {
        expiresAt := answer.value;
        Return(who, Refreshed);
        log := log + [Succeeded(who, answer.value, now)];
      } else {
        Return(who, Failed);
        log := log + [Ended(who, now)];
      }
    }
  }
}
