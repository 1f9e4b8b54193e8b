/** The bounded shadow store against the plain record of what was stored. */
module ShadowTheorems {
  import opened Wrappers
  import opened Recency
  import opened ShadowStore
  import Policy = ChatPolicy

  // ---- Runs ----

  datatype Op = DoPut(fp: string, ids: seq<string>, reasoning: string) | DoRestore(fp: string, ids: seq<string>) | DoClear(fp: string)

  datatype Timed = Timed(op: Op, at: int)

  ghost function Apply(s: Store, e: Timed, lim: Limits): Store {
    match e.op
    case DoPut(fp, ids, reasoning) => Put(s, fp, ids, reasoning, e.at, lim)
    case DoRestore(fp, ids) => Restore(s, fp, ids, e.at, lim).store
    case DoClear(fp) => Clear(s, fp)
  }

  ghost function Run(es: seq<Timed>, lim: Limits): Store {
    if es == [] then EMPTY else Apply(Run(es[..|es| - 1], lim), es[|es| - 1], lim)
  }

  /** Reasoning worth keeping: some, for some call, within the size limit. */
  predicate Storable(ids: seq<string>, reasoning: string, lim: Limits) {
    reasoning != "" && ids != [] && |reasoning| <= lim.maxEntryBytes
  }

  /** What an unbounded map would hold: the latest accepted store for the id since the session was cleared. */
  function Latest(es: seq<Timed>, fp: string, id: string, lim: Limits): Option<Entry> {
    if es == [] then None else
      var e := es[|es| - 1];
      if e.op.fp == fp && e.op.DoClear? then None
      else if e.op.fp == fp && e.op.DoPut? && Storable(e.op.ids, e.op.reasoning, lim) && id in e.op.ids
      then Some(Entry(e.op.reasoning, e.at))
      else Latest(es[..|es| - 1], fp, id, lim)
  }

  // ---- Eviction only takes whole sessions ----

  predicate Within(small: map<string, Session>, big: map<string, Session>) {
    forall fp | fp in small :: fp in big && small[fp] == big[fp]
  }

  lemma {:induction false} EvictBytesWithin(s: Store, lim: Limits)
    ensures Within(EvictBytes(s, lim).sessions, s.sessions)
    decreases |s.lru|
  {
    if s.total > lim.maxTotalBytes && s.lru != [] { EvictBytesWithin(Remove(s, s.lru[0]), lim); }
  }

  lemma {:induction false} EvictCountWithin(s: Store, lim: Limits)
    ensures Within(EvictCount(s, lim).sessions, s.sessions)
    decreases |s.lru|
  {
    if |s.sessions| > lim.maxSessions && s.lru != [] { EvictCountWithin(Remove(s, s.lru[0]), lim); }
  }

  lemma EnforceWithin(s: Store, now: int, lim: Limits)
    ensures Within(Enforce(s, now, lim).sessions, s.sessions)
  {
    EvictBytesWithin(DropExpired(s, now, lim), lim);
    EvictCountWithin(EvictBytes(DropExpired(s, now, lim), lim), lim);
  }

  lemma {:induction false} InsertMeaning(entries: map<string, Entry>, ids: seq<string>, entry: Entry, id: string)
    ensures var r := Insert(entries, ids, entry);
      (id in r <==> id in ids || id in entries) && (id in r ==> r[id] == if id in ids then entry else entries[id])
  {
    if ids == [] {
    } else {
      var init, last := ids[..|ids| - 1], ids[|ids| - 1];
      InsertMeaning(entries, init, entry, id);
      assert id in ids <==> id in init || id == last;
    }
  }

  // ---- Refinement ----

  predicate Refines(s: Store, es: seq<Timed>, lim: Limits) {
    forall fp, id | fp in s.sessions && id in s.sessions[fp].entries :: Latest(es, fp, id, lim) == Some(s.sessions[fp].entries[id])
  }

  /** Whatever is held is what the unbounded map holds. */
  lemma {:induction false} HeldIsLatest(es: seq<Timed>, lim: Limits)
    ensures Refines(Run(es, lim), es, lim)
  {
    if es == [] {
    } else {
      var init, e := es[..|es| - 1], es[|es| - 1];
      HeldIsLatest(init, lim);
      var s := Run(init, lim);
      forall fp, id | fp in Run(es, lim).sessions && id in Run(es, lim).sessions[fp].entries
        ensures Latest(es, fp, id, lim) == Some(Run(es, lim).sessions[fp].entries[id])
      {
        StepRefines(s, init, e, lim, fp, id);
      }
    }
  }

  lemma StepRefines(s: Store, init: seq<Timed>, e: Timed, lim: Limits, fp: string, id: string)
    requires Refines(s, init, lim)
    requires fp in Apply(s, e, lim).sessions && id in Apply(s, e, lim).sessions[fp].entries
    ensures Latest(init + [e], fp, id, lim) == Some(Apply(s, e, lim).sessions[fp].entries[id])
  {
    LatestAfter(init, e, fp, id, lim);
    if e.op.DoPut? {
      PutHolds(s, e.op.fp, e.op.ids, e.op.reasoning, e.at, lim, fp, id);
    }
  }

  /** The record after one more step. */
  lemma LatestAfter(init: seq<Timed>, e: Timed, fp: string, id: string, lim: Limits)
    ensures Latest(init + [e], fp, id, lim) ==
      if e.op.fp == fp && e.op.DoClear? then None
      else if e.op.fp == fp && e.op.DoPut? && Storable(e.op.ids, e.op.reasoning, lim) && id in e.op.ids
      then Some(Entry(e.op.reasoning, e.at))
      else Latest(init, fp, id, lim)
  {
    assert (init + [e])[..|init|] == init;
  }

  /** What is held after a store was stored by it, or was held before. */
  lemma PutHolds(s: Store, name: string, ids: seq<string>, reasoning: string, now: int, lim: Limits, fp: string,
      id: string)
    requires fp in Put(s, name, ids, reasoning, now, lim).sessions && id in Put(s, name, ids, reasoning, now, lim).sessions[fp].entries
    ensures var entry := Put(s, name, ids, reasoning, now, lim).sessions[fp].entries[id];
      if Storable(ids, reasoning, lim) && name == fp && id in ids then entry == Entry(reasoning, now)
      else fp in s.sessions && id in s.sessions[fp].entries && s.sessions[fp].entries[id] == entry
  {
    if Storable(ids, reasoning, lim) {
      EnforceWithin(Added(s, name, ids, reasoning, now), now, lim);
      InsertMeaning(if name in s.sessions then s.sessions[name].entries else map[], ids, Entry(reasoning, now), id);
    }
  }

  /**
   A restore returns nothing, or the reasoning last stored for the first of the ids that is held: of
   that session, within its time, and not cleared since.
   */
  lemma RestoreIsLatest(es: seq<Timed>, fp: string, ids: seq<string>, now: int, lim: Limits)
    ensures var r := Restore(Run(es, lim), fp, ids, now, lim).reasoning;
      r.Some? ==> exists id, created :: id in ids && Latest(es, fp, id, lim) == Some(Entry(r.value, created)) && now - created <= lim.ttl
  {
    HeldIsLatest(es, lim);
    var s := Run(es, lim);
    if fp in s.sessions {
      var id := FirstPresent(s.sessions[fp].entries, ids);
      if id.Some? {
        var entry := s.sessions[fp].entries[id.value];
        assert Latest(es, fp, id.value, lim) == Some(Entry(entry.reasoning, entry.created));
      }
    }
  }

  // ---- Accounting ----

  /** The bytes really held by the entries of one session. */
  ghost function Held(m: map<string, Entry>): nat {
    if m == map[] then 0 else
      var k :| k in m;
      |m[k].reasoning| + Held(m - {k})
  }

  lemma {:induction false} HeldWithout(m: map<string, Entry>, id: string)
    requires id in m
    ensures Held(m) == |m[id].reasoning| + Held(m - {id})
    decreases |m|
  {
    var k :| k in m && Held(m) == |m[k].reasoning| + Held(m - {k});
    if k != id {
      HeldWithout(m - {k}, id);
      HeldWithout(m - {id}, k);
      assert m - {k} - {id} == m - {id} - {k};
    }
  }

  lemma HeldUpdate(m: map<string, Entry>, id: string, e: Entry)
    ensures Held(m[id := e]) <= Held(m) + |e.reasoning|
  {
    HeldWithout(m[id := e], id);
    assert m[id := e] - {id} == m - {id};
    if id in m { HeldWithout(m, id); } else { assert m - {id} == m; }
  }

  lemma {:induction false} HeldInsert(m: map<string, Entry>, ids: seq<string>, e: Entry)
    ensures Held(Insert(m, ids, e)) <= Held(m) + |e.reasoning| * |ids|
  {
    if ids == [] {
    } else {
      var init := ids[..|ids| - 1];
      HeldInsert(m, init, e);
      HeldUpdate(Insert(m, init, e), ids[|ids| - 1], e);
      OneMore(|e.reasoning|, |init|);
    }
  }

  lemma OneMore(a: nat, n: nat)
    ensures a * (n + 1) == a * n + a
  {
  }

  lemma SumUpdate(m: map<string, Session>, fp: string, session: Session)
    ensures SumBytes(m[fp := session]) == SumBytes(m - {fp}) + session.bytes
    ensures SumBytes(m) == SumBytes(m - {fp}) + (if fp in m then m[fp].bytes else 0)
  {
    SumWithout(m[fp := session], fp);
    assert m[fp := session] - {fp} == m - {fp};
    if fp in m { SumWithout(m, fp); } else { assert m - {fp} == m; }
  }

  predicate SameKeys(s: Store) {
    (forall fp | fp in s.lru :: fp in s.sessions) && forall fp | fp in s.sessions :: fp in s.lru
  }

  ghost predicate Honest(s: Store) {
    forall fp | fp in s.sessions :: Held(s.sessions[fp].entries) <= s.sessions[fp].bytes
  }

  /**
   `lru` lists the live sessions once each in creation order, the total is the sum of the session
   counts, and each count covers the bytes its entries hold.
   */
  ghost predicate StoreOk(s: Store, log: seq<Touch>) {
    SameKeys(s) && InTouchOrder(s.lru, log) && s.total == SumBytes(s.sessions) && Honest(s)
  }

  lemma RemoveOk(s: Store, log: seq<Touch>, name: string)
    requires StoreOk(s, log)
    ensures StoreOk(Remove(s, name), log) && Remove(s, name).total <= s.total
  {
    WithoutIsWithoutAll(s.lru, name);
    OrderWithoutAll(s.lru, log, {name});
    if name in s.sessions {
      SumWithout(s.sessions, name);
    } else {
      assert s.sessions - {name} == s.sessions;
    }
  }

  lemma RemoveCount(s: Store, name: string)
    requires name in s.sessions
    ensures |Remove(s, name).sessions| == |s.sessions| - 1
  {
    assert (s.sessions - {name}).Keys == s.sessions.Keys - {name};
    assert |s.sessions.Keys - {name}| == |s.sessions.Keys| - 1;
  }

  lemma {:induction false} DropOk(s: Store, log: seq<Touch>, gone: set<string>)
    requires StoreOk(s, log) && gone <= s.sessions.Keys
    ensures StoreOk(Drop(s, gone), log)
    decreases |gone|
  {
    if gone == {} {
      DropNothing(s);
    } else {
      var name :| name in gone;
      RemoveOk(s, log, name);
      DropStep(s, gone, name);
      DropOk(Remove(s, name), log, gone - {name});
    }
  }

  lemma NothingListed(s: Store, log: seq<Touch>)
    requires StoreOk(s, log)
    ensures s.lru == [] ==> s.total == 0 && |s.sessions| == 0
    ensures s.lru != [] ==> s.lru[0] in s.sessions
  {
    if s.lru == [] {
      assert s.sessions.Keys == {};
      assert s.sessions == map[];
    } else {
      assert s.lru[0] in s.lru;
    }
  }

  lemma {:induction false} EvictBytesOk(s: Store, log: seq<Touch>, lim: Limits)
    requires StoreOk(s, log)
    ensures StoreOk(EvictBytes(s, lim), log) && EvictBytes(s, lim).total <= lim.maxTotalBytes
    decreases |s.lru|
  {
    NothingListed(s, log);
    if s.total > lim.maxTotalBytes {
      RemoveOk(s, log, s.lru[0]);
      EvictBytesOk(Remove(s, s.lru[0]), log, lim);
    }
  }

  lemma {:induction false} EvictCountOk(s: Store, log: seq<Touch>, lim: Limits)
    requires StoreOk(s, log)
    ensures var r := EvictCount(s, lim); StoreOk(r, log) && r.total <= s.total && |r.sessions| <= lim.maxSessions
    decreases |s.lru|
  {
    NothingListed(s, log);
    if |s.sessions| > lim.maxSessions {
      RemoveOk(s, log, s.lru[0]);
      EvictCountOk(Remove(s, s.lru[0]), log, lim);
    }
  }

  lemma EnforceOk(s: Store, log: seq<Touch>, now: int, lim: Limits)
    requires StoreOk(s, log)
    ensures var r := Enforce(s, now, lim);
      StoreOk(r, log) && r.total <= lim.maxTotalBytes && |r.sessions| <= lim.maxSessions
  {
    DropOk(s, log, ExpiredSessions(s, now, lim));
    EvictBytesOk(DropExpired(s, now, lim), log, lim);
    EvictCountOk(EvictBytes(DropExpired(s, now, lim), lim), log, lim);
  }

  /** An accepted store to an unknown session creates it. */
  function Creations(s: Store, e: Timed, lim: Limits): seq<Touch> {
    if e.op.DoPut? && Storable(e.op.ids, e.op.reasoning, lim) && e.op.fp !in s.sessions then [Touch(e.op.fp, e.at)] else []
  }

  ghost function CreationLog(es: seq<Timed>, lim: Limits): seq<Touch> {
    if es == [] then [] else
      CreationLog(es[..|es| - 1], lim) + Creations(Run(es[..|es| - 1], lim), es[|es| - 1], lim)
  }

  function WithSession(s: Store, fp: string, session: Session, added: nat): Store {
    Store(s.sessions[fp := session], if fp in s.sessions then s.lru else s.lru + [fp], s.total + added)
  }

  lemma AddedListed(s: Store, log: seq<Touch>, fp: string, session: Session, added: nat, now: int)
    requires SameKeys(s) && InTouchOrder(s.lru, log)
    ensures var s' := WithSession(s, fp, session, added);
      SameKeys(s') && InTouchOrder(s'.lru, if fp in s.sessions then log else log + [Touch(fp, now)])
  {
    if fp !in s.sessions {
      WithoutAbsent(s.lru, fp);
      OrderAfterTouch(s.lru, log, Touch(fp, now));
    }
  }

  lemma AddedCounts(s: Store, fp: string, session: Session, added: nat)
    requires s.total == SumBytes(s.sessions) && Honest(s)
    requires Held(session.entries) <= session.bytes == SessionOf(s, fp).bytes + added
    ensures var s' := WithSession(s, fp, session, added); s'.total == SumBytes(s'.sessions) && Honest(s')
  {
    SumUpdate(s.sessions, fp, session);
  }

  /** The session as it was; an unknown one is empty. */
  function SessionOf(s: Store, fp: string): Session {
    if fp in s.sessions then s.sessions[fp] else Session(map[], 0)
  }

  /** A store adds `added` bytes to its session, which cover what the session then holds. */
  lemma AddedSession(s: Store, fp: string, ids: seq<string>, reasoning: string, now: int)
    returns (session: Session, added: nat)
    requires fp in s.sessions ==> Held(s.sessions[fp].entries) <= s.sessions[fp].bytes
    ensures Held(session.entries) <= session.bytes == SessionOf(s, fp).bytes + added
    ensures Added(s, fp, ids, reasoning, now) == WithSession(s, fp, session, added)
  {
    HeldInsert(SessionOf(s, fp).entries, ids, Entry(reasoning, now));
    added := |reasoning| * |ids|;
    session := Session(Insert(SessionOf(s, fp).entries, ids, Entry(reasoning, now)), SessionOf(s, fp).bytes + added);
  }

  lemma AddedStays(s: Store, log: seq<Touch>, fp: string, session: Session, added: nat, now: int)
    requires StoreOk(s, log) && Held(session.entries) <= session.bytes == SessionOf(s, fp).bytes + added
    ensures StoreOk(WithSession(s, fp, session, added), if fp in s.sessions then log else log + [Touch(fp, now)])
  {
    AddedCounts(s, fp, session, added);
    AddedListed(s, log, fp, session, added, now);
  }

  lemma AddedOk(s: Store, log: seq<Touch>, fp: string, ids: seq<string>, reasoning: string, now: int)
    requires StoreOk(s, log)
    ensures StoreOk(Added(s, fp, ids, reasoning, now), if fp in s.sessions then log else log + [Touch(fp, now)])
  {
    var session, added := AddedSession(s, fp, ids, reasoning, now);
    AddedStays(s, log, fp, session, added, now);
  }

  lemma RestoreOk(s: Store, log: seq<Touch>, fp: string, ids: seq<string>, now: int, lim: Limits)
    requires StoreOk(s, log)
    ensures StoreOk(Restore(s, fp, ids, now, lim).store, log)
  {
    if fp in s.sessions {
      var session := s.sessions[fp];
      var id := FirstPresent(session.entries, ids);
      if id.Some? {
        var session' := session.(entries := session.entries - {id.value});
        HeldWithout(session.entries, id.value);
        SumUpdate(s.sessions, fp, session');
      }
    }
  }

  lemma StepOk(s: Store, log: seq<Touch>, e: Timed, lim: Limits)
    requires StoreOk(s, log)
    ensures StoreOk(Apply(s, e, lim), log + Creations(s, e, lim))
    ensures e.op.DoPut? && Storable(e.op.ids, e.op.reasoning, lim) ==>
      Apply(s, e, lim).total <= lim.maxTotalBytes && |Apply(s, e, lim).sessions| <= lim.maxSessions
  {
    assert log + [] == log;
    match e.op
    case DoPut(fp, ids, reasoning) =>
      if Storable(ids, reasoning, lim) {
        AddedOk(s, log, fp, ids, reasoning, e.at);
        EnforceOk(Added(s, fp, ids, reasoning, e.at), log + Creations(s, e, lim), e.at, lim);
      }
    case DoRestore(fp, ids) => RestoreOk(s, log, fp, ids, e.at, lim);
    case DoClear(fp) => RemoveOk(s, log, fp);
  }

  /** In every reachable state; and after every accepted store both limits hold. */
  lemma {:induction false} ReachableIsOk(es: seq<Timed>, lim: Limits)
    ensures StoreOk(Run(es, lim), CreationLog(es, lim))
    ensures es != [] && es[|es| - 1].op.DoPut? && Storable(es[|es| - 1].op.ids, es[|es| - 1].op.reasoning, lim) ==>
      Run(es, lim).total <= lim.maxTotalBytes && |Run(es, lim).sessions| <= lim.maxSessions
  {
    if es == [] {
    } else {
      var init := es[..|es| - 1];
      ReachableIsOk(init, lim);
      StepOk(Run(init, lim), CreationLog(init, lim), es[|es| - 1], lim);
    }
  }

  // ---- What eviction keeps ----

  /** The byte counts of the named sessions. */
  function BytesOf(sessions: map<string, Session>, names: seq<string>): nat {
    if names == [] then 0 else
      (if names[0] in sessions then sessions[names[0]].bytes else 0) + BytesOf(sessions, names[1..])
  }

  predicate Fits(sessions: map<string, Session>, names: seq<string>, lim: Limits) {
    BytesOf(sessions, names) <= lim.maxTotalBytes && |names| <= lim.maxSessions
  }

  /** The longest tail of the list that fits. */
  function Fitting(sessions: map<string, Session>, names: seq<string>, lim: Limits): seq<string> {
    if names == [] || Fits(sessions, names, lim) then names else Fitting(sessions, names[1..], lim)
  }

  lemma {:induction false} BytesRead(m: map<string, Session>, m': map<string, Session>, names: seq<string>)
    requires forall n | n in names :: n in m && n in m' && m[n] == m'[n]
    ensures BytesOf(m, names) == BytesOf(m', names)
  {
    if names == [] {
    } else {
      assert names[0] in names;
      assert forall n | n in names[1..] :: n in names;
      BytesRead(m, m', names[1..]);
    }
  }

  lemma {:induction false} FittingReads(m: map<string, Session>, m': map<string, Session>, names: seq<string>,
      lim: Limits)
    requires forall n | n in names :: n in m && n in m' && m[n] == m'[n]
    ensures Fitting(m, names, lim) == Fitting(m', names, lim)
  {
    if names == [] {
    } else {
      BytesRead(m, m', names);
      assert forall n | n in names[1..] :: n in names;
      FittingReads(m, m', names[1..], lim);
    }
  }

  /** Dropping the front of the list. */
  lemma RemoveFront(s: Store, log: seq<Touch>)
    requires StoreOk(s, log) && s.lru != []
    ensures var r := Remove(s, s.lru[0]);
      r.lru == s.lru[1..] && StoreOk(r, log) && |r.sessions| == |s.sessions| - 1 && r.total <= s.total &&
      r.total == s.total - s.sessions[s.lru[0]].bytes && forall n | n in r.lru :: n in s.sessions && r.sessions[n] == s.sessions[n]
  {
    NothingListed(s, log);
    TouchOrderIsDistinct(s.lru, log);
    WithoutFront(s.lru);
    RemoveOk(s, log, s.lru[0]);
    RemoveCount(s, s.lru[0]);
    SumWithout(s.sessions, s.lru[0]);
  }

  lemma {:induction false} ListedBytes(s: Store, log: seq<Touch>)
    requires StoreOk(s, log)
    ensures BytesOf(s.sessions, s.lru) == s.total && |s.lru| == |s.sessions|
    decreases |s.lru|
  {
    NothingListed(s, log);
    if s.lru != [] {
      RemoveFront(s, log);
      var r := Remove(s, s.lru[0]);
      ListedBytes(r, log);
      BytesRead(s.sessions, r.sessions, r.lru);
    }
  }

  ghost function Evict(s: Store, lim: Limits): Store {
    EvictCount(EvictBytes(s, lim), lim)
  }

  predicate OverLimit(s: Store, lim: Limits) {
    s.total > lim.maxTotalBytes || |s.sessions| > lim.maxSessions
  }

  lemma WithinLimits(s: Store, log: seq<Touch>, lim: Limits)
    requires StoreOk(s, log) && !OverLimit(s, lim)
    ensures Evict(s, lim) == s && Fitting(s.sessions, s.lru, lim) == s.lru
  {
    ListedBytes(s, log);
  }

  lemma EvictStep(s: Store, log: seq<Touch>, lim: Limits) returns (r: Store)
    requires StoreOk(s, log) && OverLimit(s, lim)
    ensures StoreOk(r, log) && |r.lru| < |s.lru|
    ensures Evict(s, lim) == Evict(r, lim) && Fitting(s.sessions, s.lru, lim) == Fitting(r.sessions, r.lru, lim)
  {
    NothingListed(s, log);
    ListedBytes(s, log);
    r := Remove(s, s.lru[0]);
    RemoveFront(s, log);
    EvictsFront(s, lim);
    FittingReads(s.sessions, r.sessions, r.lru, lim);
  }

  lemma {:induction false} EvictFits(s: Store, log: seq<Touch>, lim: Limits)
    requires StoreOk(s, log)
    ensures Evict(s, lim).lru == Fitting(s.sessions, s.lru, lim) && StoreOk(Evict(s, lim), log)
    decreases |s.lru|
  {
    if OverLimit(s, lim) {
      var r := EvictStep(s, log, lim);
      EvictFits(r, log, lim);
    } else {
      WithinLimits(s, log, lim);
    }
  }

  /** Over a limit, the front goes first. */
  lemma EvictsFront(s: Store, lim: Limits)
    requires s.lru != [] && Remove(s, s.lru[0]).total <= s.total
    requires s.total > lim.maxTotalBytes || |s.sessions| > lim.maxSessions
    ensures Evict(s, lim) == Evict(Remove(s, s.lru[0]), lim)
  {
  }

  /** Which of the listed sessions survive: those from which on everything fits. */
  lemma {:induction false} FittingMeaning(sessions: map<string, Session>, names: seq<string>, lim: Limits, i: nat)
    requires Distinct(names) && i < |names|
    ensures names[i] in Fitting(sessions, names, lim) <==> Fits(sessions, names[i..], lim)
  {
    if Fits(sessions, names, lim) {
      TailFits(sessions, names, lim, i);
    } else if i == 0 {
      assert names[0..] == names;
      FittingIsTail(sessions, names[1..], lim, names[0]);
    } else {
      assert names[1..][i - 1..] == names[i..];
      FittingMeaning(sessions, names[1..], lim, i - 1);
    }
  }

  lemma {:induction false} TailFits(sessions: map<string, Session>, names: seq<string>, lim: Limits, i: nat)
    requires i <= |names| && Fits(sessions, names, lim)
    ensures Fits(sessions, names[i..], lim)
  {
    if i == 0 {
      assert names[0..] == names;
    } else {
      assert names[1..][i - 1..] == names[i..];
      TailFits(sessions, names[1..], lim, i - 1);
    }
  }

  lemma {:induction false} FittingIsTail(sessions: map<string, Session>, names: seq<string>, lim: Limits,
      absent: string)
    requires absent !in names
    ensures absent !in Fitting(sessions, names, lim)
  {
    if names != [] {
      assert absent !in names[1..];
      FittingIsTail(sessions, names[1..], lim, absent);
    }
  }

  /** The sessions with an entry not yet older than the time to live, in creation order. */
  function Living(s: Store, now: int, lim: Limits): seq<string> {
    WithoutAll(s.lru, set fp | fp in s.sessions && forall id | id in s.sessions[fp].entries :: s.sessions[fp].entries[id].created + lim.ttl < now)
  }

  lemma LivingAreNotExpired(s: Store, now: int, lim: Limits)
    ensures Living(s, now, lim) == WithoutAll(s.lru, ExpiredSessions(s, now, lim))
  {
    var past := set fp | fp in s.sessions && forall id | id in s.sessions[fp].entries :: s.sessions[fp].entries[id].created + lim.ttl < now;
    forall fp | fp in s.sessions ensures fp in past <==> AllExpired(s.sessions[fp], now, lim) {}
    assert past == ExpiredSessions(s, now, lim);
  }

  lemma LivingEvicts(s: Store, log: seq<Touch>, now: int, lim: Limits, i: nat)
    requires StoreOk(s, log) && i < |Living(s, now, lim)|
    ensures Living(s, now, lim)[i] in Enforce(s, now, lim).sessions <==> Fits(s.sessions, Living(s, now, lim)[i..], lim)
  {
    var gone := ExpiredSessions(s, now, lim);
    LivingAreNotExpired(s, now, lim);
    DropOk(s, log, gone);
    var d := DropExpired(s, now, lim);
    EvictFits(d, log, lim);
    var names := Living(s, now, lim);
    TouchOrderIsDistinct(names, log);
    FittingMeaning(d.sessions, names, lim, i);
    assert forall n | n in names[i..] :: n in names;
    BytesRead(s.sessions, d.sessions, names[i..]);
  }

  /**
   Reasoning just stored can be restored at once exactly when the sessions created from its own on,
   itself included, fit the limits.
   */
  lemma JustStoredIff(s: Store, log: seq<Touch>, fp: string, ids: seq<string>, reasoning: string, now: int,
      later: int, lim: Limits, i: nat)
    requires StoreOk(s, log) && Storable(ids, reasoning, lim) && now <= later <= now + lim.ttl
    requires var names := Living(Added(s, fp, ids, reasoning, now), now, lim); i < |names| && names[i] == fp
    ensures var added := Added(s, fp, ids, reasoning, now);
      Restore(Put(s, fp, ids, reasoning, now, lim), fp, ids, later, lim).reasoning == Some(reasoning) <==>
      Fits(added.sessions, Living(added, now, lim)[i..], lim)
  {
    var added := Added(s, fp, ids, reasoning, now);
    var s' := Enforce(added, now, lim);
    AddedOk(s, log, fp, ids, reasoning, now);
    LivingEvicts(added, if fp in s.sessions then log else log + [Touch(fp, now)], now, lim, i);
    EnforceWithin(added, now, lim);
    AddedEntry(s, fp, ids, reasoning, now);
    RestoresFirst(s', fp, ids, reasoning, now, later, lim);
  }

  lemma AddedEntry(s: Store, fp: string, ids: seq<string>, reasoning: string, now: int)
    requires ids != []
    ensures var added := Added(s, fp, ids, reasoning, now);
      ids[0] in added.sessions[fp].entries && added.sessions[fp].entries[ids[0]] == Entry(reasoning, now)
  {
    InsertMeaning(if fp in s.sessions then s.sessions[fp].entries else map[], ids, Entry(reasoning, now), ids[0]);
  }

  lemma RestoresFirst(s: Store, fp: string, ids: seq<string>, reasoning: string, now: int, later: int, lim: Limits)
    requires ids != [] && later <= now + lim.ttl
    requires fp in s.sessions ==> ids[0] in s.sessions[fp].entries && s.sessions[fp].entries[ids[0]] == Entry(reasoning, now)
    ensures Restore(s, fp, ids, later, lim).reasoning == Some(reasoning) <==> fp in s.sessions
  {
  }

  /** A session that was just stored to is not expired, so it is listed. */
  lemma JustStoredLives(s: Store, log: seq<Touch>, fp: string, ids: seq<string>, reasoning: string, now: int,
      lim: Limits)
    requires StoreOk(s, log) && Storable(ids, reasoning, lim)
    ensures fp in Living(Added(s, fp, ids, reasoning, now), now, lim)
  {
    AddedOk(s, log, fp, ids, reasoning, now);
    AddedEntry(s, fp, ids, reasoning, now);
    var added := Added(s, fp, ids, reasoning, now);
    LivingAreNotExpired(added, now, lim);
    assert ids[0] in added.sessions[fp].entries;
  }

  /** The last listed name stays last. */
  lemma {:induction false} LastStays(names: seq<string>, gone: set<string>)
    requires names != [] && names[|names| - 1] !in gone
    ensures var r := WithoutAll(names, gone); r != [] && r[|r| - 1] == names[|names| - 1]
  {
  }

  /** A session's first reasoning can be restored at once exactly when it alone fits, whatever else has to go. */
  lemma NewSessionIff(s: Store, log: seq<Touch>, fp: string, ids: seq<string>, reasoning: string, now: int,
      later: int, lim: Limits)
    requires StoreOk(s, log) && fp !in s.sessions && Storable(ids, reasoning, lim) && now <= later <= now + lim.ttl
    ensures Restore(Put(s, fp, ids, reasoning, now, lim), fp, ids, later, lim).reasoning == Some(reasoning) <==>
      |reasoning| * |ids| <= lim.maxTotalBytes && lim.maxSessions >= 1
  {
    var added := Added(s, fp, ids, reasoning, now);
    JustStoredLives(s, log, fp, ids, reasoning, now, lim);
    var gone := ExpiredSessions(added, now, lim);
    LivingAreNotExpired(added, now, lim);
    LastStays(added.lru, gone);
    var names := Living(added, now, lim);
    var i := |names| - 1;
    JustStoredIff(s, log, fp, ids, reasoning, now, later, lim, i);
    assert names[i..] == [fp];
    OneSessionBytes(added.sessions, fp);
  }

  lemma OneSessionBytes(sessions: map<string, Session>, fp: string)
    requires fp in sessions
    ensures BytesOf(sessions, [fp]) == sessions[fp].bytes
  {
    assert [fp][1..] == [];
  }

  /**
   Eviction goes by creation, not by use: storing for the oldest living session past the byte limit
   loses that session's own reasoning.
   */
  lemma OldestPays(s: Store, log: seq<Touch>, fp: string, ids: seq<string>, reasoning: string, now: int, later: int,
      lim: Limits)
    requires StoreOk(s, log) && Storable(ids, reasoning, lim) && now <= later <= now + lim.ttl
    requires var added := Added(s, fp, ids, reasoning, now);
      Living(added, now, lim) != [] && Living(added, now, lim)[0] == fp &&
      BytesOf(added.sessions, Living(added, now, lim)) > lim.maxTotalBytes
    ensures Restore(Put(s, fp, ids, reasoning, now, lim), fp, ids, later, lim).reasoning != Some(reasoning)
  {
    var names := Living(Added(s, fp, ids, reasoning, now), now, lim);
    assert names[0..] == names;
    JustStoredIff(s, log, fp, ids, reasoning, now, later, lim, 0);
  }

  lemma NothingToEnforce(s: Store, now: int, lim: Limits)
    requires s.total <= lim.maxTotalBytes && |s.sessions| <= lim.maxSessions && ExpiredSessions(s, now, lim) == {}
    ensures Enforce(s, now, lim) == s
  {
    DropNothing(s);
  }

  const LIMITS: Limits := Limits(2, 3, 3, 100)

  /** Session `a` with two bytes, then session `b` with one, which fills the store. */
  const FULL: seq<Timed> := [Timed(DoPut("a", ["1"], "xy"), 0), Timed(DoPut("b", ["2"], "z"), 0)]

  function Stored(reasoning: string, id: string): Session {
    Session(map[id := Entry(reasoning, 0)], |reasoning|)
  }

  lemma FirstStored(s: Store, fp: string, id: string, reasoning: string)
    requires fp !in s.sessions
    ensures Added(s, fp, [id], reasoning, 0) ==
      Store(s.sessions[fp := Stored(reasoning, id)], s.lru + [fp], s.total + |reasoning|)
  {
    assert [id][..0] == [];
    assert Insert(map[], [id], Entry(reasoning, 0)) == map[id := Entry(reasoning, 0)];
  }

  lemma StoreIsFull()
    ensures Run(FULL, LIMITS) == Store(map["a" := Stored("xy", "1"), "b" := Stored("z", "2")], ["a", "b"], 3)
  {
    var s1 := Store(map["a" := Stored("xy", "1")], ["a"], 2);
    var s2 := Store(map["a" := Stored("xy", "1"), "b" := Stored("z", "2")], ["a", "b"], 3);
    assert FULL[..1][..0] == [];
    FirstStored(EMPTY, "a", "1", "xy");
    assert Added(EMPTY, "a", ["1"], "xy", 0) == s1;
    FreshLives("a", "xy", "1");
    NothingToEnforce(s1, 0, LIMITS);
    assert Run(FULL[..1], LIMITS) == s1;
    FirstStored(s1, "b", "2", "z");
    assert Added(s1, "b", ["2"], "z", 0) == s2;
    FreshLives("b", "z", "2");
    NothingToEnforce(s2, 0, LIMITS);
  }

  lemma FreshLives(fp: string, reasoning: string, id: string)
    ensures !AllExpired(Stored(reasoning, id), 0, LIMITS)
  {
    assert id in Stored(reasoning, id).entries;
  }

  lemma PutIntoFull(s: Store)
    requires s == Store(map["a" := Stored("xy", "1"), "b" := Stored("z", "2")], ["a", "b"], 3)
    ensures Put(s, "a", ["3"], "w", 0, LIMITS) == Store(map["b" := Stored("z", "2")], ["b"], 1)
  {
    var added := Added(s, "a", ["3"], "w", 0);
    AddedEntry(s, "a", ["3"], "w", 0);
    FreshLives("b", "z", "2");
    assert added.sessions["a"].entries["3"].created == 0;
    assert ExpiredSessions(added, 0, LIMITS) == {};
    DropNothing(added);
    FrontGoes(added);
  }

  /** In a full store the session used last loses its reasoning, old and new, and the idle one keeps its own. */
  lemma UsedLastPays()
    ensures var s := Run(FULL + [Timed(DoPut("a", ["3"], "w"), 0)], LIMITS);
      Restore(s, "a", ["3"], 0, LIMITS).reasoning == None && Restore(s, "a", ["1"], 0, LIMITS).reasoning == None &&
      Restore(s, "b", ["2"], 0, LIMITS).reasoning == Some("z")
  {
    assert (FULL + [Timed(DoPut("a", ["3"], "w"), 0)])[..2] == FULL;
    StoreIsFull();
    PutIntoFull(Run(FULL, LIMITS));
  }

  lemma FrontGoes(s: Store)
    requires s.lru == ["a", "b"] && s.total == 4 && s.sessions.Keys == {"a", "b"} && s.sessions["a"].bytes == 3
    ensures var r := EvictCount(EvictBytes(s, LIMITS), LIMITS);
      r == Store(map["b" := s.sessions["b"]], ["b"], 1)
  {
    var r := Remove(s, "a");
    WithoutFront(s.lru);
    assert s.lru[1..] == ["b"] && s.sessions - {"a"} == map["b" := s.sessions["b"]];
    assert r == Store(map["b" := s.sessions["b"]], ["b"], 1);
  }

  // ---- Restoring into a request ----

  /** The store as one request sees it at one instant. */
  function ShadowAt(s: Store, fp: string, now: int, lim: Limits): Policy.Shadow {
    (ids: seq<string>) => Restore(s, fp, ids, now, lim).reasoning
  }

  datatype Walk = Walk(store: Store, messages: seq<Policy.Message>)

  predicate Asks(m: Policy.Message) {
    m.Assistant? && m.reasoning.None? && m.calls != []
  }

  /** `restore_into` on the current epoch: each restore may drop an expired entry for the next one. */
  function RestoreMessages(s: Store, fp: string, ms: seq<Policy.Message>, now: int, lim: Limits): Walk {
    if ms == [] then Walk(s, []) else
      var w, m := RestoreMessages(s, fp, ms[..|ms| - 1], now, lim), ms[|ms| - 1];
      if !Asks(m) then Walk(w.store, w.messages + [m]) else
        var r := Restore(w.store, fp, Policy.Ids(m.calls), now, lim);
        Walk(r.store, w.messages + [m.(reasoning := r.reasoning)])
  }

  predicate Uses(m: Policy.Message, id: string) {
    m.Assistant? && id in Policy.Ids(m.calls)
  }

  /** No two messages share a call id. */
  ghost predicate Apart(ms: seq<Policy.Message>) {
    forall i, j, id: string | 0 <= i < j < |ms| && Uses(ms[j], id) :: !Uses(ms[i], id)
  }

  /** Two stores hold the same for this id of this session. */
  predicate Alike(a: Store, b: Store, fp: string, id: string) {
    (fp in a.sessions <==> fp in b.sessions) &&
    (fp in a.sessions ==>
       (id in a.sessions[fp].entries <==> id in b.sessions[fp].entries) &&
       (id in a.sessions[fp].entries ==> a.sessions[fp].entries[id] == b.sessions[fp].entries[id]))
  }

  lemma {:induction false} FirstPresentReads(a: map<string, Entry>, b: map<string, Entry>, ids: seq<string>)
    requires forall id | id in ids :: (id in a <==> id in b) && (id in a ==> a[id] == b[id])
    ensures FirstPresent(a, ids) == FirstPresent(b, ids)
    decreases |ids|
  {
    if ids == [] {
    } else {
      assert ids[0] in ids;
      assert forall id | id in ids[1..] :: id in ids;
      FirstPresentReads(a, b, ids[1..]);
    }
  }

  lemma RestoreReads(a: Store, b: Store, fp: string, ids: seq<string>, now: int, lim: Limits)
    requires forall id | id in ids :: Alike(a, b, fp, id)
    requires fp in a.sessions <==> fp in b.sessions
    ensures Restore(a, fp, ids, now, lim).reasoning == Restore(b, fp, ids, now, lim).reasoning
  {
    if fp in a.sessions {
      forall id | id in ids
        ensures (id in a.sessions[fp].entries <==> id in b.sessions[fp].entries)
        ensures id in a.sessions[fp].entries ==> a.sessions[fp].entries[id] == b.sessions[fp].entries[id]
      {
        assert Alike(a, b, fp, id);
      }
      FirstPresentReads(a.sessions[fp].entries, b.sessions[fp].entries, ids);
    }
  }

  /** A restore touches only the ids it was asked for. */
  lemma RestoreTouches(s: Store, fp: string, ids: seq<string>, now: int, lim: Limits, id: string)
    requires id !in ids
    ensures Alike(Restore(s, fp, ids, now, lim).store, s, fp, id)
  {
  }

  lemma {:induction false} WalkTouches(s: Store, fp: string, ms: seq<Policy.Message>, now: int, lim: Limits, id: string)
    requires forall i | 0 <= i < |ms| :: !Uses(ms[i], id)
    ensures Alike(RestoreMessages(s, fp, ms, now, lim).store, s, fp, id)
  {
    if ms == [] {
    } else {
      var init, m := ms[..|ms| - 1], ms[|ms| - 1];
      WalkTouches(s, fp, init, now, lim, id);
      if Asks(m) { RestoreTouches(RestoreMessages(s, fp, init, now, lim).store, fp, Policy.Ids(m.calls), now, lim, id); }
    }
  }

  lemma {:induction false} WalkKeepsSessions(s: Store, fp: string, ms: seq<Policy.Message>, now: int, lim: Limits)
    ensures fp in RestoreMessages(s, fp, ms, now, lim).store.sessions <==> fp in s.sessions
  {
    if ms == [] {
    } else {
      WalkKeepsSessions(s, fp, ms[..|ms| - 1], now, lim);
    }
  }

  /**
   When no two messages share a call id, restoring into a request is a function of the store as it
   was: dropping expired entries on the way changes no answer.
   */
  lemma {:induction false} RestoringIsPure(s: Store, fp: string, ms: seq<Policy.Message>, now: int, lim: Limits)
    requires Apart(ms)
    ensures RestoreMessages(s, fp, ms, now, lim).messages == Policy.RestoredAll(ShadowAt(s, fp, now, lim), ms)
  {
    if ms == [] {
    } else {
      var init, m := ms[..|ms| - 1], ms[|ms| - 1];
      RestoringIsPure(s, fp, init, now, lim);
      var w := RestoreMessages(s, fp, init, now, lim);
      if Asks(m) {
        var ids := Policy.Ids(m.calls);
        forall id | id in ids ensures Alike(w.store, s, fp, id) {
          assert Uses(m, id);
          WalkTouches(s, fp, init, now, lim, id);
        }
        WalkKeepsSessions(s, fp, init, now, lim);
        RestoreReads(w.store, s, fp, ids, now, lim);
      }
    }
  }
}
