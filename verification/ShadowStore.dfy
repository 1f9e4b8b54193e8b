/** The reasoning shadow: a bounded cache of the reasoning that came with tool calls. */
module ShadowStore {
  import opened Wrappers
  import opened Recency

  /** Text is counted in bytes: a character of these strings stands for one byte. */
  datatype Entry = Entry(reasoning: string, created: int)

  datatype Session = Session(entries: map<string, Entry>, bytes: nat)

  /** Sessions by fingerprint, entries by tool-call id. */
  datatype Store = Store(sessions: map<string, Session>, lru: seq<string>, total: nat)

  datatype Limits = Limits(maxSessions: nat, maxTotalBytes: nat, maxEntryBytes: nat, ttl: nat)

  const EMPTY: Store := Store(map[], [], 0)

  function SaturatingSub(a: nat, b: nat): nat {
    if a >= b then a - b else 0
  }

  function Remove(s: Store, name: string): Store {
    Store(s.sessions - {name}, Without(s.lru, name),
          if name in s.sessions then SaturatingSub(s.total, s.sessions[name].bytes) else s.total)
  }

  // ---- Storing ----

  /** One blob, shared by all ids of the turn. */
  function Insert(entries: map<string, Entry>, ids: seq<string>, entry: Entry): map<string, Entry> {
    if ids == [] then entries else Insert(entries, ids[..|ids| - 1], entry)[ids[|ids| - 1] := entry]
  }

  predicate Accepts(ids: seq<string>, reasoning: string, lim: Limits) {
    reasoning != "" && ids != [] && |reasoning| <= lim.maxEntryBytes
  }

  function Added(s: Store, fp: string, ids: seq<string>, reasoning: string, now: int): Store {
    var session := if fp in s.sessions then s.sessions[fp] else Session(map[], 0);
    var added := |reasoning| * |ids|;
    Store(s.sessions[fp := Session(Insert(session.entries, ids, Entry(reasoning, now)), session.bytes + added)],
          if fp in s.sessions then s.lru else s.lru + [fp],
          s.total + added)
  }

  /** Every entry of the session is past its time; an emptied session counts. */
  predicate AllExpired(session: Session, now: int, lim: Limits) {
    forall id | id in session.entries :: now - session.entries[id].created > lim.ttl
  }

  function ExpiredSessions(s: Store, now: int, lim: Limits): set<string> {
    set fp | fp in s.sessions && AllExpired(s.sessions[fp], now, lim)
  }

  /** The byte counts of all sessions together. */
  ghost function SumBytes(m: map<string, Session>): nat {
    if m == map[] then 0 else
      var k :| k in m;
      m[k].bytes + SumBytes(m - {k})
  }

  lemma {:induction false} SumWithout(m: map<string, Session>, name: string)
    requires name in m
    ensures SumBytes(m) == m[name].bytes + SumBytes(m - {name})
    decreases |m|
  {
    var k :| k in m && SumBytes(m) == m[k].bytes + SumBytes(m - {k});
    if k != name {
      SumWithout(m - {k}, name);
      SumWithout(m - {name}, k);
      assert m - {k} - {name} == m - {name} - {k};
    }
  }

  function Restrict(m: map<string, Session>, names: set<string>): map<string, Session> {
    map k | k in m && k in names :: m[k]
  }

  /** A set of sessions goes, in whatever order. */
  ghost function Drop(s: Store, gone: set<string>): Store {
    Store(s.sessions - gone, WithoutAll(s.lru, gone), SaturatingSub(s.total, SumBytes(Restrict(s.sessions, gone))))
  }

  lemma DropStep(s: Store, gone: set<string>, name: string)
    requires name in gone && name in s.sessions
    ensures Drop(Remove(s, name), gone - {name}) == Drop(s, gone)
  {
    WithoutStep(s.lru, gone, name);
    var all := Restrict(s.sessions, gone);
    SumWithout(all, name);
    assert Restrict(s.sessions - {name}, gone - {name}) == all - {name};
    assert s.sessions - {name} - (gone - {name}) == s.sessions - gone;
  }

  lemma DropNothing(s: Store)
    ensures Drop(s, {}) == s
  {
    WithoutNone(s.lru);
    assert Restrict(s.sessions, {}) == map[];
    assert s.sessions - {} == s.sessions;
  }

  /** The front of `lru` goes until the bytes fit. */
  function EvictBytes(s: Store, lim: Limits): Store
    decreases |s.lru|
  {
    if s.total > lim.maxTotalBytes && s.lru != [] then EvictBytes(Remove(s, s.lru[0]), lim) else s
  }

  function EvictCount(s: Store, lim: Limits): Store
    decreases |s.lru|
  {
    if |s.sessions| > lim.maxSessions && s.lru != [] then EvictCount(Remove(s, s.lru[0]), lim) else s
  }

  ghost function DropExpired(s: Store, now: int, lim: Limits): Store {
    Drop(s, ExpiredSessions(s, now, lim))
  }

  ghost function Enforce(s: Store, now: int, lim: Limits): Store {
    EvictCount(EvictBytes(DropExpired(s, now, lim), lim), lim)
  }

  ghost function Put(s: Store, fp: string, ids: seq<string>, reasoning: string, now: int, lim: Limits): Store {
    if Accepts(ids, reasoning, lim) then Enforce(Added(s, fp, ids, reasoning, now), now, lim) else s
  }

  // ---- Restoring ----

  /** The first id with an entry. */
  function FirstPresent(entries: map<string, Entry>, ids: seq<string>): (r: Option<string>)
    ensures r.Some? ==> r.value in ids && r.value in entries
    ensures r.None? ==> forall id | id in ids :: id !in entries
    decreases |ids|
  {
    if ids == [] then None
    else if ids[0] in entries then Some(ids[0])
    else
      assert forall id | id in ids :: id == ids[0] || id in ids[1..];
      FirstPresent(entries, ids[1..])
  }

  datatype Restored = Restored(store: Store, reasoning: Option<string>)

  /** An expired entry is dropped when it is met, and ends the search. */
  function Restore(s: Store, fp: string, ids: seq<string>, now: int, lim: Limits): Restored {
    if fp !in s.sessions then Restored(s, None) else
      var session := s.sessions[fp];
      var id := FirstPresent(session.entries, ids);
      if id.None? then Restored(s, None) else
        var entry := session.entries[id.value];
        if now - entry.created > lim.ttl
        then Restored(s.(sessions := s.sessions[fp := session.(entries := session.entries - {id.value})]), None)
        else Restored(s, Some(entry.reasoning))
  }

  function Clear(s: Store, fp: string): Store {
    if fp in s.sessions then Remove(s, fp) else s
  }

  // ---- The store as the object it is ----

  class ReasoningShadowStore {
    const lim: Limits
    var sessions: map<string, Session>
    var lru: seq<string>
    var totalBytes: nat

    constructor (lim: Limits)
      ensures this.lim == lim && State() == EMPTY
    {
      this.lim, sessions, lru, totalBytes := lim, map[], [], 0;
    }

    function State(): Store
      reads this
    {
      Store(sessions, lru, totalBytes)
    }

    method RemoveSession(name: string)
      modifies this
      ensures State() == Remove(old(State()), name)
    {
      if name in sessions {
        totalBytes := SaturatingSub(totalBytes, sessions[name].bytes);
        sessions := sessions - {name};
      } else {
        assert sessions - {name} == sessions;
      }
      lru := Without(lru, name);
    }

    method EnforceLimits(now: int)
      modifies this
      ensures State() == Enforce(old(State()), now, lim)
    {
      var expired := set fp | fp in sessions && AllExpired(sessions[fp], now, lim);
      while expired != {}
        invariant expired <= sessions.Keys
        invariant Drop(State(), expired) == DropExpired(old(State()), now, lim)
        decreases expired
      {
        var name :| name in expired;
        DropStep(State(), expired, name);
        RemoveSession(name);
        expired := expired - {name};
      }
      DropNothing(State());
      while totalBytes > lim.maxTotalBytes
        invariant EvictBytes(State(), lim) == EvictBytes(DropExpired(old(State()), now, lim), lim)
        decreases |lru|
      {
        if lru == [] { break; }
        RemoveSession(lru[0]);
      }
      while |sessions| > lim.maxSessions
        invariant EvictCount(State(), lim) == Enforce(old(State()), now, lim)
        decreases |lru|
      {
        if lru == [] { break; }
        RemoveSession(lru[0]);
      }
    }

    method InsertEach(existing: map<string, Entry>, ids: seq<string>, entry: Entry)
      returns (entries: map<string, Entry>)
      ensures entries == Insert(existing, ids, entry)
    {
      entries := existing;
      for i := 0 to |ids|
        invariant entries == Insert(existing, ids[..i], entry)
      {
        assert ids[..i + 1][..i] == ids[..i];
        entries := entries[ids[i] := entry];
      }
      assert ids[..|ids|] == ids;
    }

    method AddReasoning(fp: string, ids: seq<string>, reasoning: string, now: int)
      modifies this
      ensures State() == Added(old(State()), fp, ids, reasoning, now)
    {
      var isNew := fp !in sessions;
      if isNew { lru := lru + [fp]; }
      var session := if fp in sessions then sessions[fp] else Session(map[], 0);
      var added := |reasoning| * |ids|;
      var entries := InsertEach(session.entries, ids, Entry(reasoning, now));
      sessions := sessions[fp := Session(entries, session.bytes + added)];
      totalBytes := totalBytes + added;
    }

    method PutReasoning(fp: string, ids: seq<string>, reasoning: string, now: int)
      modifies this
      ensures State() == Put(old(State()), fp, ids, reasoning, now, lim)
    {
      if reasoning == "" || ids == [] { return; }
      if |reasoning| > lim.maxEntryBytes { return; }
      AddReasoning(fp, ids, reasoning, now);
      EnforceLimits(now);
    }

    method RestoreReasoning(fp: string, ids: seq<string>, now: int) returns (reasoning: Option<string>)
      modifies this`sessions
      ensures Restored(State(), reasoning) == Restore(old(State()), fp, ids, now, lim)
    {
      if fp !in sessions { return None; }
      var session := sessions[fp];
      for i := 0 to |ids|
        invariant FirstPresent(session.entries, ids) == FirstPresent(session.entries, ids[i..])
      {
        assert ids[i..][1..] == ids[i + 1..];
        var id := ids[i];
        if id in session.entries {
          var entry := session.entries[id];
          if now - entry.created > lim.ttl {
            sessions := sessions[fp := session.(entries := session.entries - {id})];
            return None;
          }
          return Some(entry.reasoning);
        }
      }
      reasoning := None;
    }

    method ClearSession(fp: string)
      modifies this
      ensures State() == Clear(old(State()), fp)
    {
      if fp in sessions {
        totalBytes := SaturatingSub(totalBytes, sessions[fp].bytes);
        sessions := sessions - {fp};
        lru := Without(lru, fp);
      }
    }
  }
}
