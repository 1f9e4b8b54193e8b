/** The pool as the object it is: every operation updates the maps, the order and the counter in place. */
module AccountPool {
  import opened Wrappers
  import opened Recency
  import opened Pool

  class AccountPool {
    const lim: Limits
    var entries: seq<string>
    var credits: map<string, int>
    var failUntil: map<FailKey, int>
    var modelFail: map<ModelKey, int>
    var sticky: map<string, Binding>
    var stickyOrder: seq<string>
    var rr: nat
    var errCounts: map<string, nat>

    constructor (lim: Limits)
      ensures this.lim == lim && State() == EMPTY
    {
      this.lim := lim;
      entries, credits, failUntil, modelFail := [], map[], map[], map[];
      sticky, stickyOrder, rr, errCounts := map[], [], 0, map[];
    }

    /** The pool as a value. */
    function State(): PoolState
      reads this
    {
      PoolState(entries, credits, Health(failUntil, modelFail), Table(sticky, stickyOrder), rr, errCounts)
    }

    method RemoveSticky(fp: string)
      modifies this`sticky, this`stickyOrder
      ensures State() == old(State()).(table := Remove(old(State()).table, fp))
    {
      sticky := sticky - {fp};
      stickyOrder := Without(stickyOrder, fp);
    }

    method MoveStickyToBack(fp: string)
      modifies this`stickyOrder
      ensures stickyOrder == Without(old(stickyOrder), fp) + [fp]
    {
      stickyOrder := Without(stickyOrder, fp);
      stickyOrder := stickyOrder + [fp];
    }

    method EvictSticky(now: int)
      modifies this`sticky, this`stickyOrder
      ensures State() == old(State()).(table := Evict(old(State()).table, now, lim))
    {
      while stickyOrder != []
        invariant Evict(State().table, now, lim) == Evict(old(State()).table, now, lim)
        decreases |stickyOrder|
      {
        var key := stickyOrder[0];
        var expired := if key in sticky then now - sticky[key].touched > lim.stickyTtl * SECOND else true;
        if expired || |sticky| > lim.stickyMax {
          RemoveSticky(key);
        } else {
          break;
        }
      }
    }

    method BindSticky(fp: string, id: string, now: int)
      modifies this`sticky, this`stickyOrder
      ensures State() == old(State()).(table := Bind(old(State()).table, fp, id, now, lim))
    {
      if fp !in sticky && |sticky| >= lim.stickyMax {
        if stickyOrder != [] {
          RemoveSticky(stickyOrder[0]);
        }
      }
      sticky := sticky[fp := Binding(id, now)];
      stickyOrder := stickyOrder + [fp];
    }

    /** `files` are the accounts whose credential file is there at this instant. */
    method Pick(session: Option<string>, model: string, files: set<string>, now: int) returns (account: Option<string>)
      modifies this`entries, this`sticky, this`stickyOrder, this`rr
      ensures Picked(State(), account) == Pool.Pick(old(State()), session, model, files, now, lim)
    {
      entries := Present(entries, files);
      EvictSticky(now);
      var health := Health(failUntil, modelFail);
      if session.Some? && session.value in sticky {
        var fp := session.value;
        var id := sticky[fp].id;
        if id in entries && Healthy(health, id, model, now) {
          sticky := sticky[fp := Binding(id, now)];
          MoveStickyToBack(fp);
          return Some(id);
        }
        RemoveSticky(fp);
      }
      account := PickRanked(session, model, now);
    }

    method TakeTurn(n: nat) returns (turn: nat)
      requires n > 0
      modifies this`rr
      ensures turn == Turn(old(rr), n) && rr == NextTurn(old(rr))
    {
      TurnIsRemainder(rr, n);
      turn := rr % n;
      rr := if rr + 1 < WORD then rr + 1 else 0;
    }

    /** The ranked choice among the healthy accounts. */
    method PickRanked(session: Option<string>, model: string, now: int) returns (account: Option<string>)
      modifies this`sticky, this`stickyOrder, this`rr
      ensures Picked(State(), account) == Choose(old(State()), session, model, now, lim)
    {
      var candidates := Candidates(Health(failUntil, modelFail), entries, model, now);
      if candidates == [] { return None; }
      var top := WithRank(credits, candidates, BestRank(credits, candidates));
      var turn := TakeTurn(|top|);
      var id := top[turn];
      if session.Some? {
        BindSticky(session.value, id, now);
      }
      account := Some(id);
    }

    /** Removing keys one at a time, in any order. */
    method RemoveEach(keys: set<string>)
      modifies this`sticky, this`stickyOrder
      ensures State() == old(State()).(table := RemoveAll(old(State()).table, keys))
    {
      var left := keys;
      while left != {}
        invariant left <= keys
        invariant RemoveAll(State().table, left) == RemoveAll(old(State()).table, keys)
        decreases left
      {
        var key :| key in left;
        WithoutStep(stickyOrder, left, key);
        RemoveSticky(key);
        left := left - {key};
      }
      WithoutNone(stickyOrder);
      assert State().table == RemoveAll(State().table, {});
    }

    method NoteStatus(id: string, status: int, model: string, now: int)
      modifies this`failUntil, this`modelFail, this`sticky, this`stickyOrder
      ensures State() == Pool.NoteStatus(old(State()), id, status, model, now, lim)
    {
      if status == 401 || status == 403 {
        failUntil := failUntil[FailKey(id, ErrThreshold) := now + lim.credCooldown * SECOND];
      } else if status == 429 {
        modelFail := modelFail[ModelKey(id, model) := now + (if lim.modelCooldown < 1 then 1 else lim.modelCooldown) * SECOND];
        RemoveEach(set fp | fp in sticky && sticky[fp].id == id);
      }
    }

    method NoteHardCredit(id: string, now: int)
      modifies this`failUntil
      ensures State() == Pool.NoteHardCredit(old(State()), id, now, lim)
    {
      failUntil := failUntil[FailKey(id, HardCredit) := now + lim.hardCreditCooldown * SECOND];
    }

    method NoteErrorThreshold(id: string, now: int)
      modifies this`failUntil, this`errCounts
      ensures State() == Pool.NoteErrorThreshold(old(State()), id, now, lim)
    {
      var count := if id in errCounts then errCounts[id] else 0;
      errCounts := errCounts[id := count + 1];
      if count + 1 >= ERROR_THRESHOLD {
        failUntil := failUntil[FailKey(id, ErrThreshold) := now + lim.credCooldown * SECOND];
        errCounts := errCounts[id := 0];
      }
    }

    method NoteSuccess(id: string)
      modifies this`errCounts
      ensures State() == Pool.NoteSuccess(old(State()), id)
    {
      errCounts := errCounts[id := 0];
    }

    method SetCredits(id: string, value: int)
      modifies this`credits
      ensures State() == Pool.SetCredits(old(State()), id, value)
    {
      credits := credits[id := value];
    }

    method LoadFiles(ids: seq<string>)
      modifies this`entries
      ensures State() == Load(old(State()), ids)
    {
      for i := 0 to |ids|
        invariant State() == Load(old(State()), ids[..i])
      {
        assert ids[..i + 1][..i] == ids[..i];
        if ids[i] in entries { continue; }
        entries := entries + [ids[i]];
      }
      assert ids[..|ids|] == ids;
    }

    method Prune(files: set<string>)
      modifies this`entries, this`credits, this`failUntil, this`modelFail, this`errCounts, this`sticky, this`stickyOrder
      ensures State() == Pool.Prune(old(State()), files)
    {
      var before := |entries|;
      entries := Present(entries, files);
      var ids := entries;
      if |ids| != before {
        credits := map id | id in credits && id in ids :: credits[id];
        failUntil := map k | k in failUntil && k.id in ids :: failUntil[k];
        modelFail := map k | k in modelFail && k.id in ids :: modelFail[k];
        errCounts := map id | id in errCounts && id in ids :: errCounts[id];
        RemoveEach(set fp | fp in sticky && sticky[fp].id !in ids);
      }
    }

    method AllCooledUntil(model: string, now: int) returns (wait: Option<nat>)
      ensures wait == AllCooled(State(), model, now)
    {
      var health := Health(failUntil, modelFail);
      var healthy := LoadedHealthy(health, entries, now);
      if healthy == [] { return None; }
      wait := None;
      for i := 0 to |healthy|
        invariant i > 0 ==> wait.Some? && wait == WholeSeconds(ShortestWait(health, healthy[..i], model, now))
      {
        var key := ModelKey(healthy[i], model);
        assert healthy[..i + 1][..i] == healthy[..i];
        if key !in modelFail {
          MissingStays(health, healthy, model, now, i);
          return None;
        }
        var left := Wait(modelFail[key], now) / SECOND;
        if i == 0 || left <= wait.value { wait := Some(left); }
      }
      assert healthy[..|healthy|] == healthy;
    }
  }

  lemma {:induction false} MissingStays(h: Health, ids: seq<string>, model: string, now: int, n: nat)
    requires n < |ids| && ModelKey(ids[n], model) !in h.modelFail
    ensures ShortestWait(h, ids, model, now) == None
  {
    var init := ids[..|ids| - 1];
    if n < |init| {
      MissingStays(h, init, model, now, n);
    }
  }
}
