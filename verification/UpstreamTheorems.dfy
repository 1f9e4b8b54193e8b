/** The retry protocol against any upstream. */
module UpstreamTheorems {
  import opened Wrappers
  import opened Recency
  import opened Pool
  import PoolTheorems
  import opened Upstream

  // ---- The shape of a conversation ----

  /** Quota answers: the request may go to another account. */
  predicate Rotates(r: Reply) {
    match r
    case TransportError => false
    case Response(status, head, creditText) =>
      (status == 200 && head == QuotaExhausted) || status == 429 || ((status == 402 || status == 403) && creditText)
  }

  predicate Unauthorized(r: Reply) {
    r.Response? && r.status == 401
  }

  /** Sends, each but the last answered by quota or by the one 401 that is followed by the one refresh. */
  predicate Orderly(t: seq<Event>, refreshed: bool) {
    t == [] ||
    (t[0].Sent? &&
     (|t| == 1 ||
      (Rotates(t[0].reply) && Orderly(t[1..], refreshed)) ||
      (Unauthorized(t[0].reply) && !refreshed && t[1].Refreshed? && t[1].account == t[0].account &&
       (if t[1].ok then Orderly(t[2..], true) else |t| == 2))))
  }

  function Sends(t: seq<Event>): nat {
    if t == [] then 0 else (if t[0].Sent? then 1 else 0) + Sends(t[1..])
  }

  function Refreshes(t: seq<Event>): nat {
    if t == [] then 0 else (if t[0].Refreshed? then 1 else 0) + Refreshes(t[1..])
  }

  /** What one attempt adds to the conversation. */
  predicate AttemptShape(t: Turned, refreshed: bool) {
    match t
    case Done(outcome, _, trace) =>
      (trace == [] && outcome.Failed?) ||
      (|trace| == 1 && trace[0].Sent?) ||
      (|trace| == 2 && trace[0].Sent? && Unauthorized(trace[0].reply) && !refreshed &&
       trace[1] == Refreshed(trace[0].account, false))
    case Again(x, trace) =>
      (|trace| == 1 && trace[0].Sent? && Rotates(trace[0].reply) && x.retried.Some? == refreshed) ||
      (|trace| == 2 && trace[0].Sent? && Unauthorized(trace[0].reply) && !refreshed && x.retried == Some(trace[0].account) &&
       trace[1] == Refreshed(trace[0].account, true))
  }

  lemma IterateShape(w: World, n: nat, x: Loop, q: Request, lim: Limits)
    ensures AttemptShape(Iterate(w, n, x, q, lim), x.retried.Some?)
  {
    var picked := Next(w, n, x, q, lim);
    if picked.account.Some? {
      AttemptShapes(w, n, x, w.meanwhile(n, picked.state), picked.account.value, q, lim);
    }
  }

  lemma AttemptShapes(w: World, n: nat, x: Loop, pool: PoolState, id: string, q: Request, lim: Limits)
    ensures AttemptShape(Attempt(w, n, x, pool, id, q, lim), x.retried.Some?)
  {
  }

  /** Every conversation is orderly. */
  lemma {:induction false} ConversationIsOrderly(w: World, n: nat, x: Loop, q: Request, lim: Limits, size: nat)
    requires AtMost(w, size) && x.failovers <= AtLeastOne(size)
    ensures Orderly(Generate(w, n, x, q, lim, size).trace, x.retried.Some?)
    decreases Budget(x, size)
  {
    IterateSpends(w, n, x, q, lim, size);
    IterateShape(w, n, x, q, lim);
    var t := Iterate(w, n, x, q, lim);
    if t.Again? {
      ConversationIsOrderly(w, n + 1, t.loop, q, lim, size);
      var rest := Generate(w, n + 1, t.loop, q, lim, size).trace;
      assert (t.trace + rest)[|t.trace|..] == rest;
    }
  }

  /** In an orderly conversation a final answer comes last, and there is at most one refresh. */
  lemma {:induction false} OrderlyMeaning(t: seq<Event>, refreshed: bool, i: nat)
    requires Orderly(t, refreshed) && i < |t|
    ensures t[i].Sent? && i < |t| - 1 ==> Rotates(t[i].reply) || (Unauthorized(t[i].reply) && t[i + 1].Refreshed?)
    ensures t[i].Refreshed? ==>
      !refreshed && i > 0 && t[i - 1].Sent? && t[i - 1].account == t[i].account && Unauthorized(t[i - 1].reply)
    ensures Refreshes(t) <= if refreshed then 0 else 1
  {
    if |t| > 1 {
      if Rotates(t[0].reply) && Orderly(t[1..], refreshed) {
        OrderlyMeaning(t[1..], refreshed, if i == 0 then 0 else i - 1);
      } else {
        assert t[1..][1..] == t[2..];
        assert Refreshes(t[1..]) == 1 + Refreshes(t[2..]);
        if |t| > 2 { OrderlyMeaning(t[2..], true, if i < 2 then 0 else i - 2); }
      }
    } else {
      assert t[1..] == [];
    }
  }

  // ---- How many sends ----

  lemma {:induction false} SendsSplit(a: seq<Event>, b: seq<Event>)
    ensures Sends(a + b) == Sends(a) + Sends(b)
  {
    if a == [] {
      assert a + b == b;
    } else {
      assert (a + b)[1..] == a[1..] + b;
      SendsSplit(a[1..], b);
    }
  }

  lemma ShortTraces(t: seq<Event>)
    ensures |t| == 1 && t[0].Sent? ==> Sends(t) == 1
    ensures |t| == 2 && t[0].Sent? && t[1].Refreshed? ==> Sends(t) == 1
  {
    if |t| == 1 { assert t[1..] == []; }
    if |t| == 2 {
      assert t[1..][1..] == [];
      assert Sends(t[1..]) == if t[1].Sent? then 1 else 0;
    }
  }

  /** A pool of at most `size` accounts sees at most max(size, 1) + 2 sends. */
  lemma {:induction false} SendsAreBounded(w: World, n: nat, x: Loop, q: Request, lim: Limits, size: nat)
    requires AtMost(w, size) && x.failovers <= AtLeastOne(size)
    ensures Sends(Generate(w, n, x, q, lim, size).trace) <= Budget(x, size)
    decreases Budget(x, size)
  {
    IterateSpends(w, n, x, q, lim, size);
    IterateShape(w, n, x, q, lim);
    var t := Iterate(w, n, x, q, lim);
    ShortTraces(t.trace);
    if t.Again? {
      SendsAreBounded(w, n + 1, t.loop, q, lim, size);
      SendsSplit(t.trace, Generate(w, n + 1, t.loop, q, lim, size).trace);
    }
  }

  lemma RequestSendsAreBounded(w: World, pool: PoolState, q: Request, lim: Limits, size: nat)
    requires AtMost(w, size)
    ensures Sends(Generate(w, 0, Loop(pool, 0, None), q, lim, size).trace) <= (if size == 0 then 1 else size) + 2
  {
    SendsAreBounded(w, 0, Loop(pool, 0, None), q, lim, size);
  }

  // ---- What the outcome reports ----

  function Rotations(t: seq<Event>): nat {
    if t == [] then 0 else (if t[0].Sent? && Rotates(t[0].reply) then 1 else 0) + Rotations(t[1..])
  }

  predicate Accepted(e: Event) {
    e.Sent? && e.reply.Response? && e.reply.status == 200 && e.reply.head.HealthyHead?
  }

  /** What an outcome says of the conversation and the failovers before it. */
  predicate Reports(outcome: Outcome, trace: seq<Event>, failovers: nat, refreshed: bool) {
    (outcome.Started? <==> trace != [] && Accepted(trace[|trace| - 1])) &&
    (outcome.Started? ==>
       outcome.account == trace[|trace| - 1].account &&
       outcome.failovers == failovers + Rotations(trace) && outcome.refreshed == (refreshed || Refreshes(trace) > 0))
  }

  /**
   A generation starts exactly when the last send was accepted, on that account; it reports the
   failovers made and whether there was a refresh.
   */
  lemma {:induction false} OutcomeReports(w: World, n: nat, x: Loop, q: Request, lim: Limits, size: nat)
    requires AtMost(w, size) && x.failovers <= AtLeastOne(size)
    ensures var r := Generate(w, n, x, q, lim, size);
      Reports(r.outcome, r.trace, x.failovers, x.retried.Some?)
    decreases Budget(x, size)
  {
    IterateSpends(w, n, x, q, lim, size);
    IterateShape(w, n, x, q, lim);
    LastAttempt(w, n, x, q, lim);
    var t := Iterate(w, n, x, q, lim);
    if t.Again? {
      OutcomeReports(w, n + 1, t.loop, q, lim, size);
      var rest := Generate(w, n + 1, t.loop, q, lim, size);
      ReportsOn(t, x, rest.outcome, rest.trace);
    }
  }

  lemma ReportsOn(t: Turned, x: Loop, outcome: Outcome, rest: seq<Event>)
    requires t.Again? && AttemptShape(t, x.retried.Some?)
    requires t.loop.failovers == x.failovers + (if |t.trace| == 1 then 1 else 0)
    requires Reports(outcome, rest, t.loop.failovers, t.loop.retried.Some?)
    ensures Reports(outcome, t.trace + rest, x.failovers, x.retried.Some?)
  {
    CountsSplit(t.trace, rest);
  }

  /** What the last attempt reports, and what another one counts. */
  predicate AttemptReports(t: Turned, failovers: nat, refreshed: bool) {
    match t
    case Done(outcome, _, trace) =>
      (outcome.Started? <==> trace != [] && Accepted(trace[|trace| - 1])) &&
      (outcome.Started? ==> outcome == Started(trace[0].account, failovers, refreshed) && |trace| == 1)
    case Again(x', trace) => x'.failovers == failovers + (if |trace| == 1 then 1 else 0)
  }

  lemma LastAttempt(w: World, n: nat, x: Loop, q: Request, lim: Limits)
    ensures AttemptReports(Iterate(w, n, x, q, lim), x.failovers, x.retried.Some?)
  {
    var picked := Next(w, n, x, q, lim);
    if picked.account.Some? {
      LastOfAttempt(w, n, x, w.meanwhile(n, picked.state), picked.account.value, q, lim);
    }
  }

  lemma LastOfAttempt(w: World, n: nat, x: Loop, pool: PoolState, id: string, q: Request, lim: Limits)
    ensures AttemptReports(Attempt(w, n, x, pool, id, q, lim), x.failovers, x.retried.Some?)
  {
  }

  lemma {:induction false} CountsSplit(head: seq<Event>, rest: seq<Event>)
    requires |head| == 1 || |head| == 2
    ensures Rotations(head + rest) == Rotations(head) + Rotations(rest)
    ensures Refreshes(head + rest) == Refreshes(head) + Refreshes(rest)
    ensures |head| == 1 ==>
      Rotations(head) == (if head[0].Sent? && Rotates(head[0].reply) then 1 else 0) && Refreshes(head) == (if head[0].Refreshed? then 1 else 0)
  {
    if |head| == 1 {
      assert (head + rest)[1..] == rest && head[1..] == [];
    } else {
      assert (head + rest)[1..] == [head[1]] + rest && head[1..] == [head[1]];
      CountsSplit([head[1]], rest);
    }
  }

  // ---- After a refresh ----

  /** Other tasks never unload account `id`. */
  ghost predicate KeepsLoaded(w: World, id: string, size: nat) {
    forall n: nat, s: PoolState | |s.entries| <= size && id in s.entries ::
      id in w.others(n, s).entries && id in w.meanwhile(n, s).entries
  }

  predicate OnlyTo(t: seq<Event>, id: string) {
    forall i | 0 <= i < |t| :: t[i].account == id
  }

  /** The pin of a refresh is never released: while its account stays loaded, every later send goes there. */
  lemma {:induction false} PinnedForGood(w: World, n: nat, x: Loop, q: Request, lim: Limits, size: nat, id: string)
    requires AtMost(w, size) && x.failovers <= AtLeastOne(size)
    requires x.retried == Some(id) && id in x.pool.entries && |x.pool.entries| <= size && KeepsLoaded(w, id, size)
    ensures OnlyTo(Generate(w, n, x, q, lim, size).trace, id)
    decreases Budget(x, size)
  {
    IterateSpends(w, n, x, q, lim, size);
    PinnedAttempt(w, n, x, w.meanwhile(n, w.others(n, x.pool)), id, q, lim);
    var t := Iterate(w, n, x, q, lim);
    if t.Again? {
      PinnedForGood(w, n + 1, t.loop, q, lim, size, id);
    }
  }

  lemma PinnedAttempt(w: World, n: nat, x: Loop, pool: PoolState, id: string, q: Request, lim: Limits)
    requires x.retried.Some?
    ensures var t := Attempt(w, n, x, pool, id, q, lim);
      t.trace == [Sent(id, w.reply(n, id))] &&
      (t.Again? ==> t.loop.retried == x.retried && t.loop.pool.entries == pool.entries)
  {
  }

  /** The answer to the first send was 401 and the refresh worked; every later answer is a plain 429. */
  ghost predicate RejectedThenLimited(w: World) {
    (forall id: string :: Unauthorized(w.reply(0, id))) && w.refreshOk(0) &&
    forall n: nat, id: string | n > 0 :: w.reply(n, id).Response? && w.reply(n, id).status == 429
  }

  /** Nobody else touches the pool. */
  ghost predicate Alone(w: World, size: nat) {
    forall n: nat, s: PoolState | |s.entries| <= size :: w.others(n, s) == s && w.meanwhile(n, s) == s
  }

  /** All remaining sends of a pinned request against a limiting upstream go to one account. */
  lemma {:induction false} PinnedUntilExhausted(w: World, n: nat, x: Loop, q: Request, lim: Limits, size: nat,
      id: string)
    requires AtMost(w, size) && Alone(w, size) && RejectedThenLimited(w)
    requires n > 0 && x.retried == Some(id) && id in x.pool.entries && |x.pool.entries| == size && x.failovers <= size
    ensures Sends(Generate(w, n, x, q, lim, size).trace) == size + 1 - x.failovers
    decreases Budget(x, size)
  {
    IterateSpends(w, n, x, q, lim, size);
    var pool := x.pool;
    assert w.meanwhile(n, w.others(n, pool)) == pool;
    var t := Iterate(w, n, x, q, lim);
    PinnedAttempt(w, n, x, pool, id, q, lim);
    LimitedAttempt(w, n, x, pool, id, q, lim);
    ShortTraces(t.trace);
    if t.Again? {
      PinnedUntilExhausted(w, n + 1, t.loop, q, lim, size, id);
      SendsSplit(t.trace, Generate(w, n + 1, t.loop, q, lim, size).trace);
    }
  }

  lemma LimitedAttempt(w: World, n: nat, x: Loop, pool: PoolState, id: string, q: Request, lim: Limits)
    requires w.reply(n, id).Response? && w.reply(n, id).status == 429
    ensures var t := Attempt(w, n, x, pool, id, q, lim);
      if x.failovers + 1 > AtLeastOne(|pool.entries|) then t.Done?
      else t.Again? && t.loop.failovers == x.failovers + 1
  {
  }

  lemma FirstRenewed(w: World, pool: PoolState, q: Request, lim: Limits, size: nat, id: string)
    requires AtMost(w, size) && Alone(w, size) && RejectedThenLimited(w)
    requires |pool.entries| == size && (forall e | e in pool.entries :: e in w.files(0))
    requires Pick(pool, q.session, q.model, w.files(0), w.pickAt(0), lim).account == Some(id)
    ensures var s := Pick(pool, q.session, q.model, w.files(0), w.pickAt(0), lim).state;
      Iterate(w, 0, Loop(pool, 0, None), q, lim) == Again(Loop(s, 0, Some(id)), [Sent(id, w.reply(0, id)), Refreshed(id, true)]) &&
      s.entries == pool.entries && id in s.entries
  {
    PickedIsLoaded(pool, q.session, q.model, w.files(0), w.pickAt(0), lim);
    var s := Pick(pool, q.session, q.model, w.files(0), w.pickAt(0), lim).state;
    PresentShrinks(pool.entries, w.files(0));
    assert w.others(0, pool) == pool && w.meanwhile(0, s) == s;
    UnauthorizedAttempt(w, 0, Loop(pool, 0, None), s, id, q, lim);
  }

  /** The bound is met: one 401, then 429 for ever, sends max(size, 1) + 2 times, always to the account picked first. */
  lemma BoundIsMet(w: World, pool: PoolState, q: Request, lim: Limits, size: nat, id: string)
    requires AtMost(w, size) && Alone(w, size) && RejectedThenLimited(w)
    requires |pool.entries| == size && (forall e | e in pool.entries :: e in w.files(0))
    requires Pick(pool, q.session, q.model, w.files(0), w.pickAt(0), lim).account == Some(id)
    ensures var trace := Generate(w, 0, Loop(pool, 0, None), q, lim, size).trace;
      Sends(trace) == size + 2 && OnlyTo(trace, id)
  {
    var x := Loop(pool, 0, None);
    IterateSpends(w, 0, x, q, lim, size);
    FirstRenewed(w, pool, q, lim, size, id);
    var t := Iterate(w, 0, x, q, lim);
    var rest := Generate(w, 1, t.loop, q, lim, size).trace;
    PinnedUntilExhausted(w, 1, t.loop, q, lim, size, id);
    PinnedForGood(w, 1, t.loop, q, lim, size, id);
    SendsSplit(t.trace, rest);
    ShortTraces(t.trace);
  }

  /** A picked account is loaded and healthy; the pick leaves credits of health alone. */
  lemma PickedIsLoaded(s: PoolState, session: Option<string>, model: string, files: set<string>, now: int, lim: Limits)
    ensures var p := Pick(s, session, model, files, now, lim);
      p.state.entries == Present(s.entries, files) && p.state.health == s.health &&
      (p.account.Some? ==> p.account.value in p.state.entries && Healthy(s.health, p.account.value, model, now))
  {
    var p := Pick(s, session, model, files, now, lim);
    PoolTheorems.PickEntries(s, session, model, files, now, lim);
    PoolTheorems.RankedChoice(s, session, model, files, now, lim);
    if p.account.Some? { PoolTheorems.UsableIsHealthy(s, p.account.value, model, files, now); }
  }

  // ---- Who is sent to twice ----

  /** Cooled for the whole call: some cooldown of the account runs until `horizon` at least. */
  predicate Cooled(h: Health, id: string, model: string, horizon: int) {
    (ModelKey(id, model) in h.modelFail && h.modelFail[ModelKey(id, model)] >= horizon) ||
    (FailKey(id, HardCredit) in h.failUntil && h.failUntil[FailKey(id, HardCredit)] >= horizon)
  }

  /** Other tasks keep the loaded accounts and end no cooldown of the call. */
  ghost predicate Steady(w: World, ids: seq<string>, model: string, horizon: int) {
    forall n: nat, s: PoolState | s.entries == ids ::
      SteadyStep(s, w.others(n, s), model, horizon) && SteadyStep(s, w.meanwhile(n, s), model, horizon)
  }

  ghost predicate SteadyStep(s: PoolState, s': PoolState, model: string, horizon: int) {
    s'.entries == s.entries && forall id: string | Cooled(s.health, id, model, horizon) :: Cooled(s'.health, id, model, horizon)
  }

  /** Each of the first `attempts` picks comes before `horizon`, and the cooldowns set by then outlast it. */
  predicate Outlasts(w: World, lim: Limits, horizon: int, attempts: nat) {
    forall n | 0 <= n < attempts ::
      w.pickAt(n) < horizon <= w.noteAt(n) + lim.hardCreditCooldown * SECOND && horizon <= w.noteAt(n) + AtLeastOne(lim.modelCooldown) * SECOND
  }

  ghost predicate AllThere(w: World, ids: seq<string>) {
    forall n: nat, id | id in ids :: id in w.files(n)
  }

  /** The accounts sent to are all different and none of them is in `spent`; a failed refresh may come last. */
  predicate FreshSends(t: seq<Event>, spent: set<string>) {
    t == [] ||
    (t[0].Sent? && t[0].account !in spent &&
     ((|t| == 2 && t[1].Refreshed? && !t[1].ok) || FreshSends(t[1..], spent + {t[0].account})))
  }

  lemma CooledIsUnhealthy(h: Health, id: string, model: string, horizon: int, now: int)
    requires Cooled(h, id, model, horizon) && now < horizon
    ensures !Healthy(h, id, model, now)
  {
    var k := FailKey(id, HardCredit);
    assert k in h.failUntil && h.failUntil[k] >= horizon ==> !GloballyHealthy(h, id, now);
  }

  /** A quota answer cools its account for the rest of the call and leaves the others cooled. */
  lemma RotationCools(w: World, n: nat, x: Loop, pool: PoolState, id: string, q: Request, lim: Limits, horizon: int)
    requires Rotates(w.reply(n, id))
    requires horizon <= w.noteAt(n) + lim.hardCreditCooldown * SECOND && horizon <= w.noteAt(n) + AtLeastOne(lim.modelCooldown) * SECOND
    requires x.failovers + 1 <= AtLeastOne(|pool.entries|)
    ensures var t := Attempt(w, n, x, pool, id, q, lim);
      t.Again? && t.loop.failovers == x.failovers + 1 && t.loop.retried == x.retried && t.loop.pool.entries == pool.entries &&
      t.trace == [Sent(id, w.reply(n, id))] && Cooled(t.loop.pool.health, id, q.model, horizon) &&
      forall other: string | other != id && Cooled(pool.health, other, q.model, horizon) :: Cooled(t.loop.pool.health, other, q.model, horizon)
  {
  }

  lemma FinalAttempt(w: World, n: nat, x: Loop, pool: PoolState, id: string, q: Request, lim: Limits)
    requires !Rotates(w.reply(n, id)) && !Unauthorized(w.reply(n, id))
    ensures var t := Attempt(w, n, x, pool, id, q, lim);
      t.Done? && t.trace == [Sent(id, w.reply(n, id))] && (t.outcome.Failed? ==> t.outcome.reason != FailoverExhausted)
  {
  }

  /** The accounts tried so far: as many as failovers, all loaded, all cooled. */
  predicate Spent(x: Loop, spent: set<string>, ids: seq<string>, model: string, horizon: int) {
    x.retried.None? && x.pool.entries == ids && |spent| == x.failovers &&
    forall id | id in spent :: id in ids && Cooled(x.pool.health, id, model, horizon)
  }

  lemma {:induction false} SpentIsBounded(spent: set<string>, ids: seq<string>)
    requires forall id | id in spent :: id in ids
    ensures |spent| <= |ids|
  {
    if ids == [] {
      assert spent == {};
    } else {
      var init, last := ids[..|ids| - 1], ids[|ids| - 1];
      forall id | id in spent - {last} ensures id in init {
        var i :| 0 <= i < |ids| && ids[i] == id;
        assert init[i] == id;
      }
      SpentIsBounded(spent - {last}, init);
      if last in spent { assert |spent - {last}| == |spent| - 1; } else { assert spent - {last} == spent; }
    }
  }

  /** The account of an attempt is a new one. */
  lemma FreshPick(w: World, n: nat, x: Loop, q: Request, lim: Limits, spent: set<string>, ids: seq<string>,
      horizon: int)
    requires Spent(x, spent, ids, q.model, horizon) && Steady(w, ids, q.model, horizon) && AllThere(w, ids)
    requires w.pickAt(n) < horizon
    ensures var picked := Next(w, n, x, q, lim);
      picked.state.entries == ids &&
      (forall id | id in spent :: Cooled(picked.state.health, id, q.model, horizon)) &&
      (picked.account.Some? ==> picked.account.value in ids && picked.account.value !in spent)
  {
    var pool := w.others(n, x.pool);
    assert SteadyStep(x.pool, pool, q.model, horizon);
    PickedIsLoaded(pool, q.session, q.model, w.files(n), w.pickAt(n), lim);
    PresentShrinks(ids, w.files(n));
    var picked := Next(w, n, x, q, lim);
    if picked.account.Some? && picked.account.value in spent {
      CooledIsUnhealthy(pool.health, picked.account.value, q.model, horizon, w.pickAt(n));
    }
  }

  /** A last attempt: no send, or a send to a new account and at most a refresh that failed. */
  predicate LastSend(t: seq<Event>, spent: set<string>) {
    t == [] ||
    (t[0].Sent? && t[0].account !in spent && (|t| == 1 || (|t| == 2 && t[1].Refreshed? && !t[1].ok)))
  }

  /** A send to `id`, a 401, and a refresh that worked. */
  predicate Renewed(x: Loop, t: seq<Event>, ids: seq<string>) {
    |t| == 2 && t[0].Sent? && t[0].account in ids && t[1] == Refreshed(t[0].account, true) &&
    x.retried == Some(t[0].account) && x.pool.entries == ids
  }

  /** What one attempt leaves: the end of the call for another reason, a working refresh, or one more account spent. */
  predicate SpendsOne(t: Turned, x: Loop, spent: set<string>, ids: seq<string>, model: string, horizon: int) {
    match t
    case Done(outcome, _, trace) => LastSend(trace, spent) && (outcome.Failed? ==> outcome.reason != FailoverExhausted)
    case Again(x', trace) =>
      Renewed(x', trace, ids) ||
      (|trace| == 1 && trace[0].Sent? && trace[0].account !in spent && x'.failovers == x.failovers + 1 &&
       Spent(x', spent + {trace[0].account}, ids, model, horizon))
  }

  lemma UnauthorizedAttempt(w: World, n: nat, x: Loop, pool: PoolState, id: string, q: Request, lim: Limits)
    requires x.retried.None? && Unauthorized(w.reply(n, id))
    ensures var t := Attempt(w, n, x, pool, id, q, lim);
      (w.refreshOk(n) ==>
         t == Again(Loop(pool, x.failovers, Some(id)), [Sent(id, w.reply(n, id)), Refreshed(id, true)])) &&
      (!w.refreshOk(n) ==>
         t.Done? && t.trace == [Sent(id, w.reply(n, id)), Refreshed(id, false)] &&
         (t.outcome.Failed? ==> t.outcome.reason != FailoverExhausted))
  {
  }

  lemma SendSpendsOne(w: World, n: nat, x: Loop, pool: PoolState, id: string, q: Request, lim: Limits,
      spent: set<string>, ids: seq<string>, horizon: int)
    requires Spent(x.(pool := pool), spent, ids, q.model, horizon) && id in ids && id !in spent
    requires horizon <= w.noteAt(n) + lim.hardCreditCooldown * SECOND && horizon <= w.noteAt(n) + AtLeastOne(lim.modelCooldown) * SECOND
    ensures SpendsOne(Attempt(w, n, x, pool, id, q, lim), x, spent, ids, q.model, horizon)
  {
    if Rotates(w.reply(n, id)) {
      SpentIsBounded(spent + {id}, ids);
      RotationCools(w, n, x, pool, id, q, lim, horizon);
    } else if Unauthorized(w.reply(n, id)) {
      UnauthorizedAttempt(w, n, x, pool, id, q, lim);
    } else {
      FinalAttempt(w, n, x, pool, id, q, lim);
    }
  }

  lemma AttemptSpendsOne(w: World, n: nat, x: Loop, q: Request, lim: Limits, spent: set<string>, ids: seq<string>,
      horizon: int)
    requires Spent(x, spent, ids, q.model, horizon) && Steady(w, ids, q.model, horizon) && AllThere(w, ids)
    requires w.pickAt(n) < horizon <= w.noteAt(n) + lim.hardCreditCooldown * SECOND && horizon <= w.noteAt(n) + AtLeastOne(lim.modelCooldown) * SECOND
    ensures SpendsOne(Iterate(w, n, x, q, lim), x, spent, ids, q.model, horizon)
  {
    FreshPick(w, n, x, q, lim, spent, ids, horizon);
    var picked := Next(w, n, x, q, lim);
    if picked.account.Some? {
      var pool := w.meanwhile(n, picked.state);
      assert SteadyStep(picked.state, pool, q.model, horizon);
      SendSpendsOne(w, n, x, pool, picked.account.value, q, lim, spent, ids, horizon);
    }
  }

  predicate DifferentSends(t: seq<Event>) {
    forall i, j | 0 <= i < j < |t| && t[i].Sent? && t[j].Sent? :: t[i].account != t[j].account
  }

  /** No refresh worked. */
  predicate NeverRenewed(t: seq<Event>) {
    forall i | 0 <= i < |t| :: !(t[i].Refreshed? && t[i].ok)
  }

  lemma RenewedIsNext(w: World, n: nat, x: Loop, q: Request, lim: Limits, id: string, ids: seq<string>, horizon: int)
    requires AtMost(w, |ids|) && x.failovers <= AtLeastOne(|ids|) && Steady(w, ids, q.model, horizon)
    requires x.retried == Some(id) && id in ids && x.pool.entries == ids
    ensures var t := Generate(w, n, x, q, lim, |ids|).trace;
      t != [] && t[0] == Sent(id, w.reply(n, id))
  {
    IterateSpends(w, n, x, q, lim, |ids|);
    assert SteadyStep(x.pool, w.others(n, x.pool), q.model, horizon);
    PinnedAttempt(w, n, x, w.meanwhile(n, w.others(n, x.pool)), id, q, lim);
  }

  lemma RestRepeats(e: Event, rest: seq<Event>)
    requires !DifferentSends(rest)
    ensures !DifferentSends([e] + rest)
  {
    var i, j :| 0 <= i < j < |rest| && rest[i].Sent? && rest[j].Sent? && rest[i].account == rest[j].account;
    var t := [e] + rest;
    assert t[i + 1] == rest[i] && t[j + 1] == rest[j];
  }

  lemma RestRenewed(e: Event, rest: seq<Event>)
    requires e.Sent?
    ensures NeverRenewed([e] + rest) <==> NeverRenewed(rest)
  {
    var t := [e] + rest;
    assert forall i | 0 <= i < |rest| :: t[i + 1] == rest[i];
  }

  /** Different accounts and no rotation too many; or a refresh that worked, and an account sent to twice. */
  predicate Verdict(outcome: Outcome, trace: seq<Event>, spent: set<string>) {
    if NeverRenewed(trace) then FreshSends(trace, spent) && (outcome.Failed? ==> outcome.reason != FailoverExhausted)
    else !DifferentSends(trace)
  }

  lemma OneMoreSend(e: Event, outcome: Outcome, rest: seq<Event>, spent: set<string>)
    requires e.Sent? && e.account !in spent && Verdict(outcome, rest, spent + {e.account})
    ensures Verdict(outcome, [e] + rest, spent)
  {
    RestRenewed(e, rest);
    if NeverRenewed(rest) {
      assert ([e] + rest)[1..] == rest;
    } else {
      RestRepeats(e, rest);
    }
  }

  lemma RenewedRepeats(head: seq<Event>, outcome: Outcome, rest: seq<Event>, spent: set<string>)
    requires |head| == 2 && head[0].Sent? && head[1] == Refreshed(head[0].account, true)
    requires rest != [] && rest[0].Sent? && rest[0].account == head[0].account
    ensures Verdict(outcome, head + rest, spent)
  {
    var t := head + rest;
    assert t[0] == head[0] && t[1] == head[1] && t[2] == rest[0];
  }

  lemma LastVerdict(outcome: Outcome, trace: seq<Event>, spent: set<string>)
    requires LastSend(trace, spent) && (outcome.Failed? ==> outcome.reason != FailoverExhausted)
    ensures Verdict(outcome, trace, spent)
  {
    if |trace| == 1 { assert trace[1..] == []; }
  }

  /** After a working refresh the next send goes to the same account. */
  lemma RenewedSendsTwice(w: World, n: nat, x: Loop, head: seq<Event>, q: Request, lim: Limits, ids: seq<string>,
      horizon: int, spent: set<string>)
    requires AtMost(w, |ids|) && x.failovers <= AtLeastOne(|ids|) && Steady(w, ids, q.model, horizon)
    requires Renewed(x, head, ids)
    ensures var rest := Generate(w, n, x, q, lim, |ids|);
      Verdict(rest.outcome, head + rest.trace, spent)
  {
    RenewedIsNext(w, n, x, q, lim, head[0].account, ids, horizon);
    var rest := Generate(w, n, x, q, lim, |ids|);
    RenewedRepeats(head, rest.outcome, rest.trace, spent);
  }

  /**
   With cooldowns that outlast the call, an account is sent to twice exactly if a refresh worked, and
   otherwise the request never fails for having rotated too often.
   */
  lemma {:induction false} TwiceIffRenewed(w: World, n: nat, x: Loop, q: Request, lim: Limits, spent: set<string>,
      ids: seq<string>, horizon: int)
    requires AtMost(w, |ids|) && x.failovers <= AtLeastOne(|ids|)
    requires n == x.failovers && n <= |ids| && Spent(x, spent, ids, q.model, horizon)
    requires Steady(w, ids, q.model, horizon) && AllThere(w, ids) && Outlasts(w, lim, horizon, |ids| + 1)
    ensures var r := Generate(w, n, x, q, lim, |ids|);
      Verdict(r.outcome, r.trace, spent)
    decreases Budget(x, |ids|), 0
  {
    IterateSpends(w, n, x, q, lim, |ids|);
    OutlastsAt(w, lim, horizon, |ids| + 1, n);
    AttemptSpendsOne(w, n, x, q, lim, spent, ids, horizon);
    GenerateTurns(w, n, x, q, lim, |ids|);
    TwiceAfter(w, n, x, Iterate(w, n, x, q, lim), Generate(w, n, x, q, lim, |ids|), q, lim, spent, ids, horizon);
  }

  lemma {:induction false} TwiceAfter(w: World, n: nat, x: Loop, t: Turned, r: Ended, q: Request, lim: Limits, spent: set<string>,
      ids: seq<string>, horizon: int)
    requires AtMost(w, |ids|) && n == x.failovers && SpendsOne(t, x, spent, ids, q.model, horizon)
    requires Steady(w, ids, q.model, horizon) && AllThere(w, ids) && Outlasts(w, lim, horizon, |ids| + 1)
    requires t.Again? ==> t.loop.failovers <= AtLeastOne(|ids|) && Budget(t.loop, |ids|) == Budget(x, |ids|) - 1
    requires Turns(w, n, t, r, q, lim, |ids|)
    ensures Verdict(r.outcome, r.trace, spent)
    decreases Budget(x, |ids|) - 1, 2
  {
    if t.Done? {
      LastVerdict(t.outcome, t.trace, spent);
    } else {
      TwiceFromHere(w, n + 1, t, x, q, lim, spent, ids, horizon);
    }
  }

  /** How a turn and the rest of the loop make up the whole. */
  ghost predicate Turns(w: World, n: nat, t: Turned, r: Ended, q: Request, lim: Limits, size: nat)
    requires AtMost(w, size)
  {
    match t
    case Done(outcome, pool, trace) => r == Ended(outcome, pool, trace)
    case Again(x, trace) =>
      x.failovers <= AtLeastOne(size) &&
      var rest := Generate(w, n + 1, x, q, lim, size);
      r == Ended(rest.outcome, rest.pool, trace + rest.trace)
  }

  lemma OutlastsAt(w: World, lim: Limits, horizon: int, attempts: nat, n: nat)
    requires Outlasts(w, lim, horizon, attempts) && n < attempts
    ensures w.pickAt(n) < horizon <= w.noteAt(n) + lim.hardCreditCooldown * SECOND
    ensures horizon <= w.noteAt(n) + AtLeastOne(lim.modelCooldown) * SECOND
  {
  }

  /** The loop, one turn unrolled. */
  lemma GenerateTurns(w: World, n: nat, x: Loop, q: Request, lim: Limits, size: nat)
    requires AtMost(w, size) && x.failovers <= AtLeastOne(size)
    ensures Turns(w, n, Iterate(w, n, x, q, lim), Generate(w, n, x, q, lim, size), q, lim, size)
  {
    IterateSpends(w, n, x, q, lim, size);
  }

  lemma {:induction false} TwiceFromHere(w: World, n: nat, t: Turned, x: Loop, q: Request, lim: Limits,
      spent: set<string>, ids: seq<string>, horizon: int)
    requires AtMost(w, |ids|) && t.Again? && t.loop.failovers <= AtLeastOne(|ids|)
    requires n == x.failovers + 1 && SpendsOne(t, x, spent, ids, q.model, horizon)
    requires Steady(w, ids, q.model, horizon) && AllThere(w, ids) && Outlasts(w, lim, horizon, |ids| + 1)
    ensures var r := Generate(w, n, t.loop, q, lim, |ids|);
      Verdict(r.outcome, t.trace + r.trace, spent)
    decreases Budget(t.loop, |ids|), 1
  {
    if Renewed(t.loop, t.trace, ids) {
      RenewedSendsTwice(w, n, t.loop, t.trace, q, lim, ids, horizon, spent);
    } else {
      var spent' := spent + {t.trace[0].account};
      SpentIsBounded(spent', ids);
      TwiceIffRenewed(w, n, t.loop, q, lim, spent', ids, horizon);
      var rest := Generate(w, n, t.loop, q, lim, |ids|);
      OneMoreSend(t.trace[0], rest.outcome, rest.trace, spent);
      assert t.trace == [t.trace[0]];
    }
  }

  /**
   A whole request, while its cooldowns outlast it and other tasks neither unload an account nor end
   a cooldown: it sends to different accounts only, exactly if no refresh worked.
   */
  lemma RequestVisitsEachOnce(w: World, pool: PoolState, q: Request, lim: Limits, horizon: int)
    requires AtMost(w, |pool.entries|)
    requires Steady(w, pool.entries, q.model, horizon) && AllThere(w, pool.entries)
    requires Outlasts(w, lim, horizon, |pool.entries| + 1)
    ensures var r := Generate(w, 0, Loop(pool, 0, None), q, lim, |pool.entries|);
      (DifferentSends(r.trace) <==> NeverRenewed(r.trace)) &&
      (NeverRenewed(r.trace) && r.outcome.Failed? ==> r.outcome.reason != FailoverExhausted)
  {
    TwiceIffRenewed(w, 0, Loop(pool, 0, None), q, lim, {}, pool.entries, horizon);
    var trace := Generate(w, 0, Loop(pool, 0, None), q, lim, |pool.entries|).trace;
    if NeverRenewed(trace) {
      forall i, j | 0 <= i < j < |trace| && trace[i].Sent? && trace[j].Sent? ensures trace[i].account != trace[j].account {
        FreshAreDistinct(trace, {}, i, j);
      }
    }
  }

  lemma {:induction false} FreshAreDistinct(t: seq<Event>, spent: set<string>, i: int, j: nat)
    requires FreshSends(t, spent) && -1 <= i < j < |t| && t[j].Sent? && (i >= 0 ==> t[i].Sent?)
    ensures t[j].account !in spent && (i >= 0 ==> t[i].account != t[j].account)
  {
    if j > 0 { FreshAreDistinct(t[1..], spent + {t[0].account}, if i < 1 then -1 else i - 1, j - 1); }
  }
}
