/** The account pool: health, credits and the sticky session table, one step per operation. */
module Pool {
  import opened Wrappers
  import opened Recency

  datatype CoolKind = HardCredit | ErrThreshold

  datatype FailKey = FailKey(id: string, kind: CoolKind)
  datatype ModelKey = ModelKey(id: string, model: string)

  datatype Binding = Binding(id: string, touched: int)

  /** The sticky table: bindings by session fingerprint, and the fingerprints in touch order. */
  datatype Table = Table(bindings: map<string, Binding>, order: seq<string>)

  /** Cooldowns of whole accounts, and of one model on one account. */
  datatype Health = Health(failUntil: map<FailKey, int>, modelFail: map<ModelKey, int>)

  datatype PoolState = PoolState(
    entries: seq<string>,
    credits: map<string, int>,
    health: Health,
    table: Table,
    rr: nat,
    errCounts: map<string, nat>)

  /** Times are nanoseconds, limits are seconds. */
  const SECOND: nat := 1_000_000_000

  datatype Limits = Limits(stickyTtl: nat, stickyMax: nat, credCooldown: nat, modelCooldown: nat, hardCreditCooldown: nat)

  /** The rotation counter is a 64-bit word. */
  const WORD: nat := 0x1_0000_0000_0000_0000

  const ERROR_THRESHOLD: nat := 3

  const EMPTY: PoolState := PoolState([], map[], Health(map[], map[]), Table(map[], []), 0, map[])

  // ---- The sticky table ----

  function Remove(t: Table, fp: string): Table {
    Table(t.bindings - {fp}, Without(t.order, fp))
  }

  predicate Expired(t: Table, fp: string, now: int, lim: Limits) {
    fp !in t.bindings || now - t.bindings[fp].touched > lim.stickyTtl * SECOND
  }

  /** `evict_sticky`: only the front of the order is ever looked at. */
  function Evict(t: Table, now: int, lim: Limits): Table
    decreases |t.order|
  {
    if t.order == [] then t
    else if Expired(t, t.order[0], now, lim) || |t.bindings| > lim.stickyMax then Evict(Remove(t, t.order[0]), now, lim)
    else t
  }

  /** A kept binding is stamped and moves to the back. */
  function TouchBinding(t: Table, fp: string, id: string, now: int): Table {
    Table(t.bindings[fp := Binding(id, now)], Without(t.order, fp) + [fp])
  }

  /** A new binding; a full table gives up its front. */
  function Bind(t: Table, fp: string, id: string, now: int, lim: Limits): Table {
    var t' := if fp !in t.bindings && |t.bindings| >= lim.stickyMax && t.order != [] then Remove(t, t.order[0]) else t;
    Table(t'.bindings[fp := Binding(id, now)], t'.order + [fp])
  }

  /** The sessions bound to one account. */
  function BoundTo(t: Table, id: string): set<string> {
    set fp | fp in t.bindings && t.bindings[fp].id == id
  }

  function RemoveAll(t: Table, gone: set<string>): Table {
    Table(t.bindings - gone, WithoutAll(t.order, gone))
  }

  // ---- Health and rank ----

  predicate GloballyHealthy(h: Health, id: string, now: int) {
    forall k | k in h.failUntil && k.id == id :: now >= h.failUntil[k]
  }

  predicate ModelHealthy(h: Health, id: string, model: string, now: int) {
    ModelKey(id, model) in h.modelFail ==> now >= h.modelFail[ModelKey(id, model)]
  }

  predicate Healthy(h: Health, id: string, model: string, now: int) {
    GloballyHealthy(h, id, now) && ModelHealthy(h, id, model, now)
  }

  /** Unknown credits count as -1. */
  function Rank(credits: map<string, int>, id: string): int {
    if id in credits then credits[id] else -1
  }

  /** The accounts whose file is still there. */
  function Present(ids: seq<string>, files: set<string>): (r: seq<string>)
    ensures forall id :: id in r <==> id in ids && id in files
  {
    if ids == [] then [] else
      var init, id := ids[..|ids| - 1], ids[|ids| - 1];
      assert forall x :: x in ids <==> x in init || x == id;
      if id in files then Present(init, files) + [id] else Present(init, files)
  }

  lemma {:induction false} PresentShrinks(ids: seq<string>, files: set<string>)
    ensures |Present(ids, files)| <= |ids|
    ensures |Present(ids, files)| == |ids| ==> Present(ids, files) == ids
    ensures (forall id | id in ids :: id in files) ==> Present(ids, files) == ids
  {
    if ids == [] {
    } else {
      var init, id := ids[..|ids| - 1], ids[|ids| - 1];
      assert forall x :: x in ids <==> x in init || x == id;
      PresentShrinks(init, files);
    }
  }

  function Candidates(h: Health, ids: seq<string>, model: string, now: int): (r: seq<string>)
    ensures forall id :: id in r <==> id in ids && Healthy(h, id, model, now)
  {
    if ids == [] then [] else
      var init, id := ids[..|ids| - 1], ids[|ids| - 1];
      assert forall x :: x in ids <==> x in init || x == id;
      if Healthy(h, id, model, now) then Candidates(h, init, model, now) + [id] else Candidates(h, init, model, now)
  }

  function BestRank(credits: map<string, int>, ids: seq<string>): (r: int)
    requires ids != []
    ensures (exists id :: id in ids && Rank(credits, id) == r) && forall id | id in ids :: Rank(credits, id) <= r
  {
    var init, id := ids[..|ids| - 1], ids[|ids| - 1];
    assert forall x :: x in ids <==> x in init || x == id;
    if init == [] then Rank(credits, id)
    else if Rank(credits, id) > BestRank(credits, init) then Rank(credits, id) else BestRank(credits, init)
  }

  function WithRank(credits: map<string, int>, ids: seq<string>, rank: int): (r: seq<string>)
    ensures forall id :: id in r <==> id in ids && Rank(credits, id) == rank
  {
    if ids == [] then [] else
      var init, id := ids[..|ids| - 1], ids[|ids| - 1];
      assert forall x :: x in ids <==> x in init || x == id;
      if Rank(credits, id) == rank then WithRank(credits, init, rank) + [id] else WithRank(credits, init, rank)
  }

  /** Those of highest rank. */
  function BestOf(credits: map<string, int>, ids: seq<string>): (r: seq<string>)
    ensures forall id | id in r :: id in ids
    ensures forall id, other | id in r && other in ids :: Rank(credits, other) <= Rank(credits, id)
    ensures r == [] <==> ids == []
  {
    if ids == [] then [] else WithRank(credits, ids, BestRank(credits, ids))
  }

  /** The healthy accounts of highest rank, in entry order. */
  function Top(s: PoolState, model: string, now: int): seq<string> {
    BestOf(s.credits, Candidates(s.health, s.entries, model, now))
  }

  // ---- Picking ----

  datatype Picked = Picked(state: PoolState, account: Option<string>)

  /** Whose turn it is among `n`: the remainder of the counter. */
  function Turn(rr: nat, n: nat): (i: nat)
    requires n > 0
    ensures i < n
  {
    if rr < n then rr else Turn(rr - n, n)
  }

  lemma {:induction false} TurnIsRemainder(rr: nat, n: nat)
    requires n > 0
    ensures Turn(rr, n) == rr % n
  {
    if rr >= n {
      TurnIsRemainder(rr - n, n);
      OneTurnLess(rr, n);
    }
  }

  lemma OneTurnLess(rr: nat, n: nat)
    requires 0 < n <= rr
    ensures (rr - n) % n == rr % n
  {
    var q, r := rr / n, rr % n;
    assert rr - n == (q - 1) * n + r;
    var d := (rr - n) / n - (q - 1);
    assert d * n == r - (rr - n) % n;
    assert d >= 1 ==> d * n >= n;
    assert d <= -1 ==> d * n <= 0 - n;
    assert d == 0;
  }

  /** `wrapping_add(1)`. */
  function NextTurn(rr: nat): (r: nat)
    ensures r < WORD
  {
    if rr + 1 < WORD then rr + 1 else 0
  }

  /** Rotate over the top rank, and bind the session if there is one. */
  function Choose(s: PoolState, session: Option<string>, model: string, now: int, lim: Limits): Picked {
    var top := Top(s, model, now);
    if top == [] then Picked(s, None) else
      var id := top[Turn(s.rr, |top|)];
      var table := if session.Some? then Bind(s.table, session.value, id, now, lim) else s.table;
      Picked(s.(rr := NextTurn(s.rr), table := table), Some(id))
  }

  /** The state a pick decides on: entries without a file gone, old bindings evicted. */
  function Swept(s: PoolState, files: set<string>, now: int, lim: Limits): PoolState {
    s.(entries := Present(s.entries, files), table := Evict(s.table, now, lim))
  }

  /** The session is bound to an account that is loaded and healthy. */
  predicate Keeps(s: PoolState, session: Option<string>, model: string, now: int) {
    session.Some? && session.value in s.table.bindings &&
    var id := s.table.bindings[session.value].id;
    id in s.entries && Healthy(s.health, id, model, now)
  }

  /** A binding that is not kept is dropped. */
  function Unbind(s: PoolState, session: Option<string>): PoolState {
    if session.Some? && session.value in s.table.bindings then s.(table := Remove(s.table, session.value)) else s
  }

  /** `pick`, at one instant. */
  function Pick(s: PoolState, session: Option<string>, model: string, files: set<string>, now: int,
      lim: Limits): Picked {
    var s' := Swept(s, files, now, lim);
    if Keeps(s', session, model, now) then
      var id := s'.table.bindings[session.value].id;
      Picked(s'.(table := TouchBinding(s'.table, session.value, id, now)), Some(id))
    else
      Choose(Unbind(s', session), session, model, now, lim)
  }

  // ---- Health updates ----

  function Cool(h: Health, id: string, kind: CoolKind, until: int): Health {
    h.(failUntil := h.failUntil[FailKey(id, kind) := until])
  }

  /** 401 and 403 cool the account, 429 cools it for one model and unbinds its sessions. */
  function NoteStatus(s: PoolState, id: string, status: int, model: string, now: int, lim: Limits): PoolState {
    if status == 401 || status == 403 then
      s.(health := Cool(s.health, id, ErrThreshold, now + lim.credCooldown * SECOND))
    else if status == 429 then
      var cooldown := if lim.modelCooldown < 1 then 1 else lim.modelCooldown;
      s.(health := s.health.(modelFail := s.health.modelFail[ModelKey(id, model) := now + cooldown * SECOND]),
         table := RemoveAll(s.table, BoundTo(s.table, id)))
    else s
  }

  function NoteHardCredit(s: PoolState, id: string, now: int, lim: Limits): PoolState {
    s.(health := Cool(s.health, id, HardCredit, now + lim.hardCreditCooldown * SECOND))
  }

  function NoteErrorThreshold(s: PoolState, id: string, now: int, lim: Limits): PoolState {
    var count := (if id in s.errCounts then s.errCounts[id] else 0) + 1;
    if count >= ERROR_THRESHOLD then
      s.(health := Cool(s.health, id, ErrThreshold, now + lim.credCooldown * SECOND), errCounts := s.errCounts[id := 0])
    else s.(errCounts := s.errCounts[id := count])
  }

  function NoteSuccess(s: PoolState, id: string): PoolState {
    s.(errCounts := s.errCounts[id := 0])
  }

  function SetCredits(s: PoolState, id: string, credits: int): PoolState {
    s.(credits := s.credits[id := credits])
  }

  // ---- Entries ----

  /** `load_files`, given the account ids read: an id already loaded is ignored. */
  function Load(s: PoolState, ids: seq<string>): PoolState {
    if ids == [] then s else
      var s' := Load(s, ids[..|ids| - 1]);
      var id := ids[|ids| - 1];
      if id in s'.entries then s' else s'.(entries := s'.entries + [id])
  }

  /** The sessions bound to an account outside `ids`. */
  function Orphans(t: Table, ids: seq<string>): set<string> {
    set fp | fp in t.bindings && t.bindings[fp].id !in ids
  }

  function PrunedHealth(h: Health, ids: seq<string>): Health {
    Health(map k | k in h.failUntil && k.id in ids :: h.failUntil[k], map k | k in h.modelFail && k.id in ids :: h.modelFail[k])
  }

  /** `prune`: state of vanished accounts goes, but only if this call itself dropped an entry. */
  function Prune(s: PoolState, files: set<string>): PoolState {
    var ids := Present(s.entries, files);
    if |ids| == |s.entries| then s.(entries := ids) else
      s.(entries := ids,
         credits := map id | id in s.credits && id in ids :: s.credits[id],
         health := PrunedHealth(s.health, ids),
         errCounts := map id | id in s.errCounts && id in ids :: s.errCounts[id],
         table := RemoveAll(s.table, Orphans(s.table, ids)))
  }

  // ---- The retry time ----

  function LoadedHealthy(h: Health, ids: seq<string>, now: int): (r: seq<string>)
    ensures forall id :: id in r <==> id in ids && GloballyHealthy(h, id, now)
  {
    if ids == [] then [] else
      var init, id := ids[..|ids| - 1], ids[|ids| - 1];
      assert forall x :: x in ids <==> x in init || x == id;
      if GloballyHealthy(h, id, now) then LoadedHealthy(h, init, now) + [id] else LoadedHealthy(h, init, now)
  }

  /** How long a cooldown still lasts; nothing if it is over. */
  function Wait(until: int, now: int): nat {
    if until > now then until - now else 0
  }

  /** The shortest model cooldown among `ids`; `None` unless each of them has one. */
  function ShortestWait(h: Health, ids: seq<string>, model: string, now: int): Option<nat>
    requires ids != []
  {
    var init, id := ids[..|ids| - 1], ids[|ids| - 1];
    if ModelKey(id, model) !in h.modelFail then None else
      var wait := Wait(h.modelFail[ModelKey(id, model)], now);
      if init == [] then Some(wait) else
        var rest := ShortestWait(h, init, model, now);
        if rest.None? then None else if rest.value < wait then rest else Some(wait)
  }

  /** `all_cooled_until`, as a wait from now in whole seconds. */
  function AllCooled(s: PoolState, model: string, now: int): Option<nat> {
    var healthy := LoadedHealthy(s.health, s.entries, now);
    if healthy == [] then None else WholeSeconds(ShortestWait(s.health, healthy, model, now))
  }

  function WholeSeconds(wait: Option<nat>): Option<nat> {
    if wait.None? then None else Some(wait.value / SECOND)
  }
}
