/** What the pool keeps in every reachable state, and what a pick decides. */
module PoolTheorems {
  import opened Wrappers
  import opened Recency
  import opened Pool

  // ---- Runs ----

  datatype Step =
    | DoPick(session: Option<string>, model: string, files: set<string>)
    | DoNoteStatus(id: string, status: int, model: string)
    | DoNoteHardCredit(id: string)
    | DoNoteError(id: string)
    | DoNoteSuccess(id: string)
    | DoSetCredits(id: string, credits: int)
    | DoPrune(files: set<string>)
    | DoLoad(ids: seq<string>)

  /** One step, at one instant. */
  datatype Timed = Timed(step: Step, at: int)

  function Apply(s: PoolState, e: Timed, lim: Limits): PoolState {
    match e.step
    case DoPick(session, model, files) => Pick(s, session, model, files, e.at, lim).state
    case DoPrune(files) => Prune(s, files)
    case DoLoad(ids) => Load(s, ids)
    case _ => Note(s, e, lim)
  }

  /** The steps that record something about one account. */
  function Note(s: PoolState, e: Timed, lim: Limits): PoolState {
    match e.step
    case DoNoteStatus(id, status, model) => NoteStatus(s, id, status, model, e.at, lim)
    case DoNoteHardCredit(id) => NoteHardCredit(s, id, e.at, lim)
    case DoNoteError(id) => NoteErrorThreshold(s, id, e.at, lim)
    case DoNoteSuccess(id) => NoteSuccess(s, id)
    case DoSetCredits(id, credits) => SetCredits(s, id, credits)
    case _ => s
  }

  /** A pick that serves a session touches it. */
  function Touches(s: PoolState, e: Timed, lim: Limits): seq<Touch> {
    if e.step.DoPick? && e.step.session.Some? && Pick(s, e.step.session, e.step.model, e.step.files, e.at, lim).account.Some?
    then [Touch(e.step.session.value, e.at)] else []
  }

  function RunFrom(s: PoolState, es: seq<Timed>, lim: Limits): PoolState {
    if es == [] then s else Apply(RunFrom(s, es[..|es| - 1], lim), es[|es| - 1], lim)
  }

  function Run(es: seq<Timed>, lim: Limits): PoolState {
    RunFrom(EMPTY, es, lim)
  }

  function TouchLog(es: seq<Timed>, lim: Limits): seq<Touch> {
    if es == [] then [] else
      TouchLog(es[..|es| - 1], lim) + Touches(Run(es[..|es| - 1], lim), es[|es| - 1], lim)
  }

  predicate InTime(es: seq<Timed>) {
    forall i, j | 0 <= i < j < |es| :: es[i].at <= es[j].at
  }

  // ---- The invariant ----

  predicate Ticking(log: seq<Touch>, now: int) {
    (forall i, j | 0 <= i < j < |log| :: log[i].at <= log[j].at) && forall i | 0 <= i < |log| :: log[i].at <= now
  }

  predicate Stamped(t: Table, log: seq<Touch>) {
    forall fp | fp in t.bindings :: Last(log, fp) >= 0 && log[Last(log, fp)].at == t.bindings[fp].touched
  }

  predicate SameKeys(t: Table) {
    (forall fp | fp in t.order :: fp in t.bindings) && forall fp | fp in t.bindings :: fp in t.order
  }

  /** The order lists the bound sessions once each, in last-touch order, and stamps are the touch times. */
  predicate TableOk(t: Table, log: seq<Touch>, now: int) {
    SameKeys(t) && InTouchOrder(t.order, log) && Stamped(t, log) && Ticking(log, now)
  }

  function Capacity(lim: Limits): nat {
    if lim.stickyMax == 0 then 1 else lim.stickyMax
  }

  predicate StateOk(s: PoolState, log: seq<Touch>, now: int, lim: Limits) {
    TableOk(s.table, log, now) && |s.table.bindings| <= Capacity(lim) && Distinct(s.entries) && s.rr < WORD
  }

  lemma TableSize(t: Table, log: seq<Touch>)
    requires SameKeys(t) && InTouchOrder(t.order, log)
    ensures |t.order| == |t.bindings| && Distinct(t.order)
  {
    TouchOrderIsDistinct(t.order, log);
    DistinctCount(t.order);
    assert (set x | x in t.order) == t.bindings.Keys;
  }

  lemma RemoveAllOk(t: Table, log: seq<Touch>, now: int, gone: set<string>)
    requires TableOk(t, log, now)
    ensures TableOk(RemoveAll(t, gone), log, now)
    ensures |RemoveAll(t, gone).bindings| <= |t.bindings|
  {
    OrderWithoutAll(t.order, log, gone);
    SubsetSize(RemoveAll(t, gone).bindings.Keys, t.bindings.Keys);
  }

  lemma {:induction false} SubsetSize(a: set<string>, b: set<string>)
    requires a <= b
    ensures |a| <= |b|
  {
    if a != {} {
      var x :| x in a;
      SubsetSize(a - {x}, b - {x});
    }
  }

  lemma RemoveSize(t: Table, fp: string)
    ensures |Remove(t, fp).bindings| == if fp in t.bindings then |t.bindings| - 1 else |t.bindings|
  {
    var keys := t.bindings.Keys;
    assert Remove(t, fp).bindings.Keys == keys - {fp};
    if fp in keys { assert |keys - {fp}| == |keys| - 1; } else { assert keys - {fp} == keys; }
  }

  lemma RemoveOk(t: Table, log: seq<Touch>, now: int, fp: string)
    requires TableOk(t, log, now)
    ensures TableOk(Remove(t, fp), log, now)
  {
    WithoutIsWithoutAll(t.order, fp);
    RemoveAllOk(t, log, now, {fp});
    assert Remove(t, fp) == RemoveAll(t, {fp});
  }

  /** What the front's stamp says about the rest. */
  lemma FrontIsOldest(t: Table, log: seq<Touch>, now: int, fp: string)
    requires TableOk(t, log, now) && fp in t.bindings
    ensures t.order != [] && t.order[0] in t.bindings && t.bindings[t.order[0]].touched <= t.bindings[fp].touched
  {
    var i :| 0 <= i < |t.order| && t.order[i] == fp;
    var front := t.order[0];
    assert front in t.order;
    if i > 0 { assert Last(log, t.order[0]) < Last(log, t.order[i]); }
  }

  /** The bindings still within their time; none at all if the table may hold none. */
  function Live(t: Table, now: int, lim: Limits): map<string, Binding> {
    map fp | fp in t.bindings && lim.stickyMax > 0 && !Expired(t, fp, now, lim) :: t.bindings[fp]
  }

  lemma LiveWithoutFront(t: Table, fp: string, now: int, lim: Limits)
    requires Expired(t, fp, now, lim) || lim.stickyMax == 0
    ensures Live(Remove(t, fp), now, lim) == Live(t, now, lim)
  {
  }

  lemma AllLive(t: Table, log: seq<Touch>, was: int, now: int, lim: Limits)
    requires TableOk(t, log, was) && t.order != [] && !Expired(t, t.order[0], now, lim) && lim.stickyMax > 0
    ensures Live(t, now, lim) == t.bindings
  {
    forall fp | fp in t.bindings ensures !Expired(t, fp, now, lim) {
      FrontIsOldest(t, log, was, fp);
    }
  }

  /** Looking only at the front of the order, eviction removes every expired binding and no other. */
  lemma {:induction false} EvictIsExpiry(t: Table, log: seq<Touch>, was: int, now: int, lim: Limits)
    requires TableOk(t, log, was) && |t.bindings| <= Capacity(lim)
    ensures Evict(t, now, lim).bindings == Live(t, now, lim)
    ensures TableOk(Evict(t, now, lim), log, was)
    ensures |Evict(t, now, lim).bindings| <= lim.stickyMax
    decreases |t.order|
  {
    TableSize(t, log);
    if t.order == [] {
      assert t.bindings.Keys == {};
    } else {
      var front := t.order[0];
      if Expired(t, front, now, lim) || |t.bindings| > lim.stickyMax {
        RemoveOk(t, log, was, front);
        RemoveSize(t, front);
        LiveWithoutFront(t, front, now, lim);
        EvictIsExpiry(Remove(t, front), log, was, now, lim);
      } else {
        AllLive(t, log, was, now, lim);
      }
    }
  }

  lemma TickOn(log: seq<Touch>, was: int, fp: string, now: int)
    requires Ticking(log, was) && was <= now
    ensures Ticking(log + [Touch(fp, now)], now)
  {
  }

  lemma StampOn(t: Table, log: seq<Touch>, fp: string, b: Binding)
    requires forall k | k in t.bindings && k != fp :: Last(log, k) >= 0 && log[Last(log, k)].at == t.bindings[k].touched
    ensures Stamped(Table(t.bindings[fp := b], t.order), log + [Touch(fp, b.touched)])
  {
    var log' := log + [Touch(fp, b.touched)];
    forall k | k in t.bindings[fp := b] ensures Last(log', k) >= 0 && log'[Last(log', k)].at == t.bindings[fp := b][k].touched {
      LastAfter(log, Touch(fp, b.touched), k);
    }
  }

  lemma TouchOk(t: Table, log: seq<Touch>, was: int, fp: string, id: string, now: int)
    requires TableOk(t, log, was) && was <= now
    ensures TableOk(TouchBinding(t, fp, id, now), log + [Touch(fp, now)], now)
  {
    TickOn(log, was, fp, now);
    StampOn(t, log, fp, Binding(id, now));
    OrderAfterTouch(t.order, log, Touch(fp, now));
  }

  lemma BindOk(t: Table, log: seq<Touch>, was: int, fp: string, id: string, now: int, lim: Limits)
    requires TableOk(t, log, was) && was <= now && fp !in t.bindings && |t.bindings| <= lim.stickyMax
    ensures var t' := Bind(t, fp, id, now, lim);
      TableOk(t', log + [Touch(fp, now)], now) && |t'.bindings| <= Capacity(lim)
  {
    var rest := Unfilled(t, lim);
    UnfilledOk(t, log, was, lim);
    WithoutAbsent(rest.order, fp);
    TouchOk(rest, log, was, fp, id, now);
    assert Bind(t, fp, id, now, lim) == TouchBinding(rest, fp, id, now);
    BindingSize(rest.bindings, fp, Binding(id, now));
  }

  /** The table with room for one more: a full one has given up its front. */
  function Unfilled(t: Table, lim: Limits): Table {
    if |t.bindings| >= lim.stickyMax && t.order != [] then Remove(t, t.order[0]) else t
  }

  lemma UnfilledOk(t: Table, log: seq<Touch>, was: int, lim: Limits)
    requires TableOk(t, log, was) && |t.bindings| <= lim.stickyMax
    ensures TableOk(Unfilled(t, lim), log, was) && |Unfilled(t, lim).bindings| < Capacity(lim)
  {
    TableSize(t, log);
    if |t.bindings| >= lim.stickyMax && t.order != [] {
      assert t.order[0] in t.order;
      RemoveOk(t, log, was, t.order[0]);
      RemoveSize(t, t.order[0]);
    }
  }

  lemma BindingSize(m: map<string, Binding>, fp: string, b: Binding)
    ensures |m[fp := b]| <= |m| + 1
  {
    assert m[fp := b].Keys == m.Keys + {fp};
  }

  // ---- Every reachable state ----

  lemma {:induction false} PresentIsDistinct(ids: seq<string>, files: set<string>)
    requires Distinct(ids)
    ensures Distinct(Present(ids, files))
    ensures |Present(ids, files)| <= |ids|
  {
    if ids != [] {
      var init := ids[..|ids| - 1];
      PresentIsDistinct(init, files);
      var r := Present(init, files);
      forall i | 0 <= i < |r| ensures r[i] != ids[|ids| - 1] {
        assert r[i] in r;
        var k :| 0 <= k < |init| && init[k] == r[i];
        assert ids[k] == r[i];
      }
    }
  }

  lemma {:induction false} LoadKeeps(s: PoolState, ids: seq<string>)
    requires Distinct(s.entries)
    ensures Distinct(Load(s, ids).entries) && Load(s, ids).table == s.table && Load(s, ids).rr == s.rr
  {
    if ids != [] { LoadKeeps(s, ids[..|ids| - 1]); }
  }

  lemma ChooseOk(s: PoolState, log: seq<Touch>, was: int, session: Option<string>, model: string, now: int, lim: Limits)
    requires StateOk(s, log, was, lim) && was <= now && |s.table.bindings| <= lim.stickyMax
    requires session.Some? ==> session.value !in s.table.bindings
    ensures var p := Choose(s, session, model, now, lim);
      StateOk(p.state, if session.Some? && p.account.Some? then log + [Touch(session.value, now)] else log, now, lim)
  {
    var p := Choose(s, session, model, now, lim);
    ChooseShape(s, session, model, now, lim);
    if session.Some? && p.account.Some? {
      BindOk(s.table, log, was, session.value, p.account.value, now, lim);
    }
  }

  lemma ChooseShape(s: PoolState, session: Option<string>, model: string, now: int, lim: Limits)
    ensures var p := Choose(s, session, model, now, lim);
      (p.account.None? ==> p.state == s) &&
      (p.account.Some? ==>
         p.state == s.(rr := NextTurn(s.rr),
                       table := if session.Some? then Bind(s.table, session.value, p.account.value, now, lim) else s.table))
  {
  }

  lemma SweptOk(s: PoolState, log: seq<Touch>, was: int, files: set<string>, now: int, lim: Limits)
    requires StateOk(s, log, was, lim)
    ensures StateOk(Swept(s, files, now, lim), log, was, lim)
    ensures |Swept(s, files, now, lim).table.bindings| <= lim.stickyMax
  {
    EvictIsExpiry(s.table, log, was, now, lim);
    PresentIsDistinct(s.entries, files);
  }

  lemma PickOk(s: PoolState, log: seq<Touch>, was: int, session: Option<string>, model: string, files: set<string>,
      now: int, lim: Limits)
    requires StateOk(s, log, was, lim) && was <= now
    ensures var p := Pick(s, session, model, files, now, lim);
      StateOk(p.state, if session.Some? && p.account.Some? then log + [Touch(session.value, now)] else log, now, lim)
  {
    SweptOk(s, log, was, files, now, lim);
    var s' := Swept(s, files, now, lim);
    if Keeps(s', session, model, now) {
      var fp := session.value;
      TouchOk(s'.table, log, was, fp, s'.table.bindings[fp].id, now);
      assert TouchBinding(s'.table, fp, s'.table.bindings[fp].id, now).bindings.Keys == s'.table.bindings.Keys;
    } else {
      if session.Some? {
        RemoveOk(s'.table, log, was, session.value);
        RemoveSize(s'.table, session.value);
      }
      ChooseOk(Unbind(s', session), log, was, session, model, now, lim);
    }
  }

  lemma StepKeeps(s: PoolState, log: seq<Touch>, was: int, e: Timed, lim: Limits)
    requires StateOk(s, log, was, lim) && was <= e.at
    ensures StateOk(Apply(s, e, lim), log + Touches(s, e, lim), e.at, lim)
  {
    if e.step.DoPick? {
      PickOk(s, log, was, e.step.session, e.step.model, e.step.files, e.at, lim);
    } else {
      QuietShape(s, e, lim);
      Unbound(s, Apply(s, e, lim), log, was, e.at, lim, Gone(s, e.step));
    }
    assert log + [] == log;
  }

  /** The sessions a step other than a pick unbinds. */
  function Gone(s: PoolState, step: Step): set<string> {
    if step.DoNoteStatus? && step.status == 429 then BoundTo(s.table, step.id)
    else if step.DoPrune? && |Present(s.entries, step.files)| != |s.entries| then Orphans(s.table, Present(s.entries, step.files))
    else {}
  }

  lemma PruneShape(s: PoolState, files: set<string>)
    requires Distinct(s.entries)
    ensures var s' := Prune(s, files);
      s'.table == RemoveAll(s.table, Gone(s, DoPrune(files))) && Distinct(s'.entries) && s'.rr == s.rr
  {
    WithoutNone(s.table.order);
    PresentIsDistinct(s.entries, files);
    assert RemoveAll(s.table, {}) == s.table;
  }

  lemma NoteShape(s: PoolState, e: Timed, lim: Limits)
    requires !e.step.DoPick? && !e.step.DoPrune? && !e.step.DoLoad?
    ensures var s' := Note(s, e, lim);
      s'.table == RemoveAll(s.table, Gone(s, e.step)) && s'.entries == s.entries && s'.rr == s.rr
  {
    RemoveNothing(s.table);
  }

  lemma RemoveNothing(t: Table)
    ensures RemoveAll(t, {}) == t
  {
    WithoutNone(t.order);
    assert t.bindings - {} == t.bindings;
  }

  lemma QuietShape(s: PoolState, e: Timed, lim: Limits)
    requires !e.step.DoPick? && Distinct(s.entries)
    ensures var s' := Apply(s, e, lim);
      s'.table == RemoveAll(s.table, Gone(s, e.step)) && Distinct(s'.entries) && s'.rr == s.rr
  {
    if e.step.DoPrune? {
      PruneShape(s, e.step.files);
    } else if e.step.DoLoad? {
      WithoutNone(s.table.order);
      assert RemoveAll(s.table, {}) == s.table;
      LoadKeeps(s, e.step.ids);
    } else {
      NoteShape(s, e, lim);
    }
  }

  /** A step that at most takes bindings away keeps the invariant. */
  lemma Unbound(s: PoolState, s': PoolState, log: seq<Touch>, was: int, now: int, lim: Limits, gone: set<string>)
    requires StateOk(s, log, was, lim) && was <= now
    requires s'.table == RemoveAll(s.table, gone)
    requires Distinct(s'.entries) && s'.rr == s.rr
    ensures StateOk(s', log, now, lim)
  {
    RemoveAllOk(s.table, log, was, gone);
  }

  /** In every reachable state the sticky table is in order and within bounds. */
  lemma {:induction false} ReachableIsOk(es: seq<Timed>, now: int, lim: Limits)
    requires InTime(es) && forall i | 0 <= i < |es| :: es[i].at <= now
    ensures StateOk(Run(es, lim), TouchLog(es, lim), now, lim)
  {
    if es == [] {
    } else {
      var init, e := es[..|es| - 1], es[|es| - 1];
      ReachableIsOk(init, e.at, lim);
      StepKeeps(Run(init, lim), TouchLog(init, lim), e.at, e, lim);
    }
  }

  // ---- What a pick decides ----

  /** A cooldown of the whole account is running. */
  predicate Cooling(h: Health, id: string, kind: CoolKind, now: int) {
    FailKey(id, kind) in h.failUntil && now < h.failUntil[FailKey(id, kind)]
  }

  /** A cooldown of the account for one model is running. */
  predicate CoolingFor(h: Health, id: string, model: string, now: int) {
    ModelKey(id, model) in h.modelFail && now < h.modelFail[ModelKey(id, model)]
  }

  /** Loaded, its file still there, and no cooldown running. */
  predicate Usable(s: PoolState, id: string, model: string, files: set<string>, now: int) {
    id in s.entries && id in files &&
    !Cooling(s.health, id, HardCredit, now) && !Cooling(s.health, id, ErrThreshold, now) && !CoolingFor(s.health, id, model, now)
  }

  lemma UsableIsHealthy(s: PoolState, id: string, model: string, files: set<string>, now: int)
    ensures Usable(s, id, model, files, now) <==> id in s.entries && id in files && Healthy(s.health, id, model, now)
  {
    if Usable(s, id, model, files, now) {
      forall k | k in s.health.failUntil && k.id == id ensures now >= s.health.failUntil[k] {
        match k.kind
        case HardCredit => assert k == FailKey(id, HardCredit);
        case ErrThreshold => assert k == FailKey(id, ErrThreshold);
      }
    }
  }

  /** The session was touched within the time to live, and the account it is bound to is usable. */
  predicate LiveBound(s: PoolState, session: Option<string>, model: string, files: set<string>, now: int, lim: Limits) {
    session.Some? && session.value in s.table.bindings && lim.stickyMax > 0 &&
    now - s.table.bindings[session.value].touched <= lim.stickyTtl * 1_000_000_000 &&
    Usable(s, s.table.bindings[session.value].id, model, files, now)
  }

  /** `id` is no better off than `account`: fewer or as many known credits; unknown credits come below 0. */
  predicate NoRicher(credits: map<string, int>, id: string, account: string) {
    (id in credits && account in credits ==> credits[id] <= credits[account]) &&
    (id in credits && account !in credits ==> credits[id] <= -1) &&
    (id !in credits && account in credits ==> credits[account] >= -1)
  }

  lemma KeepsLive(s: PoolState, log: seq<Touch>, was: int, session: Option<string>, model: string, files: set<string>,
      now: int, lim: Limits)
    requires StateOk(s, log, was, lim)
    ensures Keeps(Swept(s, files, now, lim), session, model, now) <==> LiveBound(s, session, model, files, now, lim)
  {
    EvictIsExpiry(s.table, log, was, now, lim);
    if session.Some? && session.value in s.table.bindings {
      UsableIsHealthy(s, s.table.bindings[session.value].id, model, files, now);
    }
  }

  lemma ChooseIsRight(s: PoolState, session: Option<string>, model: string, now: int, lim: Limits)
    ensures var account := Choose(s, session, model, now, lim).account;
      if account.Some? then account.value in Top(s, model, now)
      else forall id | id in s.entries :: !Healthy(s.health, id, model, now)
  {
    var top := Top(s, model, now);
    if top == [] {
      forall id | id in s.entries ensures !Healthy(s.health, id, model, now) {
        assert id !in Candidates(s.health, s.entries, model, now);
      }
    }
  }

  /**
   A pick fails exactly when no account is usable.  A live binding to a usable account is kept;
   otherwise no usable account is richer than the one picked.
   */
  lemma PickIsRight(s: PoolState, log: seq<Touch>, was: int, session: Option<string>, model: string,
      files: set<string>, now: int, lim: Limits)
    requires StateOk(s, log, was, lim)
    ensures var account := Pick(s, session, model, files, now, lim).account;
      if LiveBound(s, session, model, files, now, lim) then account == Some(s.table.bindings[session.value].id)
      else if account.Some? then
        Usable(s, account.value, model, files, now) &&
        forall id | Usable(s, id, model, files, now) :: NoRicher(s.credits, id, account.value)
      else forall id :: !Usable(s, id, model, files, now)
  {
    KeepsLive(s, log, was, session, model, files, now, lim);
    EvictIsExpiry(s.table, log, was, now, lim);
    if !LiveBound(s, session, model, files, now, lim) {
      RankedChoice(s, session, model, files, now, lim);
    }
  }

  lemma RankedChoice(s: PoolState, session: Option<string>, model: string, files: set<string>, now: int, lim: Limits)
    ensures var account := Choose(Unbind(Swept(s, files, now, lim), session), session, model, now, lim).account;
      if account.Some? then
        Usable(s, account.value, model, files, now) &&
        forall id | Usable(s, id, model, files, now) :: NoRicher(s.credits, id, account.value)
      else forall id :: !Usable(s, id, model, files, now)
  {
    var s' := Unbind(Swept(s, files, now, lim), session);
    ChooseIsRight(s', session, model, now, lim);
    var candidates := Candidates(s.health, s'.entries, model, now);
    forall id ensures id in candidates <==> Usable(s, id, model, files, now) { UsableIsHealthy(s, id, model, files, now); }
  }

  // ---- Why bindings leave ----

  /** The sessions touched from a position of the log on. */
  function Sessions(log: seq<Touch>, from: nat): set<string> {
    set i | from <= i < |log| :: log[i].key
  }

  /** Every session ordered after `fp` was touched after `fp`. */
  lemma LaterWereTouched(keys: seq<string>, log: seq<Touch>, t: Touch)
    requires keys != [] && InTouchOrder(keys, log) && Last(log, keys[0]) >= 0
    ensures forall k | k in keys[1..] :: k in Sessions(log + [t], Last(log, keys[0]) + 1)
    ensures t.key in Sessions(log + [t], Last(log, keys[0]) + 1)
  {
    var log' := log + [t];
    forall k | k in keys[1..] ensures k in Sessions(log', Last(log, keys[0]) + 1) {
      var i :| 0 <= i < |keys[1..]| && keys[1..][i] == k;
      assert keys[i + 1] == k && Last(log, keys[0]) < Last(log, keys[i + 1]);
      assert log'[Last(log, k)].key == k;
    }
    assert log'[|log|].key == t.key;
  }

  lemma DistinctAndOneMore(keys: seq<string>, more: string, all: set<string>)
    requires Distinct(keys) && more !in keys && more in all && forall k | k in keys :: k in all
    ensures |all| >= |keys| + 1
  {
    var these := set k | k in keys;
    DistinctCount(keys);
    assert |these + {more}| == |these| + 1;
    SubsetSize(these + {more}, all);
  }

  /** A full table gives up the session that has waited for `stickyMax` others. */
  lemma CapacityLoss(t: Table, log: seq<Touch>, was: int, fp: string, other: string, id: string, now: int, lim: Limits)
    requires TableOk(t, log, was) && fp in t.bindings && other !in t.bindings
    requires fp !in Bind(t, other, id, now, lim).bindings
    ensures |Sessions(log + [Touch(other, now)], Last(log, fp) + 1)| >= lim.stickyMax
  {
    TableSize(t, log);
    FullLosesFront(t, fp, other, id, now, lim);
    TouchedSince(t.order, log, Touch(other, now), fp);
  }

  /** As many sessions were touched since the oldest one as there are in the table. */
  lemma TouchedSince(keys: seq<string>, log: seq<Touch>, t: Touch, fp: string)
    requires keys != [] && keys[0] == fp && Distinct(keys) && InTouchOrder(keys, log) && Last(log, fp) >= 0 && t.key !in keys
    ensures |Sessions(log + [t], Last(log, fp) + 1)| >= |keys|
  {
    LaterWereTouched(keys, log, t);
    DistinctAndOneMore(keys[1..], t.key, Sessions(log + [t], Last(log, fp) + 1));
  }

  lemma FullLosesFront(t: Table, fp: string, other: string, id: string, now: int, lim: Limits)
    requires SameKeys(t) && Distinct(t.order) && fp in t.bindings && other !in t.bindings
    requires fp !in Bind(t, other, id, now, lim).bindings
    ensures t.order != [] && t.order[0] == fp && |t.bindings| >= lim.stickyMax && other !in t.order
  {
  }

  /**
   Why a session loses its binding: a 429 of its account, a prune of its account, age, its own pick
   finding no usable account at all, or a full table after `stickyMax` other sessions were touched.
   */
  lemma WhyBindingsLeave(s: PoolState, log: seq<Touch>, was: int, e: Timed, lim: Limits, fp: string)
    requires StateOk(s, log, was, lim) && fp in s.table.bindings
    requires fp !in Apply(s, e, lim).table.bindings
    ensures var owner := s.table.bindings[fp].id;
      || (e.step.DoNoteStatus? && e.step.status == 429 && e.step.id == owner)
      || (e.step.DoPrune? && !(owner in s.entries && owner in e.step.files))
      || (e.step.DoPick? &&
          (lim.stickyMax == 0 || Expired(s.table, fp, e.at, lim)
           || (e.step.session == Some(fp) && forall id :: !Usable(s, id, e.step.model, e.step.files, e.at))
           || (e.step.session.Some? && e.step.session != Some(fp) &&
               |Sessions(log + [Touch(e.step.session.value, e.at)], Last(log, fp) + 1)| >= lim.stickyMax)))
  {
    if e.step.DoPick? {
      if lim.stickyMax > 0 && !Expired(s.table, fp, e.at, lim) {
        PickDrops(s, log, was, e.step.session, e.step.model, e.step.files, e.at, lim, fp);
      }
    } else {
      QuietShape(s, e, lim);
    }
  }

  lemma PickDrops(s: PoolState, log: seq<Touch>, was: int, session: Option<string>, model: string, files: set<string>,
      now: int, lim: Limits, fp: string)
    requires StateOk(s, log, was, lim) && fp in Live(s.table, now, lim)
    requires fp !in Pick(s, session, model, files, now, lim).state.table.bindings
    ensures session.Some?
    ensures session.value == fp ==> forall id :: !Usable(s, id, model, files, now)
    ensures session.value != fp ==> |Sessions(log + [Touch(session.value, now)], Last(log, fp) + 1)| >= lim.stickyMax
  {
    EvictIsExpiry(s.table, log, was, now, lim);
    var swept := Swept(s, files, now, lim);
    var s' := Unbind(swept, session);
    RankedChoice(s, session, model, files, now, lim);
    ChooseShape(s', session, model, now, lim);
    if session.Some? {
      RemoveOk(swept.table, log, was, session.value);
      var account := Choose(s', session, model, now, lim).account;
      if session.value != fp && account.Some? {
        CapacityLoss(s'.table, log, was, fp, session.value, account.value, now, lim);
      }
    }
  }

  // ---- Pruning ----

  /** Nothing is remembered about an account that is not loaded. */
  predicate Clean(s: PoolState) {
    (forall id | id in s.credits :: id in s.entries) &&
    (forall k | k in s.health.failUntil :: k.id in s.entries) &&
    (forall k | k in s.health.modelFail :: k.id in s.entries) &&
    (forall id | id in s.errCounts :: id in s.entries) &&
    (forall fp | fp in s.table.bindings :: s.table.bindings[fp].id in s.entries)
  }

  /** Pruning leaves a clean state exactly when it drops an account itself, or the state was clean before. */
  lemma PruneCleans(s: PoolState, files: set<string>)
    ensures Clean(Prune(s, files)) <==> |Present(s.entries, files)| != |s.entries| || Clean(s)
  {
    PresentShrinks(s.entries, files);
  }

  lemma AfterLast(es: seq<Timed>, e: Timed, lim: Limits)
    ensures Run(es + [e], lim) == Apply(Run(es, lim), e, lim)
  {
    assert (es + [e])[..|es|] == es;
  }

  /** Not so after a pick that dropped the account first: its credits are remembered for good. */
  lemma PruneComesTooLate(lim: Limits)
    ensures var es := [Timed(DoLoad(["a"]), 0), Timed(DoSetCredits("a", 1), 0), Timed(DoPick(None, "m", {}), 0), Timed(DoPrune({}), 0)];
      Run(es, lim).entries == [] && !Clean(Run(es, lim))
  {
    var load, credit := Timed(DoLoad(["a"]), 0), Timed(DoSetCredits("a", 1), 0);
    var pick, prune := Timed(DoPick(None, "m", {}), 0), Timed(DoPrune({}), 0);
    AfterLast([load], credit, lim);
    AfterLast([load, credit], pick, lim);
    AfterLast([load, credit, pick], prune, lim);
    assert [load] + [credit] == [load, credit];
    assert [load, credit] + [pick] == [load, credit, pick];
    assert [load, credit, pick] + [prune] == [load, credit, pick, prune];
    var s := Run([load, credit], lim);
    PickEntries(s, None, "m", {}, 0, lim);
    assert "a" in s.credits;
    NonePresent(s.entries);
    NonePresent([]);
    assert "a" in Run([load, credit, pick, prune], lim).credits;
  }

  lemma {:induction false} NonePresent(ids: seq<string>)
    ensures Present(ids, {}) == []
  {
    if ids != [] { NonePresent(ids[..|ids| - 1]); }
  }

  lemma {:induction false} PresentTwice(ids: seq<string>, files: set<string>)
    ensures Present(Present(ids, files), files) == Present(ids, files)
  {
    if ids == [] {
    } else {
      PresentTwice(ids[..|ids| - 1], files);
    }
  }

  lemma PickEntries(s: PoolState, session: Option<string>, model: string, files: set<string>, now: int, lim: Limits)
    ensures Pick(s, session, model, files, now, lim).state.entries == Present(s.entries, files)
    ensures Pick(s, session, model, files, now, lim).state.health == s.health
    ensures Pick(s, session, model, files, now, lim).state.credits == s.credits
  {
    var s' := Unbind(Swept(s, files, now, lim), session);
    ChooseShape(s', session, model, now, lim);
  }

  /** A pick drops vanished accounts first, so a prune right after it finds nothing to do. */
  lemma PickForestallsPrune(s: PoolState, session: Option<string>, model: string, files: set<string>, now: int,
      lim: Limits)
    ensures var s' := Pick(s, session, model, files, now, lim).state;
      Prune(s', files) == s'
  {
    PresentTwice(s.entries, files);
    PickEntries(s, session, model, files, now, lim);
  }

  // ---- The retry time ----

  lemma {:induction false} ShortestWaitMeaning(h: Health, ids: seq<string>, model: string, now: int)
    requires ids != []
    ensures ShortestWait(h, ids, model, now).Some? <==> forall id | id in ids :: ModelKey(id, model) in h.modelFail
    ensures var w := ShortestWait(h, ids, model, now);
      w.Some? ==>
        (exists id :: id in ids && Wait(h.modelFail[ModelKey(id, model)], now) == w.value) &&
        forall id | id in ids :: w.value <= Wait(h.modelFail[ModelKey(id, model)], now)
  {
    var init, id := ids[..|ids| - 1], ids[|ids| - 1];
    assert forall x :: x in ids <==> x in init || x == id;
    if init != [] { ShortestWaitMeaning(h, init, model, now); }
  }

  /** `wait` is the time until the first healthy account, of those cooling for this model only. */
  ghost predicate FirstRecovery(s: PoolState, model: string, now: int, wait: nat) {
    wait > 0 && (exists id :: id in s.entries && Healthy(s.health, id, model, now + wait)) &&
    forall id, t | id in s.entries && GloballyHealthy(s.health, id, now) && t < now + wait :: !ModelHealthy(s.health, id, model, t)
  }

  lemma CoolingWait(s: PoolState, model: string, now: int)
    requires forall id | id in s.entries :: !Healthy(s.health, id, model, now)
    ensures var wait := AllCooled(s, model, now);
      (wait.Some? <==> exists id :: id in s.entries && GloballyHealthy(s.health, id, now)) &&
      (wait.Some? ==> exists d: nat :: FirstRecovery(s, model, now, d) && wait.value == d / 1_000_000_000)
  {
    var healthy := LoadedHealthy(s.health, s.entries, now);
    if healthy != [] {
      ShortestWaitMeaning(s.health, healthy, model, now);
      var d := ShortestWait(s.health, healthy, model, now);
      assert d.Some? ==> FirstRecovery(s, model, now, d.value);
      assert healthy[0] in healthy;
    }
  }

  /**
   When a pick fails, a retry time is known exactly if some account is cooling for this model only;
   it is the wait until the first moment one of these is healthy again, cut to whole seconds.
   */
  lemma RetryTimeIsExact(s: PoolState, session: Option<string>, model: string, files: set<string>, now: int,
      lim: Limits)
    requires Pick(s, session, model, files, now, lim).account.None?
    ensures var s', wait := Pick(s, session, model, files, now, lim).state, AllCooled(Pick(s, session, model, files, now, lim).state, model, now);
      (wait.Some? <==> exists id :: id in s'.entries && GloballyHealthy(s'.health, id, now)) &&
      (wait.Some? ==> exists d: nat :: FirstRecovery(s', model, now, d) && wait.value == d / 1_000_000_000)
  {
    PickEntries(s, session, model, files, now, lim);
    ChooseIsRight(Unbind(Swept(s, files, now, lim), session), session, model, now, lim);
    CoolingWait(Pick(s, session, model, files, now, lim).state, model, now);
  }
}
