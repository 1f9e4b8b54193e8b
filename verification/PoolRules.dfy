/** What answers do to accounts, told by the picks that follow. */
module PoolRules {
  import opened Wrappers
  import opened Recency
  import opened Pool
  import opened PoolTheorems

  // ---- Sessions stick ----

  /** A served session is bound to the account it got, now. */
  lemma PickBinds(s: PoolState, session: string, model: string, files: set<string>, now: int, lim: Limits)
    ensures var p := Pick(s, Some(session), model, files, now, lim);
      p.account.Some? ==>
        session in p.state.table.bindings && p.state.table.bindings[session] == Binding(p.account.value, now)
  {
    ChooseShape(Unbind(Swept(s, files, now, lim), Some(session)), Some(session), model, now, lim);
  }

  /**
   A session that was served gets the same account at its next pick, as long as the time to live has not
   passed and the account is still usable, whatever the others' credits and the rotation say.
   */
  lemma SessionSticks(s: PoolState, log: seq<Touch>, was: int, session: string, model: string, files: set<string>, now: int,
      model': string, files': set<string>, later: int, lim: Limits)
    requires StateOk(s, log, was, lim) && was <= now && lim.stickyMax > 0
    requires later - now <= lim.stickyTtl * 1_000_000_000
    requires var p := Pick(s, Some(session), model, files, now, lim);
      p.account.Some? && Usable(p.state, p.account.value, model', files', later)
    ensures var p := Pick(s, Some(session), model, files, now, lim);
      Pick(p.state, Some(session), model', files', later, lim).account == p.account
  {
    var p := Pick(s, Some(session), model, files, now, lim);
    PickBinds(s, session, model, files, now, lim);
    PickOk(s, log, was, Some(session), model, files, now, lim);
    assert LiveBound(p.state, Some(session), model', files', later, lim);
    PickIsRight(p.state, log + [Touch(session, now)], now, Some(session), model', files', later, lim);
  }

  // ---- Cooldowns ----

  /** Everywhere but for one account, accounts are as usable as before. */
  ghost predicate OthersUsable(s: PoolState, s': PoolState, id: string) {
    forall other: string, model: string, files: set<string>, t: int | other != id ::
      Usable(s', other, model, files, t) <==> Usable(s, other, model, files, t)
  }

  /** From `at` until `until` the account is out for every model, and then as usable as its other cooldowns let it be. */
  ghost predicate OutUntil(s: PoolState, s': PoolState, id: string, kind: CoolKind, until: int) {
    forall model: string, files: set<string>, t: int ::
      Usable(s', id, model, files, t) <==>
        t >= until && id in s.entries && id in files && !CoolingFor(s.health, id, model, t) &&
        !Cooling(s.health, id, if kind == HardCredit then ErrThreshold else HardCredit, t)
  }

  /** Out for one model until then, and for the other models no more than before. */
  ghost predicate OutForModel(s: PoolState, s': PoolState, id: string, model: string, until: int) {
    forall model': string, files: set<string>, t: int ::
      Usable(s', id, model', files, t) <==>
        if model' == model
        then t >= until && id in s.entries && id in files && !Cooling(s.health, id, HardCredit, t) && !Cooling(s.health, id, ErrThreshold, t)
        else Usable(s, id, model', files, t)
  }

  /** 401 and 403 take the account out for the credential cooldown, in seconds. */
  lemma RejectedIsOut(s: PoolState, id: string, status: int, model: string, at: int, lim: Limits)
    requires status == 401 || status == 403
    ensures var s' := NoteStatus(s, id, status, model, at, lim);
      OutUntil(s, s', id, ErrThreshold, at + lim.credCooldown * 1_000_000_000) && OthersUsable(s, s', id)
  {
  }

  /** Missing credits take it out for the long cooldown. */
  lemma BrokeIsOut(s: PoolState, id: string, at: int, lim: Limits)
    ensures var s' := NoteHardCredit(s, id, at, lim);
      OutUntil(s, s', id, HardCredit, at + lim.hardCreditCooldown * 1_000_000_000) && OthersUsable(s, s', id)
  {
  }

  /**
   429 takes it out for the one model, at least a second, and leaves it to the other models; every session
   bound to the account is free, and no other.
   */
  lemma LimitedIsOut(s: PoolState, id: string, model: string, at: int, lim: Limits)
    ensures var s' := NoteStatus(s, id, 429, model, at, lim);
      var until := at + (if lim.modelCooldown == 0 then 1 else lim.modelCooldown) * 1_000_000_000;
      && OutForModel(s, s', id, model, until) && OthersUsable(s, s', id)
      && (forall session :: session in s'.table.bindings <==> session in s.table.bindings && s.table.bindings[session].id != id)
      && (forall session | session in s'.table.bindings :: s'.table.bindings[session] == s.table.bindings[session])
  {
  }

  /** No other status changes anything. */
  lemma OtherStatusIsNothing(s: PoolState, id: string, status: int, model: string, at: int, lim: Limits)
    requires status != 401 && status != 403 && status != 429
    ensures NoteStatus(s, id, status, model, at, lim) == s
  {
  }

  // ---- Pruning ----

  /** What is remembered of one account. */
  ghost predicate SameMemory(s: PoolState, s': PoolState, id: string) {
    && (id in s.credits <==> id in s'.credits) && (id in s.credits ==> s.credits[id] == s'.credits[id])
    && ErrorsOf(s, id) == ErrorsOf(s', id)
    && (forall model: string, now: int :: CoolingFor(s.health, id, model, now) <==> CoolingFor(s'.health, id, model, now))
    && (forall kind, now: int :: Cooling(s.health, id, kind, now) <==> Cooling(s'.health, id, kind, now))
    && (forall session ::
          (session in s.table.bindings && s.table.bindings[session].id == id) <==> (session in s'.table.bindings && s'.table.bindings[session].id == id))
    && (forall session | session in s.table.bindings && s.table.bindings[session].id == id :: s.table.bindings[session] == s'.table.bindings[session])
  }

  /** A prune drops the accounts without a file and nothing that is remembered of one that stays. */
  lemma PruneSparesTheRest(s: PoolState, files: set<string>, id: string)
    ensures id in Prune(s, files).entries <==> id in s.entries && id in files
    ensures id in s.entries && id in files ==> SameMemory(s, Prune(s, files), id)
  {
  }

  // ---- Errors in a row ----

  /** A prune that drops some account, and does not keep this one. */
  predicate Forgets(entries: seq<string>, files: set<string>, id: string) {
    (exists e :: e in entries && e !in files) && !(id in entries && id in files)
  }

  /** Errors noted for `id` since its last success, or since it was forgotten. */
  function Streak(es: seq<Timed>, lim: Limits, id: string): nat {
    if es == [] then 0 else
      var init, step := es[..|es| - 1], es[|es| - 1].step;
      match step
      case DoNoteError(other) => Streak(init, lim, id) + (if other == id then 1 else 0)
      case DoNoteSuccess(other) => if other == id then 0 else Streak(init, lim, id)
      case DoPrune(files) => if Forgets(Run(init, lim).entries, files, id) then 0 else Streak(init, lim, id)
      case _ => Streak(init, lim, id)
  }

  lemma {:induction false} PresentAll(ids: seq<string>, files: set<string>)
    ensures |Present(ids, files)| == |ids| <==> forall e | e in ids :: e in files
  {
    PresentShrinks(ids, files);
    if |Present(ids, files)| == |ids| {
      assert forall e | e in Present(ids, files) :: e in files;
    }
  }

  function ErrorsOf(s: PoolState, id: string): nat {
    if id in s.errCounts then s.errCounts[id] else 0
  }

  lemma ErrorStep(s: PoolState, e: Timed, lim: Limits, id: string)
    requires ErrorsOf(s, id) < 3
    ensures var n, n' := ErrorsOf(s, id), ErrorsOf(Apply(s, e, lim), id);
      n' == match e.step
            case DoNoteError(other) => if other == id then (if n == 2 then 0 else n + 1) else n
            case DoNoteSuccess(other) => if other == id then 0 else n
            case DoPrune(files) => if Forgets(s.entries, files, id) then 0 else n
            case _ => n
  {
    match e.step
    case DoPick(session, model, files) =>
      PickEntries(s, session, model, files, e.at, lim);
      PickKeepsErrors(s, session, model, files, e.at, lim);
    case DoPrune(files) => PresentAll(s.entries, files);
    case DoLoad(ids) => LoadKeepsErrors(s, ids);
    case _ =>
  }

  lemma PickKeepsErrors(s: PoolState, session: Option<string>, model: string, files: set<string>, now: int, lim: Limits)
    ensures Pick(s, session, model, files, now, lim).state.errCounts == s.errCounts
  {
    ChooseShape(Unbind(Swept(s, files, now, lim), session), session, model, now, lim);
  }

  lemma {:induction false} LoadKeepsErrors(s: PoolState, ids: seq<string>)
    ensures Load(s, ids).errCounts == s.errCounts
  {
    if ids != [] { LoadKeepsErrors(s, ids[..|ids| - 1]); }
  }

  lemma {:induction false} ErrorsAreStreak(es: seq<Timed>, lim: Limits, id: string)
    ensures ErrorsOf(Run(es, lim), id) == Streak(es, lim, id) % 3
  {
    if es != [] {
      ErrorsAreStreak(es[..|es| - 1], lim, id);
      ErrorStep(Run(es[..|es| - 1], lim), es[|es| - 1], lim, id);
    }
  }

  ghost predicate AsUsable(s: PoolState, s': PoolState, id: string) {
    forall model: string, files: set<string>, t: int :: Usable(s', id, model, files, t) <==> Usable(s, id, model, files, t)
  }

  lemma ErrorIsOut(s: PoolState, id: string, at: int, lim: Limits)
    ensures var s' := NoteErrorThreshold(s, id, at, lim);
      && OthersUsable(s, s', id)
      && (if ErrorsOf(s, id) >= 2 then OutUntil(s, s', id, ErrThreshold, at + lim.credCooldown * 1_000_000_000) else AsUsable(s, s', id))
  {
  }

  lemma ErrorNoted(es: seq<Timed>, lim: Limits, id: string, at: int)
    ensures Run(es + [Timed(DoNoteError(id), at)], lim) == NoteErrorThreshold(Run(es, lim), id, at, lim)
  {
    AfterLast(es, Timed(DoNoteError(id), at), lim);
  }

  lemma NextOfThree(n: nat)
    ensures (n + 1) % 3 == 0 <==> n % 3 >= 2
  {
  }

  /**
   In every run, an error takes its account out for the credential cooldown exactly if it is the third, the
   sixth, ... since the account's last success; any other error leaves every account as usable as before.
   */
  lemma ThirdErrorIsOut(es: seq<Timed>, lim: Limits, id: string, at: int)
    ensures var s := Run(es, lim);
      var s' := Run(es + [Timed(DoNoteError(id), at)], lim);
      && OthersUsable(s, s', id)
      && (if (Streak(es, lim, id) + 1) % 3 == 0
          then OutUntil(s, s', id, ErrThreshold, at + lim.credCooldown * 1_000_000_000)
          else AsUsable(s, s', id))
  {
    ErrorNoted(es, lim, id, at);
    ErrorsAreStreak(es, lim, id);
    NextOfThree(Streak(es, lim, id));
    ErrorIsOut(Run(es, lim), id, at, lim);
  }

  // ---- Credits ----

  function RichRun(): seq<Timed> {
    [Timed(DoLoad(["a", "b", "c"]), 0), Timed(DoSetCredits("b", 100), 0), Timed(DoSetCredits("c", 5), 0)]
  }

  /** Three accounts, one with 100 credits, one with 5 and one unknown: the pick is the one with 100. */
  lemma RichestIsPicked(model: string, lim: Limits)
    ensures Pick(Run(RichRun(), lim), None, model, {"a", "b", "c"}, 0, lim).account == Some("b")
  {
    RichState(lim);
    RichPick(EMPTY.(entries := ["a", "b", "c"], credits := map["b" := 100, "c" := 5]), model, lim);
  }

  lemma RichPick(s: PoolState, model: string, lim: Limits)
    requires s == EMPTY.(entries := ["a", "b", "c"], credits := map["b" := 100, "c" := 5])
    ensures Pick(s, None, model, {"a", "b", "c"}, 0, lim).account == Some("b")
  {
    var account := Pick(s, None, model, {"a", "b", "c"}, 0, lim).account;
    UnboundPick(s, model, {"a", "b", "c"}, 0, lim);
    AllUsable(s, model);
    OnlyRichest(s.credits, account.value);
  }

  /** Without a session, the pick is the ranked choice. */
  lemma UnboundPick(s: PoolState, model: string, files: set<string>, now: int, lim: Limits)
    ensures var account := Pick(s, None, model, files, now, lim).account;
      if account.Some? then
        Usable(s, account.value, model, files, now) &&
        forall id | Usable(s, id, model, files, now) :: NoRicher(s.credits, id, account.value)
      else forall id :: !Usable(s, id, model, files, now)
  {
    RankedChoice(s, None, model, files, now, lim);
  }

  lemma AllUsable(s: PoolState, model: string)
    requires s.entries == ["a", "b", "c"] && s.health == Health(map[], map[])
    ensures forall id :: Usable(s, id, model, {"a", "b", "c"}, 0) <==> id == "a" || id == "b" || id == "c"
  {
  }

  lemma OnlyRichest(credits: map<string, int>, id: string)
    requires credits == map["b" := 100, "c" := 5] && (id == "a" || id == "b" || id == "c") && NoRicher(credits, "b", id)
    ensures id == "b"
  {
  }

  lemma RichState(lim: Limits)
    ensures Run(RichRun(), lim) == EMPTY.(entries := ["a", "b", "c"], credits := map["b" := 100, "c" := 5])
  {
    var load, rich, poor := RichRun()[0], RichRun()[1], RichRun()[2];
    AfterLast([], load, lim);
    AfterLast([load], rich, lim);
    AfterLast([load, rich], poor, lim);
    assert [] + [load] == [load] && [load] + [rich] == [load, rich] && [load, rich] + [poor] == RichRun();
    assert ["a", "b", "c"][..2] == ["a", "b"] && ["a", "b"][..1] == ["a"] && ["a"][..0] == [];
    assert Load(EMPTY, ["a"]).entries == ["a"];
    assert Load(EMPTY, ["a", "b"]).entries == ["a", "b"];
  }
}
