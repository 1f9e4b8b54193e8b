/** What each answer of the upstream does, told by its status alone: to the account, and to the request. */
module UpstreamRules {
  import opened Wrappers
  import opened Recency
  import opened Pool
  import opened PoolTheorems
  import opened PoolRules
  import opened Upstream
  import UpstreamTheorems

  // ---- What an answer does to its account ----

  /** One more error: nothing but a count, or the third one. */
  ghost predicate ErrorCounted(s: PoolState, s': PoolState, id: string, at: int, lim: Limits) {
    if ErrorsOf(s, id) >= 2
    then ErrorsOf(s', id) == 0 && OutUntil(s, s', id, ErrThreshold, at + lim.credCooldown * 1_000_000_000)
    else ErrorsOf(s', id) == ErrorsOf(s, id) + 1 && AsUsable(s, s', id)
  }

  /** What the pool is after an answer, seen from the account that got it. */
  ghost predicate AccountAfter(s: PoolState, s': PoolState, id: string, r: Reply, model: string, renewed: bool, at: int, lim: Limits) {
    match r
    case TransportError => ErrorCounted(s, s', id, at, lim)
    case Response(status, head, creditText) =>
      if status == 200 then
        match head
        case HealthyHead => s' == s
        case QuotaExhausted =>
          OutUntil(s, s', id, HardCredit, at + lim.hardCreditCooldown * 1_000_000_000) && id in s'.credits && s'.credits[id] == 0
        case OtherError => ErrorCounted(s, s', id, at, lim)
        case Unavailable => ErrorCounted(s, s', id, at, lim)
      else if (status == 402 || status == 403 || status == 429) && creditText then
        OutUntil(s, s', id, HardCredit, at + lim.hardCreditCooldown * 1_000_000_000)
      else if status == 401 then
        if renewed then s' == s else OutUntil(s, s', id, ErrThreshold, at + lim.credCooldown * 1_000_000_000)
      else if status == 403 then OutUntil(s, s', id, ErrThreshold, at + lim.credCooldown * 1_000_000_000)
      else if status == 429 then
        OutForModel(s, s', id, model, at + (if lim.modelCooldown == 0 then 1 else lim.modelCooldown) * 1_000_000_000)
      else if 500 <= status <= 599 then s' == s
      else ErrorCounted(s, s', id, at, lim)
  }

  function PoolOf(t: Turned): PoolState {
    match t
    case Again(x, _) => x.pool
    case Done(_, pool, _) => pool
  }

  /** Every answer does to its account what its status says, and leaves all other accounts as usable as they were. */
  lemma AnswerMarksAccount(w: World, n: nat, x: Loop, pool: PoolState, id: string, q: Request, lim: Limits)
    ensures var pool' := PoolOf(Attempt(w, n, x, pool, id, q, lim));
      AccountAfter(pool, pool', id, w.reply(n, id), q.model, x.retried.None? && w.refreshOk(n), w.noteAt(n), lim) &&
      OthersUsable(pool, pool', id)
  {
    var at := w.noteAt(n);
    ErrorIsOut(pool, id, at, lim);
    BrokeIsOut(pool, id, at, lim);
    BrokeIsOut(SetCredits(pool, id, 0), id, at, lim);
    RejectedIsOut(pool, id, 401, q.model, at, lim);
    RejectedIsOut(pool, id, 403, q.model, at, lim);
    LimitedIsOut(pool, id, q.model, at, lim);
  }

  // ---- What the last answer does to the request ----

  /** The outcome of a request whose last answer was `r`; `renewed` says whether a refresh had worked before. */
  predicate OutcomeAfter(r: Reply, outcome: Outcome, account: string, renewed: bool) {
    match r
    case TransportError => outcome == Failed(502, ConnectionFailed, None)
    case Response(status, head, creditText) =>
      if status == 200 then
        match head
        case HealthyHead => outcome.Started? && outcome.account == account && outcome.refreshed == renewed
        case QuotaExhausted => Exhausted(outcome) || Unserved(outcome)
        case OtherError => outcome == Failed(502, ErrorEvent, None)
        case Unavailable => outcome == Failed(502, HeadLost, None)
      else if status == 429 || ((status == 402 || status == 403) && creditText) then Exhausted(outcome) || Unserved(outcome)
      else if status == 401 then outcome == Failed(401, if renewed then TokenRejected else RefreshFailed, None)
      else if status == 403 then outcome == Failed(403, Forbidden, None)
      else if 500 <= status <= 599 then outcome == Failed(status, ServerError, None)
      else outcome == Failed(status, Rejected, None)
  }

  predicate Exhausted(outcome: Outcome) {
    outcome.Failed? && outcome.status == 429 && outcome.reason == FailoverExhausted
  }

  /** No account to send to: all cooling with a known end, at least a second away, or none at all. */
  predicate Unserved(outcome: Outcome) {
    match outcome
    case Failed(429, AllCooling, Some(wait)) => wait >= 1
    case Failed(503, NoHealthyAccount, None) => true
    case _ => false
  }

  /** What the conversation says of the outcome; `renewed` is about the time before it. */
  predicate LastAnswerDecides(t: seq<Event>, outcome: Outcome, renewed: bool) {
    if t == [] then Unserved(outcome)
    else
      match t[|t| - 1]
      case Sent(account, r) =>
        OutcomeAfter(r, outcome, account, renewed || UpstreamTheorems.Refreshes(t) > 0)
      case Refreshed(_, ok) => if ok then Unserved(outcome) else outcome == Failed(401, RefreshFailed, None)
  }

  lemma AttemptDecides(w: World, n: nat, x: Loop, pool: PoolState, id: string, q: Request, lim: Limits)
    ensures var t := Attempt(w, n, x, pool, id, q, lim);
      t.Done? ==> |t.trace| == 1 || |t.trace| == 2
    ensures var t := Attempt(w, n, x, pool, id, q, lim);
      t.Done? && |t.trace| == 1 ==> t.trace == [Sent(id, w.reply(n, id))] && OutcomeAfter(w.reply(n, id), t.outcome, id, x.retried.Some?)
    ensures var t := Attempt(w, n, x, pool, id, q, lim);
      t.Done? && |t.trace| == 2 ==> t.trace[1] == Refreshed(id, false) && t.outcome == Failed(401, RefreshFailed, None)
  {
  }

  lemma TurnDecides(w: World, n: nat, x: Loop, q: Request, lim: Limits)
    ensures var t := Iterate(w, n, x, q, lim);
      t.Done? ==> LastAnswerDecides(t.trace, t.outcome, x.retried.Some?)
  {
    var picked := Next(w, n, x, q, lim);
    if picked.account.Some? {
      AttemptDecides(w, n, x, w.meanwhile(n, picked.state), picked.account.value, q, lim);
      UpstreamTheorems.LastOfAttempt(w, n, x, w.meanwhile(n, picked.state), picked.account.value, q, lim);
      var t := Iterate(w, n, x, q, lim);
      if t.Done? && |t.trace| == 1 { assert t.trace[1..] == []; }
    }
  }

  /** A request that went on after `head` is decided by the rest, or, if nothing more was sent, by having no account. */
  lemma DecidedLater(head: seq<Event>, rest: seq<Event>, outcome: Outcome, renewed: bool)
    requires (|head| == 1 && head[0].Sent? && UpstreamTheorems.Rotates(head[0].reply)) ||
             (|head| == 2 && head[0].Sent? && head[1].Refreshed? && head[1].ok)
    requires LastAnswerDecides(rest, outcome, renewed || |head| == 2)
    ensures LastAnswerDecides(head + rest, outcome, renewed)
  {
    UpstreamTheorems.CountsSplit(head, rest);
    if |head| == 2 {
      assert head[1..] == [head[1]];
      assert [head[1]][1..] == [];
    } else {
      assert head[1..] == [];
    }
    if rest == [] { assert head + rest == head; }
  }

  /**
   Against any upstream: the last answer alone decides the status and the reason of the outcome; and a request
   with no answer, or one that ends after a quota answer or a working refresh, had no account left to send to
   or had counted more failovers than accounts.
   */
  lemma {:induction false} OutcomeIsLastAnswers(w: World, n: nat, x: Loop, q: Request, lim: Limits, size: nat)
    requires AtMost(w, size) && x.failovers <= AtLeastOne(size)
    ensures var r := Generate(w, n, x, q, lim, size);
      LastAnswerDecides(r.trace, r.outcome, x.retried.Some?)
    decreases Budget(x, size)
  {
    IterateSpends(w, n, x, q, lim, size);
    UpstreamTheorems.IterateShape(w, n, x, q, lim);
    TurnDecides(w, n, x, q, lim);
    var t := Iterate(w, n, x, q, lim);
    if t.Again? {
      OutcomeIsLastAnswers(w, n + 1, t.loop, q, lim, size);
      var rest := Generate(w, n + 1, t.loop, q, lim, size);
      DecidedLater(t.trace, rest.trace, rest.outcome, x.retried.Some?);
    }
  }

  /**
   A quota answer (402 or 403 about credits, any 429, or a quota error in the stream) ends the request exactly if it
   makes more failovers than the pool has accounts, and a pool of none counts as one; any other answer but a first 401 ends it.
   */
  lemma WhenTheLoopGoesOn(w: World, n: nat, x: Loop, pool: PoolState, id: string, q: Request, lim: Limits)
    ensures var t, r := Attempt(w, n, x, pool, id, q, lim), w.reply(n, id);
      var quota := r.Response? && ((r.status == 200 && r.head == QuotaExhausted) || r.status == 429 || ((r.status == 402 || r.status == 403) && r.creditText));
      t.Again? <==>
        (quota && x.failovers + 1 <= (if |pool.entries| == 0 then 1 else |pool.entries|)) ||
        (r.Response? && r.status == 401 && x.retried.None? && w.refreshOk(n))
  {
  }

  // ---- Whom to send to ----

  /**
   Every send goes to an account that is loaded: the one just refreshed, while it is, or else one that is usable at
   the time of the pick.  There is none to send to only if no account is usable.
   */
  lemma SendsGoToUsable(w: World, n: nat, x: Loop, q: Request, lim: Limits)
    ensures var pool, picked := w.others(n, x.pool), Next(w, n, x, q, lim);
      if x.retried.Some? && x.retried.value in pool.entries then picked == Picked(pool, x.retried)
      else if picked.account.Some? then Usable(pool, picked.account.value, q.model, w.files(n), w.pickAt(n))
      else forall id :: !Usable(pool, id, q.model, w.files(n), w.pickAt(n))
  {
    var pool := w.others(n, x.pool);
    UpstreamTheorems.PickedIsLoaded(pool, q.session, q.model, w.files(n), w.pickAt(n), lim);
    RankedChoice(pool, q.session, q.model, w.files(n), w.pickAt(n), lim);
    var picked := Next(w, n, x, q, lim);
    if picked.account.Some? { UsableIsHealthy(pool, picked.account.value, q.model, w.files(n), w.pickAt(n)); }
  }

  // ---- When to try again ----

  /** Loaded, and out for no model but perhaps some. */
  predicate Open(s: PoolState, id: string, now: int) {
    id in s.entries && !Cooling(s.health, id, HardCredit, now) && !Cooling(s.health, id, ErrThreshold, now)
  }

  lemma OpenIsHealthy(s: PoolState, id: string, now: int)
    ensures Open(s, id, now) <==> id in s.entries && GloballyHealthy(s.health, id, now)
  {
    if Open(s, id, now) {
      forall k | k in s.health.failUntil && k.id == id ensures now >= s.health.failUntil[k] {
        match k.kind
        case HardCredit => assert k == FailKey(id, HardCredit);
        case ErrThreshold => assert k == FailKey(id, ErrThreshold);
      }
    }
  }

  /** How long the account is out for the model, in nanoseconds; `left` is 0 if it no longer is. */
  predicate OutFor(s: PoolState, id: string, model: string, now: int, left: nat) {
    ModelKey(id, model) in s.health.modelFail &&
    left == if s.health.modelFail[ModelKey(id, model)] > now then s.health.modelFail[ModelKey(id, model)] - now else 0
  }

  /**
   A retry time is given exactly if some account is open and each open one was limited for the model: the
   shortest such limit in whole seconds, at least one.
   */
  ghost predicate RetrySays(s: PoolState, model: string, now: int, retry: Option<int>) {
    && (retry.Some? <==> (exists id :: Open(s, id, now)) && forall id | Open(s, id, now) :: ModelKey(id, model) in s.health.modelFail)
    && (retry.Some? ==> exists left: nat, id: string ::
          && Open(s, id, now) && OutFor(s, id, model, now, left)
          && retry.value == (if left < 1_000_000_000 then 1 else left / 1_000_000_000)
          && forall other: string, more: nat | Open(s, other, now) && OutFor(s, other, model, now, more) :: left <= more)
  }

  lemma WholeSecondsOf(d: nat)
    ensures AtLeastOne(d / SECOND) == if d < 1_000_000_000 then 1 else d / 1_000_000_000
  {
  }

  lemma RetryAfterSays(s: PoolState, model: string, now: int)
    ensures RetrySays(s, model, now, RetryAfter(s, model, now))
  {
    var healthy := LoadedHealthy(s.health, s.entries, now);
    forall id ensures id in healthy <==> Open(s, id, now) { OpenIsHealthy(s, id, now); }
    if healthy != [] {
      assert Open(s, healthy[0], now);
      ShortestWaitMeaning(s.health, healthy, model, now);
      ShortestSays(s, healthy, model, now, RetryAfter(s, model, now));
    }
  }

  lemma ShortestSays(s: PoolState, healthy: seq<string>, model: string, now: int, retry: Option<int>)
    requires healthy != [] && forall id :: id in healthy <==> Open(s, id, now)
    requires var d := ShortestWait(s.health, healthy, model, now);
      retry == if d.None? then None else Some(AtLeastOne(d.value / SECOND))
    ensures retry.Some? ==> exists left: nat, id: string ::
          && Open(s, id, now) && OutFor(s, id, model, now, left)
          && retry.value == (if left < 1_000_000_000 then 1 else left / 1_000_000_000)
          && forall other: string, more: nat | Open(s, other, now) && OutFor(s, other, model, now, more) :: left <= more
  {
    ShortestWaitMeaning(s.health, healthy, model, now);
    var d := ShortestWait(s.health, healthy, model, now);
    if d.Some? {
      WholeSecondsOf(d.value);
      var id :| id in healthy && Wait(s.health.modelFail[ModelKey(id, model)], now) == d.value;
      assert Open(s, id, now) && OutFor(s, id, model, now, d.value);
      forall other: string, more: nat | Open(s, other, now) && OutFor(s, other, model, now, more) ensures d.value <= more {
        assert other in healthy;
      }
    }
  }

  predicate LacksAccount(outcome: Outcome) {
    outcome.Failed? && (outcome.reason == AllCooling || outcome.reason == NoHealthyAccount || outcome.reason == FailoverExhausted)
  }

  lemma FailoverRetry(x: Loop, pool: PoolState, trace: seq<Event>, model: string, now: int)
    ensures var t := Failover(x, pool, trace, model, now);
      t.Done? ==> t.pool == pool && t.outcome == Failed(429, FailoverExhausted, RetryAfter(pool, model, now))
  {
  }

  /** The pool a quota answer leaves. */
  function Rotated(pool: PoolState, id: string, r: Reply, model: string, now: int, lim: Limits): PoolState {
    if r.Response? && r.status == 200 then NoteHardCredit(SetCredits(pool, id, 0), id, now, lim)
    else if OutOfCredits(r) then NoteHardCredit(pool, id, now, lim)
    else NoteStatus(pool, id, 429, model, now, lim)
  }

  lemma AttemptRotates(w: World, n: nat, x: Loop, pool: PoolState, id: string, q: Request, lim: Limits)
    ensures var t, r, now := Attempt(w, n, x, pool, id, q, lim), w.reply(n, id), w.noteAt(n);
      t.trace != [] &&
      (t.Done? && LacksAccount(t.outcome) ==> t == Failover(x, Rotated(pool, id, r, q.model, now, lim), [Sent(id, r)], q.model, now))
  {
  }

  lemma AttemptRetry(w: World, n: nat, x: Loop, pool: PoolState, id: string, q: Request, lim: Limits)
    ensures var t := Attempt(w, n, x, pool, id, q, lim);
      t.trace != [] && (t.Done? && LacksAccount(t.outcome) ==> t.outcome.retryAfter == RetryAfter(t.pool, q.model, w.noteAt(n)))
  {
    AttemptRotates(w, n, x, pool, id, q, lim);
    var r, now := w.reply(n, id), w.noteAt(n);
    FailoverRetry(x, Rotated(pool, id, r, q.model, now, lim), [Sent(id, r)], q.model, now);
  }

  /** Whenever a request fails for want of an account, it says when to try again, from the pool as it is then. */
  lemma RetryTimeIsSaid(w: World, n: nat, x: Loop, q: Request, lim: Limits)
    ensures var t := Iterate(w, n, x, q, lim);
      t.Done? && LacksAccount(t.outcome)
      ==> RetrySays(t.pool, q.model, if t.trace == [] then w.pickAt(n) else w.noteAt(n), t.outcome.retryAfter)
  {
    var t, picked := Iterate(w, n, x, q, lim), Next(w, n, x, q, lim);
    if t.Done? {
      RetryAfterSays(t.pool, q.model, if t.trace == [] then w.pickAt(n) else w.noteAt(n));
      if picked.account.Some? { AttemptRetry(w, n, x, w.meanwhile(n, picked.state), picked.account.value, q, lim); }
    }
  }
}
