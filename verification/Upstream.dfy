/** One generation request: pick an account, send, and on a retryable answer try again. */
module Upstream {
  import opened Wrappers
  import opened Sequences
  import opened Pool
  import opened AccountPool

  /** What the probe of a 200 response's first bytes finds. */
  datatype Head = HealthyHead | QuotaExhausted | OtherError | Unavailable

  /** An answer: a transport failure, or a status with its stream head and whether its body speaks of missing credits. */
  datatype Reply = TransportError | Response(status: int, head: Head, creditText: bool)

  datatype Event = Sent(account: string, reply: Reply) | Refreshed(account: string, ok: bool)

  datatype Reason =
    | NoHealthyAccount | AllCooling | FailoverExhausted
    | ConnectionFailed | ErrorEvent | HeadLost
    | RefreshFailed | TokenRejected | Forbidden | ServerError | Rejected

  datatype Outcome =
    | Started(account: string, failovers: nat, refreshed: bool)
    | Failed(status: int, reason: Reason, retryAfter: Option<int>)

  /**
   Everything outside the loop, by attempt: the upstream's replies and refresh results, the credential
   files, the clock at the pick and after the reply, and what other tasks did to the pool before the
   pick and while the reply was awaited.
   */
  datatype World = World(
    reply: (nat, string) -> Reply,
    refreshOk: nat -> bool,
    files: nat -> set<string>,
    pickAt: nat -> int,
    noteAt: nat -> int,
    others: (nat, PoolState) -> PoolState,
    meanwhile: (nat, PoolState) -> PoolState)

  datatype Request = Request(session: Option<string>, model: string)

  /** The loop's variables. */
  datatype Loop = Loop(pool: PoolState, failovers: nat, retried: Option<string>)

  datatype Turned =
    | Again(loop: Loop, trace: seq<Event>)
    | Done(outcome: Outcome, pool: PoolState, trace: seq<Event>)

  /** 402, 403 and 429 with a text about credits. */
  predicate OutOfCredits(r: Reply) {
    r.Response? && (r.status == 402 || r.status == 403 || r.status == 429) && r.creditText
  }

  function AtLeastOne(n: int): int {
    if n < 1 then 1 else n
  }

  function RetryAfter(pool: PoolState, model: string, now: int): Option<int> {
    var wait := AllCooled(pool, model, now);
    if wait.None? then None else Some(AtLeastOne(wait.value))
  }

  /** A failover is counted, and the request fails once there were more than there are accounts. */
  function Failover(x: Loop, pool: PoolState, trace: seq<Event>, model: string, now: int): Turned {
    if x.failovers + 1 > AtLeastOne(|pool.entries|) then Done(Failed(429, FailoverExhausted, RetryAfter(pool, model, now)), pool, trace)
    else Again(x.(pool := pool, failovers := x.failovers + 1), trace)
  }

  /** The account of this attempt: after a refresh the same one while loaded, else a pick. */
  function Next(w: World, n: nat, x: Loop, q: Request, lim: Limits): Picked {
    var pool := w.others(n, x.pool);
    if x.retried.Some? && x.retried.value in pool.entries then Picked(pool, x.retried)
    else Pick(pool, q.session, q.model, w.files(n), w.pickAt(n), lim)
  }

  /** One attempt with account `id`, on the pool as it is when the reply is in. */
  function Attempt(w: World, n: nat, x: Loop, pool: PoolState, id: string, q: Request, lim: Limits): Turned {
    var r, now := w.reply(n, id), w.noteAt(n);
    var sent := [Sent(id, r)];
    if r.TransportError? then Done(Failed(502, ConnectionFailed, None), NoteErrorThreshold(pool, id, now, lim), sent)
    else if r.status == 200 then
      match r.head
      case HealthyHead => Done(Started(id, x.failovers, x.retried.Some?), pool, sent)
      case QuotaExhausted => Failover(x, NoteHardCredit(SetCredits(pool, id, 0), id, now, lim), sent, q.model, now)
      case OtherError => Done(Failed(502, ErrorEvent, None), NoteErrorThreshold(pool, id, now, lim), sent)
      case Unavailable => Done(Failed(502, HeadLost, None), NoteErrorThreshold(pool, id, now, lim), sent)
    else if OutOfCredits(r) then Failover(x, NoteHardCredit(pool, id, now, lim), sent, q.model, now)
    else if r.status == 401 then
      if x.retried.Some? then Done(Failed(401, TokenRejected, None), NoteStatus(pool, id, 401, q.model, now, lim), sent)
      else if w.refreshOk(n) then Again(x.(pool := pool, retried := Some(id)), sent + [Refreshed(id, true)])
      else Done(Failed(401, RefreshFailed, None), NoteStatus(pool, id, 401, q.model, now, lim), sent + [Refreshed(id, false)])
    else if r.status == 429 then Failover(x, NoteStatus(pool, id, 429, q.model, now, lim), sent, q.model, now)
    else if r.status == 403 then Done(Failed(403, Forbidden, None), NoteStatus(pool, id, 403, q.model, now, lim), sent)
    else if 500 <= r.status <= 599 then Done(Failed(r.status, ServerError, None), pool, sent)
    else Done(Failed(r.status, Rejected, None), NoteErrorThreshold(pool, id, now, lim), sent)
  }

  /** No account to pick: cooling with a known end, or none at all. */
  function NoAccount(retry: Option<int>): Outcome {
    if retry.Some? then Failed(429, AllCooling, retry) else Failed(503, NoHealthyAccount, None)
  }

  function Iterate(w: World, n: nat, x: Loop, q: Request, lim: Limits): Turned {
    var picked := Next(w, n, x, q, lim);
    if picked.account.None? then
      var retry := RetryAfter(picked.state, q.model, w.pickAt(n));
      Done(NoAccount(retry), picked.state, [])
    else Attempt(w, n, x, w.meanwhile(n, picked.state), picked.account.value, q, lim)
  }

  /** The pool never holds more than `size` accounts. */
  ghost predicate AtMost(w: World, size: nat) {
    forall n: nat, s: PoolState :: |w.others(n, s).entries| <= size && |w.meanwhile(n, s).entries| <= size
  }

  datatype Ended = Ended(outcome: Outcome, pool: PoolState, trace: seq<Event>)

  /** What is left of the retries: failovers up to the pool size, and one refresh. */
  function Budget(x: Loop, size: nat): int {
    AtLeastOne(size) + 1 - x.failovers + (if x.retried.None? then 1 else 0)
  }

  lemma AttemptSpends(w: World, n: nat, x: Loop, pool: PoolState, id: string, q: Request, lim: Limits, size: nat)
    requires |pool.entries| <= size && x.failovers <= AtLeastOne(size)
    ensures var t := Attempt(w, n, x, pool, id, q, lim);
      t.Again? ==> t.loop.failovers <= AtLeastOne(size) && Budget(t.loop, size) == Budget(x, size) - 1
  {
  }

  lemma IterateSpends(w: World, n: nat, x: Loop, q: Request, lim: Limits, size: nat)
    requires AtMost(w, size) && x.failovers <= AtLeastOne(size)
    ensures var t := Iterate(w, n, x, q, lim);
      t.Again? ==> t.loop.failovers <= AtLeastOne(size) && Budget(t.loop, size) == Budget(x, size) - 1
  {
    var picked := Next(w, n, x, q, lim);
    var pool := w.meanwhile(n, picked.state);
    assert |pool.entries| <= size;
    if picked.account.Some? { AttemptSpends(w, n, x, pool, picked.account.value, q, lim, size); }
  }

  /** The whole loop from attempt `n` on. */
  function Generate(w: World, n: nat, x: Loop, q: Request, lim: Limits, size: nat): Ended
    requires AtMost(w, size) && x.failovers <= AtLeastOne(size)
    decreases Budget(x, size)
  {
    IterateSpends(w, n, x, q, lim, size);
    var t := Iterate(w, n, x, q, lim);
    match t
    case Done(outcome, pool, trace) => Ended(outcome, pool, trace)
    case Again(x', trace) =>
      var rest := Generate(w, n + 1, x', q, lim, size);
      Ended(rest.outcome, rest.pool, trace + rest.trace)
  }

  // ---- The loop as it runs on the shared pool ----

  /** Whatever other tasks did to the pool. */
  method OtherTasks(pool: AccountPool, s: PoolState)
    modifies pool
    ensures pool.State() == s
  {
    pool.entries, pool.credits, pool.rr, pool.errCounts := s.entries, s.credits, s.rr, s.errCounts;
    pool.failUntil, pool.modelFail := s.health.failUntil, s.health.modelFail;
    pool.sticky, pool.stickyOrder := s.table.bindings, s.table.order;
  }

  method PickNext(pool: AccountPool, retried: Option<string>, w: World, n: nat, q: Request)
    returns (account: Option<string>)
    modifies pool
    ensures Picked(pool.State(), account) == Next(w, n, Loop(old(pool.State()), 0, retried), q, pool.lim)
  {
    OtherTasks(pool, w.others(n, pool.State()));
    if retried.Some? && retried.value in pool.entries { return retried; }
    account := pool.Pick(q.session, q.model, w.files(n), w.pickAt(n));
  }

  method RetryTime(pool: AccountPool, model: string, now: int) returns (retry: Option<int>)
    ensures retry == RetryAfter(pool.State(), model, now)
  {
    var wait := pool.AllCooledUntil(model, now);
    retry := if wait.None? then None else Some(AtLeastOne(wait.value));
  }

  /** Counts a failover; an outcome means the request is over. */
  method CountFailover(pool: AccountPool, failovers: nat, model: string, now: int)
    returns (over: Option<Outcome>, count: nat)
    ensures count == failovers + 1
    ensures Failover(Loop(pool.State(), failovers, None), pool.State(), [], model, now) ==
      if over.Some? then Done(over.value, pool.State(), []) else Again(Loop(pool.State(), count, None), [])
  {
    count := failovers + 1;
    over := None;
    if count > AtLeastOne(|pool.entries|) {
      var retry := RetryTime(pool, model, now);
      over := Some(Failed(429, FailoverExhausted, retry));
    }
  }

  /** What the step function says of a finished or a continuing attempt. */
  predicate Matches(t: Turned, over: Option<Outcome>, pool: PoolState, failovers: nat, retried: Option<string>,
      events: seq<Event>) {
    match t
    case Done(outcome, p, trace) => over == Some(outcome) && pool == p && events == trace
    case Again(x, trace) => over == None && Loop(pool, failovers, retried) == x && events == trace
  }

  method TryAccount(pool: AccountPool, id: string, failovers: nat, retried: Option<string>, w: World, n: nat,
      q: Request)
    returns (over: Option<Outcome>, count: nat, pinned: Option<string>, events: seq<Event>)
    modifies pool
    ensures Matches(Attempt(w, n, Loop(old(pool.State()), failovers, retried), old(pool.State()), id, q, pool.lim),
              over, pool.State(), count, pinned, events)
  {
    over, count, pinned := None, failovers, retried;
    var r, now := w.reply(n, id), w.noteAt(n);
    events := [Sent(id, r)];
    if r.TransportError? {
      pool.NoteErrorThreshold(id, now);
      over := Some(Failed(502, ConnectionFailed, None));
      return;
    }
    if r.status == 200 {
      match r.head {
      case HealthyHead =>
        over := Some(Started(id, failovers, retried.Some?));
      case QuotaExhausted =>
        pool.SetCredits(id, 0);
        pool.NoteHardCredit(id, now);
        over, count := CountFailover(pool, failovers, q.model, now);
      case OtherError =>
        pool.NoteErrorThreshold(id, now);
        over := Some(Failed(502, ErrorEvent, None));
      case Unavailable =>
        pool.NoteErrorThreshold(id, now);
        over := Some(Failed(502, HeadLost, None));
      }
      return;
    }
    if OutOfCredits(r) {
      pool.NoteHardCredit(id, now);
      over, count := CountFailover(pool, failovers, q.model, now);
      return;
    }
    if r.status == 401 {
      if retried.None? {
        if w.refreshOk(n) {
          pinned := Some(id);
          events := events + [Refreshed(id, true)];
          return;
        }
        events := events + [Refreshed(id, false)];
      }
      pool.NoteStatus(id, 401, q.model, now);
      over := Some(Failed(401, if retried.Some? then TokenRejected else RefreshFailed, None));
    } else if r.status == 429 {
      pool.NoteStatus(id, 429, q.model, now);
      over, count := CountFailover(pool, failovers, q.model, now);
    } else if r.status == 403 {
      pool.NoteStatus(id, 403, q.model, now);
      over := Some(Failed(403, Forbidden, None));
    } else if 500 <= r.status <= 599 {
      over := Some(Failed(r.status, ServerError, None));
    } else {
      pool.NoteErrorThreshold(id, now);
      over := Some(Failed(r.status, Rejected, None));
    }
  }

  /** One turn of the loop. */
  method TryOnce(pool: AccountPool, failovers: nat, retried: Option<string>, w: World, n: nat, q: Request)
    returns (over: Option<Outcome>, count: nat, pinned: Option<string>, events: seq<Event>)
    modifies pool
    ensures Matches(Iterate(w, n, Loop(old(pool.State()), failovers, retried), q, pool.lim), over, pool.State(), count, pinned, events)
  {
    ghost var x := Loop(pool.State(), failovers, retried);
    var account := PickNext(pool, retried, w, n, q);
    NextReads(w, n, x, q, pool.lim);
    if account.None? {
      var retry := RetryTime(pool, q.model, w.pickAt(n));
      return Some(NoAccount(retry)), failovers, retried, [];
    }
    OtherTasks(pool, w.meanwhile(n, pool.State()));
    ghost var picked := pool.State();
    over, count, pinned, events := TryAccount(pool, account.value, failovers, retried, w, n, q);
    AttemptReads(w, n, x, Loop(picked, failovers, retried), picked, account.value, q, pool.lim);
  }

  method GenerateRequest(pool: AccountPool, w: World, q: Request, ghost size: nat)
    returns (outcome: Outcome, trace: seq<Event>)
    requires AtMost(w, size)
    modifies pool
    ensures Ended(outcome, pool.State(), trace) == Generate(w, 0, Loop(old(pool.State()), 0, None), q, pool.lim, size)
  {
    var failovers: nat, retried: Option<string>, n := 0, None, 0;
    trace := [];
    ghost var whole := Generate(w, 0, Loop(pool.State(), 0, None), q, pool.lim, size);
    ghost var x := Loop(pool.State(), failovers, retried);
    while true
      invariant x == Loop(pool.State(), failovers, retried) && failovers <= AtLeastOne(size)
      invariant Prefixed(trace, Generate(w, n, x, q, pool.lim, size)) == whole
      decreases Budget(x, size)
    {
      var over, count, pinned, events := TryOnce(pool, failovers, retried, w, n, q);
      OneTurn(w, n, x, q, pool.lim, size, trace);
      trace := trace + events;
      if over.Some? { return over.value, trace; }
      failovers, retried, n := count, pinned, n + 1;
      x := Loop(pool.State(), failovers, retried);
    }
  }

  function Prefixed(before: seq<Event>, rest: Ended): Ended {
    Ended(rest.outcome, rest.pool, before + rest.trace)
  }

  /** The loop unrolled once, after the conversation `before`. */
  lemma OneTurn(w: World, n: nat, x: Loop, q: Request, lim: Limits, size: nat, before: seq<Event>)
    requires AtMost(w, size) && x.failovers <= AtLeastOne(size)
    ensures var t := Iterate(w, n, x, q, lim);
      match t
      case Done(outcome, pool, trace) =>
        Prefixed(before, Generate(w, n, x, q, lim, size)) == Ended(outcome, pool, before + trace)
      case Again(x', trace) =>
        x'.failovers <= AtLeastOne(size) && Budget(x', size) == Budget(x, size) - 1 &&
        Prefixed(before, Generate(w, n, x, q, lim, size)) == Prefixed(before + trace, Generate(w, n + 1, x', q, lim, size))
  {
    IterateSpends(w, n, x, q, lim, size);
    var t := Iterate(w, n, x, q, lim);
    if t.Again? {
      Regroup(before, t.trace, Generate(w, n + 1, t.loop, q, lim, size).trace);
    }
  }

  lemma NextReads(w: World, n: nat, x: Loop, q: Request, lim: Limits)
    ensures Next(w, n, x, q, lim) == Next(w, n, Loop(x.pool, 0, x.retried), q, lim)
  {
  }

  lemma AttemptReads(w: World, n: nat, x: Loop, y: Loop, pool: PoolState, id: string, q: Request, lim: Limits)
    requires y == x.(pool := y.pool)
    ensures Attempt(w, n, x, pool, id, q, lim) == Attempt(w, n, y, pool, id, q, lim)
  {
  }
}
