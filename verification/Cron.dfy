/**
 The metric cron and the evaluation-memory cron: two lease machines on one row. Every transition is
 one committed transaction on the row of a post. Workers may die, stall and come back with an old
 token at any time, and every transition carries its own clock reading.
 */
module Cron {
  import opened Options

  type PostId = nat
  type Token = nat
  type Time = int

  datatype MetricStatus = Pending | Completed | Failed

  datatype Provider = X | Ga4

  datatype Metric = Metric(
    scheduledAt: Time, status: MetricStatus, xPv: Option<nat>, landing: Option<nat>, measuredAt: Option<Time>,
    token: Option<Token>, lease: Option<Time>, attempts: nat, nextAt: Option<Time>, lastError: Option<string>,
    memGeneratedAt: Option<Time>, memFailedAt: Option<Time>, memAttempts: nat, memNextAt: Option<Time>,
      memError: Option<string>)

  datatype Limits = Limits(maxMetric: nat, maxMemory: nat, leaseSeconds: nat)

  predicate LimitsOk(l: Limits) { l.maxMetric >= 1 && l.maxMemory >= 1 && l.leaseSeconds >= 1 }

  function NewMetric(scheduledAt: Time): Metric {
    Metric(scheduledAt, Pending, None, None, None, None, None, 0, None, None, None, None, 0, None, None)
  }

  function Pow2(n: nat): (p: nat)
    ensures p >= 1
  {
    if n == 0 then 1 else 2 * Pow2(n - 1)
  }

  const HOUR: nat := 3600

  /** `retry_delay` in seconds: 2^(attempt - 1) hours, which is half an hour for attempt 0, at most 24 hours. */
  function RetryDelay(attempt: nat): (seconds: nat)
    ensures 0 < seconds <= 24 * HOUR
  {
    if attempt == 0 then HOUR / 2
    else if Pow2(attempt - 1) < 24 then HOUR * Pow2(attempt - 1)
    else 24 * HOUR
  }

  /** One hour after the first attempt, then twice as long after each further one, up to a day. */
  lemma RetryDoubles(attempt: nat)
    ensures RetryDelay(1) == HOUR
    ensures RetryDelay(attempt + 1) ==
            if 2 * RetryDelay(attempt) <= 24 * HOUR then 2 * RetryDelay(attempt) else 24 * HOUR
  {
    assert Pow2(0) == 1;
    if attempt >= 1 {
      assert Pow2(attempt) == 2 * Pow2(attempt - 1);
    }
  }

  predicate Due(at: Option<Time>, now: Time) { at.None? || at.value <= now }

  predicate Expired(lease: Option<Time>, now: Time) { lease.Some? && lease.value <= now }

  // ---------- Metric transitions ----------

  predicate BothCounts(m: Metric) { m.xPv.Some? && m.landing.Some? }

  predicate MetricHeld(m: Metric, token: Token, now: Time) {
    m.status == Pending && m.token == Some(token) && m.lease.Some? && m.lease.value > now
  }

  predicate MetricExhausted(m: Metric, l: Limits, now: Time) {
    m.status == Pending && m.attempts >= l.maxMetric && Expired(m.lease, now)
  }

  function MetricTerminalize(m: Metric, l: Limits, now: Time): Metric {
    if MetricExhausted(m, l, now)
    then m.(status := Failed, token := None, lease := None, nextAt := None, lastError := Some("WORKER_INTERRUPTED"))
    else m
  }

  predicate MetricClaimable(m: Metric, l: Limits, now: Time) {
    m.status == Pending && m.scheduledAt <= now && Due(m.nextAt, now) && Due(m.lease, now) && m.attempts < l.maxMetric
  }

  function MetricClaim(m: Metric, token: Token, lease: Time): Metric {
    m.(token := Some(token), lease := Some(lease), attempts := m.attempts + 1, nextAt := None)
  }

  function Complete(m: Metric, now: Time): Metric {
    m.(status := Completed, measuredAt := Some(now), token := None, lease := None, nextAt := None, lastError := None)
  }

  datatype Transition = Partial | Done | Deferred | Ended | LeaseLost

  /** The value is stored only when none is stored yet. */
  function WithCount(m: Metric, provider: Provider, value: nat): Metric {
    match provider
    case X => if m.xPv.None? then m.(xPv := Some(value)) else m
    case Ga4 => if m.landing.None? then m.(landing := Some(value)) else m
  }

  function SaveProvider(m: Metric, token: Token, provider: Provider, value: nat, now: Time): (Transition, Metric) {
    if !MetricHeld(m, token, now) then (LeaseLost, m)
    else
      var saved := WithCount(m, provider, value);
      if BothCounts(saved) then (Done, Complete(saved, now)) else (Partial, saved)
  }

  function CompleteIfReady(m: Metric, token: Token, now: Time): (Transition, Metric) {
    if !MetricHeld(m, token, now) then (LeaseLost, m)
    else if !BothCounts(m) then (Partial, m)
    else (Done, Complete(m, now))
  }

  function MetricFailure(m: Metric, token: Token, error: string, retryable: bool, l: Limits, now: Time)
    : (Transition, Metric)
  {
    if !MetricHeld(m, token, now) then (LeaseLost, m)
    else if BothCounts(m) then (Done, Complete(m, now))
    else
      var released := m.(token := None, lease := None, lastError := Some(error));
      if !retryable || m.attempts >= l.maxMetric
      then (Ended, released.(status := Failed, nextAt := None))
      else (Deferred, released.(nextAt := Some(now + RetryDelay(m.attempts))))
  }

  // ---------- Memory transitions ----------

  predicate MemoryOpen(m: Metric) { m.status == Completed && m.memGeneratedAt.None? && m.memFailedAt.None? }

  predicate MemoryHeld(m: Metric, token: Token, now: Time) {
    MemoryOpen(m) && m.token == Some(token) && m.lease.Some? && m.lease.value > now
  }

  predicate MemoryExhausted(m: Metric, l: Limits, now: Time) {
    MemoryOpen(m) && m.memAttempts >= l.maxMemory && Expired(m.lease, now)
  }

  function MemoryTerminalize(m: Metric, l: Limits, now: Time): Metric {
    if MemoryExhausted(m, l, now)
    then m.(memFailedAt := Some(now), memNextAt := None, memError := Some("WORKER_INTERRUPTED"), token := None,
            lease := None)
    else m
  }

  predicate MemoryClaimable(m: Metric, l: Limits, now: Time) {
    MemoryOpen(m) && Due(m.memNextAt, now) && Due(m.lease, now) && m.memAttempts < l.maxMemory
  }

  function MemoryClaim(m: Metric, token: Token, lease: Time): Metric {
    m.(token := Some(token), lease := Some(lease), memAttempts := m.memAttempts + 1, memNextAt := None)
  }

  function SaveCreated(m: Metric, token: Token, now: Time): (Transition, Metric) {
    if !MemoryHeld(m, token, now) then (LeaseLost, m)
    else (Done, m.(memGeneratedAt := Some(now), memNextAt := None, memError := None, token := None, lease := None))
  }

  function MemoryFailure(m: Metric, token: Token, error: string, l: Limits, now: Time): (Transition, Metric) {
    if !MemoryHeld(m, token, now) then (LeaseLost, m)
    else
      var released := m.(token := None, lease := None, memError := Some(error));
      if m.memAttempts >= l.maxMemory
      then (Ended, released.(memFailedAt := Some(now), memNextAt := None))
      else (Deferred, released.(memNextAt := Some(now + RetryDelay(m.memAttempts))))
  }

  // ---------- The machine ----------

  /** What happened to a post: claims won, seconds of backoff imposed, memories created. */
  datatype Audit = Audit(claims: nat, waited: nat, memClaims: nat, memWaited: nat, created: nat)

  datatype Cell = Cell(metric: Metric, audit: Audit)

  datatype Grant = Grant(post: PostId, forMemory: bool)

  datatype State = State(cells: map<PostId, Cell>, issued: map<Token, Grant>)

  const NOTHING := State(map[], map[])

  datatype Event =
    | NewPost(post: PostId, scheduledAt: Time)
    | TerminalizeMetrics(now: Time)
    | ClaimMetric(post: PostId, token: Token, now: Time)
    | SaveCount(post: PostId, token: Token, provider: Provider, value: nat, now: Time)
    | CompleteReady(post: PostId, token: Token, now: Time)
    | FailMetric(post: PostId, token: Token, error: string, retryable: bool, now: Time)
    | TerminalizeMemories(now: Time)
    | ClaimMemory(post: PostId, token: Token, now: Time)
    | CreateMemory(post: PostId, token: Token, now: Time)
    | FailMemory(post: PostId, token: Token, error: string, now: Time)

  /** One transition of one cell; `token` is fresh in a claim. */
  function CellStep(c: Cell, l: Limits, e: Event): Cell {
    var m := c.metric;
    match e
    case NewPost(_, _) => c
    case TerminalizeMetrics(now) => c.(metric := MetricTerminalize(m, l, now))
    case ClaimMetric(_, token, now) =>
      if MetricClaimable(m, l, now)
      then Cell(MetricClaim(m, token, now + l.leaseSeconds), c.audit.(claims := c.audit.claims + 1)) else c
    case SaveCount(_, token, provider, value, now) => c.(metric := SaveProvider(m, token, provider, value, now).1)
    case CompleteReady(_, token, now) => c.(metric := CompleteIfReady(m, token, now).1)
    case FailMetric(_, token, error, retryable, now) =>
      var r := MetricFailure(m, token, error, retryable, l, now);
      Cell(r.1, if r.0.Deferred? then c.audit.(waited := c.audit.waited + RetryDelay(m.attempts)) else c.audit)
    case TerminalizeMemories(now) => c.(metric := MemoryTerminalize(m, l, now))
    case ClaimMemory(_, token, now) =>
      if MemoryClaimable(m, l, now)
      then Cell(MemoryClaim(m, token, now + l.leaseSeconds), c.audit.(memClaims := c.audit.memClaims + 1)) else c
    case CreateMemory(_, token, now) =>
      var r := SaveCreated(m, token, now);
      Cell(r.1, if r.0.Done? then c.audit.(created := c.audit.created + 1) else c.audit)
    case FailMemory(_, token, error, now) =>
      var r := MemoryFailure(m, token, error, l, now);
      Cell(r.1, if r.0.Deferred? then c.audit.(memWaited := c.audit.memWaited + RetryDelay(m.memAttempts)) else c.audit)
  }

  predicate IsClaim(e: Event) { e.ClaimMetric? || e.ClaimMemory? }

  predicate OnAllRows(e: Event) { e.TerminalizeMetrics? || e.TerminalizeMemories? }

  function Step(s: State, l: Limits, e: Event): State {
    if OnAllRows(e) then s.(cells := map p | p in s.cells :: CellStep(s.cells[p], l, e))
    else if e.NewPost? then
      if e.post in s.cells then s
      else s.(cells := s.cells[e.post := Cell(NewMetric(e.scheduledAt), Audit(0, 0, 0, 0, 0))])
    else if e.post !in s.cells || (IsClaim(e) && e.token in s.issued) then s
    else
      State(s.cells[e.post := CellStep(s.cells[e.post], l, e)],
            if IsClaim(e) then s.issued[e.token := Grant(e.post, e.ClaimMemory?)] else s.issued)
  }

  function Run(s: State, l: Limits, events: seq<Event>): State
    decreases |events|
  {
    if events == [] then s else Run(Step(s, l, events[0]), l, events[1..])
  }
}
