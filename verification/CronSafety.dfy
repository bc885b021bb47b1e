/** What every run of the two cron machines keeps, and why no row is ever stuck. */
module CronSafety {
  import opened Options
  import opened Cron

  /** The longest total backoff of the first n attempts, in seconds. */
  function Backoff(n: nat): nat { if n == 0 then 0 else Backoff(n - 1) + RetryDelay(n) }

  /** Failed and generated-or-failed rows are done for good. */
  predicate Settled(m: Metric) {
    m.status == Failed || (m.status == Completed && (m.memGeneratedAt.Some? || m.memFailedAt.Some?))
  }

  predicate MetricSide(m: Metric, l: Limits) {
    && (m.token.Some? <==> m.lease.Some?)
    && m.attempts <= l.maxMetric
    && (m.status == Pending && m.lease.None? ==> m.attempts < l.maxMetric)
    && (m.lease.Some? && m.status == Pending ==> m.attempts >= 1)
    && (m.status == Completed ==> BothCounts(m) && m.measuredAt.Some?)
    && (m.status == Failed ==> !BothCounts(m) || m.lastError == Some("WORKER_INTERRUPTED"))
  }

  predicate MemorySide(m: Metric, l: Limits) {
    && m.memAttempts <= l.maxMemory
    && (m.status != Completed ==>
        m.memAttempts == 0 && m.memGeneratedAt.None? && m.memFailedAt.None? && m.memNextAt.None?)
    && !(m.memGeneratedAt.Some? && m.memFailedAt.Some?)
    && (MemoryOpen(m) && m.lease.None? ==> m.memAttempts < l.maxMemory)
    && (MemoryOpen(m) && m.lease.Some? ==> m.memAttempts >= 1)
    && (Settled(m) ==> m.token.None? && m.lease.None?)
  }

  /** Claims are the attempt counters; backoff is bounded by the attempts that ended in it. */
  predicate Audited(c: Cell) {
    var m := c.metric;
    && c.audit.claims == m.attempts && c.audit.memClaims == m.memAttempts
    && c.audit.created == (if m.memGeneratedAt.Some? then 1 else 0)
    && c.audit.waited <= Backoff(m.attempts)
    && (m.status == Pending && m.lease.Some? && m.attempts >= 1 ==> c.audit.waited <= Backoff(m.attempts - 1))
    && c.audit.memWaited <= Backoff(m.memAttempts)
    && (MemoryOpen(m) && m.lease.Some? && m.memAttempts >= 1 ==> c.audit.memWaited <= Backoff(m.memAttempts - 1))
  }

  predicate BackoffBelowMax(c: Cell, l: Limits) {
    && (l.maxMetric >= 1 ==> c.audit.waited <= Backoff(l.maxMetric - 1))
    && (l.maxMemory >= 1 ==> c.audit.memWaited <= Backoff(l.maxMemory - 1))
  }

  predicate CellOk(c: Cell, l: Limits) {
    MetricSide(c.metric, l) && MemorySide(c.metric, l) && Audited(c) && BackoffBelowMax(c, l)
  }

  /** The token in a row was issued for this post and for the machine whose turn it is. */
  predicate TokenFits(p: PostId, m: Metric, issued: map<Token, Grant>) {
    m.token.Some? ==> m.token.value in issued && issued[m.token.value] == Grant(p, m.status == Completed)
  }

  ghost predicate CronInv(s: State, l: Limits) {
    forall p | p in s.cells :: CellOk(s.cells[p], l) && TokenFits(p, s.cells[p].metric, s.issued)
  }

  lemma {:induction false} BackoffGrows(n: nat, m: nat)
    requires n <= m
    ensures Backoff(n) <= Backoff(m)
    decreases m
  {
    if n < m { BackoffGrows(n, m - 1); }
  }

  lemma CellStepSides(c: Cell, l: Limits, e: Event)
    requires LimitsOk(l) && CellOk(c, l)
    ensures var m := CellStep(c, l, e).metric; MetricSide(m, l) && MemorySide(m, l)
  {
    hide Audited, BackoffBelowMax, RetryDelay;
  }

  /** The two counters of one machine: what one more claim or one more deferral may add. */
  lemma BackoffSteps(n: nat, max: nat)
    ensures Backoff(n) <= Backoff(n + 1)
    ensures n >= 1 ==> Backoff(n) == Backoff(n - 1) + RetryDelay(n)
    ensures n < max ==> Backoff(n) <= Backoff(max - 1)
  {
    if n < max { BackoffGrows(n, max - 1); }
  }

  lemma CellStepAudit(c: Cell, l: Limits, e: Event)
    requires LimitsOk(l) && CellOk(c, l)
    ensures Audited(CellStep(c, l, e)) && BackoffBelowMax(CellStep(c, l, e), l)
  {
    hide RetryDelay, Backoff;
    BackoffSteps(c.metric.attempts, l.maxMetric);
    BackoffSteps(c.metric.memAttempts, l.maxMemory);
  }

  // ---------- One cell along a step ----------

  /** Provider counts are written once; settled rows and a completed metric side never change again. */
  predicate CellEvolves(c: Cell, d: Cell) {
    var m, n := c.metric, d.metric;
    && (m.xPv.Some? ==> n.xPv == m.xPv) && (m.landing.Some? ==> n.landing == m.landing)
    && (Settled(m) ==> d == c)
    && (m.status == Completed ==> n.status == Completed && n.measuredAt == m.measuredAt && n.attempts == m.attempts)
    && m.attempts <= n.attempts && m.memAttempts <= n.memAttempts
    && (m.memGeneratedAt.Some? ==> n.memGeneratedAt == m.memGeneratedAt)
  }

  lemma CellStepEvolves(c: Cell, l: Limits, e: Event)
    requires CellOk(c, l)
    ensures CellEvolves(c, CellStep(c, l, e))
  {
    hide RetryDelay, Audited, BackoffBelowMax;
  }

  lemma CellStepFits(p: PostId, c: Cell, l: Limits, e: Event, issued: map<Token, Grant>)
    requires CellOk(c, l) && TokenFits(p, c.metric, issued)
    requires IsClaim(e) ==> e.post == p && e.token !in issued
    ensures TokenFits(p, CellStep(c, l, e).metric, if IsClaim(e) then issued[e.token := Grant(p, e.ClaimMemory?)]
                      else issued)
  {
    hide RetryDelay, Audited, BackoffBelowMax;
  }

  lemma StepKeepsCronInv(s: State, l: Limits, e: Event)
    requires LimitsOk(l) && CronInv(s, l)
    ensures CronInv(Step(s, l, e), l)
    ensures forall p | p in s.cells :: p in Step(s, l, e).cells && CellEvolves(s.cells[p], Step(s, l, e).cells[p])
    ensures forall t | t in s.issued :: t in Step(s, l, e).issued && Step(s, l, e).issued[t] == s.issued[t]
  {
    hide CellOk, TokenFits, CellStep, CellEvolves;
    forall p | p in s.cells
      ensures CellOk(CellStep(s.cells[p], l, e), l) && CellEvolves(s.cells[p], CellStep(s.cells[p], l, e))
    {
      CellStepKeeps(s.cells[p], l, e);
    }
    forall p | p in s.cells ensures CellEvolves(s.cells[p], s.cells[p]) { NoChangeEvolves(s.cells[p]); }
    TokensFit(s, l, e);
    if e.NewPost? { NewCellOk(l, e.scheduledAt, e.post, s.issued); }
  }

  lemma TokensFit(s: State, l: Limits, e: Event)
    requires LimitsOk(l) && CronInv(s, l)
    ensures forall p | p in s.cells :: TokenFits(p, Step(s, l, e).cells[p].metric, Step(s, l, e).issued)
  {
    hide CellOk, TokenFits, CellStep;
    var t := Step(s, l, e);
    forall p | p in s.cells ensures TokenFits(p, t.cells[p].metric, t.issued) {
      if OnAllRows(e) {
        CellStepFits(p, s.cells[p], l, e, s.issued);
      } else if !e.NewPost? && e.post == p && !(IsClaim(e) && e.token in s.issued) {
        CellStepFits(p, s.cells[p], l, e, s.issued);
      } else if IsClaim(e) && e.token !in s.issued {
        StillFits(p, s.cells[p].metric, s.issued, e.token, Grant(e.post, e.ClaimMemory?));
      }
    }
  }

  lemma StillFits(p: PostId, m: Metric, issued: map<Token, Grant>, token: Token, grant: Grant)
    requires TokenFits(p, m, issued) && token !in issued
    ensures TokenFits(p, m, issued[token := grant])
  {
  }

  lemma CellStepKeeps(c: Cell, l: Limits, e: Event)
    requires LimitsOk(l) && CellOk(c, l)
    ensures CellOk(CellStep(c, l, e), l) && CellEvolves(c, CellStep(c, l, e))
  {
    hide CellStep, MetricSide, MemorySide, Audited, BackoffBelowMax, CellEvolves;
    CellStepSides(c, l, e);
    CellStepAudit(c, l, e);
    CellStepEvolves(c, l, e);
  }

  lemma NoChangeEvolves(c: Cell)
    ensures CellEvolves(c, c)
  {
  }

  lemma NewCellOk(l: Limits, scheduledAt: Time, p: PostId, issued: map<Token, Grant>)
    requires LimitsOk(l)
    ensures CellOk(Cell(NewMetric(scheduledAt), Audit(0, 0, 0, 0, 0)), l)
    ensures TokenFits(p, NewMetric(scheduledAt), issued)
  {
  }

  lemma EvolvesTransitive(a: Cell, b: Cell, c: Cell)
    requires CellEvolves(a, b) && CellEvolves(b, c)
    ensures CellEvolves(a, c)
  {
  }

  lemma {:induction false} RunKeepsCronInv(s: State, l: Limits, events: seq<Event>)
    requires LimitsOk(l) && CronInv(s, l)
    ensures CronInv(Run(s, l, events), l)
    ensures forall p | p in s.cells ::
              p in Run(s, l, events).cells && CellEvolves(s.cells[p], Run(s, l, events).cells[p])
    ensures forall t | t in s.issued :: t in Run(s, l, events).issued && Run(s, l, events).issued[t] == s.issued[t]
    decreases |events|
  {
    hide CronInv, CellEvolves, Step;
    if events == [] {
      forall p | p in s.cells ensures CellEvolves(s.cells[p], s.cells[p]) { NoChangeEvolves(s.cells[p]); }
    } else {
      var next := Step(s, l, events[0]);
      StepKeepsCronInv(s, l, events[0]);
      RunKeepsCronInv(next, l, events[1..]);
      var last := Run(next, l, events[1..]);
      forall p | p in s.cells ensures CellEvolves(s.cells[p], last.cells[p]) {
        EvolvesTransitive(s.cells[p], next.cells[p], last.cells[p]);
      }
    }
  }

  // ---------- Over every run ----------

  lemma ReachedCron(l: Limits, events: seq<Event>)
    requires LimitsOk(l)
    ensures CronInv(Run(NOTHING, l, events), l)
  {
    RunKeepsCronInv(NOTHING, l, events);
  }

  /** A token issued by one machine never passes the guard of the other, on any row, at any time. */
  lemma MachinesDoNotInterfere(l: Limits, events: seq<Event>, token: Token, p: PostId, now: Time)
    requires LimitsOk(l)
    ensures var s := Run(NOTHING, l, events);
            token in s.issued && p in s.cells ==>
              && (s.issued[token] != Grant(p, false) ==> !MetricHeld(s.cells[p].metric, token, now))
              && (s.issued[token] != Grant(p, true) ==> !MemoryHeld(s.cells[p].metric, token, now))
  {
    hide CellOk;
    ReachedCron(l, events);
  }

  /** Values, outcomes and completion times, once there, stay in every continuation of the run. */
  lemma WrittenOnce(l: Limits, before: seq<Event>, later: seq<Event>, p: PostId)
    requires LimitsOk(l) && p in Run(NOTHING, l, before).cells
    ensures var s := Run(NOTHING, l, before);
            p in Run(s, l, later).cells && CellEvolves(s.cells[p], Run(s, l, later).cells[p])
  {
    hide CronInv, CellEvolves;
    ReachedCron(l, before);
    RunKeepsCronInv(Run(NOTHING, l, before), l, later);
  }

  /**
   Per post: completed rows hold both counts; at most one memory is created, exactly when the marker is
   set and never beside the failure mark; claims and total backoff stay within their maxima.
   */
  lemma CronOutcomes(l: Limits, events: seq<Event>, p: PostId)
    requires LimitsOk(l) && p in Run(NOTHING, l, events).cells
    ensures var c := Run(NOTHING, l, events).cells[p];
            var m := c.metric;
            && (m.status == Completed ==> m.xPv.Some? && m.landing.Some? && m.measuredAt.Some?)
            && c.audit.created <= 1 && (c.audit.created == 1 <==> m.memGeneratedAt.Some?)
            && !(m.memGeneratedAt.Some? && m.memFailedAt.Some?)
            && (m.memGeneratedAt.Some? || m.memFailedAt.Some? ==> m.status == Completed)
            && c.audit.claims <= l.maxMetric && c.audit.memClaims <= l.maxMemory
            && c.audit.waited <= Backoff(l.maxMetric - 1) && c.audit.memWaited <= Backoff(l.maxMemory - 1)
  {
    ReachedCron(l, events);
    assert CellOk(Run(NOTHING, l, events).cells[p], l);
  }

  /** The token was issued and no longer holds the row. */
  predicate Stale(s: State, token: Token, p: PostId) {
    token in s.issued && p in s.cells && s.cells[p].metric.token != Some(token)
  }

  /** Worker steps, that is, everything a worker does with the token of its claim. */
  predicate UsesToken(e: Event, token: Token, p: PostId) {
    match e
    case SaveCount(post, t, _, _, _) => t == token && post == p
    case CompleteReady(post, t, _) => t == token && post == p
    case FailMetric(post, t, _, _, _) => t == token && post == p
    case CreateMemory(post, t, _) => t == token && post == p
    case FailMemory(post, t, _, _) => t == token && post == p
    case _ => false
  }

  lemma StaysStale(s: State, l: Limits, e: Event, token: Token, p: PostId)
    requires Stale(s, token, p)
    ensures Stale(Step(s, l, e), token, p)
    ensures UsesToken(e, token, p) ==> Step(s, l, e) == s
  {
    hide RetryDelay;
    if UsesToken(e, token, p) {
      assert CellStep(s.cells[p], l, e) == s.cells[p];
      assert s.cells[p := s.cells[p]] == s.cells;
    }
  }

  /** A worker that lost its row never gets it back, and nothing it does later leaves a trace. */
  lemma {:induction false} StaleWorkersAreInert(s: State, l: Limits, later: seq<Event>, token: Token, p: PostId,
                                                e: Event)
    requires Stale(s, token, p) && UsesToken(e, token, p)
    ensures Step(Run(s, l, later), l, e) == Run(s, l, later)
    decreases |later|
  {
    hide Step, UsesToken;
    if later == [] {
      StaysStale(s, l, e, token, p);
    } else {
      StaysStale(s, l, later[0], token, p);
      StaleWorkersAreInert(Step(s, l, later[0]), l, later[1..], token, p, e);
    }
  }

  // ---------- Progress ----------

  function Latest(a: Time, b: Option<Time>): Time { if b.Some? && b.value > a then b.value else a }

  /** From this time on the row can be claimed or terminalized. */
  function ReadyAt(m: Metric): Time {
    if m.status == Pending then Latest(Latest(m.scheduledAt, m.nextAt), m.lease)
    else Latest(Latest(m.scheduledAt, m.memNextAt), m.lease)
  }

  predicate CanMove(m: Metric, l: Limits, now: Time) {
    MetricClaimable(m, l, now) || MetricExhausted(m, l, now) || MemoryClaimable(m, l, now) || MemoryExhausted(m, l, now)
  }

  /** No row is ever stuck: an exhausted open row still holds a lease, so some step is enabled in time. */
  lemma NeverStuck(l: Limits, events: seq<Event>, p: PostId, now: Time)
    requires LimitsOk(l) && p in Run(NOTHING, l, events).cells
    ensures var m := Run(NOTHING, l, events).cells[p].metric;
            && (!Settled(m) && now >= ReadyAt(m) ==> CanMove(m, l, now))
            && (Settled(m) ==> !CanMove(m, l, now))
  {
    ReachedCron(l, events);
    assert CellOk(Run(NOTHING, l, events).cells[p], l);
  }

  /** One pass of the two crons over a row whose worker dies at once: terminalize, or claim and nothing more. */
  function DyingPass(c: Cell, l: Limits, token: Token): Cell {
    var now := ReadyAt(c.metric);
    var closed := CellStep(CellStep(c, l, TerminalizeMetrics(now)), l, TerminalizeMemories(now));
    CellStep(CellStep(closed, l, ClaimMetric(0, token, now)), l, ClaimMemory(0, token, now))
  }

  function DyingPasses(c: Cell, l: Limits, n: nat): Cell
    decreases n
  {
    if n == 0 then c else DyingPasses(DyingPass(c, l, n), l, n - 1)
  }

  /** Claims still possible, plus one pass to end each open machine. */
  function Remaining(m: Metric, l: Limits): int {
    if Settled(m) then 0
    else if m.status == Pending then l.maxMetric - m.attempts + 1
    else l.maxMemory - m.memAttempts + 1
  }

  lemma DyingPassSettles(c: Cell, l: Limits, token: Token)
    requires LimitsOk(l) && CellOk(c, l)
    ensures CellOk(DyingPass(c, l, token), l)
    ensures !Settled(c.metric) ==> Remaining(DyingPass(c, l, token).metric, l) < Remaining(c.metric, l)
    ensures Settled(c.metric) ==> DyingPass(c, l, token) == c
  {
    hide Audited, BackoffBelowMax;
    var now := ReadyAt(c.metric);
    var c1 := CellStep(c, l, TerminalizeMetrics(now));
    var c2 := CellStep(c1, l, TerminalizeMemories(now));
    var c3 := CellStep(c2, l, ClaimMetric(0, token, now));
    CellStepKeeps(c, l, TerminalizeMetrics(now));
    CellStepKeeps(c1, l, TerminalizeMemories(now));
    CellStepKeeps(c2, l, ClaimMetric(0, token, now));
    CellStepKeeps(c3, l, ClaimMemory(0, token, now));
  }

  /** Even if every worker dies right after its claim, the row settles within its remaining passes. */
  lemma {:induction false} DyingWorkersSettle(c: Cell, l: Limits, n: nat)
    requires LimitsOk(l) && CellOk(c, l) && n >= Remaining(c.metric, l)
    ensures Settled(DyingPasses(c, l, n).metric)
    decreases n
  {
    hide DyingPass;
    assert Remaining(c.metric, l) > 0 <==> !Settled(c.metric);
    if n > 0 {
      DyingPassSettles(c, l, n);
      DyingWorkersSettle(DyingPass(c, l, n), l, n - 1);
    }
  }
}
