/** The two cron repositories over their shared table, in place, against the transitions of `Cron`. */
module CronStore {
  import opened Options
  import opened Cron
  import opened CronSafety

  /** Claim order: (scheduled_at, post_id). */
  predicate Before(rows: map<PostId, Metric>, a: PostId, b: PostId)
    requires a in rows && b in rows
  {
    rows[a].scheduledAt < rows[b].scheduledAt || (rows[a].scheduledAt == rows[b].scheduledAt && a <= b)
  }

  datatype Claimed = Claimed(post: PostId, token: Token)

  function Posts(claims: seq<Claimed>): set<PostId> { set c | c in claims :: c.post }

  function Claiming(forMemory: bool, m: Metric, token: Token, lease: Time): Metric {
    if forMemory then MemoryClaim(m, token, lease) else MetricClaim(m, token, lease)
  }

  /** Distinct rows in claim order, under consecutive tokens. */
  predicate InOrder(before: map<PostId, Metric>, first: Token, claims: seq<Claimed>) {
    && (forall c | c in claims :: c.post in before)
    && (forall k | 0 <= k < |claims| :: claims[k].token == first + k)
    && (forall j, k | 0 <= j < k < |claims| ::
        claims[j].post != claims[k].post && Before(before, claims[j].post, claims[k].post))
  }

  /** The claimed rows are the first of the eligible ones; `open_` are the eligible ones left. */
  predicate TakenFirst(before: map<PostId, Metric>, eligible: set<PostId>, open_: set<PostId>, claims: seq<Claimed>) {
    && eligible <= before.Keys && open_ <= eligible && Posts(claims) == eligible - open_
    && forall c, p | c in claims && p in open_ :: c.post in before && Before(before, c.post, p)
  }

  /** Each claimed row was claimed once under its token, and no other row moved. */
  predicate Applied(before: map<PostId, Metric>, after: map<PostId, Metric>, claims: seq<Claimed>, forMemory: bool,
                    lease: Time) {
    && after.Keys == before.Keys
    && (forall p | p in before && p !in Posts(claims) :: after[p] == before[p])
    && (forall c | c in claims ::
        c.post in before && after[c.post] == Claiming(forMemory, before[c.post], c.token, lease))
  }

  lemma PostsGrow(claims: seq<Claimed>, c: Claimed)
    ensures Posts(claims + [c]) == Posts(claims) + {c.post}
  {
  }

  lemma OneMoreTaken(before: map<PostId, Metric>, eligible: set<PostId>, open_: set<PostId>, claims: seq<Claimed>,
                     c: Claimed)
    requires TakenFirst(before, eligible, open_, claims) && c.post in open_
    requires forall q | q in open_ :: q in before && Before(before, c.post, q)
    ensures TakenFirst(before, eligible, open_ - {c.post}, claims + [c])
  {
    PostsGrow(claims, c);
  }

  lemma OneMoreInOrder(before: map<PostId, Metric>, eligible: set<PostId>, open_: set<PostId>, first: Token,
                       claims: seq<Claimed>, c: Claimed)
    requires InOrder(before, first, claims) && TakenFirst(before, eligible, open_, claims) && c.post in open_
             && c.token == first + |claims|
    ensures InOrder(before, first, claims + [c])
  {
    hide Before;
    forall k | 0 <= k < |claims| ensures claims[k].post != c.post && Before(before, claims[k].post, c.post) {
      assert claims[k] in claims && claims[k].post in Posts(claims);
    }
  }

  lemma OneMoreApplied(before: map<PostId, Metric>, after: map<PostId, Metric>, claims: seq<Claimed>, forMemory: bool,
                       lease: Time, c: Claimed)
    requires Applied(before, after, claims, forMemory, lease) && c.post in before && c.post !in Posts(claims)
    ensures Applied(before, after[c.post := Claiming(forMemory, after[c.post], c.token, lease)], claims + [c],
                    forMemory, lease)
  {
    PostsGrow(claims, c);
    assert forall d | d in claims :: d.post in Posts(claims);
  }

  /** The state of the claim loop. */
  predicate Round(before: map<PostId, Metric>, rows: map<PostId, Metric>, eligible: set<PostId>, open_: set<PostId>,
                  claims: seq<Claimed>, first: Token, forMemory: bool, lease: Time) {
    InOrder(before, first, claims) && TakenFirst(before, eligible, open_, claims)
      && Applied(before, rows, claims, forMemory, lease)
  }

  lemma FirstRound(rows: map<PostId, Metric>, eligible: set<PostId>, first: Token, forMemory: bool, lease: Time)
    requires eligible <= rows.Keys
    ensures Round(rows, rows, eligible, eligible, [], first, forMemory, lease)
  {
  }

  lemma RoundDomain(before: map<PostId, Metric>, rows: map<PostId, Metric>, eligible: set<PostId>, open_: set<PostId>,
                    claims: seq<Claimed>, first: Token, forMemory: bool, lease: Time)
    requires Round(before, rows, eligible, open_, claims, first, forMemory, lease)
    ensures open_ <= before.Keys && rows.Keys == before.Keys
  {
    hide InOrder;
  }

  lemma NextRound(before: map<PostId, Metric>, rows: map<PostId, Metric>, eligible: set<PostId>, open_: set<PostId>,
                  claims: seq<Claimed>, first: Token, forMemory: bool, lease: Time, p: PostId, token: Token)
    requires Round(before, rows, eligible, open_, claims, first, forMemory, lease) && p in open_
             && token == first + |claims|
    requires forall q | q in open_ :: q in before && Before(before, p, q)
    requires p in rows
    ensures Round(before, rows[p := Claiming(forMemory, rows[p], token, lease)], eligible, open_ - {p},
                  claims + [Claimed(p, token)], first, forMemory, lease)
  {
    hide InOrder, Applied, Claiming;
    var c := Claimed(p, token);
    OneMoreTaken(before, eligible, open_, claims, c);
    OneMoreInOrder(before, eligible, open_, first, claims, c);
    OneMoreApplied(before, rows, claims, forMemory, lease, c);
  }

  lemma LastRound(before: map<PostId, Metric>, rows: map<PostId, Metric>, eligible: set<PostId>, open_: set<PostId>,
                  claims: seq<Claimed>, first: Token, forMemory: bool, lease: Time)
    requires Round(before, rows, eligible, open_, claims, first, forMemory, lease)
    ensures InOrder(before, first, claims) && Applied(before, rows, claims, forMemory, lease)
    ensures TakenFirst(before, eligible, eligible - Posts(claims), claims)
    ensures open_ == {} ==> Posts(claims) == eligible
  {
    hide InOrder, Applied;
    assert eligible - Posts(claims) == open_;
  }

  /** How many memories were inserted for a post. */
  function Inserted(memories: seq<PostId>, p: PostId): nat {
    if memories == [] then 0
    else Inserted(memories[..|memories| - 1], p) + if memories[|memories| - 1] == p then 1 else 0
  }

  function TerminalizedMetrics(rows: map<PostId, Metric>, l: Limits, now: Time): map<PostId, Metric> {
    map p | p in rows :: MetricTerminalize(rows[p], l, now)
  }

  function TerminalizedMemories(rows: map<PostId, Metric>, l: Limits, now: Time): map<PostId, Metric> {
    map p | p in rows :: MemoryTerminalize(rows[p], l, now)
  }

  /** The rows that a claim of the cron may take now. */
  function Eligible(rows: map<PostId, Metric>, forMemory: bool, l: Limits, now: Time,
                    locked: set<PostId>): set<PostId> {
    set p | p in rows && p !in locked
      && (if forMemory then MemoryClaimable(rows[p], l, now) else MetricClaimable(rows[p], l, now))
  }

  /** What no transaction takes back; a settled row does not change at all. */
  predicate MetricEvolves(m: Metric, n: Metric) {
    && (m.xPv.Some? ==> n.xPv == m.xPv) && (m.landing.Some? ==> n.landing == m.landing)
    && (m.status == Completed ==> n.status == Completed && n.measuredAt == m.measuredAt)
    && (m.memGeneratedAt.Some? ==> n.memGeneratedAt == m.memGeneratedAt)
    && (Settled(m) ==> n == m)
  }

  /** Rows only evolve, and a row that the token still holds is exactly as it was. */
  predicate OthersMoved(before: map<PostId, Metric>, after: map<PostId, Metric>, token: Token) {
    forall p | p in before ::
      p in after && MetricEvolves(before[p], after[p]) && (after[p].token == Some(token) ==> after[p] == before[p])
  }

  predicate RowsEvolve(before: map<PostId, Metric>, after: map<PostId, Metric>) {
    forall p | p in before :: p in after && MetricEvolves(before[p], after[p])
  }

  /** A memory was inserted for a post iff its marker is set, and then once; tokens in rows were issued. */
  predicate TableOk(rows: map<PostId, Metric>, memories: seq<PostId>, next: Token) {
    && (forall p | p in rows :: Inserted(memories, p) == if rows[p].memGeneratedAt.Some? then 1 else 0)
    && (forall p | p in memories :: p in rows)
    && (forall p | p in rows && rows[p].token.Some? :: rows[p].token.value < next)
  }

  lemma InsertedAppend(memories: seq<PostId>, q: PostId, p: PostId)
    ensures Inserted(memories + [q], p) == Inserted(memories, p) + if p == q then 1 else 0
  {
    assert (memories + [q])[..|memories|] == memories;
  }

  class CronRepository {
    var rows: map<PostId, Metric>
    var memories: seq<PostId>       // the post of every evaluation memory ever inserted
    var nextToken: Token            // tokens below it were issued

    constructor ()
      ensures rows == map[] && memories == [] && nextToken == 0
    {
      rows, memories, nextToken := map[], [], 0;
    }

    predicate Valid()
      reads this
    {
      TableOk(rows, memories, nextToken)
    }

    // ---------- Metrics ----------

    method TerminalizeMetrics(l: Limits, now: Time)
      modifies this`rows
      ensures rows == TerminalizedMetrics(old(rows), l, now)
    {
      var left, done := rows.Keys, rows;
      while left != {}
        invariant left <= rows.Keys && done.Keys == rows.Keys && rows == old(rows)
        invariant forall p | p in rows :: done[p] == if p in left then rows[p] else MetricTerminalize(rows[p], l, now)
        decreases |left|
      {
        var p :| p in left;
        if rows[p].status == Pending && rows[p].attempts >= l.maxMetric && rows[p].lease.Some?
           && rows[p].lease.value <= now {
          done := done[p := rows[p].(status := Failed, token := None, lease := None, nextAt := None,
                                     lastError := Some("WORKER_INTERRUPTED"))];
        }
        left := left - {p};
      }
      rows := done;
    }

    /** The first row in claim order among those that may be taken. */
    static method First(rows: map<PostId, Metric>, candidates: set<PostId>) returns (p: PostId)
      requires candidates != {} && candidates <= rows.Keys
      ensures p in candidates && forall q | q in candidates :: Before(rows, p, q)
    {
      p :| p in candidates;
      var left := candidates - {p};
      while left != {}
        invariant left <= candidates && p in candidates && p !in left
        invariant forall q | q in candidates && q !in left :: Before(rows, p, q)
        decreases |left|
      {
        var q :| q in left;
        left := left - {q};
        if Before(rows, q, p) { p := q; }
      }
    }

    /**
     The claim loop of both crons: the first `limit` eligible rows in order, each claimed once under a
     token of its own, and no other row touched.
     */
    method ClaimFirst(eligible: set<PostId>, limit: nat, forMemory: bool, lease: Time) returns (claims: seq<Claimed>)
      requires eligible <= rows.Keys
      modifies this`rows, this`nextToken
      ensures |claims| <= limit && nextToken == old(nextToken) + |claims|
      ensures InOrder(old(rows), old(nextToken), claims) && Applied(old(rows), rows, claims, forMemory, lease)
      ensures TakenFirst(old(rows), eligible, eligible - Posts(claims), claims)
      ensures |claims| < limit ==> Posts(claims) == eligible
    {
      hide Round;
      var before := rows;
      claims := [];
      var open_ := eligible;
      FirstRound(rows, eligible, nextToken, forMemory, lease);
      while |claims| < limit && open_ != {}
        invariant |claims| <= limit && nextToken == old(nextToken) + |claims|
        invariant Round(before, rows, eligible, open_, claims, old(nextToken), forMemory, lease)
        decreases |open_|
      {
        RoundDomain(before, rows, eligible, open_, claims, old(nextToken), forMemory, lease);
        var p := First(before, open_);
        NextRound(before, rows, eligible, open_, claims, old(nextToken), forMemory, lease, p, nextToken);
        rows := rows[p := Claiming(forMemory, rows[p], nextToken, lease)];
        claims := claims + [Claimed(p, nextToken)];
        open_ := open_ - {p};
        nextToken := nextToken + 1;
      }
      LastRound(before, rows, eligible, open_, claims, old(nextToken), forMemory, lease);
    }

    /** `claim` of the metric cron; `locked` are the rows that `SKIP LOCKED` passes over. */
    method ClaimMetrics(l: Limits, now: Time, limit: nat, locked: set<PostId>) returns (claims: seq<Claimed>)
      modifies this`rows, this`nextToken
      ensures var eligible := Eligible(old(rows), false, l, now, locked);
              && TakenFirst(old(rows), eligible, eligible - Posts(claims), claims)
              && |claims| <= limit && (|claims| < limit ==> Posts(claims) == eligible)
      ensures InOrder(old(rows), old(nextToken), claims) && nextToken == old(nextToken) + |claims|
      ensures Applied(old(rows), rows, claims, false, now + l.leaseSeconds)
    {
      var eligible := Eligible(rows, false, l, now, locked);
      claims := ClaimFirst(eligible, limit, false, now + l.leaseSeconds);
    }

    method SaveProviderSuccess(p: PostId, token: Token, provider: Provider, value: nat, now: Time)
      returns (t: Transition)
      requires p in rows
      modifies this`rows
      ensures t == SaveProvider(old(rows)[p], token, provider, value, now).0
      ensures rows == old(rows)[p := SaveProvider(old(rows)[p], token, provider, value, now).1]
      ensures !t.LeaseLost? ==>
                && rows[p].xPv == (if provider == X && old(rows)[p].xPv.None? then Some(value) else old(rows)[p].xPv)
                && rows[p].landing ==
                   (if provider == Ga4 && old(rows)[p].landing.None? then Some(value) else old(rows)[p].landing)
    {
      var m := rows[p];
      assert rows[p := m] == rows;
      if m.status != Pending || m.token != Some(token) || m.lease.None? || m.lease.value <= now { return LeaseLost; }
      if provider.X? {
        if m.xPv.None? { m := m.(xPv := Some(value)); }
      } else {
        if m.landing.None? { m := m.(landing := Some(value)); }
      }
      t := Partial;
      if m.xPv.Some? && m.landing.Some? {
        m := Complete(m, now);
        t := Done;
      }
      rows := rows[p := m];
    }

    method CompleteIfReady(p: PostId, token: Token, now: Time) returns (t: Transition)
      requires p in rows
      modifies this`rows
      ensures t == Cron.CompleteIfReady(old(rows)[p], token, now).0
      ensures rows == old(rows)[p := Cron.CompleteIfReady(old(rows)[p], token, now).1]
    {
      var m := rows[p];
      assert rows[p := m] == rows;
      if m.status != Pending || m.token != Some(token) || m.lease.None? || m.lease.value <= now { return LeaseLost; }
      if m.xPv.None? || m.landing.None? { return Partial; }
      rows := rows[p := Complete(m, now)];
      return Done;
    }

    method FinishMetricFailure(p: PostId, token: Token, error: string, retryable: bool, l: Limits, now: Time)
      returns (t: Transition)
      requires p in rows
      modifies this`rows
      ensures t == MetricFailure(old(rows)[p], token, error, retryable, l, now).0
      ensures rows == old(rows)[p := MetricFailure(old(rows)[p], token, error, retryable, l, now).1]
    {
      var m := rows[p];
      assert rows[p := m] == rows;
      if m.status != Pending || m.token != Some(token) || m.lease.None? || m.lease.value <= now { return LeaseLost; }
      if m.xPv.Some? && m.landing.Some? {
        rows := rows[p := Complete(m, now)];
        return Done;
      }
      m := m.(token := None);
      m := m.(lease := None, lastError := Some(error));
      if !retryable || m.attempts >= l.maxMetric {
        m := m.(status := Failed, nextAt := None);
        t := Ended;
      } else {
        m := m.(nextAt := Some(now + RetryDelay(m.attempts)));
        t := Deferred;
      }
      rows := rows[p := m];
    }

    // ---------- Memories ----------

    method TerminalizeMemories(l: Limits, now: Time)
      modifies this`rows
      ensures rows == TerminalizedMemories(old(rows), l, now)
    {
      var left, done := rows.Keys, rows;
      while left != {}
        invariant left <= rows.Keys && done.Keys == rows.Keys && rows == old(rows)
        invariant forall p | p in rows :: done[p] == if p in left then rows[p] else MemoryTerminalize(rows[p], l, now)
        decreases |left|
      {
        var p :| p in left;
        var m := rows[p];
        if MemoryOpen(m) && m.memAttempts >= l.maxMemory && m.lease.Some? && m.lease.value <= now {
          done := done[p := m.(memFailedAt := Some(now), memNextAt := None, memError := Some("WORKER_INTERRUPTED"),
                               token := None, lease := None)];
        }
        left := left - {p};
      }
      rows := done;
    }

    /** `claim` of the memory cron, on the same token and lease columns. */
    method ClaimMemories(l: Limits, now: Time, limit: nat, locked: set<PostId>) returns (claims: seq<Claimed>)
      modifies this`rows, this`nextToken
      ensures var eligible := Eligible(old(rows), true, l, now, locked);
              && TakenFirst(old(rows), eligible, eligible - Posts(claims), claims)
              && |claims| <= limit && (|claims| < limit ==> Posts(claims) == eligible)
      ensures InOrder(old(rows), old(nextToken), claims) && nextToken == old(nextToken) + |claims|
      ensures Applied(old(rows), rows, claims, true, now + l.leaseSeconds)
    {
      var eligible := Eligible(rows, true, l, now, locked);
      claims := ClaimFirst(eligible, limit, true, now + l.leaseSeconds);
    }

    /** `save_created`: memory, relations and marker in one transaction, under the memory guard. */
    method SaveMemory(p: PostId, token: Token, now: Time) returns (t: Transition)
      requires p in rows
      modifies this`rows, this`memories
      ensures t == SaveCreated(old(rows)[p], token, now).0
      ensures rows == old(rows)[p := SaveCreated(old(rows)[p], token, now).1]
      ensures memories == if t.Done? then old(memories) + [p] else old(memories)
    {
      var m := rows[p];
      assert rows[p := m] == rows;
      if !MemoryOpen(m) || m.token != Some(token) || m.lease.None? || m.lease.value <= now { return LeaseLost; }
      memories := memories + [p];
      m := m.(memGeneratedAt := Some(now), memNextAt := None, memError := None);
      m := m.(token := None, lease := None);
      rows := rows[p := m];
      return Done;
    }

    method FinishMemoryFailure(p: PostId, token: Token, error: string, l: Limits, now: Time) returns (t: Transition)
      requires p in rows
      modifies this`rows
      ensures t == MemoryFailure(old(rows)[p], token, error, l, now).0
      ensures rows == old(rows)[p := MemoryFailure(old(rows)[p], token, error, l, now).1]
    {
      var m := rows[p];
      assert rows[p := m] == rows;
      if !MemoryOpen(m) || m.token != Some(token) || m.lease.None? || m.lease.value <= now { return LeaseLost; }
      m := m.(token := None, lease := None, memError := Some(error));
      if m.memAttempts >= l.maxMemory {
        m := m.(memFailedAt := Some(now), memNextAt := None);
        t := Ended;
      } else {
        m := m.(memNextAt := Some(now + RetryDelay(m.memAttempts)));
        t := Deferred;
      }
      rows := rows[p := m];
    }
  }
}
