/** The two cron services, with any other worker acting between their transactions. */
module CronServices {
  import opened Options
  import opened Cron
  import opened CronStore

  // ---------- Everyone else ----------

  /** A transaction of somebody who does not hold the token. */
  predicate Foreign(e: Event, token: Token) {
    match e
    case SaveCount(_, t, _, _, _) => t != token
    case CompleteReady(_, t, _) => t != token
    case FailMetric(_, t, _, _, _) => t != token
    case CreateMemory(_, t, _) => t != token
    case FailMemory(_, t, _, _) => t != token
    case _ => true
  }

  /** One row after somebody else's transaction on it. */
  function Moved(m: Metric, l: Limits, e: Event): Metric { CellStep(Cell(m, Audit(0, 0, 0, 0, 0)), l, e).metric }

  lemma MovedEvolves(m: Metric, l: Limits, e: Event, token: Token)
    requires Foreign(e, token) && (IsClaim(e) ==> e.token != token)
    ensures MetricEvolves(m, Moved(m, l, e))
    ensures Moved(m, l, e).token == Some(token) ==> Moved(m, l, e) == m
    ensures Moved(m, l, e).memGeneratedAt != m.memGeneratedAt ==> e.CreateMemory? && MemoryHeld(m, e.token, e.now)
    ensures e.CreateMemory? && MemoryHeld(m, e.token, e.now) ==> Moved(m, l, e).memGeneratedAt.Some?
    ensures Moved(m, l, e).token.Some? ==>
              Moved(m, l, e).token == m.token || (IsClaim(e) && Moved(m, l, e).token == Some(e.token))
  {
    hide RetryDelay;
  }

  lemma RenewedIsForeign(e: Event, token: Token, next: Token)
    requires Foreign(e, token) && token < next
    ensures var renewed := if IsClaim(e) then WithToken(e, next) else e;
            Foreign(renewed, token) && (IsClaim(renewed) ==> renewed.token != token && renewed.token == next)
            && IsClaim(renewed) == IsClaim(e) && !OnAllRows(renewed) == !OnAllRows(e)
            && (e.NewPost? || OnAllRows(e) || (!renewed.NewPost? && !OnAllRows(renewed) && renewed.post == e.post))
  {
  }

  lemma OneMoved(rows: map<PostId, Metric>, p: PostId, m: Metric, token: Token)
    requires p in rows && MetricEvolves(rows[p], m) && (m.token == Some(token) ==> m == rows[p])
    ensures OthersMoved(rows, rows[p := m], token) && RowsEvolve(rows, rows[p := m])
  {
  }

  /** The table stays in order when one row takes a step, together with its memory. */
  lemma OneRowOk(rows: map<PostId, Metric>, memories: seq<PostId>, next: Token, m: Metric, l: Limits, e: Event)
    requires TableOk(rows, memories, next) && !e.NewPost? && !OnAllRows(e) && e.post in rows && rows[e.post] == m
    requires IsClaim(e) ==> e.token == next
    ensures var more := if e.CreateMemory? && MemoryHeld(m, e.token, e.now) then memories + [e.post] else memories;
            TableOk(rows[e.post := Moved(m, l, e)], more, next + 1)
  {
    hide Moved, MemoryHeld, TableOk;
    MarkerMoves(m, l, e);
    if e.CreateMemory? && MemoryHeld(m, e.token, e.now) {
      MarkedRowOk(rows, memories, next, e.post, Moved(m, l, e));
    } else {
      UnmarkedRowOk(rows, memories, next, e.post, Moved(m, l, e));
    }
  }

  lemma UnmarkedRowOk(rows: map<PostId, Metric>, memories: seq<PostId>, next: Token, p: PostId, m: Metric)
    requires TableOk(rows, memories, next) && p in rows && m.memGeneratedAt == rows[p].memGeneratedAt
    requires m.token.Some? ==> m.token == rows[p].token || m.token == Some(next)
    ensures TableOk(rows[p := m], memories, next + 1)
    ensures m.token != Some(next) ==> TableOk(rows[p := m], memories, next)
  {
  }

  lemma MarkedRowOk(rows: map<PostId, Metric>, memories: seq<PostId>, next: Token, p: PostId, m: Metric)
    requires TableOk(rows, memories, next) && p in rows && m.memGeneratedAt.Some? && rows[p].memGeneratedAt.None?
    requires m.token.Some? ==> m.token == rows[p].token
    ensures TableOk(rows[p := m], memories + [p], next + 1) && TableOk(rows[p := m], memories + [p], next)
  {
    forall q ensures Inserted(memories + [p], q) == Inserted(memories, q) + if q == p then 1 else 0 {
      InsertedAppend(memories, p, q);
    }
  }

  lemma MarkerMoves(m: Metric, l: Limits, e: Event)
    requires !e.NewPost?
    ensures var n := Moved(m, l, e);
            && (if e.CreateMemory? && MemoryHeld(m, e.token, e.now) then m.memGeneratedAt.None?
                && n.memGeneratedAt.Some?
                else n.memGeneratedAt == m.memGeneratedAt)
            && (n.token.Some? ==> n.token == m.token || (IsClaim(e) && n.token == Some(e.token)))
  {
    hide RetryDelay;
  }

  /** The steps of others on the shared table. */
  class Interference {
    const repository: CronRepository
    const l: Limits

    constructor (repository: CronRepository, l: Limits)
      ensures this.repository == repository && this.l == l
    {
      this.repository, this.l := repository, l;
    }

    /** One transaction of somebody else, on every row or on one. */
    method Act(e: Event, token: Token)
      requires repository.Valid() && token < repository.nextToken && Foreign(e, token)
      modifies repository
      ensures repository.Valid() && old(repository.nextToken) <= repository.nextToken
      ensures old(|repository.memories|) <= |repository.memories|
      ensures OthersMoved(old(repository.rows), repository.rows, token)
    {
      if e.NewPost? {
        AllEvolve(repository.rows, token);
        if e.post !in repository.rows {
          NoneInserted(repository.memories, e.post);
          repository.rows := repository.rows[e.post := NewMetric(e.scheduledAt)];
        }
      } else if OnAllRows(e) {
        forall p | p in repository.rows
          ensures MetricEvolves(repository.rows[p], Moved(repository.rows[p], l, e))
          ensures Moved(repository.rows[p], l, e).token == Some(token) ==>
                    Moved(repository.rows[p], l, e) == repository.rows[p]
          ensures Moved(repository.rows[p], l, e).memGeneratedAt == repository.rows[p].memGeneratedAt
          ensures Moved(repository.rows[p], l, e).token.Some? ==>
                    Moved(repository.rows[p], l, e).token == repository.rows[p].token
        {
          MovedEvolves(repository.rows[p], l, e, token);
        }
        hide Moved, CellStep, MetricEvolves;
        repository.rows := map p | p in repository.rows :: Moved(repository.rows[p], l, e);
      } else if e.post in repository.rows {
        ActOnOne(e, token);
      } else {
        AllEvolve(repository.rows, token);
      }
    }

    method ActOnOne(e: Event, token: Token)
      requires repository.Valid() && token < repository.nextToken && Foreign(e, token)
      requires !e.NewPost? && !OnAllRows(e) && e.post in repository.rows
      modifies repository
      ensures repository.Valid() && old(repository.nextToken) <= repository.nextToken
      ensures old(|repository.memories|) <= |repository.memories|
      ensures OthersMoved(old(repository.rows), repository.rows, token)
    {
      hide Moved, OthersMoved, TableOk, MetricEvolves, Foreign, MemoryHeld;
      var renewed := if IsClaim(e) then WithToken(e, repository.nextToken) else e;
      var m := repository.rows[e.post];
      RenewedIsForeign(e, token, repository.nextToken);
      MovedEvolves(m, l, renewed, token);
      OneMoved(repository.rows, e.post, Moved(m, l, renewed), token);
      OneRowOk(repository.rows, repository.memories, repository.nextToken, m, l, renewed);
      if renewed.CreateMemory? && MemoryHeld(m, renewed.token, renewed.now) {
        repository.memories := repository.memories + [e.post];
      }
      repository.rows := repository.rows[e.post := Moved(m, l, renewed)];
      repository.nextToken := repository.nextToken + 1;
    }

    /** Any number of them. */
    method Others(token: Token)
      requires repository.Valid() && token < repository.nextToken
      modifies repository
      ensures repository.Valid() && old(repository.nextToken) <= repository.nextToken
      ensures old(|repository.memories|) <= |repository.memories|
      ensures OthersMoved(old(repository.rows), repository.rows, token)
    {
      hide OthersMoved, Foreign;
      var events: seq<Event> := *;
      AllEvolve(repository.rows, token);
      for n := 0 to |events|
        invariant repository.Valid() && old(repository.nextToken) <= repository.nextToken
        invariant old(|repository.memories|) <= |repository.memories|
        invariant OthersMoved(old(repository.rows), repository.rows, token)
      {
        ghost var before := repository.rows;
        if Foreign(events[n], token) {
          Act(events[n], token);
          MovedOn(old(repository.rows), before, repository.rows, token);
        }
      }
    }
  }

  function WithToken(e: Event, token: Token): Event
    requires IsClaim(e)
  {
    match e
    case ClaimMetric(post, _, now) => ClaimMetric(post, token, now)
    case ClaimMemory(post, _, now) => ClaimMemory(post, token, now)
  }

  lemma AllEvolve(rows: map<PostId, Metric>, token: Token)
    ensures OthersMoved(rows, rows, token) && RowsEvolve(rows, rows)
  {
  }

  lemma MovedOn(a: map<PostId, Metric>, b: map<PostId, Metric>, c: map<PostId, Metric>, token: Token)
    requires OthersMoved(a, b, token) && OthersMoved(b, c, token)
    ensures OthersMoved(a, c, token)
  {
  }

  lemma EvolveOn(a: map<PostId, Metric>, b: map<PostId, Metric>, c: map<PostId, Metric>)
    requires RowsEvolve(a, b) && RowsEvolve(b, c)
    ensures RowsEvolve(a, c)
  {
  }

  lemma {:induction false} NoneInserted(memories: seq<PostId>, p: PostId)
    requires p !in memories
    ensures Inserted(memories, p) == 0
    decreases |memories|
  {
    if memories != [] { NoneInserted(memories[..|memories| - 1], p); }
  }

  // ---------- One run of the metric cron ----------

  datatype ItemResult = ItemCompleted | ItemFailed | ItemDeferred | ItemLeaseLost

  /** `_item_result`. */
  function ResultFor(t: Transition): ItemResult {
    match t
    case Done => ItemCompleted
    case Ended => ItemFailed
    case Deferred => ItemDeferred
    case _ => ItemLeaseLost
  }

  /** What collecting one provider came to. */
  datatype Collected = Stored(transition: Transition) | ProviderFailed(code: string, retryable: bool)

  predicate IsComplete(m: Metric) { m.status == Completed && BothCounts(m) }

  /** The result that is reported agrees with the row. */
  predicate Reported(r: ItemResult, m: Metric) {
    match r
    case ItemCompleted => IsComplete(m)
    case ItemFailed => m.status == Failed && m.token.None?
    case ItemDeferred => m.status == Pending && m.token.None? && m.nextAt.Some?
    case ItemLeaseLost => true
  }

  lemma StaysComplete(before: map<PostId, Metric>, after: map<PostId, Metric>, p: PostId)
    requires RowsEvolve(before, after) && p in before && IsComplete(before[p])
    ensures p in after && IsComplete(after[p])
  {
  }

  datatype Counts = Counts(claimed: nat, completed: nat, failed: nat, deferred: nat)

  function Count(c: Counts, r: ItemResult): Counts {
    match r
    case ItemCompleted => c.(completed := c.completed + 1)
    case ItemFailed => c.(failed := c.failed + 1)
    case ItemDeferred => c.(deferred := c.deferred + 1)
    case ItemLeaseLost => c
  }

  /** The first failure that is not retryable, or else the first failure. */
  function Selected(results: seq<Collected>): (f: Option<nat>)
    ensures f.Some? ==> f.value < |results| && results[f.value].ProviderFailed?
    ensures f.None? ==> forall r | r in results :: r.Stored?
    ensures f.Some? && !results[f.value].retryable ==>
              forall j | 0 <= j < f.value :: results[j].ProviderFailed? ==> results[j].retryable
    ensures f.Some? && results[f.value].retryable ==>
              (forall j | 0 <= j < f.value :: results[j].Stored?)
              && forall r | r in results :: r.ProviderFailed? ==> r.retryable
  {
    if results == [] then None
    else
      var rest := Selected(results[1..]);
      assert forall r | r in results :: r == results[0] || r in results[1..];
      if results[0].ProviderFailed? && !results[0].retryable then Some(0)
      else if rest.Some? && (results[0].Stored? || !results[1..][rest.value].retryable) then Some(rest.value + 1)
      else if results[0].ProviderFailed? then Some(0)
      else None
  }

  /** What everything between two points of a service keeps: rows evolve, and the table stays in order. */
  twostate predicate Kept(repository: CronRepository)
    reads repository
  {
    repository.Valid() && old(repository.nextToken) <= repository.nextToken
    && old(|repository.memories|) <= |repository.memories| && RowsEvolve(old(repository.rows), repository.rows)
  }

  /** A row's own transitions evolve it, issue no token and, but for `SaveCreated`, set no marker. */
  predicate OwnMove(m: Metric, n: Metric) {
    MetricEvolves(m, n) && n.memGeneratedAt == m.memGeneratedAt && (n.token.Some? ==> n.token == m.token)
  }

  lemma MetricMoves(m: Metric, token: Token, provider: Provider, value: nat, error: string, retryable: bool, l: Limits,
                    now: Time)
    ensures OwnMove(m, SaveProvider(m, token, provider, value, now).1)
    ensures OwnMove(m, CompleteIfReady(m, token, now).1)
    ensures OwnMove(m, MetricFailure(m, token, error, retryable, l, now).1)
    ensures OwnMove(m, MetricTerminalize(m, l, now)) && OwnMove(m, MemoryTerminalize(m, l, now))
    ensures OwnMove(m, MemoryFailure(m, token, error, l, now).1)
  {
    hide RetryDelay;
  }

  lemma OwnMoveKeeps(rows: map<PostId, Metric>, memories: seq<PostId>, next: Token, p: PostId, m: Metric)
    requires TableOk(rows, memories, next) && p in rows && OwnMove(rows[p], m)
    ensures TableOk(rows[p := m], memories, next) && RowsEvolve(rows, rows[p := m])
  {
    hide TableOk, OwnMove;
    MoveParts(rows[p], m);
    EndedTokens(rows, memories, next, p, m);
  }

  lemma MoveParts(m: Metric, n: Metric)
    requires OwnMove(m, n)
    ensures MetricEvolves(m, n) && n.memGeneratedAt == m.memGeneratedAt && (n.token.Some? ==> n.token == m.token)
  {
  }

  lemma EndedTokens(rows: map<PostId, Metric>, memories: seq<PostId>, next: Token, p: PostId, m: Metric)
    requires TableOk(rows, memories, next) && p in rows && m.memGeneratedAt == rows[p].memGeneratedAt
    requires m.token.Some? ==> m.token == rows[p].token
    ensures TableOk(rows[p := m], memories, next)
  {
  }

  class MetricCollectionService {
    const repository: CronRepository
    const world: Interference
    const l: Limits
    const batchSize: nat
    const maxItems: nat

    constructor (repository: CronRepository, l: Limits, batchSize: nat, maxItems: nat)
      requires batchSize >= 1
      ensures this.repository == repository && this.l == l && this.batchSize == batchSize && this.maxItems == maxItems
      ensures world.repository == repository
    {
      this.repository, this.l, this.batchSize, this.maxItems := repository, l, batchSize, maxItems;
      world := new Interference(repository, l);
    }

    ghost predicate Ready(c: Claimed)
      reads repository
    {
      repository.Valid() && c.post in repository.rows && c.token < repository.nextToken
        && world.repository == repository
    }

    /** Others go on, and the claim is still a claim of this table. */
    method Meanwhile(c: Claimed)
      requires Ready(c)
      modifies repository
      ensures Ready(c) && Kept(repository)
    {
      hide MetricEvolves, TableOk;
      world.Others(c.token);
    }

    /**
     `_collect_x` and `_collect_ga4`: the provider answers, others act, the value is stored. A database error
     is an unexpected failure of the provider, whether the value was rolled back or stored all the same.
     */
    method Collect(c: Claimed, provider: Provider) returns (r: Collected)
      requires Ready(c)
      modifies repository
      ensures Ready(c) && Kept(repository)
      ensures r.Stored? ==> !r.transition.Deferred? && !r.transition.Ended?
      ensures r == Stored(Done) ==> IsComplete(repository.rows[c.post])
    {
      hide MetricEvolves, TableOk, SaveProvider;
      var answered: Option<nat> := *;
      Meanwhile(c);
      match answered
      case None =>
        var retryable: bool := *;
        r := ProviderFailed(if provider.X? then "X_PROVIDER" else "GA4_PROVIDER", retryable);
      case Some(value) =>
        var now: Time, rolledBack: bool := *, *;
        if rolledBack { return ProviderFailed("METRIC_PROVIDER_UNEXPECTED", true); }
        ghost var rows := repository.rows;
        MetricMoves(rows[c.post], c.token, provider, value, "", false, l, now);
        OwnMoveKeeps(rows, repository.memories, repository.nextToken, c.post,
                     SaveProvider(rows[c.post], c.token, provider, value, now).1);
        Outcomes(rows[c.post], c.token, provider, value, now);
        var t := repository.SaveProviderSuccess(c.post, c.token, provider, value, now);
        EvolveOn(old(repository.rows), rows, repository.rows);
        var reported: bool := *;
        r := if reported then Stored(t) else ProviderFailed("METRIC_PROVIDER_UNEXPECTED", true);
    }

    /** `_process`: the reported result is what the row says, whatever providers, clocks and others did. */
    method Process(c: Claimed) returns (r: ItemResult)
      requires Ready(c)
      modifies repository
      ensures Ready(c) && Kept(repository) && Reported(r, repository.rows[c.post])
    {
      hide MetricEvolves, TableOk;
      Meanwhile(c);
      var snapshot: Metric := *;      // the counts that travelled with the claim
      ghost var rows := repository.rows;
      var ready := Complete(c);
      EvolveOn(old(repository.rows), rows, repository.rows);
      if ready.Done? { return ItemCompleted; }
      if ready.LeaseLost? { return ItemLeaseLost; }
      rows := repository.rows;
      var results := CollectMissing(c, snapshot);
      EvolveOn(old(repository.rows), rows, repository.rows);
      rows := repository.rows;
      r := Conclude(c, results);
      EvolveOn(old(repository.rows), rows, repository.rows);
    }

    /** `_complete_if_ready`. */
    method Complete(c: Claimed) returns (t: Transition)
      requires Ready(c)
      modifies repository
      ensures Ready(c) && Kept(repository) && (t.Done? ==> IsComplete(repository.rows[c.post]))
      ensures t.Done? || t.LeaseLost? || t.Partial?
    {
      hide MetricEvolves, TableOk;
      var now: Time := *;
      MetricMoves(repository.rows[c.post], c.token, X, 0, "", false, l, now);
      OwnMoveKeeps(repository.rows, repository.memories, repository.nextToken, c.post,
                   CompleteIfReady(repository.rows[c.post], c.token, now).1);
      t := repository.CompleteIfReady(c.post, c.token, now);
    }

    /** The providers whose value the claim did not hold yet, in either order of arrival. */
    method CollectMissing(c: Claimed, snapshot: Metric) returns (results: seq<Collected>)
      requires Ready(c)
      modifies repository
      ensures Ready(c) && Kept(repository)
      ensures Stored(Done) in results ==> IsComplete(repository.rows[c.post])
      ensures forall r | r in results :: r.Stored? ==> !r.transition.Deferred? && !r.transition.Ended?
    {
      hide MetricEvolves, TableOk, IsComplete;
      AllEvolve(repository.rows, c.token);
      results := [];
      var xFirst: bool := *;
      if xFirst {
        if snapshot.xPv.None? {
          var x := Collect(c, X);
          results := [x];
        }
        if snapshot.landing.None? {
          ghost var rows := repository.rows;
          var ga4 := Collect(c, Ga4);
          Passed(old(repository.rows), rows, repository.rows, c.post);
          results := results + [ga4];
        }
      } else {
        if snapshot.landing.None? {
          var ga4 := Collect(c, Ga4);
          results := [ga4];
        }
        if snapshot.xPv.None? {
          ghost var rows := repository.rows;
          var x := Collect(c, X);
          Passed(old(repository.rows), rows, repository.rows, c.post);
          results := [x] + results;
        }
      }
    }

    /** A lost lease first, then the decisive failure, then completion. */
    method Conclude(c: Claimed, results: seq<Collected>) returns (r: ItemResult)
      requires Ready(c) && (Stored(Done) in results ==> IsComplete(repository.rows[c.post]))
      modifies repository
      ensures Ready(c) && Kept(repository) && Reported(r, repository.rows[c.post])
    {
      hide MetricEvolves, TableOk;
      Meanwhile(c);
      if Stored(Done) in results { StaysComplete(old(repository.rows), repository.rows, c.post); }
      if Stored(LeaseLost) in results { return ItemLeaseLost; }
      var selected := Selected(results);
      ghost var rows := repository.rows;
      if selected.Some? {
        r := Fail(c, results[selected.value].code, results[selected.value].retryable);
        EvolveOn(old(repository.rows), rows, repository.rows);
        return;
      }
      if Stored(Done) in results { return ItemCompleted; }
      var again := Complete(c);
      EvolveOn(old(repository.rows), rows, repository.rows);
      return ResultFor(again);
    }

    /** `_finish_failure`. */
    method Fail(c: Claimed, code: string, retryable: bool) returns (r: ItemResult)
      requires Ready(c)
      modifies repository
      ensures Ready(c) && Kept(repository) && Reported(r, repository.rows[c.post])
    {
      hide MetricEvolves, TableOk, RetryDelay;
      var now: Time := *;
      MetricMoves(repository.rows[c.post], c.token, X, 0, code, retryable, l, now);
      OwnMoveKeeps(repository.rows, repository.memories, repository.nextToken, c.post,
                   MetricFailure(repository.rows[c.post], c.token, code, retryable, l, now).1);
      var failed := repository.FinishMetricFailure(c.post, c.token, code, retryable, l, now);
      return ResultFor(failed);
    }

    /** `run`: batches until the limit, an empty claim or the stop signal. */
    method Run(requested: Option<int>) returns (counts: Counts)
      requires repository.Valid() && world.repository == repository
      modifies repository
      ensures Kept(repository)
      ensures counts.claimed <= maxItems
              && (requested.Some? && requested.value >= 0 ==> counts.claimed <= requested.value)
      ensures counts.completed + counts.failed + counts.deferred <= counts.claimed
      ensures old(repository.nextToken) + counts.claimed <= repository.nextToken
    {
      hide MetricEvolves, TableOk, InOrder, TakenFirst, Applied, Eligible, TerminalizedMetrics;
      var limit: nat := if requested.None? then maxItems else if requested.value < 0 then 0
                        else if requested.value < maxItems then requested.value else maxItems;
      counts := Counts(0, 0, 0, 0);
      var now: Time := *;
      AllTerminalized(repository.rows, repository.memories, repository.nextToken, l, now);
      repository.TerminalizeMetrics(l, now);
      while counts.claimed < limit
        invariant Kept(repository)
        invariant counts.claimed <= limit && counts.completed + counts.failed + counts.deferred <= counts.claimed
        invariant old(repository.nextToken) + counts.claimed <= repository.nextToken
        decreases limit - counts.claimed
      {
        var goOn: bool, locked: set<PostId> := *, *;
        if !goOn { break; }
        now := *;
        var left := limit - counts.claimed;
        ghost var rows, next := repository.rows, repository.nextToken;
        var claims := repository.ClaimMetrics(l, now, if batchSize <= left then batchSize else left, locked);
        if claims == [] {
          NoneApplied(rows, repository.rows, false, now + l.leaseSeconds);
          break;
        }
        ClaimedAreOpen(rows, claims, false, l, now, locked);
        ClaimsKeep(rows, repository.rows, repository.memories, next, claims, false, l, now);
        EvolveOn(old(repository.rows), rows, repository.rows);
        counts := counts.(claimed := counts.claimed + |claims|);
        rows := repository.rows;
        counts := ProcessAll(claims, counts);
        EvolveOn(old(repository.rows), rows, repository.rows);
      }
    }

    method ProcessAll(claims: seq<Claimed>, before: Counts) returns (counts: Counts)
      requires repository.Valid() && world.repository == repository
      requires forall c | c in claims :: c.post in repository.rows && c.token < repository.nextToken
      requires before.completed + before.failed + before.deferred + |claims| <= before.claimed
      modifies repository
      ensures Kept(repository)
      ensures counts.claimed == before.claimed && counts.completed + counts.failed + counts.deferred <= counts.claimed
    {
      hide MetricEvolves, TableOk;
      AllEvolve(repository.rows, 0);
      counts := before;
      for n := 0 to |claims|
        invariant counts.claimed == before.claimed && Kept(repository)
        invariant counts.completed + counts.failed + counts.deferred + (|claims| - n) <= counts.claimed
      {
        ghost var rows := repository.rows;
        assert claims[n] in claims;
        var r := Process(claims[n]);
        EvolveOn(old(repository.rows), rows, repository.rows);
        counts := Count(counts, r);
      }
    }
  }

  /** Storing a value ends in completion only with both values there. */
  lemma Outcomes(m: Metric, token: Token, provider: Provider, value: nat, now: Time)
    ensures var r := SaveProvider(m, token, provider, value, now);
            !r.0.Deferred? && !r.0.Ended? && (r.0.Done? ==> IsComplete(r.1))
  {
  }

  lemma Passed(a: map<PostId, Metric>, b: map<PostId, Metric>, c: map<PostId, Metric>, p: PostId)
    requires RowsEvolve(a, b) && RowsEvolve(b, c) && p in b
    ensures RowsEvolve(a, c) && p in c && (IsComplete(b[p]) ==> IsComplete(c[p]))
  {
    EvolveOn(a, b, c);
    if IsComplete(b[p]) { StaysComplete(b, c, p); }
  }

  lemma AllTerminalized(rows: map<PostId, Metric>, memories: seq<PostId>, next: Token, l: Limits, now: Time)
    requires TableOk(rows, memories, next)
    ensures var metrics := TerminalizedMetrics(rows, l, now);
            TableOk(metrics, memories, next) && RowsEvolve(rows, metrics)
    ensures var ended := TerminalizedMemories(rows, l, now);
            TableOk(ended, memories, next) && RowsEvolve(rows, ended)
  {
    hide MetricTerminalize, MemoryTerminalize, MetricEvolves;
    forall p | p in rows
      ensures OwnMove(rows[p], MetricTerminalize(rows[p], l, now))
              && OwnMove(rows[p], MemoryTerminalize(rows[p], l, now))
    {
      MetricMoves(rows[p], 0, X, 0, "", false, l, now);
    }
  }

  lemma NoneApplied(before: map<PostId, Metric>, after: map<PostId, Metric>, forMemory: bool, lease: Time)
    requires Applied(before, after, [], forMemory, lease)
    ensures after == before
  {
  }

  /** Claims keep the table in order: they evolve their rows and issue their own tokens. */
  lemma ClaimsKeep(before: map<PostId, Metric>, after: map<PostId, Metric>, memories: seq<PostId>, next: Token,
                   claims: seq<Claimed>, forMemory: bool, l: Limits, now: Time)
    requires TableOk(before, memories, next) && InOrder(before, next, claims)
    requires Applied(before, after, claims, forMemory, now + l.leaseSeconds)
    requires forall c | c in claims :: c.post in before && Open(before[c.post], forMemory)
    ensures TableOk(after, memories, next + |claims|) && RowsEvolve(before, after)
    ensures forall c | c in claims :: c.post in after && c.token < next + |claims|
  {
  }

  lemma ClaimedAreOpen(rows: map<PostId, Metric>, claims: seq<Claimed>, forMemory: bool, l: Limits, now: Time,
                       locked: set<PostId>)
    requires var eligible := Eligible(rows, forMemory, l, now, locked);
             TakenFirst(rows, eligible, eligible - Posts(claims), claims)
    ensures forall c | c in claims :: c.post in rows && Open(rows[c.post], forMemory)
  {
    var eligible := Eligible(rows, forMemory, l, now, locked);
    forall c | c in claims ensures c.post in eligible { assert c.post in Posts(claims); }
  }

  /** A row that a claim of this cron may take. */
  predicate Open(m: Metric, forMemory: bool) { if forMemory then MemoryOpen(m) else m.status == Pending }

  // ---------- One run of the memory cron ----------

  class EvaluationMemoryService {
    const repository: CronRepository
    const world: Interference
    const l: Limits
    const batchSize: nat
    const maxItems: nat

    constructor (repository: CronRepository, l: Limits, batchSize: nat, maxItems: nat)
      requires batchSize >= 1
      ensures this.repository == repository && this.l == l && this.batchSize == batchSize && this.maxItems == maxItems
      ensures world.repository == repository
    {
      this.repository, this.l, this.batchSize, this.maxItems := repository, l, batchSize, maxItems;
      world := new Interference(repository, l);
    }

    ghost predicate Ready(c: Claimed)
      reads repository
    {
      repository.Valid() && c.post in repository.rows && c.token < repository.nextToken
        && world.repository == repository
    }

    method Meanwhile(c: Claimed)
      requires Ready(c)
      modifies repository
      ensures Ready(c) && Kept(repository)
    {
      hide MetricEvolves, TableOk;
      world.Others(c.token);
    }

    /** `_record_failure`. */
    method RecordFailure(c: Claimed, code: string) returns (t: Transition)
      requires Ready(c)
      modifies repository
      ensures Ready(c) && Kept(repository) && !t.Done? && !t.Partial?
      ensures t.Ended? ==> repository.rows[c.post].memFailedAt.Some?
      ensures old(repository.rows)[c.post].memGeneratedAt.Some? ==> t.LeaseLost?
    {
      hide MetricEvolves, TableOk, RetryDelay;
      Meanwhile(c);
      if old(repository.rows)[c.post].memGeneratedAt.Some? {
        MarkerStays(old(repository.rows), repository.rows, c.post);
      }
      ghost var rows := repository.rows;
      var now: Time := *;
      MetricMoves(rows[c.post], c.token, X, 0, code, false, l, now);
      OwnMoveKeeps(rows, repository.memories, repository.nextToken, c.post,
                   MemoryFailure(rows[c.post], c.token, code, l, now).1);
      t := repository.FinishMemoryFailure(c.post, c.token, code, l, now);
      EvolveOn(old(repository.rows), rows, repository.rows);
    }

    /** The transaction of `save_created`; one memory and its marker, or neither. */
    method SaveOnce(c: Claimed) returns (t: Transition)
      requires Ready(c)
      modifies repository
      ensures Ready(c) && Kept(repository) && (t.Done? || t.LeaseLost?)
      ensures t.Done? ==> repository.rows[c.post].memGeneratedAt.Some?
      ensures |repository.memories| == old(|repository.memories|) + if t.Done? then 1 else 0
    {
      hide MetricEvolves, TableOk;
      var now: Time := *;
      ghost var m := repository.rows[c.post];
      ghost var n := SaveCreated(m, c.token, now).1;
      CreatedMoves(m, c.token, now);
      if SaveCreated(m, c.token, now).0.Done? {
        MarkedRowOk(repository.rows, repository.memories, repository.nextToken, c.post, n);
      } else {
        EndedTokens(repository.rows, repository.memories, repository.nextToken, c.post, n);
      }
      OneMoved(repository.rows, c.post, n, repository.nextToken);
      t := repository.SaveMemory(c.post, c.token, now);
    }

    /**
     `_process`, with others acting in between. A created memory is the one memory of its post, and its
     marker is set; a commit that is not reported is followed by a failure record that changes nothing.
     */
    method Process(c: Claimed) returns (t: Transition)
      requires Ready(c)
      modifies repository
      ensures Ready(c) && Kept(repository) && !t.Partial?
      ensures t.Done? ==> repository.rows[c.post].memGeneratedAt.Some? && Inserted(repository.memories, c.post) == 1
      ensures t.Done? ==> old(|repository.memories|) < |repository.memories|
      ensures t.Ended? ==> repository.rows[c.post].memFailedAt.Some?
    {
      hide MetricEvolves, Inserted;
      Meanwhile(c);
      var embedded, rolledBack, reported: bool := *, *, *;
      ghost var rows := repository.rows;
      if !embedded {
        t := RecordFailure(c, "EMBEDDING_FAILED");
      } else if rolledBack {
        t := RecordFailure(c, "MEMORY_SAVE_FAILED");
      } else {
        t := SaveOnce(c);
        EvolveOn(old(repository.rows), rows, repository.rows);
        rows := repository.rows;
        if !reported { t := RecordFailure(c, "MEMORY_SAVE_FAILED"); } else { AllEvolve(rows, c.token); }
      }
      EvolveOn(old(repository.rows), rows, repository.rows);
    }

    /** `run`: the created count never exceeds the memories really inserted. */
    method Run(requested: Option<int>) returns (claimed: nat, created: nat, failed: nat)
      requires repository.Valid() && world.repository == repository
      modifies repository
      ensures Kept(repository) && claimed <= maxItems && created + failed <= claimed
      ensures old(|repository.memories|) + created <= |repository.memories|
      ensures old(repository.nextToken) + claimed <= repository.nextToken
    {
      hide MetricEvolves, TableOk, InOrder, TakenFirst, Applied, Eligible, TerminalizedMemories;
      var limit: nat := if requested.None? then maxItems else if requested.value < 0 then 0
                        else if requested.value < maxItems then requested.value else maxItems;
      claimed, created, failed := 0, 0, 0;
      var now: Time := *;
      AllTerminalized(repository.rows, repository.memories, repository.nextToken, l, now);
      repository.TerminalizeMemories(l, now);
      while claimed < limit
        invariant Kept(repository) && claimed <= limit && created + failed <= claimed
        invariant old(|repository.memories|) + created <= |repository.memories|
        invariant old(repository.nextToken) + claimed <= repository.nextToken
        decreases limit - claimed
      {
        var goOn: bool, locked: set<PostId> := *, *;
        if !goOn { break; }
        now := *;
        var left := limit - claimed;
        ghost var rows, next := repository.rows, repository.nextToken;
        var claims := repository.ClaimMemories(l, now, if batchSize <= left then batchSize else left, locked);
        if claims == [] {
          NoneApplied(rows, repository.rows, true, now + l.leaseSeconds);
          break;
        }
        ClaimedAreOpen(rows, claims, true, l, now, locked);
        ClaimsKeep(rows, repository.rows, repository.memories, next, claims, true, l, now);
        EvolveOn(old(repository.rows), rows, repository.rows);
        claimed := claimed + |claims|;
        rows := repository.rows;
        var more, worse := ProcessAll(claims);
        EvolveOn(old(repository.rows), rows, repository.rows);
        created, failed := created + more, failed + worse;
      }
    }

    method ProcessAll(claims: seq<Claimed>) returns (created: nat, failed: nat)
      requires repository.Valid() && world.repository == repository
      requires forall c | c in claims :: c.post in repository.rows && c.token < repository.nextToken
      modifies repository
      ensures Kept(repository) && created + failed <= |claims|
      ensures old(|repository.memories|) + created <= |repository.memories|
    {
      hide MetricEvolves, TableOk;
      AllEvolve(repository.rows, 0);
      created, failed := 0, 0;
      for n := 0 to |claims|
        invariant Kept(repository) && created + failed <= n
        invariant old(|repository.memories|) + created <= |repository.memories|
      {
        ghost var rows := repository.rows;
        assert claims[n] in claims;
        var t := Process(claims[n]);
        EvolveOn(old(repository.rows), rows, repository.rows);
        if t.Done? { created := created + 1; }
        if t.Ended? { failed := failed + 1; }
      }
    }
  }

  lemma MarkerStays(before: map<PostId, Metric>, after: map<PostId, Metric>, p: PostId)
    requires RowsEvolve(before, after) && p in before && before[p].memGeneratedAt.Some?
    ensures p in after && after[p].memGeneratedAt.Some?
  {
  }

  lemma CreatedMoves(m: Metric, token: Token, now: Time)
    ensures var r := SaveCreated(m, token, now);
            && MetricEvolves(m, r.1) && (r.1.token.Some? ==> r.1.token == m.token)
            && (if r.0.Done? then m.memGeneratedAt.None? && r.1.memGeneratedAt.Some? else r.1 == m && r.0.LeaseLost?)
            && forall t | m.token != Some(t) :: r.1.token != Some(t)
  {
  }
}
