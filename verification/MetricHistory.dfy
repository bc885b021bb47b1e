/** What the columns of a metric row say about the history of the row. */
module MetricHistory {
  import opened Options
  import opened Cron
  import opened CronSafety

  /** The row as it was before event `i` of a run from the empty table. */
  function Before(l: Limits, events: seq<Event>, i: nat): map<PostId, Cell>
    requires i <= |events|
  {
    Run(NOTHING, l, events[..i]).cells
  }

  /** Event `i` brings a value of the provider while its token holds the row. */
  predicate Brings(l: Limits, events: seq<Event>, p: PostId, provider: Provider, i: nat) {
    && i < |events| && events[i].SaveCount? && events[i].post == p && events[i].provider == provider
    && p in Before(l, events, i)
    && var m := Before(l, events, i)[p].metric;
       m.status == Pending && m.token == Some(events[i].token) && m.lease.Some? && m.lease.value > events[i].now
  }

  predicate BringsFirst(l: Limits, events: seq<Event>, p: PostId, provider: Provider, i: nat, value: nat) {
    Brings(l, events, p, provider, i) && events[i].value == value
    && forall j | 0 <= j < i :: !Brings(l, events, p, provider, j)
  }

  /** The column holds the value of the first such event, and nothing if there was none. */
  ghost predicate FromFirst(l: Limits, events: seq<Event>, p: PostId, provider: Provider, column: Option<nat>) {
    if column.Some? then exists i: nat :: BringsFirst(l, events, p, provider, i, column.value)
    else forall i: nat :: !Brings(l, events, p, provider, i)
  }

  // ---------- One step ----------

  /** What a step does to the two columns of a row. */
  lemma CountsStep(s: State, l: Limits, e: Event, p: PostId)
    requires p in s.cells
    ensures p in Step(s, l, e).cells
    ensures var m, n := s.cells[p].metric, Step(s, l, e).cells[p].metric;
            var held := e.SaveCount? && e.post == p && m.status == Pending && m.token == Some(e.token)
                        && m.lease.Some? && m.lease.value > e.now;
            && n.xPv == (if held && e.provider == X && m.xPv.None? then Some(e.value) else m.xPv)
            && n.landing == (if held && e.provider == Ga4 && m.landing.None? then Some(e.value) else m.landing)
  {
    hide RetryDelay;
  }

  lemma {:induction false} RunAppend(s: State, l: Limits, events: seq<Event>, e: Event)
    ensures Run(s, l, events + [e]) == Step(Run(s, l, events), l, e)
    decreases |events|
  {
    hide Step;
    if events == [] {
      assert [e][1..] == [];
      assert Run(Step(s, l, e), l, []) == Step(s, l, e);
    } else {
      assert (events + [e])[0] == events[0] && (events + [e])[1..] == events[1..] + [e];
      RunAppend(Step(s, l, events[0]), l, events[1..], e);
    }
  }

  /** Of a longer run, the earlier events bring what they brought. */
  lemma BringsEarlier(l: Limits, events: seq<Event>, e: Event, p: PostId, provider: Provider, i: nat)
    requires i < |events|
    ensures Brings(l, events + [e], p, provider, i) <==> Brings(l, events, p, provider, i)
  {
    assert (events + [e])[..i] == events[..i];
  }

  lemma BringsLast(l: Limits, events: seq<Event>, e: Event, p: PostId)
    ensures (events + [e])[..|events|] == events
    ensures forall provider :: Brings(l, events + [e], p, provider, |events|) ==>
                                 && p in Run(NOTHING, l, events).cells
                                 && e.SaveCount? && e.post == p && e.provider == provider
  {
    assert (events + [e])[..|events|] == events;
  }

  /** A column that is filled stays; an empty one takes the value that the last event brings. */
  lemma ColumnStep(l: Limits, events: seq<Event>, e: Event, p: PostId, provider: Provider, column: Option<nat>,
                   column': Option<nat>)
    requires FromFirst(l, events, p, provider, column)
    requires var brings := Brings(l, events + [e], p, provider, |events|);
             column' == if brings && column.None? then Some(e.value) else column
    ensures FromFirst(l, events + [e], p, provider, column')
  {
    hide Brings;
    var all := events + [e];
    forall i | 0 <= i < |events|
      ensures Brings(l, all, p, provider, i) <==> Brings(l, events, p, provider, i)
    {
      BringsEarlier(l, events, e, p, provider, i);
    }
    BringsInside(l, all, p, provider);
    if column.Some? {
      BringsInside(l, events, p, provider);
      var i: nat :| BringsFirst(l, events, p, provider, i, column.value);
      InsideOne(l, events, p, provider, i);
      assert all[i] == events[i];
      assert BringsFirst(l, all, p, provider, i, column.value);
    } else if column'.Some? {
      assert all[|events|] == e;
      InsideOne(l, all, p, provider, |events|);
      assert BringsFirst(l, all, p, provider, |events|, e.value);
    }
  }

  lemma BringsInside(l: Limits, events: seq<Event>, p: PostId, provider: Provider)
    ensures forall i: nat :: Brings(l, events, p, provider, i) ==> i < |events|
  {
  }

  lemma InsideOne(l: Limits, events: seq<Event>, p: PostId, provider: Provider, i: nat)
    requires Brings(l, events, p, provider, i)
    ensures i < |events| && events[i].SaveCount?
  {
  }

  lemma NewColumns(l: Limits, events: seq<Event>, p: PostId, provider: Provider)
    requires forall i | 0 <= i < |events| :: p !in Before(l, events, i)
    ensures FromFirst(l, events, p, provider, None)
  {
  }

  /** Posts are never taken out, so before the row exists nothing was brought for it. */
  lemma {:induction false} AbsentBefore(l: Limits, events: seq<Event>, p: PostId)
    requires p !in Run(NOTHING, l, events).cells
    ensures forall i | 0 <= i < |events| :: p !in Before(l, events, i)
    decreases |events|
  {
    hide Step;
    if events != [] {
      var front, last := events[..|events| - 1], events[|events| - 1];
      assert events == front + [last];
      RunAppend(NOTHING, l, front, last);
      RowsStay(Run(NOTHING, l, front), l, last);
      AbsentBefore(l, front, p);
      assert p !in Run(NOTHING, l, front).cells && front[..|front|] == front;
      forall i | 0 <= i < |events| ensures p !in Before(l, events, i) {
        assert events[..i] == front[..i];
        assert i < |front| ==> p !in Before(l, front, i);
      }
    }
  }

  lemma RowsStay(s: State, l: Limits, e: Event)
    ensures s.cells.Keys <= Step(s, l, e).cells.Keys
  {
    hide CellStep;
  }

  lemma FreshRow(s: State, l: Limits, e: Event, p: PostId)
    requires p !in s.cells && p in Step(s, l, e).cells
    ensures e.NewPost? && e.post == p && Step(s, l, e).cells[p] == Cell(NewMetric(e.scheduledAt), Audit(0, 0, 0, 0, 0))
  {
    hide CellStep;
  }

  // ---------- Every run ----------

  /**
   In every run the X column holds the value of the first X answer that came while its token held the row, the
   landing column that of the first GA4 answer; a column is empty iff there was no such answer.
   */
  lemma {:induction false} ColumnsAreFirstAnswers(l: Limits, events: seq<Event>, p: PostId)
    requires p in Run(NOTHING, l, events).cells
    ensures var m := Run(NOTHING, l, events).cells[p].metric;
            FromFirst(l, events, p, X, m.xPv) && FromFirst(l, events, p, Ga4, m.landing)
    decreases |events|
  {
    hide Step, FromFirst;
    if events != [] {
      var front, e := events[..|events| - 1], events[|events| - 1];
      assert events == front + [e];
      RunAppend(NOTHING, l, front, e);
      var s := Run(NOTHING, l, front);
      BringsLast(l, front, e, p);
      if p in s.cells {
        ColumnsAreFirstAnswers(l, front, p);
        CountsStep(s, l, e, p);
        var m, n := s.cells[p].metric, Step(s, l, e).cells[p].metric;
        ColumnStep(l, front, e, p, X, m.xPv, n.xPv);
        ColumnStep(l, front, e, p, Ga4, m.landing, n.landing);
      } else {
        FreshRow(s, l, e, p);
        AbsentBefore(l, front, p);
        NewColumns(l, front, p, X);
        NewColumns(l, front, p, Ga4);
        ColumnStep(l, front, e, p, X, None, None);
        ColumnStep(l, front, e, p, Ga4, None, None);
      }
    }
  }

  /** No event of one provider changes the column of the other, and no other event changes either. */
  lemma ProvidersAreApart(s: State, l: Limits, e: Event, p: PostId)
    requires p in s.cells
    ensures p in Step(s, l, e).cells
    ensures var m, n := s.cells[p].metric, Step(s, l, e).cells[p].metric;
            && (n.xPv != m.xPv ==> e.SaveCount? && e.provider == X && e.post == p && n.xPv == Some(e.value))
            && (n.landing != m.landing ==>
                  e.SaveCount? && e.provider == Ga4 && e.post == p && n.landing == Some(e.value))
  {
    hide Step;
    CountsStep(s, l, e, p);
  }

  // ---------- When a row is claimed ----------

  /** A row that waits: pending, without a worker, not to be claimed before `until`. */
  predicate Waits(m: Metric, until: Time) { m.status == Pending && m.token.None? && m.nextAt == Some(until) }

  lemma WaitsOn(s: State, l: Limits, e: Event, p: PostId, until: Time)
    requires p in s.cells && CellOk(s.cells[p], l) && Waits(s.cells[p].metric, until)
    ensures p in Step(s, l, e).cells
    ensures var m, n := s.cells[p].metric, Step(s, l, e).cells[p].metric;
            && n.scheduledAt == m.scheduledAt
            && (n == m || (e.ClaimMetric? && e.post == p && n.attempts == m.attempts + 1
                           && until <= e.now && m.scheduledAt <= e.now))
  {
    hide RetryDelay, Audited, BackoffBelowMax;
  }

  /** The claim with which the waiting of a row ends. */
  predicate DueClaim(e: Event, p: PostId, until: Time, scheduledAt: Time) {
    e.ClaimMetric? && e.post == p && until <= e.now && scheduledAt <= e.now
  }

  /**
   A row that was put off until some time is not touched by anything but a claim, and no claim succeeds before
   that time or before the measurement is due: if it has changed, such a claim was the first thing to change it.
   */
  lemma {:induction false} ClaimsWait(s: State, l: Limits, later: seq<Event>, p: PostId, until: Time)
    requires LimitsOk(l) && CronInv(s, l) && p in s.cells && Waits(s.cells[p].metric, until)
    ensures p in Run(s, l, later).cells
    ensures var m := s.cells[p].metric;
            Run(s, l, later).cells[p].metric != m ==>
              exists i: nat :: i < |later| && DueClaim(later[i], p, until, m.scheduledAt)
                               && p in Run(s, l, later[..i]).cells && Run(s, l, later[..i]).cells[p].metric == m
    decreases |later|
  {
    hide Step, CellOk;
    if later != [] {
      var front, e := later[..|later| - 1], later[|later| - 1];
      assert later == front + [e];
      RunAppend(s, l, front, e);
      RunKeepsCronInv(s, l, front);
      ClaimsWait(s, l, front, p, until);
      var m, t := s.cells[p].metric, Run(s, l, front);
      if t.cells[p].metric == m {
        WaitsOn(t, l, e, p, until);
        assert later[..|front|] == front;
        if Step(t, l, e).cells[p].metric != m { assert later[|front|] == e; }
      } else {
        var i: nat :| i < |front| && DueClaim(front[i], p, until, m.scheduledAt)
            && p in Run(s, l, front[..i]).cells && Run(s, l, front[..i]).cells[p].metric == m;
        assert later[..i] == front[..i] && later[i] == front[i];
      }
      RowsStay(t, l, e);
    }
  }

  /** In every run: a step that raises the attempts of a row is a claim that is due, on a row without a live lease. */
  lemma AttemptsAreDueClaims(l: Limits, events: seq<Event>, p: PostId, e: Event)
    requires LimitsOk(l) && p in Run(NOTHING, l, events).cells
    ensures var s := Run(NOTHING, l, events);
            var m := s.cells[p].metric;
            p in Step(s, l, e).cells
            && (Step(s, l, e).cells[p].metric.attempts != m.attempts <==>
                  && e.ClaimMetric? && e.post == p && e.token !in s.issued && m.status == Pending
                  && m.scheduledAt <= e.now && (m.nextAt.Some? ==> m.nextAt.value <= e.now)
                  && (m.lease.Some? ==> m.lease.value <= e.now) && m.attempts < l.maxMetric)
  {
    hide RetryDelay;
  }

  /** A failure of the worker that holds the row: put off below the maximum, ended by a final one, or completed. */
  lemma FailureOutcomes(s: State, l: Limits, e: Event)
    requires e.FailMetric? && e.post in s.cells && MetricHeld(s.cells[e.post].metric, e.token, e.now)
    ensures var m := s.cells[e.post].metric;
            e.post in Step(s, l, e).cells
            && var n := Step(s, l, e).cells[e.post].metric;
               && n.token.None? && n.lease.None?
               && (m.xPv.Some? && m.landing.Some? ==>
                     n.status == Completed && n.measuredAt == Some(e.now) && n.lastError.None?)
               && (m.xPv.None? || m.landing.None? ==>
                     && n.lastError == Some(e.error) && n.xPv == m.xPv && n.landing == m.landing
                     && (n.status == Failed <==> !e.retryable || m.attempts >= l.maxMetric)
                     && (n.status == Pending <==> e.retryable && m.attempts < l.maxMetric)
                     && (n.status == Pending ==> Waits(n, e.now + RetryDelay(m.attempts)) && n.attempts == m.attempts))
  {
    hide RetryDelay;
  }

  /** A row is completed by the transition that finds both values there, at its time, and by no other. */
  lemma CompletedWithBoth(s: State, l: Limits, e: Event, p: PostId)
    requires p in s.cells && s.cells[p].metric.status != Completed
    ensures p in Step(s, l, e).cells
    ensures var n := Step(s, l, e).cells[p].metric;
            n.status == Completed ==>
              && (e.SaveCount? || e.CompleteReady? || e.FailMetric?) && e.post == p
              && n.xPv.Some? && n.landing.Some? && n.measuredAt == Some(e.now)
              && MetricHeld(s.cells[p].metric, e.token, e.now)
  {
    hide RetryDelay;
  }

  /** A claim that succeeds gives the row to its token for the length of the lease and changes nothing else. */
  lemma ClaimsHold(s: State, l: Limits, e: Event)
    requires IsClaim(e) && e.post in s.cells && e.post in Step(s, l, e).cells
    requires Step(s, l, e).cells[e.post].metric != s.cells[e.post].metric
    ensures var m, n := s.cells[e.post].metric, Step(s, l, e).cells[e.post].metric;
            && e.token !in s.issued && e.token in Step(s, l, e).issued
            && n.token == Some(e.token) && n.lease == Some(e.now + l.leaseSeconds)
            && (if e.ClaimMetric?
                then n.attempts == m.attempts + 1 && n.nextAt.None?
                     && n.(token := m.token, lease := m.lease, attempts := m.attempts, nextAt := m.nextAt) == m
                else n.memAttempts == m.memAttempts + 1 && n.memNextAt.None?
                     && n.(token := m.token, lease := m.lease, memAttempts := m.memAttempts,
                           memNextAt := m.memNextAt) == m)
  {
  }

  /** A memory is claimed only for a completed row without a memory or a final failure, when it is due. */
  lemma MemoryAttemptsAreDueClaims(l: Limits, events: seq<Event>, p: PostId, e: Event)
    requires LimitsOk(l) && p in Run(NOTHING, l, events).cells
    ensures var s := Run(NOTHING, l, events);
            var m := s.cells[p].metric;
            p in Step(s, l, e).cells
            && (Step(s, l, e).cells[p].metric.memAttempts != m.memAttempts <==>
                  && e.ClaimMemory? && e.post == p && e.token !in s.issued && m.status == Completed
                  && m.memGeneratedAt.None? && m.memFailedAt.None?
                  && (m.memNextAt.Some? ==> m.memNextAt.value <= e.now)
                  && (m.lease.Some? ==> m.lease.value <= e.now) && m.memAttempts < l.maxMemory)
  {
    hide RetryDelay;
  }

  /** A failure to make a memory: put off below the maximum, final at it; a success sets the marker at its time. */
  lemma MemoryOutcomes(s: State, l: Limits, e: Event)
    requires (e.FailMemory? || e.CreateMemory?) && e.post in s.cells
    requires MemoryHeld(s.cells[e.post].metric, e.token, e.now)
    ensures var m := s.cells[e.post].metric;
            e.post in Step(s, l, e).cells
            && var n := Step(s, l, e).cells[e.post].metric;
               && n.token.None? && n.lease.None? && n.memAttempts == m.memAttempts
               && (e.CreateMemory? ==> n.memGeneratedAt == Some(e.now) && n.memFailedAt.None? && n.memError.None?)
               && (e.FailMemory? ==> n.memGeneratedAt.None? && n.memError == Some(e.error))
               && (e.FailMemory? && m.memAttempts < l.maxMemory ==>
                     n.memFailedAt.None? && n.memNextAt == Some(e.now + RetryDelay(m.memAttempts)))
               && (e.FailMemory? && m.memAttempts >= l.maxMemory ==>
                     n.memFailedAt == Some(e.now) && n.memNextAt.None?)
  {
    hide RetryDelay;
  }

  /** Terminalizing ends exactly the rows whose last allowed worker let its lease run out. */
  lemma InterruptedRows(s: State, l: Limits, now: Time, p: PostId)
    requires p in s.cells
    ensures p in Step(s, l, TerminalizeMetrics(now)).cells && p in Step(s, l, TerminalizeMemories(now)).cells
    ensures var m, n := s.cells[p].metric, Step(s, l, TerminalizeMetrics(now)).cells[p].metric;
            if m.status == Pending && m.attempts >= l.maxMetric && m.lease.Some? && m.lease.value <= now
            then n.status == Failed && n.token.None? && n.lease.None? && n.lastError == Some("WORKER_INTERRUPTED")
                 && n.xPv == m.xPv && n.landing == m.landing
            else n == m
    ensures var m, n := s.cells[p].metric, Step(s, l, TerminalizeMemories(now)).cells[p].metric;
            if m.status == Completed && m.memGeneratedAt.None? && m.memFailedAt.None? && m.memAttempts >= l.maxMemory
               && m.lease.Some? && m.lease.value <= now
            then n.memFailedAt == Some(now) && n.memGeneratedAt.None? && n.token.None? && n.lease.None?
                 && n.memError == Some("WORKER_INTERRUPTED") && n.status == Completed
            else n == m
  {
  }
}
