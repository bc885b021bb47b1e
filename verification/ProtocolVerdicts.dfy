/** Exactly when "X published nothing" is right about a row for good, whoever recorded it. */
module ProtocolVerdicts {
  import opened Turns
  import opened Idempotency
  import opened PublishedPosts
  import opened Approval
  import opened ApprovalInvariant
  import opened Protocol
  import opened ProtocolInvariant
  import opened ProtocolTheorems

  /** None of the calls made so far for the row is one for which X publishes, then or later. */
  predicate Unpublished(s: State, k: RowKey) { forall c | c in s.calls :: c.row == k ==> !c.published }

  /** A worker of the row recorded the start of the effect and has not called X yet. */
  predicate CallPending(s: State, k: RowKey) {
    exists w | w in s.workers :: s.workers[w].row == k && s.workers[w].pc.ReadyToCall?
  }

  /** X has published nothing for the row and never will. */
  ghost predicate NeverPublished(cfg: Config, s: State, k: RowKey) {
    forall later: seq<Event> :: Unpublished(Run(cfg, s, later), k)
  }

  /** Only a ready worker calls X, and only a held row makes a worker ready. */
  lemma FinalRowStaysQuiet(cfg: Config, s: State, e: Event, k: RowKey)
    requires Inv(cfg, s) && k in s.db.rows && Final(s.db.rows[k].status)
    requires Unpublished(s, k) && !CallPending(s, k)
    ensures var t := Step(cfg, s, e);
            k in t.db.rows && Final(t.db.rows[k].status) && Unpublished(t, k) && !CallPending(t, k)
  {
    hide Inv, NoGain, WorkerStep, ClaimStep, ResolvePosted, ResolveNotPosted, ClaimResume;
    StepRows(cfg, s, e);
    if TokenOf(e).Some? {
      if TokenOf(e).value in s.workers { WorkerStaysQuiet(cfg, s, e, k); }
    } else if e.Claim? {
      ClaimStaysQuiet(s, e.args.(leaseSeconds := cfg.leaseSeconds), k);
    }
  }

  lemma WorkerStaysQuiet(cfg: Config, s: State, e: Event, k: RowKey)
    requires TokenOf(e).Some? && TokenOf(e).value in s.workers && k in s.db.rows && Final(s.db.rows[k].status)
    requires Unpublished(s, k) && !CallPending(s, k)
    ensures Unpublished(WorkerStep(cfg, s, e), k) && !CallPending(WorkerStep(cfg, s, e), k)
  {
    hide Unpublished, CallPending, WorkerEffect;
    var w := TokenOf(e).value;
    var t := WorkerStep(cfg, s, e);
    WorkerStepEffect(cfg, s, e);
    WorkerCalls(cfg, s, e);
    StaysQuiet(s, t, w, k);
  }

  /** What a worker's step does to the calls, and how it can become ready. */
  lemma WorkerCalls(cfg: Config, s: State, e: Event)
    requires TokenOf(e).Some? && TokenOf(e).value in s.workers
    ensures var w := TokenOf(e).value;
            var t := WorkerStep(cfg, s, e);
            && w in t.workers
            && (t.calls == s.calls
                || (s.workers[w].pc.ReadyToCall? && exists c :: t.calls == s.calls + [c] && c.row == s.workers[w].row))
            && (t.workers[w].pc.ReadyToCall? ==> s.workers[w].pc.ReadyToCall? || Owns(s.db.rows, s.workers[w].row, w))
  {
    hide Complete, Insertable, WriteCampaign, FromExternal, Publishable;
    if e.CallX? && s.workers[e.w].pc.ReadyToCall? && s.workers[e.w].request.XPost? {
      var t := WorkerStep(cfg, s, e);
      assert t.calls == s.calls + [t.calls[|s.calls|]];
    }
  }

  lemma StaysQuiet(s: State, t: State, w: Token, k: RowKey)
    requires w in s.workers && WorkerEffect(s, t, w) && Unpublished(s, k) && !CallPending(s, k)
    requires k in s.db.rows && Final(s.db.rows[k].status) && w in t.workers
    requires t.calls == s.calls
          || (s.workers[w].pc.ReadyToCall? && exists c :: t.calls == s.calls + [c] && c.row == s.workers[w].row)
    requires t.workers[w].pc.ReadyToCall? ==> s.workers[w].pc.ReadyToCall? || Owns(s.db.rows, s.workers[w].row, w)
    ensures Unpublished(t, k) && !CallPending(t, k)
  {
  }

  lemma ClaimStaysQuiet(s: State, args: ClaimArgs, k: RowKey)
    requires Unpublished(s, k) && !CallPending(s, k)
    ensures Unpublished(ClaimStep(s, args), k) && !CallPending(ClaimStep(s, args), k)
  {
    hide ClaimRequest;
  }

  lemma {:induction false} QuietForever(cfg: Config, s: State, later: seq<Event>, k: RowKey)
    requires Inv(cfg, s) && k in s.db.rows && Final(s.db.rows[k].status)
    requires Unpublished(s, k) && !CallPending(s, k)
    ensures Unpublished(Run(cfg, s, later), k)
    decreases |later|
  {
    hide Inv, Step, Unpublished, CallPending;
    if later != [] {
      FinalRowStaysQuiet(cfg, s, later[0], k);
      StepKeepsInv(cfg, s, later[0]);
      QuietForever(cfg, Step(cfg, s, later[0]), later[1..], k);
    }
  }

  /** A pending call can still be made, whatever became of the row. */
  lemma PendingCallPublishes(cfg: Config, s: State, w: Token)
    requires Inv(cfg, s) && w in s.workers && s.workers[w].pc.ReadyToCall?
    ensures !Unpublished(Run(cfg, s, [CallX(w, XAccepted("1", 0))]), s.workers[w].row)
  {
    hide DbInv, TokensIssued, OneMark, CallsOk, EvidenceOk, OutcomeOk, PostsDirect;
    assert WorkerOk(cfg, s.db.rows, w, s.workers[w]);
    var call := CallX(w, XAccepted("1", 0));
    var t := Step(cfg, s, call);
    assert [call][1..] == [];
    assert Run(cfg, s, [call]) == Run(cfg, t, []);
    assert t.calls[|s.calls|] in t.calls;
  }

  /** A final row stays unpublished for good iff nothing was published and no call is pending. */
  lemma NeverPublishedIff(cfg: Config, s: State, k: RowKey)
    requires Inv(cfg, s) && k in s.db.rows && Final(s.db.rows[k].status)
    ensures NeverPublished(cfg, s, k) <==> Unpublished(s, k) && !CallPending(s, k)
  {
    hide Inv, Step, Unpublished;
    if Unpublished(s, k) && !CallPending(s, k) {
      forall later ensures Unpublished(Run(cfg, s, later), k) { QuietForever(cfg, s, later, k); }
    }
    if NeverPublished(cfg, s, k) {
      assert Run(cfg, s, []) == s;
      if CallPending(s, k) {
        var w :| w in s.workers && s.workers[w].row == k && s.workers[w].pc.ReadyToCall?;
        PendingCallPublishes(cfg, s, w);
      }
    }
  }

  /**
   An operator's "not posted" is right for good iff, when it was given, X publishes for no call made until
   then, not even late for one still in flight, and no worker stood between recording the start and calling X.
   */
  lemma NotPostedIsRightIff(cfg: Config, s: State, k: RowKey, audit: TurnId, now: Time)
    requires Inv(cfg, s) && AwaitsOperator(s.db.rows, k) && k.op == PublishXPost && audit !in s.db.tables.turns
    ensures NeverPublished(cfg, Step(cfg, s, ResolveAsNotPosted(k, audit, now)), k)
       <==> Unpublished(s, k) && !CallPending(s, k)
  {
    hide Inv, Step, NeverPublished;
    var resolve := ResolveAsNotPosted(k, audit, now);
    StepKeepsInv(cfg, s, resolve);
    UnknownRowFails(s, cfg, k, audit, now);
    NeverPublishedIff(cfg, Step(cfg, s, resolve), k);
  }

  /** A row that failed without an operator is unpublished for good, in every run. */
  lemma FailedIsFailedForGood(cfg: Config, events: seq<Event>, k: RowKey)
    requires var s := Reached(cfg, events); k in s.db.rows && s.db.rows[k].status == Failed && k !in s.operator
    ensures NeverPublished(cfg, Reached(cfg, events), k)
  {
    hide Inv, NeverPublished;
    ReachedInv(cfg, events);
    FailedIsQuiet(cfg, Reached(cfg, events), k);
    NeverPublishedIff(cfg, Reached(cfg, events), k);
  }

  lemma FailedIsQuiet(cfg: Config, s: State, k: RowKey)
    requires Inv(cfg, s) && k in s.db.rows && s.db.rows[k].status == Failed && k !in s.operator
    ensures Unpublished(s, k) && !CallPending(s, k)
  {
    hide DbInv, WorkersOk, TokensIssued, OneMark, CallsOk, EvidenceOk, PostsDirect;
  }
}
