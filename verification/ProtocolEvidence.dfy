/**
 An outcome-unknown row is meant to hold no X result. Exactly one kind of step breaks that: a commit of
 an X result that happens and is reported to its worker as an error.
 */
module ProtocolEvidence {
  import opened Options
  import opened Idempotency
  import opened PublishedPosts
  import opened Approval
  import opened ApprovalInvariant
  import opened Protocol
  import opened ProtocolInvariant
  import opened ProtocolTheorems
  import Chat

  /** No worker believes its outcome unclear, and no row is recorded as unknown, while X's result is stored. */
  predicate NothingForgotten(s: State) {
    && (forall w | w in s.workers && s.workers[w].pc.CallUnclear? ::
          s.workers[w].row in s.db.rows && s.db.rows[s.workers[w].row].external.None?)
    && (forall k | k in s.db.rows && s.db.rows[k].status == OutcomeUnknown :: s.db.rows[k].external.None?)
  }

  /** The one step that loses sight of a stored X result: its commit happens and is reported as an error. */
  predicate Forgets(s: State, e: Event) {
    && e.Persist? && !e.dbError && !e.seen && e.w in s.workers
    && s.workers[e.w].pc.CallAccepted? && s.workers[e.w].request.XPost?
    && Held(s.db.rows, s.workers[e.w].row, e.w, e.now, true)
  }

  /** How one row may change in a step that keeps `NothingForgotten`. */
  predicate RowRemembers(r: Row, r': Row) {
    (r'.status == OutcomeUnknown ==> (r'.external == r.external && r.status == OutcomeUnknown) || r'.external.None?)
  }

  /** A conditional update of the own row, or nothing, by a worker whose place afterwards is `pc`. */
  lemma OwnRowRemembers(cfg: Config, s: State, t: State, w: Token)
    requires Inv(cfg, s) && NothingForgotten(s) && w in s.workers && WorkerEffect(s, t, w)
    requires var k := s.workers[w].row;
             k in s.db.rows && k in t.db.rows && RowRemembers(s.db.rows[k], t.db.rows[k])
             && (t.db.rows[k].external == s.db.rows[k].external
                 || (Marked(s.workers, w) && !t.workers[w].pc.CallUnclear?))
             && (t.workers[w].pc.CallUnclear? ==> s.db.rows[k].external.None?)
    ensures NothingForgotten(t)
  {
    hide DbInv, TokensIssued, CallsOk, EvidenceOk, OutcomeOk, PostsDirect;
    var k := s.workers[w].row;
    forall v | v in t.workers && t.workers[v].pc.CallUnclear?
      ensures t.workers[v].row in t.db.rows && t.db.rows[t.workers[v].row].external.None?
    {
      if v != w {
        assert t.workers[v] == s.workers[v];
        if t.workers[v].row == k && Marked(s.workers, w) { OtherIsUnmarked(cfg, s, w, v); }
      }
    }
  }

  lemma OtherIsUnmarked(cfg: Config, s: State, w: Token, v: Token)
    requires Inv(cfg, s) && Marked(s.workers, w) && v in s.workers && v != w && s.workers[v].row == s.workers[w].row
    ensures !s.workers[v].pc.CallUnclear?
  {
    hide DbInv, TokensIssued, CallsOk, EvidenceOk, OutcomeOk, PostsDirect;
    assert WorkerOk(cfg, s.db.rows, v, s.workers[v]);
    assert Marked(s.workers, w) && !Marked(s.workers, v);
  }

  lemma WorkerRemembers(cfg: Config, s: State, e: Event)
    requires Inv(cfg, s) && NothingForgotten(s) && !Forgets(s, e) && TokenOf(e).Some? && TokenOf(e).value in s.workers
    ensures NothingForgotten(WorkerStep(cfg, s, e))
  {
    hide Inv, NothingForgotten, WorkerStep, WorkerEffect;
    WorkerStepEffect(cfg, s, e);
    OwnRow(cfg, s, e);
    OwnRowRemembers(cfg, s, WorkerStep(cfg, s, e), TokenOf(e).value);
  }

  lemma OwnRow(cfg: Config, s: State, e: Event)
    requires Inv(cfg, s) && NothingForgotten(s) && !Forgets(s, e) && TokenOf(e).Some? && TokenOf(e).value in s.workers
    ensures var w := TokenOf(e).value;
            var t := WorkerStep(cfg, s, e);
            var k := s.workers[w].row;
            && k in s.db.rows && k in t.db.rows && w in t.workers && RowRemembers(s.db.rows[k], t.db.rows[k])
            && (t.db.rows[k].external == s.db.rows[k].external
                || (Marked(s.workers, w) && !t.workers[w].pc.CallUnclear?))
            && (t.workers[w].pc.CallUnclear? ==> s.db.rows[k].external.None?)
  {
    hide DbInv, TokensIssued, OneMark, CallsOk, EvidenceOk, OutcomeOk, PostsDirect, WorkerStep;
    var w := TokenOf(e).value;
    assert WorkerOk(cfg, s.db.rows, w, s.workers[w]);
    match e
    case FailPlan(_, code, now) => FailRemembers(cfg, s, e);
    case CloseRejected(_, _, _, _) => FailRemembers(cfg, s, e);
    case CloseUnclear(_, _, _) => FailRemembers(cfg, s, e);
    case Save(_, _, _, _, _) => SaveRemembers(cfg, s, e);
    case SaveUpsert(_, _, _, _, _, _) => SaveRemembers(cfg, s, e);
    case _ => PlainRemembers(cfg, s, e);
  }

  /** The worker's own row and the facts about it that matter here. */
  predicate Known(cfg: Config, s: State, w: Token) {
    w in s.workers && WorkerOk(cfg, s.db.rows, w, s.workers[w]) && NothingForgotten(s)
  }

  lemma FailRemembers(cfg: Config, s: State, e: Event)
    requires TokenOf(e).Some? && Known(cfg, s, TokenOf(e).value) && (e.FailPlan? || e.CloseRejected? || e.CloseUnclear?)
    ensures OwnRowFacts(s, WorkerStep(cfg, s, e), TokenOf(e).value)
  {
    hide Complete;
    var w := TokenOf(e).value;
    var ctx := CtxOf(s, w);
    match e
    case FailPlan(_, code, now) => CompleteEffect(s.db, ctx, Failed, ErrorResponse(code, ctx.turn), now);
    case CloseRejected(_, now, _, _) => CompleteEffect(s.db, ctx, Failed, ErrorResponse(XPostFailed, ctx.turn), now);
    case CloseUnclear(_, now, _) =>
      CompleteEffect(s.db, ctx, OutcomeUnknown, ErrorResponse(XPostOutcomeUnknown, ctx.turn), now);
  }

  lemma SaveRemembers(cfg: Config, s: State, e: Event)
    requires TokenOf(e).Some? && Known(cfg, s, TokenOf(e).value) && (e.Save? || e.SaveUpsert?)
    ensures OwnRowFacts(s, WorkerStep(cfg, s, e), TokenOf(e).value)
  {
    hide Complete, Insertable, WriteCampaign;
    var w := TokenOf(e).value;
    var worker, ctx := s.workers[w], CtxOf(s, w);
    if e.Save? && worker.pc.Saving? && worker.request.XPost? {
      var post := Post(worker.row, worker.request.campaign, worker.pc.published);
      CompleteEffect(s.db.(posts := s.db.posts[e.post := post]), ctx, Succeeded, PostResponse(e.post, ctx.turn, post),
                     e.now);
    }
    if e.SaveUpsert? && worker.request.Upsert?
       && WriteCampaign(s.db.campaigns, e.company, e.newId, worker.request, e.generated, e.now).Some? {
      var campaigns := WriteCampaign(s.db.campaigns, e.company, e.newId, worker.request, e.generated, e.now).value;
      CompleteEffect(s.db.(campaigns := campaigns), ctx, Succeeded,
                     CampaignResponse(worker.request, e.newId, ctx.turn, e.now), e.now);
    }
  }

  lemma PlainRemembers(cfg: Config, s: State, e: Event)
    requires TokenOf(e).Some? && Known(cfg, s, TokenOf(e).value) && !Forgets(s, e)
    requires e.Mark? || e.CallX? || e.Persist? || e.CheckStored? || e.Trip? || e.Expire? || e.Crash?
    ensures OwnRowFacts(s, WorkerStep(cfg, s, e), TokenOf(e).value)
  {
    hide FromExternal, Publishable;
  }

  predicate OwnRowFacts(s: State, t: State, w: Token)
    requires w in s.workers
  {
    var k := s.workers[w].row;
    && k in s.db.rows && k in t.db.rows && w in t.workers && RowRemembers(s.db.rows[k], t.db.rows[k])
    && (t.db.rows[k].external == s.db.rows[k].external || (Marked(s.workers, w) && !t.workers[w].pc.CallUnclear?))
    && (t.workers[w].pc.CallUnclear? ==> s.db.rows[k].external.None?)
  }

  lemma OthersRemember(cfg: Config, s: State, e: Event)
    requires Inv(cfg, s) && NothingForgotten(s) && TokenOf(e).None?
    ensures NothingForgotten(Step(cfg, s, e))
  {
    hide DbInv, ProtocolInv, NothingForgotten, StartNew, DecideExisting, AuditTurn, Insertable, Chat.ChatStep;
    var t := Step(cfg, s, e);
    Idle(s, t);
    match e
    case Claim(args) => ClaimRemembers(cfg, s, args.(leaseSeconds := cfg.leaseSeconds));
    case ClaimByOperator(k, token, now) =>
      ClaimResumeKeepsInv(s.db, k, token, now, cfg.leaseSeconds);
      if t != s { OneRowRemembers(s, t, k); }
    case ResolveAsPosted(k, _, _, _, _, _) => if t.db.rows != s.db.rows { OneRowRemembers(s, t, k); }
    case ResolveAsNotPosted(k, _, _) => if t.db.rows != s.db.rows { OneRowRemembers(s, t, k); }
    case _ =>
  }

  lemma Idle(s: State, t: State)
    requires NothingForgotten(s)
    ensures t.db.rows == s.db.rows && t.workers == s.workers ==> NothingForgotten(t)
  {
  }

  /** One row is written, keeping its X result; no worker becomes unclear. */
  lemma OneRowRemembers(s: State, t: State, k: RowKey)
    requires NothingForgotten(s) && k in t.db.rows && t.db.rows == s.db.rows[k := t.db.rows[k]]
    requires if k in s.db.rows then t.db.rows[k].external == s.db.rows[k].external else t.db.rows[k].external.None?
    requires t.db.rows[k].status == OutcomeUnknown ==> t.db.rows[k].external.None?
    requires forall w | w in t.workers && t.workers[w].pc.CallUnclear? :: w in s.workers && t.workers[w] == s.workers[w]
    ensures NothingForgotten(t)
  {
  }

  lemma ClaimRemembers(cfg: Config, s: State, args: ClaimArgs)
    requires Inv(cfg, s) && NothingForgotten(s)
    ensures NothingForgotten(ClaimStep(s, args))
  {
    hide DbInv, ProtocolInv, NothingForgotten, StartNew, DecideExisting;
    var t := ClaimStep(s, args);
    Idle(s, t);
    if args.token !in s.workers && args.turn !in s.db.tables.turns && args.leaseSeconds > 0 && args.ownsSession {
      if args.row in s.db.rows {
        DecideKeepsInv(s.db, args);
        if t.db.rows != s.db.rows || t.workers != s.workers { OneRowRemembers(s, t, args.row); }
      } else if !args.archived {
        StartNewKeepsInv(s.db, args);
        OneRowRemembers(s, t, args.row);
      }
    }
  }

  lemma StepRemembers(cfg: Config, s: State, e: Event)
    requires Inv(cfg, s) && NothingForgotten(s) && !Forgets(s, e)
    ensures NothingForgotten(Step(cfg, s, e))
  {
    hide Inv, NothingForgotten, WorkerStep, Forgets;
    if TokenOf(e).Some? {
      if TokenOf(e).value in s.workers { WorkerRemembers(cfg, s, e); }
    } else {
      OthersRemember(cfg, s, e);
    }
  }

  /** A step loses sight of a stored X result iff it commits one unreported. */
  lemma ForgottenIff(cfg: Config, s: State, e: Event)
    requires Inv(cfg, s) && NothingForgotten(s)
    ensures NothingForgotten(Step(cfg, s, e)) <==> !Forgets(s, e)
  {
    hide Inv, Step;
    if Forgets(s, e) {
      UnseenPersist(cfg, s, e.w, e.now);
    } else {
      StepRemembers(cfg, s, e);
    }
  }

  /** No step of the run loses sight of a result. */
  predicate NeverForgets(cfg: Config, s: State, events: seq<Event>)
    decreases |events|
  {
    events == [] || (!Forgets(s, events[0]) && NeverForgets(cfg, Step(cfg, s, events[0]), events[1..]))
  }

  lemma {:induction false} CarefulRunsForgetNothing(cfg: Config, s: State, events: seq<Event>)
    requires Inv(cfg, s) && NothingForgotten(s) && NeverForgets(cfg, s, events)
    ensures NothingForgotten(Run(cfg, s, events))
    decreases |events|
  {
    hide Inv, NothingForgotten, Step, Forgets;
    if events != [] {
      StepRemembers(cfg, s, events[0]);
      StepKeepsInv(cfg, s, events[0]);
      CarefulRunsForgetNothing(cfg, Step(cfg, s, events[0]), events[1..]);
    }
  }

  /** In every run without such a step, an outcome-unknown row holds no X result. */
  lemma UnknownHoldsNoResult(cfg: Config, events: seq<Event>, k: RowKey)
    requires NeverForgets(cfg, INITIAL, events) && k in Reached(cfg, events).db.rows
    ensures Reached(cfg, events).db.rows[k].status == OutcomeUnknown ==> Reached(cfg, events).db.rows[k].external.None?
  {
    hide Inv, Step;
    InitialInv(cfg);
    CarefulRunsForgetNothing(cfg, INITIAL, events);
  }

  // ---------- When an unknown row gets to hold a result ----------

  /** No outcome-unknown row holds an X result. */
  predicate UnknownIsBare(s: State) {
    forall k | k in s.db.rows && s.db.rows[k].status == OutcomeUnknown :: s.db.rows[k].external.None?
  }

  /** The owner of a row with a stored result believes the outcome unclear and closes the row. */
  predicate ClosesOverResult(s: State, e: Event) {
    && e.CloseUnclear? && e.w in s.workers && s.workers[e.w].pc.CallUnclear?
    && Held(s.db.rows, s.workers[e.w].row, e.w, e.now, true)
    && s.db.rows[s.workers[e.w].row].external.Some?
  }

  lemma BareWorker(cfg: Config, s: State, e: Event)
    requires Inv(cfg, s) && UnknownIsBare(s) && TokenOf(e).Some? && TokenOf(e).value in s.workers
             && !ClosesOverResult(s, e)
    ensures UnknownIsBare(WorkerStep(cfg, s, e))
  {
    hide DbInv, ProtocolInv, WorkerStep;
    var w := TokenOf(e).value;
    WorkerStepEffect(cfg, s, e);
    OwnRowBare(cfg, s, e);
  }

  /** The own row leaves processing for outcome-unknown only in `CloseUnclear`, which keeps its result. */
  lemma OwnRowBare(cfg: Config, s: State, e: Event)
    requires Inv(cfg, s) && UnknownIsBare(s) && TokenOf(e).Some? && TokenOf(e).value in s.workers
             && !ClosesOverResult(s, e)
    ensures var k := s.workers[TokenOf(e).value].row;
            var t := WorkerStep(cfg, s, e);
            k in t.db.rows && t.db.rows[k].status == OutcomeUnknown ==> t.db.rows[k].external.None?
  {
    hide DbInv, TokensIssued, OneMark, CallsOk, EvidenceOk, OutcomeOk, PostsDirect, UnknownIsBare, WorkerStep;
    var w := TokenOf(e).value;
    var k := s.workers[w].row;
    assert WorkerOk(cfg, s.db.rows, w, s.workers[w]);
    assert s.db.rows[k].status == OutcomeUnknown ==> s.db.rows[k].external.None? by { BareRow(s, k); }
    match e
    case FailPlan(_, _, _) => FailIsBare(cfg, s, e);
    case CloseRejected(_, _, _, _) => FailIsBare(cfg, s, e);
    case CloseUnclear(_, _, _) => FailIsBare(cfg, s, e);
    case Save(_, _, _, _, _) => SaveIsBare(cfg, s, e);
    case SaveUpsert(_, _, _, _, _, _) => SaveIsBare(cfg, s, e);
    case _ => PlainIsBare(cfg, s, e);
  }

  lemma BareRow(s: State, k: RowKey)
    requires UnknownIsBare(s) && k in s.db.rows
    ensures s.db.rows[k].status == OutcomeUnknown ==> s.db.rows[k].external.None?
  {
  }

  predicate BareOwn(s: State, t: State, w: Token)
    requires w in s.workers
  {
    s.workers[w].row in t.db.rows && t.db.rows[s.workers[w].row].status == OutcomeUnknown
    ==> t.db.rows[s.workers[w].row].external.None?
  }

  predicate BareBefore(cfg: Config, s: State, w: Token) {
    w in s.workers && WorkerOk(cfg, s.db.rows, w, s.workers[w])
    && (s.db.rows[s.workers[w].row].status == OutcomeUnknown ==> s.db.rows[s.workers[w].row].external.None?)
  }

  lemma FailIsBare(cfg: Config, s: State, e: Event)
    requires TokenOf(e).Some? && BareBefore(cfg, s, TokenOf(e).value) && !ClosesOverResult(s, e)
    requires e.FailPlan? || e.CloseRejected? || e.CloseUnclear?
    ensures BareOwn(s, WorkerStep(cfg, s, e), TokenOf(e).value)
  {
    hide Complete;
    var w := TokenOf(e).value;
    var ctx := CtxOf(s, w);
    match e
    case FailPlan(_, code, now) => CompleteEffect(s.db, ctx, Failed, ErrorResponse(code, ctx.turn), now);
    case CloseRejected(_, now, _, _) => CompleteEffect(s.db, ctx, Failed, ErrorResponse(XPostFailed, ctx.turn), now);
    case CloseUnclear(_, now, _) =>
      HeldOnly(s.db, ctx, OutcomeUnknown, ErrorResponse(XPostOutcomeUnknown, ctx.turn), now);
  }

  lemma HeldOnly(db: Db, ctx: Ctx, status: Status, response: Response, now: Time)
    ensures var tx := Complete(db, ctx, status, response, now, true);
            tx.Committed? ==>
              && Held(db.rows, ctx.row, ctx.token, now, true)
              && tx.db.rows == db.rows[ctx.row := FinalRow(db.rows[ctx.row], status, response)]
  {
  }

  lemma SaveIsBare(cfg: Config, s: State, e: Event)
    requires TokenOf(e).Some? && BareBefore(cfg, s, TokenOf(e).value) && (e.Save? || e.SaveUpsert?)
    ensures BareOwn(s, WorkerStep(cfg, s, e), TokenOf(e).value)
  {
    hide Complete, Insertable, WriteCampaign;
    var w := TokenOf(e).value;
    var worker, ctx := s.workers[w], CtxOf(s, w);
    if e.Save? && worker.pc.Saving? && worker.request.XPost? {
      var post := Post(worker.row, worker.request.campaign, worker.pc.published);
      var posts := s.db.posts[e.post := post];
      CompleteEffect(s.db.(posts := posts), ctx, Succeeded, PostResponse(e.post, ctx.turn, post), e.now);
    }
    if e.SaveUpsert? && worker.request.Upsert? {
      var written := WriteCampaign(s.db.campaigns, e.company, e.newId, worker.request, e.generated, e.now);
      if written.Some? {
        var response := CampaignResponse(worker.request, e.newId, ctx.turn, e.now);
        CompleteEffect(s.db.(campaigns := written.value), ctx, Succeeded, response, e.now);
      }
    }
  }

  lemma PlainIsBare(cfg: Config, s: State, e: Event)
    requires TokenOf(e).Some? && BareBefore(cfg, s, TokenOf(e).value)
    requires e.Mark? || e.CallX? || e.Persist? || e.CheckStored? || e.Trip? || e.Expire? || e.Crash?
    ensures BareOwn(s, WorkerStep(cfg, s, e), TokenOf(e).value)
  {
    hide FromExternal, Publishable;
  }

  lemma BareOthers(cfg: Config, s: State, e: Event)
    requires Inv(cfg, s) && UnknownIsBare(s) && TokenOf(e).None?
    ensures UnknownIsBare(Step(cfg, s, e))
  {
    hide DbInv, ProtocolInv, StartNew, DecideExisting, AuditTurn, Insertable, Chat.ChatStep;
    match e
    case Claim(args) =>
      var a := args.(leaseSeconds := cfg.leaseSeconds);
      if a.token !in s.workers && a.turn !in s.db.tables.turns && a.leaseSeconds > 0 && a.ownsSession {
        if a.row in s.db.rows { DecideKeepsInv(s.db, a); } else if !a.archived { StartNewKeepsInv(s.db, a); }
      }
    case ClaimByOperator(k, token, now) => ClaimResumeKeepsInv(s.db, k, token, now, cfg.leaseSeconds);
    case _ =>
  }

  /** A step makes an outcome-unknown row hold an X result iff its owner closes it over a stored result. */
  lemma UnknownGetsResultIff(cfg: Config, s: State, e: Event)
    requires Inv(cfg, s) && UnknownIsBare(s)
    ensures UnknownIsBare(Step(cfg, s, e)) <==> !ClosesOverResult(s, e)
  {
    hide Inv, WorkerStep, UnknownIsBare;
    if ClosesOverResult(s, e) {
      ClosesUnclear(cfg, s, e.w, e.now, e.seen);
      NotBare(Step(cfg, s, e), s.workers[e.w].row);
    } else if TokenOf(e).Some? {
      if TokenOf(e).value in s.workers { BareWorker(cfg, s, e); }
    } else {
      BareOthers(cfg, s, e);
    }
  }

  lemma NotBare(s: State, k: RowKey)
    requires k in s.db.rows && s.db.rows[k].status == OutcomeUnknown && s.db.rows[k].external.Some?
    ensures !UnknownIsBare(s)
  {
  }

  /** One unreported commit is enough: the row ends outcome-unknown although the X result is stored in it. */
  lemma UnreportedCommitForgets(cfg: Config, s: State, w: Token, now: Time)
    requires Inv(cfg, s) && w in s.workers && s.workers[w].pc.CallAccepted? && s.workers[w].request.XPost?
    requires Held(s.db.rows, s.workers[w].row, w, now, true)
    ensures var k := s.workers[w].row;
            var t := Run(cfg, s, [Persist(w, now, false, false), CloseUnclear(w, now, true)]);
            k in t.db.rows && t.db.rows[k].status == OutcomeUnknown
              && t.db.rows[k].external == Some(s.workers[w].pc.external)
  {
    hide Inv, Step, Complete;
    var persist, close := Persist(w, now, false, false), CloseUnclear(w, now, true);
    var s1 := Step(cfg, s, persist);
    StepKeepsInv(cfg, s, persist);
    UnseenPersist(cfg, s, w, now);
    ClosesUnclear(cfg, s1, w, now, true);
    assert [persist, close][1..] == [close] && [close][1..] == [];
    assert Run(cfg, s1, [close]) == Run(cfg, Step(cfg, s1, close), []);
  }

  lemma UnseenPersist(cfg: Config, s: State, w: Token, now: Time)
    requires w in s.workers && s.workers[w].pc.CallAccepted? && s.workers[w].request.XPost?
    requires Held(s.db.rows, s.workers[w].row, w, now, true)
    ensures var t := Step(cfg, s, Persist(w, now, false, false));
            var k := s.workers[w].row;
            && w in t.workers && t.workers[w] == s.workers[w].(pc := CallUnclear)
            && t.db.rows == s.db.rows[k := s.db.rows[k].(external := Some(s.workers[w].pc.external))]
  {
  }

  lemma ClosesUnclear(cfg: Config, s: State, w: Token, now: Time, seen: bool)
    requires Inv(cfg, s) && w in s.workers && s.workers[w].pc.CallUnclear?
             && Held(s.db.rows, s.workers[w].row, w, now, true)
    ensures var k := s.workers[w].row;
            var t := Step(cfg, s, CloseUnclear(w, now, seen));
            k in t.db.rows && t.db.rows[k].status == OutcomeUnknown && t.db.rows[k].external == s.db.rows[k].external
  {
    hide DbInv, TokensIssued, OneMark, CallsOk, EvidenceOk, OutcomeOk, PostsDirect, Complete;
    assert WorkerOk(cfg, s.db.rows, w, s.workers[w]);
    CompleteFacts(s.db, CtxOf(s, w), OutcomeUnknown, ErrorResponse(XPostOutcomeUnknown, s.workers[w].turn), now);
  }

  // ---------- Such a run ----------

  /** Claim, mark and an accepted call: the first three events of an ordinary run. */
  function Opening(args: ClaimArgs, id: string, at: Time): seq<Event> {
    [Claim(args), Mark(args.token, args.now, true), CallX(args.token, XAccepted(id, at))]
  }

  lemma PublishableIsXPost(url: UrlBuilder, request: Request, key: Key)
    requires Publishable(url, request, key)
    ensures request.XPost?
  {
  }

  lemma AcceptedCallIsReachable(cfg: Config, args: ClaimArgs, id: string, at: Time)
    requires FirstRequest(cfg, args) && id != ""
    ensures var s := Reached(cfg, Opening(args, id, at));
            && args.token in s.workers && s.workers[args.token].pc.CallAccepted?
            && s.workers[args.token].row == args.row
            && s.workers[args.token].request == args.request && s.workers[args.token].pc.external.xPostId == id
            && Held(s.db.rows, args.row, args.token, args.now, true)
  {
    hide Publishable;
    PublishableIsXPost(cfg.url, args.request, args.row.key);
    StalledWorkerIsReachable(cfg, args);
    var stalled := [Claim(args), Mark(args.token, args.now, true)];
    var call := CallX(args.token, XAccepted(id, at));
    assert Opening(args, id, at) == stalled + [call];
    RunConcat(cfg, INITIAL, stalled, [call]);
    var s := Reached(cfg, stalled);
    assert [call][1..] == [];
    assert Run(cfg, s, [call]) == Run(cfg, Step(cfg, s, call), []);
  }

  /** A run of five events at whose end an outcome-unknown row holds the X result. */
  lemma UnknownHoldsResultInSomeRun(cfg: Config, args: ClaimArgs, id: string, at: Time)
    requires FirstRequest(cfg, args) && id != ""
    ensures var now := args.now;
            var ending := [Persist(args.token, now, false, false), CloseUnclear(args.token, now, true)];
            var s := Reached(cfg, Opening(args, id, at) + ending);
            && args.row in s.db.rows && s.db.rows[args.row].status == OutcomeUnknown
            && s.db.rows[args.row].external.Some? && s.db.rows[args.row].external.value.xPostId == id
  {
    hide Inv, Step, Publishable;
    var opening := Opening(args, id, at);
    PublishableIsXPost(cfg.url, args.request, args.row.key);
    AcceptedCallIsReachable(cfg, args, id, at);
    ReachedInv(cfg, opening);
    var ending := [Persist(args.token, args.now, false, false), CloseUnclear(args.token, args.now, true)];
    UnreportedCommitForgets(cfg, Reached(cfg, opening), args.token, args.now);
    RunConcat(cfg, INITIAL, opening, ending);
  }
}
