/** Exactly which request rows can still be settled, from every reachable state. */
module ProtocolProgress {
  import opened Options
  import opened Turns
  import opened Idempotency
  import opened PublishedPosts
  import opened Approval
  import opened ApprovalInvariant
  import opened Protocol
  import opened ProtocolInvariant
  import opened ProtocolTheorems
  import opened ProtocolEvidence
  import Chat

  // ---------- Stored results ----------

  /** The stored result is the one that the uninterrupted run would have built. */
  predicate ResultOk(cfg: Config, k: RowKey, request: Request, external: ExternalResult) {
    && Publishable(cfg.url, request, k.key) && external.xPostId != ""
    && external == ResultOf(cfg.url, request, k.key, external.xPostId, external.publishedAt)
  }

  ghost predicate ResultsOk(cfg: Config, s: State) {
    && (forall k | k in s.db.rows && s.db.rows[k].external.Some? ::
          ResultOk(cfg, k, s.db.rows[k].request, s.db.rows[k].external.value))
    && (forall w | w in s.workers && s.workers[w].pc.CallAccepted? :: s.workers[w].pc.external.xPostId != "")
  }

  /** What a worker's step does to the X result of its row, to the posts and to its own announced result. */
  predicate OwnResult(s: State, t: State, w: Token)
    requires w in s.workers
  {
    var k := s.workers[w].row;
    && w in t.workers
    && (k in s.db.rows && k in t.db.rows ==>
          || t.db.rows[k].external == s.db.rows[k].external
          || (s.workers[w].pc.CallAccepted? && t.db.rows[k].external == Some(s.workers[w].pc.external)))
    && (t.workers[w].pc.CallAccepted? ==>
          t.workers[w].pc == s.workers[w].pc || t.workers[w].pc.external.xPostId != "")
    && PostsGrow(s.db.posts, t.db.posts)
  }

  predicate PostsGrow(posts: map<nat, Post>, posts': map<nat, Post>) {
    forall p | p in posts :: p in posts' && posts'[p] == posts[p]
  }

  lemma FailResult(s: State, w: Token, code: ErrorCode, status: Status, now: Time, next: Pc)
    requires w in s.workers && !next.CallAccepted?
    ensures OwnResult(s, FailStep(s, w, code, status, now, next), w)
  {
    hide Complete;
    CompleteEffect(s.db, CtxOf(s, w), status, ErrorResponse(code, s.workers[w].turn), now);
  }

  lemma SaveResult(cfg: Config, s: State, e: Event)
    requires TokenOf(e).Some? && TokenOf(e).value in s.workers && (e.Save? || e.SaveUpsert?)
    ensures OwnResult(s, WorkerStep(cfg, s, e), TokenOf(e).value)
  {
    hide Complete, WriteCampaign;
    var w := TokenOf(e).value;
    var worker, ctx := s.workers[w], CtxOf(s, w);
    if e.Save? && worker.pc.Saving? && worker.request.XPost? {
      var post := Post(worker.row, worker.request.campaign, worker.pc.published);
      var posts := s.db.posts[e.post := post];
      CompleteEffect(s.db.(posts := posts), ctx, Succeeded, PostResponse(e.post, ctx.turn, post), e.now);
    }
    if e.SaveUpsert? && worker.request.Upsert? {
      var written := WriteCampaign(s.db.campaigns, e.company, e.newId, worker.request, e.generated, e.now);
      if written.Some? {
        var response := CampaignResponse(worker.request, e.newId, ctx.turn, e.now);
        CompleteEffect(s.db.(campaigns := written.value), ctx, Succeeded, response, e.now);
      }
    }
  }

  lemma PlainResult(cfg: Config, s: State, e: Event)
    requires TokenOf(e).Some? && TokenOf(e).value in s.workers
    requires e.Mark? || e.CallX? || e.Persist? || e.CheckStored? || e.Trip? || e.Expire? || e.Crash?
    ensures OwnResult(s, WorkerStep(cfg, s, e), TokenOf(e).value)
  {
    hide FromExternal, Publishable;
  }

  lemma StillResult(s: State, w: Token)
    requires w in s.workers
    ensures OwnResult(s, s, w)
    ensures forall pc: Pc :: !pc.CallAccepted? ==> OwnResult(s, Goto(s, w, pc), w)
  {
  }

  lemma WorkerResult(cfg: Config, s: State, e: Event)
    requires TokenOf(e).Some? && TokenOf(e).value in s.workers
    ensures OwnResult(s, WorkerStep(cfg, s, e), TokenOf(e).value)
  {
    hide OwnResult;
    var w := TokenOf(e).value;
    StillResult(s, w);
    match e
    case FailPlan(_, code, now) => FailResult(s, w, code, Failed, now, Stopped);
    case CloseRejected(_, now, _, seen) =>
      FailResult(s, w, XPostFailed, Failed, now, if seen then Stopped else CallUnclear);
    case CloseUnclear(_, now, seen) =>
      FailResult(s, w, XPostOutcomeUnknown, OutcomeUnknown, now, if seen then Stopped else CallUnclear);
    case Save(_, _, _, _, _) => SaveResult(cfg, s, e);
    case SaveUpsert(_, _, _, _, _, _) => SaveResult(cfg, s, e);
    case _ => PlainResult(cfg, s, e);
  }

  lemma WorkerKeepsResults(cfg: Config, s: State, e: Event)
    requires Inv(cfg, s) && ResultsOk(cfg, s) && TokenOf(e).Some? && TokenOf(e).value in s.workers
    ensures ResultsOk(cfg, WorkerStep(cfg, s, e)) && PostsGrow(s.db.posts, WorkerStep(cfg, s, e).db.posts)
  {
    hide DbInv, TokensIssued, OneMark, CallsOk, EvidenceOk, OutcomeOk, PostsDirect, WorkerStep, Publishable;
    var w := TokenOf(e).value;
    assert WorkerOk(cfg, s.db.rows, w, s.workers[w]);
    WorkerStepEffect(cfg, s, e);
    WorkerResult(cfg, s, e);
  }

  /** Steps of nobody's worker: rows keep their results, new rows and new workers have none announced. */
  predicate KeepsResults(s: State, t: State) {
    && (forall k | k in t.db.rows ::
          if k in s.db.rows then t.db.rows[k].external == s.db.rows[k].external
             && t.db.rows[k].request == s.db.rows[k].request
          else t.db.rows[k].external.None?)
    && (forall w | w in t.workers && t.workers[w].pc.CallAccepted? :: w in s.workers && t.workers[w] == s.workers[w])
    && PostsGrow(s.db.posts, t.db.posts)
  }

  lemma ClaimKeepsResults(cfg: Config, s: State, args: ClaimArgs)
    requires Inv(cfg, s)
    ensures KeepsResults(s, ClaimStep(s, args))
  {
    hide DbInv, ProtocolInv, StartNew, DecideExisting;
    if args.token !in s.workers && args.turn !in s.db.tables.turns && args.leaseSeconds > 0 && args.ownsSession {
      if args.row in s.db.rows { DecideKeepsInv(s.db, args); } else if !args.archived { StartNewKeepsInv(s.db, args); }
    }
  }

  lemma OthersKeepResults(cfg: Config, s: State, e: Event)
    requires Inv(cfg, s) && TokenOf(e).None?
    ensures KeepsResults(s, Step(cfg, s, e))
  {
    hide DbInv, ProtocolInv, ClaimStep, AuditTurn, Chat.ChatStep;
    match e
    case Claim(args) => ClaimKeepsResults(cfg, s, args.(leaseSeconds := cfg.leaseSeconds));
    case ClaimByOperator(k, token, now) => ClaimResumeKeepsInv(s.db, k, token, now, cfg.leaseSeconds);
    case _ =>
  }

  lemma StepKeepsResults(cfg: Config, s: State, e: Event)
    requires Inv(cfg, s) && ResultsOk(cfg, s)
    ensures ResultsOk(cfg, Step(cfg, s, e)) && PostsGrow(s.db.posts, Step(cfg, s, e).db.posts)
  {
    hide Inv, ResultOk, WorkerStep, PostsGrow;
    GrowsItself(s.db.posts);
    if TokenOf(e).Some? {
      if TokenOf(e).value in s.workers { WorkerKeepsResults(cfg, s, e); }
    } else {
      OthersKeepResults(cfg, s, e);
    }
  }

  lemma GrowsItself(posts: map<nat, Post>)
    ensures PostsGrow(posts, posts)
  {
  }

  lemma {:induction false} RunKeepsResults(cfg: Config, s: State, events: seq<Event>)
    requires Inv(cfg, s) && ResultsOk(cfg, s)
    ensures ResultsOk(cfg, Run(cfg, s, events))
    decreases |events|
  {
    hide Inv, ResultsOk, Step;
    if events != [] {
      StepKeepsResults(cfg, s, events[0]);
      StepKeepsInv(cfg, s, events[0]);
      RunKeepsResults(cfg, Step(cfg, s, events[0]), events[1..]);
    }
  }

  /** A stored X result is never replaced or removed. */
  predicate ResultsStay(rows: Rows, rows': Rows) {
    forall k | k in rows && rows[k].external.Some? :: k in rows' && rows'[k].external == rows[k].external
  }

  lemma WorkerResultsStay(cfg: Config, s: State, e: Event)
    requires Inv(cfg, s) && TokenOf(e).Some? && TokenOf(e).value in s.workers
    ensures ResultsStay(s.db.rows, WorkerStep(cfg, s, e).db.rows)
  {
    hide DbInv, TokensIssued, OneMark, CallsOk, EvidenceOk, OutcomeOk, PostsDirect, WorkerStep;
    var w := TokenOf(e).value;
    assert WorkerOk(cfg, s.db.rows, w, s.workers[w]);
    WorkerStepEffect(cfg, s, e);
    WorkerResult(cfg, s, e);
  }

  lemma StepResultsStay(cfg: Config, s: State, e: Event)
    requires Inv(cfg, s)
    ensures ResultsStay(s.db.rows, Step(cfg, s, e).db.rows)
  {
    hide Inv, WorkerStep, NoGain;
    if TokenOf(e).Some? {
      if TokenOf(e).value in s.workers { WorkerResultsStay(cfg, s, e); }
    } else {
      OthersKeepResults(cfg, s, e);
      StepRows(cfg, s, e);
    }
  }

  // ---------- Rows that nothing can settle ----------

  /** No save of this result can ever be inserted: the id is too long, or id or link belong to another post. */
  predicate Unsavable(cfg: Config, db: Db, k: RowKey, request: Request, external: ExternalResult)
    requires request.XPost?
  {
    || |external.xPostId| > MAX_X_POST_ID_LENGTH
    || exists p | p in db.posts ::
         || db.posts[p].published.xPostId == external.xPostId
         || SameLink(db.posts[p].published.tracking,
                     BuildTracking(cfg.url, request.landingUrl, request.campaign, k.key))
  }

  /** The owner of the row does not believe the outcome of its call unclear. */
  predicate OwnerIsClear(s: State, k: RowKey)
    requires k in s.db.rows
  {
    s.db.rows[k].token in s.workers ==> !s.workers[s.db.rows[k].token].pc.CallUnclear?
  }

  /** A processing row whose stored X result cannot be saved. */
  predicate HoldsUnsavable(cfg: Config, s: State, k: RowKey) {
    && k in s.db.rows && s.db.rows[k].status == Processing && s.db.rows[k].external.Some?
    && s.db.rows[k].request.XPost?
    && Unsavable(cfg, s.db, k, s.db.rows[k].request, s.db.rows[k].external.value)
  }

  /** Such a row that nobody can call unknown any more, whatever a clock shows. */
  predicate Obstructed(cfg: Config, s: State, k: RowKey) { HoldsUnsavable(cfg, s, k) && OwnerIsClear(s, k) }

  /** Such a row that nobody can call unknown from `now` on. */
  predicate ObstructedAt(cfg: Config, s: State, k: RowKey, now: Time) {
    HoldsUnsavable(cfg, s, k) && (OwnerIsClear(s, k) || s.db.rows[k].lease <= now)
  }

  /** Not the step by which the owner calls the row unknown while it holds the lease. */
  predicate ClosesNothing(s: State, e: Event, k: RowKey)
    requires k in s.db.rows
  {
    e.CloseUnclear? && e.w == s.db.rows[k].token && !OwnerIsClear(s, k) ==> s.db.rows[k].lease <= e.now
  }

  /** A clear owner stays clear, or is followed by one; an unclear one gets no longer lease. */
  predicate OwnerFollows(s: State, t: State, k: RowKey)
    requires k in s.db.rows && k in t.db.rows
  {
    OwnerIsClear(t, k) || (!OwnerIsClear(s, k) && t.db.rows[k].lease == s.db.rows[k].lease)
  }

  /** The row is still processing with the same result. */
  predicate SameResult(rows: Rows, rows': Rows, k: RowKey) {
    && k in rows && k in rows' && rows'[k].status == rows[k].status
    && rows'[k].external == rows[k].external && rows'[k].request == rows[k].request
  }

  lemma StaysUnsavable(cfg: Config, s: State, t: State, k: RowKey)
    requires HoldsUnsavable(cfg, s, k) && SameResult(s.db.rows, t.db.rows, k) && PostsGrow(s.db.posts, t.db.posts)
    ensures HoldsUnsavable(cfg, t, k)
  {
  }

  /** The place of the row's owner once a result is stored. */
  predicate AfterResult(pc: Pc) {
    pc.Resuming? || pc.Saving? || pc.SaveAbandoned? || pc.Stopped? || pc.CallUnclear?
  }

  lemma OwnerIsAfterResult(cfg: Config, s: State, k: RowKey)
    requires Inv(cfg, s) && HoldsUnsavable(cfg, s, k)
    ensures var w := s.db.rows[k].token;
            w in s.workers && s.workers[w].row == k && AfterResult(s.workers[w].pc) && k.op == PublishXPost
            && WorkerOk(cfg, s.db.rows, w, s.workers[w])
  {
    hide OneMark, CallsOk, EvidenceOk, OutcomeOk, PostsDirect, TablesInv, TurnsCoupled, ResultItems, OneChat,
      PostsMatch, NoDuplicates, Unsavable;
    var w := s.db.rows[k].token;
    assert RowOk(k, s.db.rows[k]);
    assert WorkerOk(cfg, s.db.rows, w, s.workers[w]);
  }

  /** The owner's save is refused by the constraints, and none of its other steps ends the row. */
  lemma OwnerStaysObstructed(cfg: Config, s: State, e: Event, k: RowKey)
    requires Inv(cfg, s) && HoldsUnsavable(cfg, s, k) && TokenOf(e) == Some(s.db.rows[k].token)
    requires ClosesNothing(s, e, k)
    ensures s.db.rows[k].token in s.workers
    ensures var t := WorkerStep(cfg, s, e);
            SameResult(s.db.rows, t.db.rows, k) && t.db.rows[k].token == s.db.rows[k].token && OwnerFollows(s, t, k)
  {
    hide Inv, Complete, FromExternal, Publishable, WriteCampaign;
    OwnerIsAfterResult(cfg, s, k);
    if e.Save? { OwnerCannotSave(cfg, s, e, k); }
    if e.CloseUnclear? { OwnerCannotClose(s, e, k); }
  }

  lemma OwnerCannotClose(s: State, e: Event, k: RowKey)
    requires e.CloseUnclear? && k in s.db.rows && e.w == s.db.rows[k].token && e.w in s.workers
    requires s.workers[e.w].row == k && ClosesNothing(s, e, k)
    ensures var code, now := XPostOutcomeUnknown, e.now;
            s.workers[e.w].pc.CallUnclear? ==> FailRequest(s.db, CtxOf(s, e.w), code, OutcomeUnknown, now).LeaseLost?
  {
  }

  lemma OwnerCannotSave(cfg: Config, s: State, e: Event, k: RowKey)
    requires Inv(cfg, s) && HoldsUnsavable(cfg, s, k) && TokenOf(e) == Some(s.db.rows[k].token) && e.Save?
    ensures s.db.rows[k].token in s.workers && WorkerStep(cfg, s, e) == s
  {
    hide Inv, Complete;
    OwnerIsAfterResult(cfg, s, k);
    var worker := s.workers[e.w];
    if worker.pc.Saving? {
      var post := Post(k, worker.request.campaign, worker.pc.published);
      assert !Insertable(s.db.posts, e.post, post);
    }
  }

  lemma WorkerStaysObstructed(cfg: Config, s: State, e: Event, k: RowKey)
    requires Inv(cfg, s) && HoldsUnsavable(cfg, s, k) && TokenOf(e).Some? && TokenOf(e).value in s.workers
    requires ClosesNothing(s, e, k)
    ensures var t := WorkerStep(cfg, s, e); SameResult(s.db.rows, t.db.rows, k) && OwnerFollows(s, t, k)
  {
    hide Inv, WorkerStep, Unsavable;
    WorkerStepEffect(cfg, s, e);
    if TokenOf(e).value == s.db.rows[k].token { OwnerStaysObstructed(cfg, s, e, k); }
  }

  lemma ClaimStaysObstructed(cfg: Config, s: State, args: ClaimArgs, k: RowKey)
    requires Inv(cfg, s) && HoldsUnsavable(cfg, s, k)
    ensures var t := ClaimStep(s, args); SameResult(s.db.rows, t.db.rows, k) && OwnerFollows(s, t, k)
  {
    hide Inv, DbInv, Unsavable, StartNew, DecideExisting;
    OwnerIsAfterResult(cfg, s, k);
    if args.token !in s.workers && args.turn !in s.db.tables.turns && args.leaseSeconds > 0 && args.ownsSession {
      DbPart(cfg, s);
      if args.row in s.db.rows { DecideKeepsInv(s.db, args); } else if !args.archived { StartNewKeepsInv(s.db, args); }
    }
  }

  lemma OthersStayObstructed(cfg: Config, s: State, e: Event, k: RowKey)
    requires Inv(cfg, s) && HoldsUnsavable(cfg, s, k) && TokenOf(e).None?
    ensures var t := Step(cfg, s, e); SameResult(s.db.rows, t.db.rows, k) && OwnerFollows(s, t, k)
  {
    hide Inv, DbInv, Unsavable, ClaimStep, AuditTurn, Insertable, Chat.ChatStep;
    match e
    case Claim(args) => ClaimStaysObstructed(cfg, s, args.(leaseSeconds := cfg.leaseSeconds), k);
    case ClaimByOperator(j, token, now) =>
      OwnerIsAfterResult(cfg, s, k);
      DbPart(cfg, s);
      ClaimResumeKeepsInv(s.db, j, token, now, cfg.leaseSeconds);
    case _ =>
  }

  lemma StepStaysObstructed(cfg: Config, s: State, e: Event, k: RowKey)
    requires Inv(cfg, s) && ResultsOk(cfg, s) && HoldsUnsavable(cfg, s, k) && ClosesNothing(s, e, k)
    ensures var t := Step(cfg, s, e);
            HoldsUnsavable(cfg, t, k) && SameResult(s.db.rows, t.db.rows, k) && OwnerFollows(s, t, k)
  {
    hide Inv, ResultsOk, WorkerStep, Unsavable, PostsGrow;
    StepKeepsResults(cfg, s, e);
    if TokenOf(e).Some? {
      if TokenOf(e).value in s.workers { WorkerStaysObstructed(cfg, s, e, k); }
    } else {
      OthersStayObstructed(cfg, s, e, k);
    }
    StaysUnsavable(cfg, s, Step(cfg, s, e), k);
  }

  lemma StepObstructed(cfg: Config, s: State, e: Event, k: RowKey)
    requires Inv(cfg, s) && ResultsOk(cfg, s) && Obstructed(cfg, s, k)
    ensures Obstructed(cfg, Step(cfg, s, e), k) && SameResult(s.db.rows, Step(cfg, s, e).db.rows, k)
  {
    hide Inv, ResultsOk, Step, HoldsUnsavable;
    RowOf(cfg, s, k);
    StepStaysObstructed(cfg, s, e, k);
  }

  lemma RowOf(cfg: Config, s: State, k: RowKey)
    requires HoldsUnsavable(cfg, s, k)
    ensures k in s.db.rows && s.db.rows[k].status == Processing
  {
  }

  /** No resend, operator or zombie ever settles an obstructed row; it keeps its result and stays processing. */
  lemma {:induction false} ObstructedForever(cfg: Config, s: State, later: seq<Event>, k: RowKey)
    requires Inv(cfg, s) && ResultsOk(cfg, s) && Obstructed(cfg, s, k)
    ensures Obstructed(cfg, Run(cfg, s, later), k) && SameResult(s.db.rows, Run(cfg, s, later).db.rows, k)
    decreases |later|
  {
    hide Inv, ResultsOk, Obstructed, Step;
    Known(cfg, s, k);
    if later != [] {
      var next := Step(cfg, s, later[0]);
      StepObstructed(cfg, s, later[0], k);
      StepKeepsInv(cfg, s, later[0]);
      StepKeepsResults(cfg, s, later[0]);
      ObstructedForever(cfg, next, later[1..], k);
    }
  }

  lemma Known(cfg: Config, s: State, k: RowKey)
    requires Obstructed(cfg, s, k)
    ensures k in s.db.rows && s.db.rows[k].status == Processing
  {
  }

  // ---------- With clocks that do not run backwards ----------

  /** The clock reading on which a step depends. */
  function TimeOf(e: Event): Option<Time> {
    match e
    case Claim(args) => Some(args.now)
    case FailPlan(_, _, now) => Some(now)
    case Mark(_, now, _) => Some(now)
    case CloseRejected(_, now, _, _) => Some(now)
    case CloseUnclear(_, now, _) => Some(now)
    case Persist(_, now, _, _) => Some(now)
    case Save(_, _, now, _, _) => Some(now)
    case Expire(_, now, _) => Some(now)
    case SaveUpsert(_, _, _, _, now, _) => Some(now)
    case ResolveAsPosted(_, _, _, _, _, now) => Some(now)
    case ResolveAsNotPosted(_, _, now) => Some(now)
    case ClaimByOperator(_, _, now) => Some(now)
    case _ => None
  }

  function Tick(now: Time, e: Event): Time { if TimeOf(e).Some? then TimeOf(e).value else now }

  /** No clock reading is before `now` or before an earlier one. */
  predicate InOrder(now: Time, events: seq<Event>)
    decreases |events|
  {
    events == [] || (now <= Tick(now, events[0]) && InOrder(Tick(now, events[0]), events[1..]))
  }

  lemma {:induction false} ObstructedOnwards(cfg: Config, s: State, later: seq<Event>, k: RowKey, now: Time)
    requires Inv(cfg, s) && ResultsOk(cfg, s) && ObstructedAt(cfg, s, k, now) && InOrder(now, later)
    ensures HoldsUnsavable(cfg, Run(cfg, s, later), k) && SameResult(s.db.rows, Run(cfg, s, later).db.rows, k)
    decreases |later|
  {
    hide Inv, ResultsOk, HoldsUnsavable, Step;
    RowOf(cfg, s, k);
    if later != [] {
      var e, next := later[0], Step(cfg, s, later[0]);
      StepStaysObstructed(cfg, s, e, k);
      StepKeepsInv(cfg, s, e);
      StepKeepsResults(cfg, s, e);
      ObstructedOnwards(cfg, next, later[1..], k, Tick(now, e));
    }
  }

  // ---------- Rows that can be settled ----------

  /** Some continuation leaves the row succeeded or failed. */
  ghost predicate CanSettle(cfg: Config, s: State, k: RowKey) {
    exists later: seq<Event> :: FinalAfter(Run(cfg, s, later), k)
  }

  /** Some continuation with clocks that do not run backwards from `now` does. */
  ghost predicate CanSettleFrom(cfg: Config, s: State, k: RowKey, now: Time) {
    exists later: seq<Event> :: InOrder(now, later) && FinalAfter(Run(cfg, s, later), k)
  }

  predicate FinalAfter(s: State, k: RowKey) { k in s.db.rows && Final(s.db.rows[k].status) }

  function Fresh(taken: set<nat>): (n: nat)
    ensures n !in taken
  {
    Maximum(taken) + 1
  }

  lemma CanSettleAfter(cfg: Config, s: State, e: Event, k: RowKey, now: Time)
    requires now <= Tick(now, e) && CanSettleFrom(cfg, Step(cfg, s, e), k, Tick(now, e))
    ensures CanSettleFrom(cfg, s, k, now)
  {
    hide Step;
    var later: seq<Event> :| InOrder(Tick(now, e), later) && FinalAfter(Run(cfg, Step(cfg, s, e), later), k);
    assert ([e] + later)[1..] == later && ([e] + later)[0] == e;
    assert InOrder(now, [e] + later) && FinalAfter(Run(cfg, s, [e] + later), k);
  }

  lemma SettledCanSettle(cfg: Config, s: State, k: RowKey, now: Time)
    requires FinalAfter(s, k)
    ensures CanSettleFrom(cfg, s, k, now)
  {
    assert InOrder(now, []) && FinalAfter(Run(cfg, s, []), k);
  }

  /** An outcome-unknown row is settled by an operator. */
  lemma UnknownCanSettle(cfg: Config, s: State, k: RowKey, now: Time)
    requires Inv(cfg, s) && k in s.db.rows && s.db.rows[k].status == OutcomeUnknown
    ensures CanSettleFrom(cfg, s, k, now)
  {
    hide DbInv, ProtocolInv, Step, CanSettleFrom;
    RowIsOk(s.db, k);
    var audit := Fresh(s.db.tables.turns.Keys);
    UnknownRowFails(s, cfg, k, audit, now);
    var e := ResolveAsNotPosted(k, audit, now);
    SettledCanSettle(cfg, Step(cfg, s, e), k, now);
    CanSettleAfter(cfg, s, e, k, now);
  }

  /** The resend of a row's own request, once its lease is over, under a token and turn nobody has. */
  function Resend(cfg: Config, s: State, k: RowKey, now: Time): ClaimArgs
    requires k in s.db.rows
  {
    ClaimArgs(k, s.db.rows[k].session, s.db.rows[k].request, Fresh(s.workers.Keys), Fresh(s.db.tables.turns.Keys),
              if s.db.rows[k].lease <= now then now else s.db.rows[k].lease, cfg.leaseSeconds, true, false)
  }

  /** After the resend: closed as unknown, or held by a new worker that plans or resumes. */
  lemma ResendDecides(cfg: Config, s: State, k: RowKey, now: Time)
    requires Inv(cfg, s) && k in s.db.rows && s.db.rows[k].status == Processing && cfg.leaseSeconds > 0
    ensures var args := Resend(cfg, s, k, now);
            var t := Step(cfg, s, Claim(args));
            var r := s.db.rows[k];
            if k.op == PublishXPost && r.started.Some? && r.external.None?
            then k in t.db.rows && t.db.rows[k].status == OutcomeUnknown
            else
              && t.db == s.db.(rows := s.db.rows[k := Retaken(r, args.token, args.now + cfg.leaseSeconds)])
              && args.token in t.workers && t.workers[args.token].row == k && t.workers[args.token].request == r.request
              && r.turn == Some(t.workers[args.token].turn)
              && t.workers[args.token].pc == if r.external.Some? then Resuming(r.external.value) else Planning
  {
    hide DbInv, ProtocolInv;
    var args := Resend(cfg, s, k, now);
    RowIsOk(s.db, k);
    DecideKeepsInv(s.db, args);
    if k.op == PublishXPost && s.db.rows[k].started.Some? && s.db.rows[k].external.None? {
      CloseUnknownKeepsInv(s.db, args);
    }
  }

  /** A row whose effect was started without a result is closed as unknown by a resend, and then resolved. */
  lemma StartedCanSettle(cfg: Config, s: State, k: RowKey, now: Time)
    requires Inv(cfg, s) && k in s.db.rows && s.db.rows[k].status == Processing && cfg.leaseSeconds > 0
    requires k.op == PublishXPost && s.db.rows[k].started.Some? && s.db.rows[k].external.None?
    ensures CanSettleFrom(cfg, s, k, now)
  {
    hide Inv, Step, CanSettleFrom;
    var claim := Claim(Resend(cfg, s, k, now));
    ResendDecides(cfg, s, k, now);
    StepKeepsInv(cfg, s, claim);
    UnknownCanSettle(cfg, Step(cfg, s, claim), k, claim.args.now);
    CanSettleAfter(cfg, s, claim, k, now);
  }

  /** A row whose effect was not started is failed by its new worker. */
  lemma PlannedCanSettle(cfg: Config, s: State, k: RowKey, now: Time)
    requires Inv(cfg, s) && k in s.db.rows && s.db.rows[k].status == Processing && cfg.leaseSeconds > 0
    requires s.db.rows[k].external.None? && (s.db.rows[k].started.Some? ==> k.op != PublishXPost)
    ensures CanSettleFrom(cfg, s, k, now)
  {
    hide Inv, Step, CanSettleFrom;
    var args := Resend(cfg, s, k, now);
    var t := Step(cfg, s, Claim(args));
    ResendDecides(cfg, s, k, now);
    StepKeepsInv(cfg, s, Claim(args));
    var fail := FailPlan(args.token, InvalidArgument, args.now);
    HeldPlanFails(cfg, t, args.token, args.now);
    SettledCanSettle(cfg, Step(cfg, t, fail), k, args.now);
    CanSettleAfter(cfg, t, fail, k, args.now);
    CanSettleAfter(cfg, s, Claim(args), k, now);
  }

  lemma HeldPlanFails(cfg: Config, s: State, w: Token, now: Time)
    requires Inv(cfg, s) && w in s.workers && s.workers[w].pc.Planning?
             && Held(s.db.rows, s.workers[w].row, w, now, true)
    ensures FinalAfter(Step(cfg, s, FailPlan(w, InvalidArgument, now)), s.workers[w].row)
  {
    hide DbInv, TokensIssued, OneMark, CallsOk, EvidenceOk, OutcomeOk, PostsDirect, Complete;
    assert WorkerOk(cfg, s.db.rows, w, s.workers[w]);
    CompleteFacts(s.db, CtxOf(s, w), Failed, ErrorResponse(InvalidArgument, s.workers[w].turn), now);
  }

  /** A stored result that fits the tables is saved by the worker that resumes. */
  lemma SavableCanSettle(cfg: Config, s: State, k: RowKey, now: Time)
    requires Inv(cfg, s) && ResultsOk(cfg, s) && k in s.db.rows && s.db.rows[k].status == Processing
             && cfg.leaseSeconds > 0
    requires s.db.rows[k].external.Some? && s.db.rows[k].request.XPost?
    requires !Unsavable(cfg, s.db, k, s.db.rows[k].request, s.db.rows[k].external.value)
    ensures CanSettleFrom(cfg, s, k, now)
  {
    hide Inv, Step, CanSettleFrom, Unsavable, ResultOk;
    var args := Resend(cfg, s, k, now);
    var w := args.token;
    var r := s.db.rows[k];
    var t := Step(cfg, s, Claim(args));
    ResendDecides(cfg, s, k, now);
    StepKeepsInv(cfg, s, Claim(args));
    var check := CheckStored(w, true);
    var u := Step(cfg, t, check);
    StepKeepsInv(cfg, t, check);
    assert ResultOk(cfg, k, r.request, r.external.value);
    StoredIsSavable(cfg, t, w, s.db, k);
    var save := Save(w, Fresh(u.db.posts.Keys), args.now, false, true);
    SaveSucceeds(cfg, u, w, Fresh(u.db.posts.Keys), args.now);
    SettledCanSettle(cfg, Step(cfg, u, save), k, args.now);
    CanSettleAfter(cfg, u, save, k, args.now);
    CanSettleAfter(cfg, t, check, k, args.now);
    CanSettleAfter(cfg, s, Claim(args), k, now);
  }

  lemma StoredIsSavable(cfg: Config, s: State, w: Token, db: Db, k: RowKey)
    requires w in s.workers && s.workers[w].pc.Resuming? && s.workers[w].row == k && s.db.posts == db.posts
    requires s.workers[w].request.XPost? && ResultOk(cfg, k, s.workers[w].request, s.workers[w].pc.stored)
    requires !Unsavable(cfg, db, k, s.workers[w].request, s.workers[w].pc.stored)
    ensures var t := Step(cfg, s, CheckStored(w, true));
            var stored := s.workers[w].pc.stored;
            && t == Goto(s, w, Saving(DirectPost(cfg.url, s.workers[w].request, k.key, stored.xPostId,
                                                 stored.publishedAt)))
            && |stored.xPostId| <= MAX_X_POST_ID_LENGTH
            && forall p | p in t.db.posts ::
                 t.db.posts[p].published.xPostId != t.workers[w].pc.published.xPostId
                 && !SameLink(t.db.posts[p].published.tracking, t.workers[w].pc.published.tracking)
  {
    hide Publishable, FromExternal;
    var stored := s.workers[w].pc.stored;
    ResumeMatchesDirect(cfg.url, s.workers[w].request, k.key, stored.xPostId, stored.publishedAt);
  }

  lemma SaveSucceeds(cfg: Config, s: State, w: Token, id: nat, now: Time)
    requires Inv(cfg, s) && w in s.workers && s.workers[w].pc.Saving? && s.workers[w].request.XPost?
             && id !in s.db.posts
    requires Held(s.db.rows, s.workers[w].row, w, now, true)
    requires |s.workers[w].pc.published.xPostId| <= MAX_X_POST_ID_LENGTH
    requires forall p | p in s.db.posts ::
               s.db.posts[p].published.xPostId != s.workers[w].pc.published.xPostId
               && !SameLink(s.db.posts[p].published.tracking, s.workers[w].pc.published.tracking)
    ensures FinalAfter(Step(cfg, s, Save(w, id, now, false, true)), s.workers[w].row)
  {
    hide DbInv, TokensIssued, OneMark, CallsOk, EvidenceOk, OutcomeOk, PostsDirect, Complete, SameLink;
    var worker := s.workers[w];
    var ctx := CtxOf(s, w);
    assert WorkerOk(cfg, s.db.rows, w, worker);
    NoPostYet(s.db, worker.row);
    var post := Post(worker.row, worker.request.campaign, worker.pc.published);
    assert Insertable(s.db.posts, id, post);
    CompleteFacts(s.db.(posts := s.db.posts), ctx, Succeeded, PostResponse(id, ctx.turn, post), now);
    SaveCommits(s.db, ctx, id, worker.request.campaign, worker.pc.published, now);
  }

  lemma NoPostYet(db: Db, k: RowKey)
    requires DbInv(db) && k in db.rows && db.rows[k].status == Processing
    ensures forall p | p in db.posts :: db.posts[p].request != k
  {
    hide DbCore, NoDuplicates;
    forall p | p in db.posts ensures db.posts[p].request != k { assert PublishedRow(db.rows, db.posts[p].request); }
  }

  lemma SaveCommits(db: Db, ctx: Ctx, id: nat, campaign: nat, published: PublishedPosts.Published, now: Time)
    requires DbInv(db) && CtxOk(db, ctx) && Insertable(db.posts, id, Post(ctx.row, campaign, published))
    requires Held(db.rows, ctx.row, ctx.token, now, true)
    ensures var tx := SavePost(db, ctx, id, campaign, published, now);
            tx.Committed? && ctx.row in tx.db.rows && tx.db.rows[ctx.row].status == Succeeded
  {
    hide DbCore, PostsMatch, NoDuplicates, Complete, Insertable;
    var post := Post(ctx.row, campaign, published);
    var posts := db.posts[id := post];
    CompleteKeepsCore(db.(posts := posts), ctx, Succeeded, PostResponse(id, ctx.turn, post), now, true);
  }

  /** An owner that believes the outcome unclear can call the row unknown while it holds the lease. */
  lemma UnclearCanSettle(cfg: Config, s: State, k: RowKey, now: Time)
    requires Inv(cfg, s) && k in s.db.rows && s.db.rows[k].status == Processing && !OwnerIsClear(s, k)
             && now < s.db.rows[k].lease
    ensures CanSettleFrom(cfg, s, k, now)
  {
    hide Inv, Step, CanSettleFrom;
    var w := s.db.rows[k].token;
    OwnerHasRow(cfg, s, k);
    var close := CloseUnclear(w, now, true);
    HeldUnclearCloses(cfg, s, w, now);
    StepKeepsInv(cfg, s, close);
    UnknownCanSettle(cfg, Step(cfg, s, close), k, now);
    CanSettleAfter(cfg, s, close, k, now);
  }

  lemma OwnerHasRow(cfg: Config, s: State, k: RowKey)
    requires Inv(cfg, s) && k in s.db.rows
    ensures s.db.rows[k].token in s.workers && s.workers[s.db.rows[k].token].row == k
  {
    hide DbInv, WorkersOk, OneMark, CallsOk, EvidenceOk, OutcomeOk, PostsDirect;
  }

  lemma HeldUnclearCloses(cfg: Config, s: State, w: Token, now: Time)
    requires Inv(cfg, s) && w in s.workers && s.workers[w].pc.CallUnclear?
    requires Held(s.db.rows, s.workers[w].row, w, now, true)
    ensures var t := Step(cfg, s, CloseUnclear(w, now, true));
            s.workers[w].row in t.db.rows && t.db.rows[s.workers[w].row].status == OutcomeUnknown
  {
    hide DbInv, TokensIssued, OneMark, CallsOk, EvidenceOk, OutcomeOk, PostsDirect, Complete;
    assert WorkerOk(cfg, s.db.rows, w, s.workers[w]);
    CompleteFacts(s.db, CtxOf(s, w), OutcomeUnknown, ErrorResponse(XPostOutcomeUnknown, s.workers[w].turn), now);
  }

  lemma ReachedResults(cfg: Config, events: seq<Event>)
    ensures ResultsOk(cfg, Reached(cfg, events))
  {
    hide Inv;
    InitialInv(cfg);
    RunKeepsResults(cfg, INITIAL, events);
  }

  /**
   From every reachable state, whatever its clocks were: with clocks that do not run backwards from `now`, a row
   can be settled iff it is not obstructed at `now`.
   */
  lemma SettlesInOrderIff(cfg: Config, events: seq<Event>, k: RowKey, now: Time)
    requires cfg.leaseSeconds > 0 && k in Reached(cfg, events).db.rows
    ensures CanSettleFrom(cfg, Reached(cfg, events), k, now) <==> !ObstructedAt(cfg, Reached(cfg, events), k, now)
  {
    hide Inv, Reached, CanSettleFrom, HoldsUnsavable, OwnerIsClear;
    ReachedInv(cfg, events);
    ReachedResults(cfg, events);
    var s := Reached(cfg, events);
    if ObstructedAt(cfg, s, k, now) {
      ObstructedCannotSettle(cfg, s, k, now);
    } else {
      OpenCanSettle(cfg, s, k, now);
    }
  }

  /** With clocks that show anything, a row can still be settled iff it is not obstructed. */
  lemma SettlesIffNotObstructed(cfg: Config, events: seq<Event>, k: RowKey)
    requires cfg.leaseSeconds > 0 && k in Reached(cfg, events).db.rows
    ensures CanSettle(cfg, Reached(cfg, events), k) <==> !Obstructed(cfg, Reached(cfg, events), k)
  {
    hide Inv, Reached, HoldsUnsavable, OwnerIsClear;
    ReachedInv(cfg, events);
    ReachedResults(cfg, events);
    var s := Reached(cfg, events);
    if Obstructed(cfg, s, k) {
      hide ResultsOk;
      forall later: seq<Event> ensures !FinalAfter(Run(cfg, s, later), k) {
        ObstructedForever(cfg, s, later, k);
        Known(cfg, s, k);
      }
    } else {
      OpenCanSettle(cfg, s, k, s.db.rows[k].lease - 1);
    }
  }

  lemma ObstructedCannotSettle(cfg: Config, s: State, k: RowKey, now: Time)
    requires Inv(cfg, s) && ResultsOk(cfg, s) && ObstructedAt(cfg, s, k, now)
    ensures !CanSettleFrom(cfg, s, k, now)
  {
    hide Inv, ResultsOk, HoldsUnsavable, OwnerIsClear;
    RowOf(cfg, s, k);
    forall later: seq<Event> | InOrder(now, later) ensures !FinalAfter(Run(cfg, s, later), k) {
      ObstructedOnwards(cfg, s, later, k, now);
    }
  }

  lemma OpenCanSettle(cfg: Config, s: State, k: RowKey, now: Time)
    requires Inv(cfg, s) && ResultsOk(cfg, s) && k in s.db.rows && !ObstructedAt(cfg, s, k, now) && cfg.leaseSeconds > 0
    ensures CanSettleFrom(cfg, s, k, now)
  {
    hide Inv, CanSettleFrom, Unsavable, OwnerIsClear;
    var r := s.db.rows[k];
    match r.status
    case OutcomeUnknown => UnknownCanSettle(cfg, s, k, now);
    case Processing =>
      if r.external.Some? {
        assert ResultOk(cfg, k, r.request, r.external.value);
        if !Unsavable(cfg, s.db, k, r.request, r.external.value) {
          SavableCanSettle(cfg, s, k, now);
        } else {
          UnclearCanSettle(cfg, s, k, now);
        }
      } else if k.op == PublishXPost && r.started.Some? {
        StartedCanSettle(cfg, s, k, now);
      } else {
        PlannedCanSettle(cfg, s, k, now);
      }
    case _ => SettledCanSettle(cfg, s, k, now);
  }

  /** In every run: a result with an id of more than 255 characters keeps its row processing for good. */
  lemma LongIdKeepsProcessing(cfg: Config, events: seq<Event>, later: seq<Event>, k: RowKey)
    requires var s := Reached(cfg, events);
             && k in s.db.rows && s.db.rows[k].status == Processing && s.db.rows[k].external.Some?
             && |s.db.rows[k].external.value.xPostId| > MAX_X_POST_ID_LENGTH && OwnerIsClear(s, k)
    ensures SameResult(Reached(cfg, events).db.rows, Run(cfg, Reached(cfg, events), later).db.rows, k)
  {
    hide Inv, Reached, OwnerIsClear;
    ReachedInv(cfg, events);
    ReachedResults(cfg, events);
    var s := Reached(cfg, events);
    assert ResultOk(cfg, k, s.db.rows[k].request, s.db.rows[k].external.value);
    ObstructedForever(cfg, s, later, k);
  }

  /** Claim, mark, call and persist are enough to get there, if X answers with such an id. */
  lemma LongIdInSomeRun(cfg: Config, args: ClaimArgs, id: string, at: Time)
    requires FirstRequest(cfg, args) && |id| > MAX_X_POST_ID_LENGTH
    ensures Obstructed(cfg, Reached(cfg, Opening(args, id, at) + [Persist(args.token, args.now, false, true)]),
                       args.row)
  {
    hide Inv, Publishable, Run;
    PublishableIsXPost(cfg.url, args.request, args.row.key);
    AcceptedCallIsReachable(cfg, args, id, at);
    var persist := Persist(args.token, args.now, false, true);
    RunConcat(cfg, INITIAL, Opening(args, id, at), [persist]);
    var s := Reached(cfg, Opening(args, id, at));
    OneEvent(cfg, s, persist);
    ReachedInv(cfg, Opening(args, id, at));
    SeenPersist(cfg, s, args.token, args.now);
  }

  lemma OneEvent(cfg: Config, s: State, e: Event)
    ensures Run(cfg, s, [e]) == Step(cfg, s, e)
  {
    hide Step;
    assert [e][1..] == [];
    assert Run(cfg, Step(cfg, s, e), []) == Step(cfg, s, e);
  }

  lemma SeenPersist(cfg: Config, s: State, w: Token, now: Time)
    requires Inv(cfg, s) && w in s.workers && s.workers[w].pc.CallAccepted? && s.workers[w].request.XPost?
    requires Held(s.db.rows, s.workers[w].row, w, now, true)
             && |s.workers[w].pc.external.xPostId| > MAX_X_POST_ID_LENGTH
    ensures Obstructed(cfg, Step(cfg, s, Persist(w, now, false, true)), s.workers[w].row)
  {
    hide DbInv, TokensIssued, OneMark, CallsOk, EvidenceOk, OutcomeOk, PostsDirect;
    assert WorkerOk(cfg, s.db.rows, w, s.workers[w]);
  }
}
