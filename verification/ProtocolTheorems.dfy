/** What holds of every run of the approval protocol, and of every continuation of a run. */
module ProtocolTheorems {
  import opened Options
  import opened Turns
  import opened Idempotency
  import opened PublishedPosts
  import opened Approval
  import opened ApprovalInvariant
  import opened Protocol
  import opened ProtocolInvariant
  import Campaigns

  function Reached(cfg: Config, events: seq<Event>): State { Run(cfg, INITIAL, events) }

  lemma ReachedInv(cfg: Config, events: seq<Event>)
    ensures Inv(cfg, Reached(cfg, events))
  {
    InitialInv(cfg);
    RunKeepsInv(cfg, INITIAL, events);
  }

  // ---------- The external effect ----------

  /** X is called at most once per request row, by zombies and in any interleaving. */
  lemma AtMostOneCallPerRow(cfg: Config, events: seq<Event>)
    ensures var calls := Reached(cfg, events).calls;
            forall i, j | 0 <= i < j < |calls| :: calls[i].row != calls[j].row
  {
    hide DbInv, WorkersOk, TokensIssued, EvidenceOk, OutcomeOk, PostsDirect;
    ReachedInv(cfg, events);
    var s := Reached(cfg, events);
    forall i, j | 0 <= i < j < |s.calls| ensures s.calls[i].row != s.calls[j].row {
      assert s.calls[i] in s.calls && s.calls[j] in s.calls;
      assert Marked(s.workers, s.calls[i].token) && Marked(s.workers, s.calls[j].token);
    }
  }

  /** The conditional update that records the start of the effect never succeeds twice on a row. */
  lemma NoSecondMark(cfg: Config, events: seq<Event>, w: Token, now: Time)
    requires w in Reached(cfg, events).workers
    ensures var s := Reached(cfg, events);
            var worker := s.workers[w];
            worker.pc.Planning? && worker.row.op == PublishXPost
            && MarkExternalStarted(s.db.rows, worker.row, w, now).Some?
            ==> worker.row in s.db.rows && s.db.rows[worker.row].started.None?
                && forall c | c in s.calls :: c.row != worker.row
  {
    hide DbInv, TokensIssued, OneMark, CallsOk, EvidenceOk, OutcomeOk, PostsDirect;
    ReachedInv(cfg, events);
    var s := Reached(cfg, events);
    assert WorkerOk(cfg, s.db.rows, w, s.workers[w]);
    var k := s.workers[w].row;
    if s.db.rows[k].started.None? { UnstartedIsUncalled(cfg, s, k); }
  }

  /** Unless an operator decided the row: failed means nothing was published. */
  lemma FailedMeansUnpublished(cfg: Config, events: seq<Event>, c: Call)
    requires c in Reached(cfg, events).calls && c.published
    ensures var s := Reached(cfg, events);
            c.row in s.db.rows && (c.row !in s.operator ==> s.db.rows[c.row].status != Failed)
  {
    hide DbInv, TokensIssued, OneMark, EvidenceOk, PostsDirect;
    ReachedInv(cfg, events);
    var s := Reached(cfg, events);
    assert Marked(s.workers, c.token) && WorkerOk(cfg, s.db.rows, c.token, s.workers[c.token]);
  }

  // ---------- What was sent, what X answered and what is saved ----------

  /** Every call sent the body and tracked URL of its row's request. */
  ghost predicate TextsOk(cfg: Config, s: State) {
    forall c | c in s.calls :: c.row in s.db.rows && SentText(cfg, s.db.rows[c.row].request, c)
  }

  predicate SentText(cfg: Config, request: Request, c: Call) {
    request.XPost? && c.text
      == PostText(request.text, BuildTracking(cfg.url, request.landingUrl, request.campaign, c.row.key))
  }

  lemma TextsStep(cfg: Config, s: State, e: Event)
    requires Inv(cfg, s) && TextsOk(cfg, s)
    ensures TextsOk(cfg, Step(cfg, s, e))
  {
    hide Inv, DbInv;
    var t := Step(cfg, s, e);
    StepRows(cfg, s, e);
    CallsGrow(cfg, s, e);
    forall c | c in t.calls ensures c.row in t.db.rows && SentText(cfg, t.db.rows[c.row].request, c) {
      if c in s.calls { assert SentText(cfg, s.db.rows[c.row].request, c); }
    }
  }

  /** A step appends at most one call, of the acting worker for its own row and request. */
  lemma CallsGrow(cfg: Config, s: State, e: Event)
    requires Inv(cfg, s)
    ensures var t := Step(cfg, s, e);
            t.calls == s.calls
            || (exists c ::
                  t.calls == s.calls + [c] && c.row in s.db.rows && SentText(cfg, s.db.rows[c.row].request, c))
  {
    hide DbInv, TokensIssued, OneMark, CallsOk, EvidenceOk, OutcomeOk, PostsDirect;
    hide FailStep, ClaimStep, ResolvePosted, ResolveNotPosted, ClaimResume, Chat.ChatStep;
    if !e.CallX? {
      OthersCallNothing(cfg, s, e);
    } else if e.w in s.workers {
      assert WorkerOk(cfg, s.db.rows, e.w, s.workers[e.w]);
      var t := Step(cfg, s, e);
      if t.calls != s.calls {
        var c := t.calls[|s.calls|];
        assert t.calls == s.calls + [c];
      }
    }
  }

  lemma OthersCallNothing(cfg: Config, s: State, e: Event)
    requires !e.CallX?
    ensures Step(cfg, s, e).calls == s.calls
  {
    hide Approval.SavePost, Approval.SaveCampaign, ResolvePosted, ResolveNotPosted, ClaimResume, Chat.ChatStep;
    hide Approval.StartNew, Approval.DecideExisting;
  }

  lemma {:induction false} TextsRun(cfg: Config, s: State, events: seq<Event>)
    requires Inv(cfg, s) && TextsOk(cfg, s)
    ensures TextsOk(cfg, Run(cfg, s, events))
    decreases |events|
  {
    if events != [] {
      StepKeepsInv(cfg, s, events[0]);
      TextsStep(cfg, s, events[0]);
      TextsRun(cfg, Step(cfg, s, events[0]), events[1..]);
    }
  }

  /** The call of X behind a saved post. */
  predicate PublishedBy(c: Call, request: RowKey, published: PublishedPosts.Published) {
    c.row == request && c.published && c.xPostId == published.xPostId
    && c.text == published.text + "\n" + published.tracking.trackedUrl
  }

  /**
   Whatever crashed, expired or was resumed on the way: a saved post that no operator entered is the
   one the uninterrupted run would have saved, and X published exactly its text under its id.
   */
  lemma SavedPostsAreReal(cfg: Config, events: seq<Event>, p: nat)
    requires p in Reached(cfg, events).db.posts
    ensures var s := Reached(cfg, events);
            var post := s.db.posts[p];
            post.request in s.db.rows && post.request !in s.operator ==>
              && s.db.rows[post.request].request.XPost?
              && post.published == DirectPost(cfg.url, s.db.rows[post.request].request, post.request.key,
                                              post.published.xPostId, post.published.publishedAt)
              && post.campaign == s.db.rows[post.request].request.campaign
              && exists c :: c in s.calls && PublishedBy(c, post.request, post.published)
  {
    hide DbInv, WorkersOk, TokensIssued, OneMark, CallsOk, OutcomeOk;
    ReachedInv(cfg, events);
    InitialInv(cfg);
    TextsRun(cfg, INITIAL, events);
    var s := Reached(cfg, events);
    var post := s.db.posts[p];
    if post.request in s.db.rows && post.request !in s.operator {
      assert PostDirect(cfg, s.db.rows, post);
      assert Evidence(s.calls, post.request, s.db.rows[post.request].external.value.xPostId);
      var c :| c in s.calls && c.row == post.request && c.published && c.xPostId == post.published.xPostId;
      assert SentText(cfg, s.db.rows[c.row].request, c);
      assert PublishedBy(c, post.request, post.published);
    }
  }

  // ---------- The coupled tables ----------

  /** A publish row has succeeded iff exactly one post refers to it. */
  lemma SucceededIffOnePost(cfg: Config, events: seq<Event>, k: RowKey)
    requires k.op == PublishXPost && k in Reached(cfg, events).db.rows
    ensures var db := Reached(cfg, events).db;
            && (db.rows[k].status == Succeeded <==> exists p :: p in db.posts && db.posts[p].request == k)
            && (forall p, q | p in db.posts && q in db.posts :: db.posts[p].request == k == db.posts[q].request ==>
                p == q)
  {
    hide DbCore, NoDuplicates, ProtocolInv;
    ReachedInv(cfg, events);
    var db := Reached(cfg, events).db;
    if db.rows[k].status == Succeeded { assert PublishedRow(db.rows, k); }
    forall p | p in db.posts && db.posts[p].request == k ensures db.rows[k].status == Succeeded {
      assert PublishedRow(db.rows, db.posts[p].request);
    }
  }

  /** A row is processing iff its API turn is running; its columns tell the same story. */
  lemma RowsCoupled(cfg: Config, events: seq<Event>, k: RowKey)
    requires k in Reached(cfg, events).db.rows
    ensures var db := Reached(cfg, events).db;
            var r := db.rows[k];
            && r.turn.Some? && r.turn.value in db.tables.turns
            && (r.status == Processing <==> db.tables.turns[r.turn.value].status == TurnRunning)
            && (r.status != Processing <==> r.response.Some?)
            && (r.status != Processing <==> ItemRef(r.turn.value, ApprovalResultKey(k.key)) in db.tables.items)
            && (r.external.Some? ==> r.started.Some?)
  {
    hide TablesInv, OneChat, PostsMatch, NoDuplicates, ProtocolInv;
    ReachedInv(cfg, events);
    var db := Reached(cfg, events).db;
    assert RowOk(k, db.rows[k]) && TurnOfRow(db.tables.turns, db.rows[k]);
  }

  /** `append_item` inside `complete` never finds the turn ended, whoever calls it. */
  lemma CompleteNeverFindsTurnEnded(cfg: Config, events: seq<Event>, w: Token, status: Status, response: Response,
                                    now: Time, lease: bool)
    requires w in Reached(cfg, events).workers && Final(status)
    ensures var s := Reached(cfg, events);
            var tx := Complete(s.db, CtxOf(s, w), status, response, now, lease);
            if Held(s.db.rows, s.workers[w].row, w, now, lease) then tx.Committed? else tx == LeaseLost
  {
    hide DbCore, NoDuplicates, PostsMatch, TokensIssued, OneMark, CallsOk, EvidenceOk, OutcomeOk, PostsDirect;
    ReachedInv(cfg, events);
    var s := Reached(cfg, events);
    assert WorkerOk(cfg, s.db.rows, w, s.workers[w]);
    CompleteKeepsCore(s.db, CtxOf(s, w), status, response, now, lease);
  }

  /** Different keys and sessions included, the same content is in flight or unclear at most once. */
  lemma OneUnresolvedPerContent(cfg: Config, events: seq<Event>, j: RowKey, k: RowKey)
    requires var rows := Reached(cfg, events).db.rows;
             Contends(rows, j) && Contends(rows, k) && j.marketer == k.marketer && rows[j].request == rows[k].request
    ensures j == k
  {
    hide DbCore, PostsMatch, ProtocolInv;
    ReachedInv(cfg, events);
  }

  /** One active chat turn per session, turns numbered 1..n and items 1..next-1, in every state. */
  lemma TablesAreGapless(cfg: Config, events: seq<Event>)
    ensures var a := Reached(cfg, events).db.tables;
            TablesInv(a) && OneChat(a.turns, ApiTurns(Reached(cfg, events).db.rows))
  {
    hide TablesInv, OneChat, PostsMatch, NoDuplicates, ProtocolInv;
    ReachedInv(cfg, events);
  }

  // ---------- Fencing ----------

  /** The worker's token no longer owns its row. */
  predicate Fenced(s: State, w: Token) { w in s.workers && !Owns(s.db.rows, s.workers[w].row, w) }

  /** A worker changes at most its own row and place, and nothing at all without owning the row. */
  predicate WorkerEffect(s: State, t: State, w: Token)
    requires w in s.workers
  {
    var k := s.workers[w].row;
    && t.operator == s.operator
    && w in t.workers && t.workers == s.workers[w := t.workers[w]] && t.workers[w].row == k
    && (if Owns(s.db.rows, k, w)
        then k in t.db.rows && t.db.rows == s.db.rows[k := t.db.rows[k]] && RowEffect(s.db.rows[k], t.db.rows[k])
        else t.db == s.db)
  }

  predicate RowEffect(r: Row, r': Row) {
    r'.request == r.request && r'.session == r.session && r'.turn == r.turn && r'.token == r.token
  }

  lemma CompleteEffect(db: Db, ctx: Ctx, status: Status, response: Response, now: Time)
    ensures var tx := Complete(db, ctx, status, response, now, true);
            tx.Committed? ==> Owns(db.rows, ctx.row, ctx.token)
                              && tx.db.rows == db.rows[ctx.row := FinalRow(db.rows[ctx.row], status, response)]
                              && tx.db == db.(tables := tx.db.tables, rows := tx.db.rows)
  {
  }

  lemma FailEffect(s: State, w: Token, code: ErrorCode, status: Status, now: Time, next: Pc)
    requires w in s.workers
    ensures WorkerEffect(s, FailStep(s, w, code, status, now, next), w)
  {
    hide Complete;
    MovingOnly(s, w, next);
    var worker := s.workers[w];
    CompleteEffect(s.db, CtxOf(s, w), status, ErrorResponse(code, worker.turn), now);
    if FailRequest(s.db, CtxOf(s, w), code, status, now).Committed? {
      var t := FailStep(s, w, code, status, now, next);
      assert t.db.rows[worker.row] == FinalRow(s.db.rows[worker.row], status, ErrorResponse(code, worker.turn));
    }
  }

  lemma SaveEffect(s: State, w: Token, post: nat, now: Time, dbError: bool, seen: bool)
    requires w in s.workers
    ensures WorkerEffect(s, SaveStep(s, w, post, now, dbError, seen), w)
  {
    hide Complete, Insertable;
    var worker := s.workers[w];
    if worker.pc.Saving? && worker.request.XPost? {
      var saved := Post(worker.row, worker.request.campaign, worker.pc.published);
      CompleteEffect(s.db.(posts := s.db.posts[post := saved]), CtxOf(s, w), Succeeded,
                     PostResponse(post, worker.turn, saved), now);
    }
    assert worker.row in s.db.rows ==> s.db.rows[worker.row := s.db.rows[worker.row]] == s.db.rows;
    assert s.workers[w := worker] == s.workers;
  }

  lemma SaveUpsertEffect(s: State, w: Token, company: nat, newId: nat, generated: Option<Campaigns.Digest>, now: Time,
                         seen: bool)
    requires w in s.workers
    ensures WorkerEffect(s, SaveUpsertStep(s, w, company, newId, generated, now, seen), w)
  {
    hide Complete, WriteCampaign;
    var worker := s.workers[w];
    if worker.request.Upsert? && WriteCampaign(s.db.campaigns, company, newId, worker.request, generated, now).Some? {
      var campaigns := WriteCampaign(s.db.campaigns, company, newId, worker.request, generated, now).value;
      CompleteEffect(s.db.(campaigns := campaigns), CtxOf(s, w), Succeeded,
                     CampaignResponse(worker.request, newId, worker.turn, now), now);
    }
    assert worker.row in s.db.rows ==> s.db.rows[worker.row := s.db.rows[worker.row]] == s.db.rows;
    assert s.workers[w := worker] == s.workers;
  }

  /** The steps whose only transaction is a conditional update of the row. */
  lemma RowStepEffect(cfg: Config, s: State, w: Token, e: Event)
    requires w in s.workers && TokenOf(e) == Some(w)
    requires e.Mark? || e.CallX? || e.Persist? || e.CheckStored? || e.Trip? || e.Expire? || e.Crash?
    ensures WorkerEffect(s, WorkerStep(cfg, s, e), w)
  {
    hide FromExternal, Publishable;
    var worker := s.workers[w];
    assert worker.row in s.db.rows ==> s.db.rows[worker.row := s.db.rows[worker.row]] == s.db.rows;
    assert s.workers[w := worker] == s.workers;
  }

  lemma WorkerStepEffect(cfg: Config, s: State, e: Event)
    requires TokenOf(e).Some? && TokenOf(e).value in s.workers
    ensures WorkerEffect(s, WorkerStep(cfg, s, e), TokenOf(e).value)
  {
    hide WorkerEffect;
    var w := TokenOf(e).value;
    match e
    case FailPlan(_, code, now) =>
      FailEffect(s, w, code, Failed, now, Stopped);
      StandingStill(s, w);
    case CloseRejected(_, now, dbError, seen) =>
      FailEffect(s, w, XPostFailed, Failed, now, if seen then Stopped else CallUnclear);
      MovingOnly(s, w, CallUnclear);
      StandingStill(s, w);
    case CloseUnclear(_, now, seen) =>
      FailEffect(s, w, XPostOutcomeUnknown, OutcomeUnknown, now, if seen then Stopped else CallUnclear);
      StandingStill(s, w);
    case Save(_, post, now, dbError, seen) => SaveEffect(s, w, post, now, dbError, seen);
    case SaveUpsert(_, company, newId, generated, now, seen) =>
      SaveUpsertEffect(s, w, company, newId, generated, now, seen);
    case _ => RowStepEffect(cfg, s, w, e);
  }

  lemma MovingOnly(s: State, w: Token, pc: Pc)
    requires w in s.workers
    ensures WorkerEffect(s, Goto(s, w, pc), w)
  {
    assert s.workers[w].row in s.db.rows ==> s.db.rows[s.workers[w].row := s.db.rows[s.workers[w].row]] == s.db.rows;
  }

  lemma StandingStill(s: State, w: Token)
    requires w in s.workers
    ensures WorkerEffect(s, s, w)
  {
    MovingOnly(s, w, s.workers[w].pc);
    assert s.workers[w := s.workers[w].(pc := s.workers[w].pc)] == s.workers;
  }

  /** How the rows may change in any step: what left `processing` is never touched again, except by an operator. */
  predicate RowsAfter(rows: Rows, rows': Rows, e: Event) {
    forall k | k in rows ::
      && k in rows'
      && rows'[k].request == rows[k].request && rows'[k].session == rows[k].session
      && (Final(rows[k].status) ==> rows'[k] == rows[k])
      && (rows[k].status == OutcomeUnknown && rows'[k] != rows[k] ==> Resolves(e, k) && Final(rows'[k].status))
  }

  predicate Resolves(e: Event, k: RowKey) {
    (e.ResolveAsPosted? && e.k == k) || (e.ResolveAsNotPosted? && e.k == k)
  }

  /** No step gives a row to a worker that already exists. */
  predicate NoGain(s: State, t: State) {
    forall v | v in s.workers ::
      v in t.workers && t.workers[v].row == s.workers[v].row
      && (Owns(t.db.rows, t.workers[v].row, v) ==> Owns(s.db.rows, s.workers[v].row, v))
  }

  /** The rows after one row `k` was written under a token that no existing worker holds, or ended. */
  lemma OneRowWritten(s: State, t: State, e: Event, k: RowKey, r': Row)
    requires t.db.rows == s.db.rows[k := r']
             && (forall v | v in s.workers :: v in t.workers && t.workers[v] == s.workers[v])
    requires r'.status == Processing ==> r'.token !in s.workers
    requires k in s.db.rows ==>
               && RowEvolves(s.db.rows[k], r') && !Final(s.db.rows[k].status)
               && (s.db.rows[k].status == OutcomeUnknown ==> Resolves(e, k) && Final(r'.status))
    ensures RowsAfter(s.db.rows, t.db.rows, e) && NoGain(s, t)
  {
  }

  lemma ClaimRows(cfg: Config, s: State, e: Event, args: ClaimArgs)
    requires Inv(cfg, s) && args.token !in s.workers && args.turn !in s.db.tables.turns && args.leaseSeconds > 0
    requires e.Claim?
    ensures RowsAfter(s.db.rows, ClaimStep(s, args).db.rows, e) && NoGain(s, ClaimStep(s, args))
  {
    hide DbInv, ProtocolInv, RowsAfter, NoGain, StartNew, DecideExisting;
    var t := ClaimStep(s, args);
    SameRowsAfter(s, t, e);
    if args.ownsSession && args.row in s.db.rows {
      DecideKeepsInv(s.db, args);
      var result := DecideExisting(s.db, args);
      if !result.Rejected? && result.db != s.db {
        OneRowWritten(s, t, e, args.row, t.db.rows[args.row]);
      }
    } else if args.ownsSession && !args.archived {
      StartNewKeepsInv(s.db, args);
      OneRowWritten(s, t, e, args.row, t.db.rows[args.row]);
    }
  }

  lemma RefusedClaim(s: State, args: ClaimArgs)
    requires args.token in s.workers || args.turn in s.db.tables.turns || args.leaseSeconds == 0
    ensures ClaimStep(s, args) == s
  {
  }

  lemma SameRowsAfter(s: State, t: State, e: Event)
    ensures t.db.rows == s.db.rows && t.workers == s.workers ==> RowsAfter(s.db.rows, t.db.rows, e) && NoGain(s, t)
  {
  }

  lemma OperatorRows(cfg: Config, s: State, e: Event)
    requires Inv(cfg, s) && (e.ResolveAsPosted? || e.ResolveAsNotPosted? || e.ClaimByOperator?)
    ensures RowsAfter(s.db.rows, Step(cfg, s, e).db.rows, e) && NoGain(s, Step(cfg, s, e))
  {
    hide DbInv, ProtocolInv, RowsAfter, NoGain, Insertable, AuditTurn;
    var t := Step(cfg, s, e);
    SameRowsAfter(s, t, e);
    if e.ClaimByOperator? { ClaimResumeKeepsInv(s.db, e.k, e.token, e.now, cfg.leaseSeconds); }
    if t.db.rows != s.db.rows || t.workers != s.workers { OneRowWritten(s, t, e, e.k, t.db.rows[e.k]); }
  }

  lemma WorkerRows(cfg: Config, s: State, e: Event)
    requires TokenOf(e).Some? && TokenOf(e).value in s.workers
    ensures RowsAfter(s.db.rows, WorkerStep(cfg, s, e).db.rows, e) && NoGain(s, WorkerStep(cfg, s, e))
  {
    hide WorkerStep;
    WorkerStepEffect(cfg, s, e);
  }

  lemma StepRows(cfg: Config, s: State, e: Event)
    requires Inv(cfg, s)
    ensures RowsAfter(s.db.rows, Step(cfg, s, e).db.rows, e) && NoGain(s, Step(cfg, s, e))
  {
    hide Inv, RowsAfter, NoGain, WorkerStep, ClaimStep;
    SameRowsAfter(s, Step(cfg, s, e), e);
    if TokenOf(e).Some? {
      if TokenOf(e).value in s.workers { WorkerRows(cfg, s, e); }
    } else if e.Claim? {
      var args := e.args.(leaseSeconds := cfg.leaseSeconds);
      if args.token !in s.workers && args.turn !in s.db.tables.turns && args.leaseSeconds > 0 {
        ClaimRows(cfg, s, e, args);
      } else {
        RefusedClaim(s, args);
      }
    } else if e.ResolveAsPosted? || e.ResolveAsNotPosted? || e.ClaimByOperator? {
      OperatorRows(cfg, s, e);
    }
  }

  // ---------- Over whole runs ----------

  /**
   Once a row was taken over, ended or recovered, its former worker stays fenced in every
   continuation, and each of its later steps leaves all tables exactly unchanged.
   */
  lemma {:induction false} FencedForever(cfg: Config, s: State, w: Token, later: seq<Event>)
    requires Inv(cfg, s) && Fenced(s, w)
    ensures Inv(cfg, Run(cfg, s, later)) && Fenced(Run(cfg, s, later), w)
    ensures forall e | TokenOf(e) == Some(w) :: Step(cfg, Run(cfg, s, later), e).db == Run(cfg, s, later).db
    decreases |later|
  {
    hide Inv, RowsAfter, WorkerStep;
    if later == [] {
      forall e | TokenOf(e) == Some(w) ensures Step(cfg, s, e).db == s.db { WorkerStepEffect(cfg, s, e); }
    } else {
      StepRows(cfg, s, later[0]);
      StepKeepsInv(cfg, s, later[0]);
      FencedForever(cfg, Step(cfg, s, later[0]), w, later[1..]);
    }
  }

  /** Succeeded and failed rows never change again, not even in a timestamp or token. */
  lemma {:induction false} FinalRowsAbsorb(cfg: Config, s: State, later: seq<Event>, k: RowKey)
    requires Inv(cfg, s) && k in s.db.rows && Final(s.db.rows[k].status)
    ensures k in Run(cfg, s, later).db.rows && Run(cfg, s, later).db.rows[k] == s.db.rows[k]
    decreases |later|
  {
    hide Inv, NoGain;
    if later != [] {
      StepRows(cfg, s, later[0]);
      StepKeepsInv(cfg, s, later[0]);
      FinalRowsAbsorb(cfg, Step(cfg, s, later[0]), later[1..], k);
    }
  }

  /** An outcome-unknown row stays as it is until an operator resolves it, once, into a final row. */
  lemma {:induction false} UnknownLeftOnlyByOperator(cfg: Config, s: State, later: seq<Event>, k: RowKey)
    requires Inv(cfg, s) && k in s.db.rows && s.db.rows[k].status == OutcomeUnknown
    ensures var rows := Run(cfg, s, later).db.rows;
            k in rows && (rows[k] == s.db.rows[k]
                          || (Final(rows[k].status) && exists e :: e in later && Resolves(e, k)))
    decreases |later|
  {
    hide Inv, NoGain;
    if later != [] {
      var next := Step(cfg, s, later[0]);
      StepRows(cfg, s, later[0]);
      StepKeepsInv(cfg, s, later[0]);
      if next.db.rows[k] == s.db.rows[k] {
        UnknownLeftOnlyByOperator(cfg, next, later[1..], k);
        forall e | e in later[1..] ensures e in later {}
      } else {
        FinalRowsAbsorb(cfg, next, later[1..], k);
        assert later[0] in later;
      }
    }
  }

  /** In every run: whoever lost its row is inert for good, and each of its steps leaves all tables as they are. */
  lemma FencedWorkersAreInert(cfg: Config, before: seq<Event>, later: seq<Event>, w: Token, e: Event)
    requires Fenced(Reached(cfg, before), w) && TokenOf(e) == Some(w)
    ensures var s := Run(cfg, Reached(cfg, before), later);
            Fenced(s, w) && Step(cfg, s, e).db == s.db
  {
    hide Inv, Fenced, Step;
    ReachedInv(cfg, before);
    FencedForever(cfg, Reached(cfg, before), w, later);
  }

  /** In every run: a final row is the same row for good. */
  lemma FinalRowsNeverChange(cfg: Config, before: seq<Event>, later: seq<Event>, k: RowKey)
    requires k in Reached(cfg, before).db.rows && Final(Reached(cfg, before).db.rows[k].status)
    ensures var rows := Run(cfg, Reached(cfg, before), later).db.rows;
            k in rows && rows[k] == Reached(cfg, before).db.rows[k]
  {
    hide Inv;
    ReachedInv(cfg, before);
    FinalRowsAbsorb(cfg, Reached(cfg, before), later, k);
  }

  /** In every run: an outcome-unknown row waits for an operator, who resolves it once and finally. */
  lemma UnknownRowsWaitForOperator(cfg: Config, before: seq<Event>, later: seq<Event>, k: RowKey)
    requires k in Reached(cfg, before).db.rows && Reached(cfg, before).db.rows[k].status == OutcomeUnknown
    ensures var rows := Run(cfg, Reached(cfg, before), later).db.rows;
            && k in rows
            && (rows[k] == Reached(cfg, before).db.rows[k]
                || (Final(rows[k].status) && exists e :: e in later && Resolves(e, k)))
  {
    hide Inv;
    ReachedInv(cfg, before);
    UnknownLeftOnlyByOperator(cfg, Reached(cfg, before), later, k);
  }

  /** The same session, key and body get the stored response, byte for byte, and change nothing. */
  lemma ResentRequestReplays(cfg: Config, events: seq<Event>, later: seq<Event>, args: ClaimArgs)
    requires var rows := Reached(cfg, events).db.rows;
             args.row in rows && Final(rows[args.row].status) && args.ownsSession
             && args.session == rows[args.row].session && args.request == rows[args.row].request
    ensures var db := Run(cfg, Reached(cfg, events), later).db;
            var stored := Reached(cfg, events).db.rows[args.row].response;
            stored.Some? && ClaimRequest(db, args) == Replayed(db, stored.value)
  {
    hide Inv;
    ReachedInv(cfg, events);
    FinalRowsAbsorb(cfg, Reached(cfg, events), later, args.row);
    RowsCoupled(cfg, events, args.row);
  }

  /** An outcome-unknown row answers the same, unless an operator resolved it in between. */
  lemma ResentUnknownReplays(cfg: Config, events: seq<Event>, later: seq<Event>, args: ClaimArgs)
    requires var rows := Reached(cfg, events).db.rows;
             args.row in rows && rows[args.row].status == OutcomeUnknown && args.ownsSession
             && args.session == rows[args.row].session && args.request == rows[args.row].request
    requires forall e | e in later :: !Resolves(e, args.row)
    ensures var db := Run(cfg, Reached(cfg, events), later).db;
            var stored := Reached(cfg, events).db.rows[args.row].response;
            stored.Some? && ClaimRequest(db, args) == Replayed(db, stored.value)
  {
    hide Inv;
    ReachedInv(cfg, events);
    UnknownLeftOnlyByOperator(cfg, Reached(cfg, events), later, args.row);
    RowsCoupled(cfg, events, args.row);
  }

  // ---------- Where the operator's word is needed ----------

  /**
   `FailedMeansUnpublished` must exempt rows decided by an operator. A worker that stalls between
   recording the start of the effect and calling X keeps the call: the resent request closes the row
   as unknown, the operator truthfully answers "not posted", and the stalled worker then publishes.
   */
  lemma OperatorCanBeOvertaken(cfg: Config, s: State, w: Token, args: ClaimArgs, audit: TurnId, now: Time, id: string,
                               at: Time)
    requires Inv(cfg, s) && w in s.workers && s.workers[w].pc.ReadyToCall? && s.workers[w].row == args.row
    requires s.db.rows[args.row].status == Processing && s.db.rows[args.row].lease <= args.now
    requires args.ownsSession && args.session == s.db.rows[args.row].session
             && args.request == s.db.rows[args.row].request
    requires args.token !in s.workers && args.turn !in s.db.tables.turns && cfg.leaseSeconds > 0
             && audit !in s.db.tables.turns
    ensures var t := Run(cfg, s, [Claim(args), ResolveAsNotPosted(args.row, audit, now), CallX(w, XAccepted(id, at))]);
            && args.row in t.db.rows && t.db.rows[args.row].status == Failed
            && exists c :: c in t.calls && c.row == args.row && c.published
  {
    hide Inv;
    var resend, resolve, call := Claim(args), ResolveAsNotPosted(args.row, audit, now), CallX(w, XAccepted(id, at));
    var s1 := Step(cfg, s, resend);
    var s2 := Step(cfg, s1, resolve);
    StalledRowBecomesUnknown(cfg, s, w, args, audit);
    UnknownRowFails(s1, cfg, args.row, audit, now);
    LateCallPublishes(cfg, s2, w, id, at);
    hide Step;
    RunOfThree(cfg, s, resend, resolve, call);
  }

  lemma LateCallPublishes(cfg: Config, s: State, w: Token, id: string, at: Time)
    requires w in s.workers && s.workers[w].pc.ReadyToCall? && s.workers[w].request.XPost?
    ensures var t := Step(cfg, s, CallX(w, XAccepted(id, at)));
            && t.db == s.db
            && exists c :: c in t.calls && c.row == s.workers[w].row && c.published
  {
    var t := Step(cfg, s, CallX(w, XAccepted(id, at)));
    var c := t.calls[|s.calls|];
    assert c in t.calls && c.row == s.workers[w].row && c.published;
  }

  lemma RunOfThree(cfg: Config, s: State, a: Event, b: Event, c: Event)
    ensures Run(cfg, s, [a, b, c]) == Step(cfg, Step(cfg, Step(cfg, s, a), b), c)
  {
    hide Step;
    var s1 := Step(cfg, s, a);
    var s2 := Step(cfg, s1, b);
    assert [a, b, c][1..] == [b, c] && [b, c][1..] == [c] && [c][1..] == [];
    assert Run(cfg, s1, [b, c]) == Run(cfg, s2, [c]) == Run(cfg, Step(cfg, s2, c), []);
  }

  lemma StalledRowBecomesUnknown(cfg: Config, s: State, w: Token, args: ClaimArgs, audit: TurnId)
    requires Inv(cfg, s) && w in s.workers && s.workers[w].pc.ReadyToCall? && s.workers[w].row == args.row
    requires s.db.rows[args.row].status == Processing && s.db.rows[args.row].lease <= args.now
    requires args.ownsSession && args.session == s.db.rows[args.row].session
             && args.request == s.db.rows[args.row].request
    requires args.token !in s.workers && args.turn !in s.db.tables.turns && cfg.leaseSeconds > 0
             && audit !in s.db.tables.turns
    ensures var t := Step(cfg, s, Claim(args));
            && t.workers == s.workers && args.row in t.db.rows && t.db.rows[args.row].status == OutcomeUnknown
            && t.db.rows[args.row].turn.Some? && args.row.op == PublishXPost
            && s.workers[w].request.XPost? && audit !in t.db.tables.turns
  {
    hide DbInv, TokensIssued, OneMark, CallsOk, EvidenceOk, OutcomeOk, PostsDirect;
    var a := args.(leaseSeconds := cfg.leaseSeconds);
    assert WorkerOk(cfg, s.db.rows, w, s.workers[w]);
    DecideKeepsInv(s.db, a);
    RowIsOk(s.db, args.row);
    CloseUnknownKeepsInv(s.db, a);
    KeepsAuditFree(s.db, a, audit);
  }

  lemma KeepsAuditFree(db: Db, args: ClaimArgs, audit: TurnId)
    requires args.row in db.rows && db.rows[args.row].turn.Some? && audit !in db.tables.turns
    ensures CloseUnknown(db, args).Replayed? ==> audit !in CloseUnknown(db, args).db.tables.turns
  {
  }

  lemma UnknownRowFails(s: State, cfg: Config, k: RowKey, audit: TurnId, now: Time)
    requires AwaitsOperator(s.db.rows, k) && k.op == PublishXPost && audit !in s.db.tables.turns
    ensures var t := Step(cfg, s, ResolveAsNotPosted(k, audit, now));
            t.workers == s.workers && t.calls == s.calls && k in t.db.rows && t.db.rows[k].status == Failed
  {
    hide AuditTurn;
  }

  lemma {:induction false} RunConcat(cfg: Config, s: State, a: seq<Event>, b: seq<Event>)
    ensures Run(cfg, s, a + b) == Run(cfg, Run(cfg, s, a), b)
    decreases |a|
  {
    hide Step;
    if a == [] {
      assert a + b == b;
    } else {
      assert (a + b)[0] == a[0] && (a + b)[1..] == a[1..] + b;
      RunConcat(cfg, Step(cfg, s, a[0]), a[1..], b);
    }
  }

  /** A first request that may be published. */
  predicate FirstRequest(cfg: Config, args: ClaimArgs) {
    && cfg.leaseSeconds > 0 && args.ownsSession && !args.archived && args.row.op == PublishXPost
    && Publishable(cfg.url, args.request, args.row.key)
  }

  lemma FirstClaimGranted(cfg: Config, args: ClaimArgs)
    requires FirstRequest(cfg, args)
    ensures var s := Step(cfg, INITIAL, Claim(args));
            var a := args.(leaseSeconds := cfg.leaseSeconds);
            && s.db.rows == map[args.row := NewRow(a)]
            && s.workers == map[args.token := Worker(args.row, args.turn, args.request, false, Planning)]
            && s.db.tables.turns.Keys == {args.turn}
  {
    hide DbInv, Complete, Publishable;
    var a := args.(leaseSeconds := cfg.leaseSeconds);
    EmptyDbInv();
    StartNewKeepsInv(EMPTY_DB, a);
    assert !HasUnresolvedDuplicate(map[a.row := NewRow(a)], a.row.marketer, a.request, a.row);
  }

  /** Two events into a run a worker may stall between recording the start and calling X. */
  lemma StalledWorkerIsReachable(cfg: Config, args: ClaimArgs)
    requires FirstRequest(cfg, args)
    ensures var s := Reached(cfg, [Claim(args), Mark(args.token, args.now, true)]);
            && args.token in s.workers && s.workers[args.token].pc.ReadyToCall? && s.workers[args.token].row == args.row
            && s.workers.Keys == {args.token} && s.db.tables.turns.Keys == {args.turn}
            && args.row in s.db.rows && s.db.rows[args.row].status == Processing
            && s.db.rows[args.row].lease == args.now + cfg.leaseSeconds
            && s.db.rows[args.row].session == args.session && s.db.rows[args.row].request == args.request
            && s.db.rows[args.row].token == args.token && s.workers[args.token].request == args.request
  {
    hide Publishable, ClaimStep;
    FirstClaimGranted(cfg, args);
    var s1 := Step(cfg, INITIAL, Claim(args));
    var mark := Mark(args.token, args.now, true);
    assert [Claim(args), mark][1..] == [mark] && [mark][1..] == [];
    assert Run(cfg, s1, [mark]) == Run(cfg, Step(cfg, s1, mark), []);
  }

  /** So there is a run at whose end X has published for a row that an operator made failed. */
  lemma OvertakenInSomeRun(cfg: Config, first: ClaimArgs, resend: ClaimArgs, audit: TurnId, now: Time, id: string,
                           at: Time)
    requires FirstRequest(cfg, first) && resend == first.(token := resend.token, turn := resend.turn, now := resend.now)
    requires resend.token != first.token && resend.turn != first.turn && audit != first.turn
    requires first.now + cfg.leaseSeconds <= resend.now
    ensures exists events: seq<Event> ::
              var s := Reached(cfg, events);
              first.row in s.db.rows && s.db.rows[first.row].status == Failed
              && exists c :: c in s.calls && c.row == first.row && c.published
  {
    hide Inv, Publishable, Step;
    var opening := [Claim(first), Mark(first.token, first.now, true)];
    var ending := [Claim(resend), ResolveAsNotPosted(first.row, audit, now), CallX(first.token, XAccepted(id, at))];
    StalledWorkerIsReachable(cfg, first);
    ReachedInv(cfg, opening);
    OperatorCanBeOvertaken(cfg, Reached(cfg, opening), first.token, resend, audit, now, id, at);
    RunConcat(cfg, INITIAL, opening, ending);
    assert Reached(cfg, opening + ending) == Run(cfg, Reached(cfg, opening), ending);
  }
}
