/**
 What the approval protocol answers, value by value: the response that every row stores in every reachable
 state, and what a first, a resent and a refused request are told.
 */
module ProtocolAnswers {
  import opened Options
  import opened Idempotency
  import opened PublishedPosts
  import opened Approval
  import opened ApprovalInvariant
  import opened Protocol
  import opened ProtocolInvariant
  import opened ProtocolTheorems
  import opened ProtocolProgress

  // ---------- Stored responses ----------

  /** The errors that are stored before anything was sent, with their HTTP status. */
  predicate Refusal(op: Operation, http: nat, code: ErrorCode) {
    match code
    case InvalidArgument => http == 400
    case InvalidXPost => http == 422 && op == PublishXPost
    case XPostUnresolved => http == 409 && op == PublishXPost
    case InvalidCampaign => http == 422 && op == UpsertCampaign
    case CampaignNotFound => http == 404
    case CampaignArchived => http == 409
    case CampaignConflict => http == 409 && op == UpsertCampaign
    case EmbeddingFailed => http == 500
    case CampaignSaveFailed => http == 500 && op == UpsertCampaign
    case CampaignUpdateFailed => http == 500 && op == UpsertCampaign
    case _ => false
  }

  /** A failed row: X refused or an operator found nothing after the start was recorded; otherwise a refusal. */
  predicate FailureAnswer(k: RowKey, r: Row, response: Response) {
    r.turn.Some? && response.body.ErrorBody? && response.body.failedTurn == r.turn.value
    && (if r.started.Some? then response.http == 502 && response.body.code == XPostFailed
        else Refusal(k.op, response.http, response.body.code))
  }

  /** A saved campaign: created under a new id, or updated under its own. */
  predicate CampaignAnswer(r: Row, response: Response) {
    && r.turn.Some? && r.request.Upsert? && response.body.CampaignBody?
    && response.http == (if r.request.id.None? then 201 else 200)
    && (r.request.id.Some? ==> response.body.campaign == r.request.id.value)
    && response.body.turn == r.turn.value && response.body.content == r.request.content
  }

  /** The post of a row, column by column. */
  predicate PostAnswer(k: RowKey, r: Row, response: Response, id: nat, post: Post) {
    && r.turn.Some? && post.request == k && response.http == 201 && response.body.PostBody?
    && response.body.post == id && response.body.turn == r.turn.value && response.body.campaign == post.campaign
    && response.body.xPostId == post.published.xPostId && response.body.text == post.published.text
    && response.body.url == post.published.tracking.trackedUrl && response.body.at == post.published.publishedAt
  }

  ghost predicate RowAnswer(k: RowKey, r: Row, posts: map<nat, Post>) {
    match r.status
    case Processing => r.response.None?
    case OutcomeUnknown =>
      r.turn.Some? && r.response == Some(Response(504, ErrorBody(XPostOutcomeUnknown, r.turn.value)))
    case Failed => r.response.Some? && FailureAnswer(k, r, r.response.value)
    case Succeeded =>
      r.response.Some?
      && (if k.op == UpsertCampaign then CampaignAnswer(r, r.response.value)
          else exists p :: p in posts && PostAnswer(k, r, r.response.value, p, posts[p]))
  }

  ghost predicate AnswersOk(s: State) {
    forall k | k in s.db.rows :: RowAnswer(k, s.db.rows[k], s.db.posts)
  }

  lemma PostsKeepAnswer(k: RowKey, r: Row, posts: map<nat, Post>, posts': map<nat, Post>)
    requires RowAnswer(k, r, posts) && PostsGrow(posts, posts')
    ensures RowAnswer(k, r, posts')
  {
    hide PostAnswer;
    if r.status == Succeeded && k.op == PublishXPost {
      var p :| p in posts && PostAnswer(k, r, r.response.value, p, posts[p]);
      assert p in posts' && posts'[p] == posts[p];
    }
  }

  /** One row is written at most; what is written is answered as it should be. */
  ghost predicate AnswersStep(s: State, t: State, k: RowKey) {
    && PostsGrow(s.db.posts, t.db.posts)
    && (forall j | j in t.db.rows && j != k :: j in s.db.rows && t.db.rows[j] == s.db.rows[j])
    && (k in t.db.rows ==> RowAnswer(k, t.db.rows[k], t.db.posts))
  }

  lemma AnswersStepKeeps(s: State, t: State, k: RowKey)
    requires AnswersOk(s) && AnswersStep(s, t, k)
    ensures AnswersOk(t)
  {
    hide RowAnswer, PostsGrow;
    forall j | j in t.db.rows ensures RowAnswer(j, t.db.rows[j], t.db.posts) {
      if j != k { PostsKeepAnswer(j, s.db.rows[j], s.db.posts, t.db.posts); }
    }
  }

  /** Nothing that concerns a row or a post happened. */
  lemma SameAnswers(s: State, t: State)
    requires AnswersOk(s) && t.db.rows == s.db.rows && t.db.posts == s.db.posts
    ensures AnswersOk(t)
  {
  }

  lemma StillProcessing(db: Db, k: RowKey, r: Row, posts: map<nat, Post>)
    requires RowOk(k, r) && r.status == Processing
    ensures RowAnswer(k, r, posts)
  {
  }

  // ---------- Workers ----------

  /** A row ended with an error by its worker. */
  lemma FailAnswers(cfg: Config, s: State, w: Token, code: ErrorCode, status: Status, now: Time, next: Pc)
    requires Inv(cfg, s) && AnswersOk(s) && w in s.workers
    requires var worker := s.workers[w];
             || (worker.pc.Planning? && status == Failed && PlanningError(worker.row.op, code))
             || (worker.pc.CallRejected? && status == Failed && code == XPostFailed)
             || (worker.pc.CallUnclear? && status == OutcomeUnknown && code == XPostOutcomeUnknown)
    ensures AnswersOk(FailStep(s, w, code, status, now, next))
  {
    hide DbInv, TokensIssued, OneMark, CallsOk, EvidenceOk, OutcomeOk, PostsDirect, Complete, AnswersOk;
    var worker := s.workers[w];
    var ctx := CtxOf(s, w);
    assert WorkerOk(cfg, s.db.rows, w, worker);
    RowIsOk(s.db, worker.row);
    CompleteEffect(s.db, ctx, status, ErrorResponse(code, worker.turn), now);
    var t := FailStep(s, w, code, status, now, next);
    var tx := FailRequest(s.db, ctx, code, status, now);
    if tx.Committed? {
      var r' := FinalRow(s.db.rows[worker.row], status, ErrorResponse(code, worker.turn));
      assert t.db.rows[worker.row] == r';
      AnswersStepKeeps(s, t, worker.row);
    } else {
      SameAnswers(s, t);
    }
  }

  lemma SaveAnswers(cfg: Config, s: State, w: Token, post: nat, now: Time, dbError: bool, seen: bool)
    requires Inv(cfg, s) && AnswersOk(s) && w in s.workers
    ensures AnswersOk(SaveStep(s, w, post, now, dbError, seen))
  {
    hide DbInv, TokensIssued, OneMark, CallsOk, EvidenceOk, OutcomeOk, PostsDirect, Complete, AnswersOk, Insertable,
      FromExternal;
    var worker := s.workers[w];
    var t := SaveStep(s, w, post, now, dbError, seen);
    assert WorkerOk(cfg, s.db.rows, w, worker);
    if worker.pc.Saving? && worker.request.XPost? && !dbError
       && SavePost(s.db, CtxOf(s, w), post, worker.request.campaign, worker.pc.published, now).Committed? {
      var saved := Post(worker.row, worker.request.campaign, worker.pc.published);
      var posts := s.db.posts[post := saved];
      NewPostId(s.db.posts, post, saved);
      CompleteEffect(s.db.(posts := posts), CtxOf(s, w), Succeeded, PostResponse(post, worker.turn, saved), now);
      var r' := FinalRow(s.db.rows[worker.row], Succeeded, PostResponse(post, worker.turn, saved));
      assert t.db.rows[worker.row] == r' && t.db.posts == posts;
      assert PostAnswer(worker.row, r', r'.response.value, post, posts[post]);
      AnswersStepKeeps(s, t, worker.row);
    } else {
      SameAnswers(s, t);
    }
  }

  lemma NewPostId(posts: map<nat, Post>, id: nat, post: Post)
    requires Insertable(posts, id, post)
    ensures id !in posts && PostsGrow(posts, posts[id := post])
  {
  }

  lemma SaveUpsertAnswers(cfg: Config, s: State, w: Token, company: nat, newId: nat,
                          generated: Option<Campaigns.Digest>, now: Time, seen: bool)
    requires Inv(cfg, s) && AnswersOk(s) && w in s.workers
    ensures AnswersOk(SaveUpsertStep(s, w, company, newId, generated, now, seen))
  {
    hide DbInv, TokensIssued, OneMark, CallsOk, EvidenceOk, OutcomeOk, PostsDirect, Complete, AnswersOk, WriteCampaign;
    var worker := s.workers[w];
    var t := SaveUpsertStep(s, w, company, newId, generated, now, seen);
    assert WorkerOk(cfg, s.db.rows, w, worker);
    if worker.pc.Planning? && worker.row.op == UpsertCampaign && worker.request.Upsert?
       && SaveCampaign(s.db, CtxOf(s, w), company, newId, worker.request, generated, now).Committed? {
      var campaigns := WriteCampaign(s.db.campaigns, company, newId, worker.request, generated, now).value;
      var response := CampaignResponse(worker.request, newId, worker.turn, now);
      CompleteEffect(s.db.(campaigns := campaigns), CtxOf(s, w), Succeeded, response, now);
      var r' := FinalRow(s.db.rows[worker.row], Succeeded, response);
      assert t.db.rows[worker.row] == r';
      AnswersStepKeeps(s, t, worker.row);
    } else {
      SameAnswers(s, t);
    }
  }

  /** The steps that leave their row processing. */
  lemma QuietAnswers(cfg: Config, s: State, e: Event)
    requires Inv(cfg, s) && AnswersOk(s) && TokenOf(e).Some? && TokenOf(e).value in s.workers
    requires e.Mark? || e.CallX? || e.Persist? || e.CheckStored? || e.Trip? || e.Expire? || e.Crash?
    ensures AnswersOk(WorkerStep(cfg, s, e))
  {
    hide Inv, FromExternal, Publishable, AnswersOk, RowAnswer;
    var t := WorkerStep(cfg, s, e);
    var k := s.workers[TokenOf(e).value].row;
    assert t.db == s.db.(rows := t.db.rows) && (t.db.rows == s.db.rows || Owns(s.db.rows, k, TokenOf(e).value));
    if t.db.rows == s.db.rows {
      SameAnswers(s, t);
    } else {
      StepKeepsInv(cfg, s, e);
      StaysProcessing(s, t, k, TokenOf(e).value, e, cfg);
      RowOfInv(cfg, t, k);
      StillProcessing(t.db, k, t.db.rows[k], t.db.posts);
      AnswersStepKeeps(s, t, k);
    }
  }

  lemma StaysProcessing(s: State, t: State, k: RowKey, w: Token, e: Event, cfg: Config)
    requires w in s.workers && TokenOf(e) == Some(w) && k == s.workers[w].row && t == WorkerStep(cfg, s, e)
    requires e.Mark? || e.CallX? || e.Persist? || e.CheckStored? || e.Trip? || e.Expire? || e.Crash?
    requires t.db.rows != s.db.rows
    ensures k in t.db.rows && t.db.rows[k].status == Processing && PostsGrow(s.db.posts, t.db.posts)
    ensures forall j | j in t.db.rows && j != k :: j in s.db.rows && t.db.rows[j] == s.db.rows[j]
  {
    hide FromExternal, Publishable;
  }

  lemma RowOfInv(cfg: Config, s: State, k: RowKey)
    requires Inv(cfg, s) && k in s.db.rows
    ensures RowOk(k, s.db.rows[k])
  {
    hide ProtocolInv;
    RowIsOk(s.db, k);
  }

  lemma WorkerAnswers(cfg: Config, s: State, e: Event)
    requires Inv(cfg, s) && AnswersOk(s) && TokenOf(e).Some? && TokenOf(e).value in s.workers
    ensures AnswersOk(WorkerStep(cfg, s, e))
  {
    hide Inv, FailStep;
    match e
    case FailPlan(w, code, now) =>
      if s.workers[w].pc.Planning? && PlanningError(s.workers[w].row.op, code) {
        FailAnswers(cfg, s, w, code, Failed, now, Stopped);
      }
    case CloseRejected(w, now, dbError, seen) =>
      if s.workers[w].pc.CallRejected? {
        FailAnswers(cfg, s, w, XPostFailed, Failed, now, if seen then Stopped else CallUnclear);
        SameAnswers(s, Goto(s, w, CallUnclear));
      }
    case CloseUnclear(w, now, seen) =>
      if s.workers[w].pc.CallUnclear? {
        FailAnswers(cfg, s, w, XPostOutcomeUnknown, OutcomeUnknown, now, if seen then Stopped else CallUnclear);
      }
    case Save(w, post, now, dbError, seen) => SaveAnswers(cfg, s, w, post, now, dbError, seen);
    case SaveUpsert(w, company, newId, generated, now, seen) =>
      SaveUpsertAnswers(cfg, s, w, company, newId, generated, now, seen);
    case _ => QuietAnswers(cfg, s, e);
  }

  // ---------- Requests and operators ----------

  lemma ClaimAnswers(cfg: Config, s: State, args: ClaimArgs)
    requires Inv(cfg, s) && AnswersOk(s)
    ensures AnswersOk(ClaimStep(s, args))
  {
    hide DbInv, ProtocolInv, StartNew, DecideExisting, AnswersOk, RowAnswer;
    var t := ClaimStep(s, args);
    if args.token in s.workers || args.turn in s.db.tables.turns || args.leaseSeconds == 0 || !args.ownsSession
       || (args.row !in s.db.rows && args.archived) {
      SameAnswers(s, t);
    } else if args.row in s.db.rows {
      DecideKeepsInv(s.db, args);
      ClaimedAnswer(cfg, s, args, DecideExisting(s.db, args));
    } else {
      StartNewKeepsInv(s.db, args);
      StartedAnswer(s, args, t.db);
      AnswersStepKeeps(s, t, args.row);
    }
  }

  lemma StartedAnswer(s: State, args: ClaimArgs, db: Db)
    requires args.row !in s.db.rows && db.posts == s.db.posts
    requires db.rows == s.db.rows[args.row := NewRow(args)]
          || (args.row.op == PublishXPost
              && db.rows == s.db.rows[args.row := FinalRow(NewRow(args), Failed,
                                                           Response(409, ErrorBody(XPostUnresolved, args.turn)))])
    ensures RowAnswer(args.row, db.rows[args.row], db.posts) && PostsGrow(s.db.posts, db.posts)
  {
  }

  lemma ClaimedAnswer(cfg: Config, s: State, args: ClaimArgs, result: ClaimResult)
    requires Inv(cfg, s) && AnswersOk(s) && args.row in s.db.rows && s.db.rows[args.row].turn.Some?
    requires DecidedAs(s.db, args, result) && result == DecideExisting(s.db, args)
    requires args.ownsSession && args.token !in s.workers && args.turn !in s.db.tables.turns && args.leaseSeconds > 0
    ensures AnswersOk(ClaimStep(s, args))
  {
    hide Inv, DecideExisting, AnswersOk;
    var t := ClaimStep(s, args);
    RowOfInv(cfg, s, args.row);
    if t.db.rows == s.db.rows { SameAnswers(s, t); } else { AnswersStepKeeps(s, t, args.row); }
  }

  lemma PostedAnswers(cfg: Config, s: State, e: Event)
    requires Inv(cfg, s) && AnswersOk(s) && e.ResolveAsPosted?
    ensures AnswersOk(Step(cfg, s, e))
  {
    hide DbInv, ProtocolInv, AnswersOk, Insertable, AuditTurn;
    var t := Step(cfg, s, e);
    if e.k in s.db.rows { RowIsOk(s.db, e.k); }
    if t.db.rows == s.db.rows && t.db.posts == s.db.posts {
      SameAnswers(s, t);
    } else {
      var saved := t.db.posts[e.post];
      NewPostId(s.db.posts, e.post, saved);
      assert PostAnswer(e.k, t.db.rows[e.k], t.db.rows[e.k].response.value, e.post, t.db.posts[e.post]);
      AnswersStepKeeps(s, t, e.k);
    }
  }

  lemma NotPostedAnswers(cfg: Config, s: State, e: Event)
    requires Inv(cfg, s) && AnswersOk(s) && e.ResolveAsNotPosted?
    ensures AnswersOk(Step(cfg, s, e))
  {
    hide DbInv, ProtocolInv, AnswersOk, AuditTurn;
    var t := Step(cfg, s, e);
    if e.k in s.db.rows { RowIsOk(s.db, e.k); }
    if t.db.rows == s.db.rows { SameAnswers(s, t); } else { AnswersStepKeeps(s, t, e.k); }
  }

  lemma TakeoverAnswers(cfg: Config, s: State, e: Event)
    requires Inv(cfg, s) && AnswersOk(s) && e.ClaimByOperator?
    ensures AnswersOk(Step(cfg, s, e))
  {
    hide DbInv, ProtocolInv, AnswersOk;
    var t := Step(cfg, s, e);
    if e.k in s.db.rows { RowIsOk(s.db, e.k); }
    if t.db.rows == s.db.rows {
      SameAnswers(s, t);
    } else {
      ClaimResumeKeepsInv(s.db, e.k, e.token, e.now, cfg.leaseSeconds);
      AnswersStepKeeps(s, t, e.k);
    }
  }

  lemma StepAnswers(cfg: Config, s: State, e: Event)
    requires Inv(cfg, s) && AnswersOk(s)
    ensures AnswersOk(Step(cfg, s, e))
  {
    hide Inv, AnswersOk, WorkerStep, ClaimStep, ResolvePosted, ResolveNotPosted, ClaimResume;
    if TokenOf(e).Some? {
      if TokenOf(e).value in s.workers { WorkerAnswers(cfg, s, e); }
    } else if e.Claim? {
      ClaimAnswers(cfg, s, e.args.(leaseSeconds := cfg.leaseSeconds));
    } else if e.ResolveAsPosted? {
      PostedAnswers(cfg, s, e);
    } else if e.ResolveAsNotPosted? {
      NotPostedAnswers(cfg, s, e);
    } else if e.ClaimByOperator? {
      TakeoverAnswers(cfg, s, e);
    } else {
      SameAnswers(s, Step(cfg, s, e));
    }
  }

  lemma {:induction false} RunAnswers(cfg: Config, s: State, events: seq<Event>)
    requires Inv(cfg, s) && AnswersOk(s)
    ensures AnswersOk(Run(cfg, s, events))
    decreases |events|
  {
    hide Inv, AnswersOk, Step;
    if events != [] {
      StepKeepsInv(cfg, s, events[0]);
      StepAnswers(cfg, s, events[0]);
      RunAnswers(cfg, Step(cfg, s, events[0]), events[1..]);
    }
  }

  lemma ReachedAnswers(cfg: Config, events: seq<Event>)
    ensures AnswersOk(Reached(cfg, events))
  {
    hide Inv;
    InitialInv(cfg);
    RunAnswers(cfg, INITIAL, events);
  }

  // ---------- What is answered, in every run ----------

  /** An outcome-unknown row stores exactly 504 with its code and its turn. */
  lemma UnknownRowsAnswer504(cfg: Config, events: seq<Event>, k: RowKey)
    requires k in Reached(cfg, events).db.rows && Reached(cfg, events).db.rows[k].status == OutcomeUnknown
    ensures var r := Reached(cfg, events).db.rows[k];
            r.turn.Some? && r.response == Some(Response(504, ErrorBody(XPostOutcomeUnknown, r.turn.value)))
  {
    ReachedAnswers(cfg, events);
    assert RowAnswer(k, Reached(cfg, events).db.rows[k], Reached(cfg, events).db.posts);
  }

  /**
   A failed row tells its own turn. Once the start of the effect was recorded it stores 502 X_POST_FAILED, and
   before that it never does; it never stores the code of an unknown outcome or of a save that can be resumed.
   */
  lemma FailedRowsAnswer(cfg: Config, events: seq<Event>, k: RowKey)
    requires k in Reached(cfg, events).db.rows && Reached(cfg, events).db.rows[k].status == Failed
    ensures var r := Reached(cfg, events).db.rows[k];
            && r.turn.Some? && r.response.Some? && r.response.value.body.ErrorBody?
            && r.response.value.body.failedTurn == r.turn.value
            && r.response.value.body.code != XPostOutcomeUnknown && r.response.value.body.code != XPostSaveFailed
            && (r.started.Some? <==> r.response.value.body.code == XPostFailed)
            && (r.started.Some? ==> r.response.value.http == 502)
            && (r.started.None? ==> Refusal(k.op, r.response.value.http, r.response.value.body.code))
  {
    ReachedAnswers(cfg, events);
    assert RowAnswer(k, Reached(cfg, events).db.rows[k], Reached(cfg, events).db.posts);
  }

  /** A succeeded publish row stores 201 with the id and the columns of its one post. */
  lemma PublishedRowsAnswer201(cfg: Config, events: seq<Event>, k: RowKey)
    returns (p: nat)
    requires k in Reached(cfg, events).db.rows && Reached(cfg, events).db.rows[k].status == Succeeded
    requires k.op == PublishXPost
    ensures var s := Reached(cfg, events);
            var r := s.db.rows[k];
            && p in s.db.posts && s.db.posts[p].request == k && r.turn.Some?
            && (forall q | q in s.db.posts :: s.db.posts[q].request == k ==> q == p)
            && var post := s.db.posts[p];
               r.response == Some(Response(201, PostBody(p, r.turn.value, post.campaign, post.published.xPostId,
                                                         post.published.text, post.published.tracking.trackedUrl,
                                                         post.published.publishedAt)))
  {
    hide Inv;
    ReachedAnswers(cfg, events);
    var s := Reached(cfg, events);
    assert RowAnswer(k, s.db.rows[k], s.db.posts);
    p :| p in s.db.posts && PostAnswer(k, s.db.rows[k], s.db.rows[k].response.value, p, s.db.posts[p]);
    SucceededIffOnePost(cfg, events, k);
  }

  /** A succeeded campaign row stores 201 for a new campaign and 200 for an updated one, with its content. */
  lemma SavedRowsAnswer(cfg: Config, events: seq<Event>, k: RowKey)
    requires k in Reached(cfg, events).db.rows && Reached(cfg, events).db.rows[k].status == Succeeded
    requires k.op == UpsertCampaign
    ensures var r := Reached(cfg, events).db.rows[k];
            && r.turn.Some? && r.request.Upsert? && r.response.Some? && r.response.value.body.CampaignBody?
            && r.response.value.http == (if r.request.id.None? then 201 else 200)
            && (r.request.id.Some? ==> r.response.value.body.campaign == r.request.id.value)
            && r.response.value.body.turn == r.turn.value && r.response.value.body.content == r.request.content
  {
    ReachedAnswers(cfg, events);
    assert RowAnswer(k, Reached(cfg, events).db.rows[k], Reached(cfg, events).db.posts);
  }

  /** The campaign that a save writes is the one that it answers with: its id, its content and the time of the save. */
  lemma SavedCampaignIsAnswered(cfg: Config, events: seq<Event>, e: Event)
    requires e.SaveUpsert? && e.w in Reached(cfg, events).workers
    ensures var s := Reached(cfg, events);
            var k := s.workers[e.w].row;
            var t := Step(cfg, s, e).db;
            k in s.db.rows && k in t.rows
            && (t.rows[k] != s.db.rows[k] ==>
                  && t.rows[k].status == Succeeded && t.rows[k].response.Some?
                  && var body := t.rows[k].response.value.body;
                     && body.CampaignBody? && body.at == e.now && body.campaign in t.campaigns.campaigns
                     && t.campaigns.campaigns[body.campaign].content == body.content
                     && t.campaigns.campaigns[body.campaign].updatedAt == e.now
                     && s.db.rows[k].request.Upsert?
                     && (s.db.rows[k].request.id.None? ==> body.campaign !in s.db.campaigns.campaigns)
                     && (forall id | id in s.db.campaigns.campaigns && id != body.campaign ::
                           id in t.campaigns.campaigns && t.campaigns.campaigns[id] == s.db.campaigns.campaigns[id])
                     && (e.generated.Some? ==> body.campaign in t.campaigns.embeddings
                                               && t.campaigns.embeddings[body.campaign] == e.generated.value)
                     && (e.generated.None? ==> t.campaigns.embeddings == s.db.campaigns.embeddings))
            && (t.rows == s.db.rows ==> t.campaigns == s.db.campaigns)
  {
    hide DbInv, TokensIssued, OneMark, CallsOk, EvidenceOk, OutcomeOk, PostsDirect, FinishApiTurn;
    ReachedInv(cfg, events);
    var s := Reached(cfg, events);
    assert WorkerOk(cfg, s.db.rows, e.w, s.workers[e.w]);
    RowOfInv(cfg, s, s.workers[e.w].row);
  }

  // ---------- What a request is answered ----------

  /**
   A resent request: another body or session is refused as a reused key, a stored response is repeated, a live
   lease is refused as in progress, an interrupted send is closed as unknown with 504, and everything else is
   granted with what X had answered.
   */
  lemma ResentRequestAnswers(cfg: Config, events: seq<Event>, args: ClaimArgs)
    requires args.row in Reached(cfg, events).db.rows && args.ownsSession
    ensures var db := Reached(cfg, events).db;
            var r := db.rows[args.row];
            var result := ClaimRequest(db, args);
            && r.turn.Some?
            && (result == Rejected(KeyReused) <==> r.session != args.session || r.request != args.request)
            && (result == Rejected(InProgress) <==>
                  r.session == args.session && r.request == args.request && r.status == Processing
                  && r.lease > args.now)
            && (r.session == args.session && r.request == args.request && r.status != Processing ==>
                  r.response.Some? && result == Replayed(db, r.response.value))
            && (r.session == args.session && r.request == args.request && r.status == Processing
                && r.lease <= args.now ==>
                  if args.row.op == PublishXPost && r.started.Some? && r.external.None? then
                    && result.Replayed?
                    && result.response == Response(504, ErrorBody(XPostOutcomeUnknown, r.turn.value))
                    && result.db.rows ==
                       db.rows[args.row := r.(status := OutcomeUnknown, response := Some(result.response))]
                  else
                    result == Granted(db.(rows := db.rows[args.row := r.(token := args.token,
                                                                         lease := args.now + args.leaseSeconds)]),
                                      r.turn.value, r.external))
  {
    hide ProtocolInv, DbCore, PostsMatch, NoDuplicates, CloseUnknown;
    ReachedInv(cfg, events);
    var db := Reached(cfg, events).db;
    DecideKeepsInv(db, args);
    RowOfInv(cfg, Reached(cfg, events), args.row);
  }

  /** A first request is refused with 409 iff the marketer has the same content processing or unknown elsewhere. */
  lemma FirstRequestAnswers(cfg: Config, events: seq<Event>, args: ClaimArgs)
    requires args.row !in Reached(cfg, events).db.rows && args.ownsSession && !args.archived
    requires args.turn !in Reached(cfg, events).db.tables.turns && args.leaseSeconds > 0
    ensures var db := Reached(cfg, events).db;
            var result := ClaimRequest(db, args);
            var r := Row(args.session, Some(args.turn), args.request, Processing, args.token,
                         args.now + args.leaseSeconds, None, None, None);
            var refused := args.row.op == PublishXPost
                           && exists j :: j in db.rows && j.marketer == args.row.marketer && j.op == PublishXPost
                                          && db.rows[j].request == args.request
                                          && (db.rows[j].status == Processing || db.rows[j].status == OutcomeUnknown);
            if refused then
              && result.Replayed? && result.response == Response(409, ErrorBody(XPostUnresolved, args.turn))
              && result.db.rows == db.rows[args.row := r.(status := Failed, response := Some(result.response))]
            else
              result.Granted? && result.turn == args.turn && result.external.None?
              && result.db.rows == db.rows[args.row := r]
  {
    hide ProtocolInv, DbInv, StartNew;
    ReachedInv(cfg, events);
    StartNewKeepsInv(Reached(cfg, events).db, args);
  }

  /** Nobody without the session, and nobody in an archived one, gets a new request. */
  lemma StrangersAreRefused(db: Db, args: ClaimArgs)
    requires !args.ownsSession || (args.archived && args.row !in db.rows)
    ensures ClaimRequest(db, args) == Rejected(SessionNotFound)
  {
  }

  /**
   A save that was given up can be resumed at once: the lease is over at the time of the step, and the same
   request is then granted again with what X had answered.
   */
  lemma SaveFailureIsResumable(cfg: Config, events: seq<Event>, w: Token, now: Time, seen: bool, args: ClaimArgs)
    requires var s := Reached(cfg, events);
             w in s.workers && s.workers[w].pc.SaveAbandoned? && Held(s.db.rows, s.workers[w].row, w, now, true)
    requires var s := Reached(cfg, events);
             args.row == s.workers[w].row && args.ownsSession && args.now >= now
             && args.session == s.db.rows[args.row].session && args.request == s.db.rows[args.row].request
    requires Reached(cfg, events).db.rows[Reached(cfg, events).workers[w].row].external.Some?
    ensures var before := Reached(cfg, events).db.rows[args.row];
            var db := Step(cfg, Reached(cfg, events), Expire(w, now, seen)).db;
            && db.rows == Reached(cfg, events).db.rows[args.row := before.(lease := now)]
            && ClaimRequest(db, args).Granted? && ClaimRequest(db, args).external == before.external
  {
    hide Inv;
    ReachedInv(cfg, events);
    RowOfInv(cfg, Reached(cfg, events), args.row);
  }

  /** Recording the start of the effect writes the time of the step into a held row, and nothing else. */
  lemma MarkRecordsTheStart(cfg: Config, events: seq<Event>, w: Token, now: Time, seen: bool)
    requires w in Reached(cfg, events).workers && Reached(cfg, events).workers[w].pc.Planning?
    ensures var s := Reached(cfg, events);
            var k := s.workers[w].row;
            var t := Step(cfg, s, Mark(w, now, seen));
            k in s.db.rows && t.db == s.db.(rows := t.db.rows)
            && t.db.rows ==
               (if k.op == PublishXPost && Publishable(cfg.url, s.workers[w].request, k.key)
                   && s.db.rows[k].status == Processing && s.db.rows[k].token == w && s.db.rows[k].lease > now
                then s.db.rows[k := s.db.rows[k].(started := Some(now))] else s.db.rows)
  {
    hide DbInv, TokensIssued, OneMark, CallsOk, EvidenceOk, OutcomeOk, PostsDirect, Publishable;
    ReachedInv(cfg, events);
    assert WorkerOk(cfg, Reached(cfg, events).db.rows, w, Reached(cfg, events).workers[w]);
  }

  /** An operator takes a row over iff it is a processing publish row with an X result whose lease is over. */
  lemma OperatorTakeover(cfg: Config, events: seq<Event>, k: RowKey, token: Token, now: Time)
    requires k in Reached(cfg, events).db.rows && token !in Reached(cfg, events).workers
    ensures var s := Reached(cfg, events);
            var r := s.db.rows[k];
            var t := Step(cfg, s, ClaimByOperator(k, token, now));
            if k.op == PublishXPost && r.status == Processing && r.lease <= now && r.external.Some? then
              && t.db == s.db.(rows := s.db.rows[k := r.(token := token, lease := now + cfg.leaseSeconds)])
              && token in t.workers && t.workers[token].row == k && t.workers[token].pc == Resuming(r.external.value)
            else t == s
  {
    hide ProtocolInv, DbCore, PostsMatch, NoDuplicates;
    ReachedInv(cfg, events);
    RowOfInv(cfg, Reached(cfg, events), k);
    DbPart(cfg, Reached(cfg, events));
    ClaimResumeKeepsInv(Reached(cfg, events).db, k, token, now, cfg.leaseSeconds);
  }
}
