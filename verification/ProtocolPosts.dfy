/**
 What was sent to X and what was saved, column by column and by the events of the run: the texts of the calls,
 the stored X results, the posts of workers and of operators, and the result items.
 */
module ProtocolPosts {
  import opened Options
  import opened Turns
  import opened Idempotency
  import opened PublishedPosts
  import opened Approval
  import opened ApprovalInvariant
  import opened Protocol
  import opened ProtocolInvariant
  import opened ProtocolTheorems
  import opened ProtocolProgress
  import opened ProtocolAnswers
  import opened TablesEvolution

  // ---------- Texts ----------

  /** Every call sent the body of its row's request, a line end and the URL built from that request and its key. */
  lemma CallsSayTheRequest(cfg: Config, events: seq<Event>, c: Call)
    requires c in Reached(cfg, events).calls
    ensures var s := Reached(cfg, events);
            c.row in s.db.rows && s.db.rows[c.row].request.XPost?
            && c.text == s.db.rows[c.row].request.text + "\n"
                         + cfg.url(s.db.rows[c.row].request.landingUrl, s.db.rows[c.row].request.campaign, c.row.key)
  {
    hide Inv;
    InitialInv(cfg);
    TextsRun(cfg, INITIAL, events);
    assert SentText(cfg, Reached(cfg, events).db.rows[c.row].request, c);
  }

  /** A stored X result repeats that text and that URL. */
  lemma ResultsSayTheRequest(cfg: Config, events: seq<Event>, k: RowKey)
    requires k in Reached(cfg, events).db.rows && Reached(cfg, events).db.rows[k].external.Some?
    ensures var r := Reached(cfg, events).db.rows[k];
            && r.request.XPost?
            && r.external.value.trackedUrl == cfg.url(r.request.landingUrl, r.request.campaign, k.key)
            && r.external.value.text == r.request.text + "\n" + r.external.value.trackedUrl
            && r.external.value.xPostId != ""
  {
    ReachedResults(cfg, events);
    assert ResultOk(cfg, k, Reached(cfg, events).db.rows[k].request, Reached(cfg, events).db.rows[k].external.value);
  }

  // ---------- Posts ----------

  /** The columns of a post that come from the request of its row. */
  predicate PostFits(cfg: Config, rows: Rows, post: Post) {
    && post.request in rows && rows[post.request].request.XPost?
    && var request := rows[post.request].request;
       && post.campaign == request.campaign && post.published.text == request.text
       && post.published.tracking.landingUrl == request.landingUrl
       && post.published.tracking.campaign == request.campaign
       && post.published.tracking.content == post.request.key
       && post.published.tracking.source == "x" && post.published.tracking.medium == "social"
       && post.published.tracking.trackedUrl == cfg.url(request.landingUrl, request.campaign, post.request.key)
  }

  /** A step adds at most one post, by a worker's save or by an operator. */
  ghost predicate OneMorePost(cfg: Config, s: State, t: State, e: Event) {
    forall p | p in t.db.posts ::
      if p in s.db.posts then t.db.posts[p] == s.db.posts[p]
      else
        && PostFits(cfg, s.db.rows, t.db.posts[p])
        && (if e.ResolveAsPosted? then
              e.post == p && e.k == t.db.posts[p].request && e.xPostId == t.db.posts[p].published.xPostId
              && e.at == t.db.posts[p].published.publishedAt && e.k in t.operator
            else
              e.Save? && e.w in s.workers && s.workers[e.w].row == t.db.posts[p].request
              && s.db.rows[s.workers[e.w].row].status == Processing)
  }

  lemma SavesOnePost(cfg: Config, s: State, e: Event)
    requires Inv(cfg, s) && e.Save? && e.w in s.workers
    ensures OneMorePost(cfg, s, Step(cfg, s, e), e)
  {
    hide DbInv, TokensIssued, OneMark, CallsOk, EvidenceOk, OutcomeOk, PostsDirect, Complete, Insertable;
    var worker := s.workers[e.w];
    assert WorkerOk(cfg, s.db.rows, e.w, worker);
    if worker.pc.Saving? && worker.request.XPost? {
      var saved := Post(worker.row, worker.request.campaign, worker.pc.published);
      assert PostFits(cfg, s.db.rows, saved);
      CompleteEffect(s.db.(posts := s.db.posts[e.post := saved]), CtxOf(s, e.w), Succeeded,
                     PostResponse(e.post, worker.turn, saved), e.now);
      if Insertable(s.db.posts, e.post, saved) { NewPostId(s.db.posts, e.post, saved); }
    }
  }

  lemma OthersSaveNone(cfg: Config, s: State, e: Event)
    requires Inv(cfg, s) && !e.Save? && !e.ResolveAsPosted?
    ensures Step(cfg, s, e).db.posts == s.db.posts
  {
    hide Inv, DbInv;
    if e.Claim? {
      ClaimSavesNone(cfg, s, e.args.(leaseSeconds := cfg.leaseSeconds));
    } else {
      PlainSavesNone(cfg, s, e);
    }
  }

  lemma ClaimSavesNone(cfg: Config, s: State, args: ClaimArgs)
    requires Inv(cfg, s)
    ensures ClaimStep(s, args).db.posts == s.db.posts
  {
    hide DbInv, ProtocolInv, StartNew, DecideExisting;
    if args.token !in s.workers && args.turn !in s.db.tables.turns && args.leaseSeconds > 0 && args.ownsSession {
      if args.row in s.db.rows { DecideKeepsInv(s.db, args); } else if !args.archived { StartNewKeepsInv(s.db, args); }
    }
  }

  lemma PlainSavesNone(cfg: Config, s: State, e: Event)
    requires !e.Save? && !e.ResolveAsPosted? && !e.Claim?
    ensures Step(cfg, s, e).db.posts == s.db.posts
  {
    hide FinishApiTurn, WriteCampaign, FromExternal, Publishable, AuditTurn;
  }

  lemma OperatorSavesOne(cfg: Config, s: State, e: Event)
    requires e.ResolveAsPosted?
    ensures OneMorePost(cfg, s, Step(cfg, s, e), e)
  {
    hide AuditTurn;
    if e.k in s.db.rows && s.db.rows[e.k].request.XPost? {
      var request := s.db.rows[e.k].request;
      var saved := Post(e.k, request.campaign, DirectPost(cfg.url, request, e.k.key, e.xPostId, e.at));
      assert PostFits(cfg, s.db.rows, saved);
    }
  }

  lemma StepPosts(cfg: Config, s: State, e: Event)
    requires Inv(cfg, s)
    ensures OneMorePost(cfg, s, Step(cfg, s, e), e)
  {
    hide Inv, Step, PostFits;
    if e.Save? {
      if e.w in s.workers { SavesOnePost(cfg, s, e); } else { NobodyActs(cfg, s, e); }
    } else if e.ResolveAsPosted? {
      OperatorSavesOne(cfg, s, e);
    } else {
      OthersSaveNone(cfg, s, e);
    }
  }

  lemma NobodyActs(cfg: Config, s: State, e: Event)
    requires TokenOf(e).Some? && TokenOf(e).value !in s.workers
    ensures Step(cfg, s, e) == s
  {
  }

  // ---------- Where the id and the time of a post come from ----------

  /** X answered a call of a worker of the row with this id and at this time. */
  ghost predicate Answered(events: seq<Event>, s: State, k: RowKey, xPostId: string, at: Time) {
    exists w :: w in s.workers && s.workers[w].row == k && CallX(w, XAccepted(xPostId, at)) in events
  }

  /** An operator entered this post with this id and this time. */
  ghost predicate Entered(events: seq<Event>, k: RowKey, p: nat, xPostId: string, at: Time) {
    exists audit, now :: ResolveAsPosted(k, p, xPostId, at, audit, now) in events
  }

  /** Every stored or announced X result and every post has its event in the run. */
  ghost predicate Traced(cfg: Config, events: seq<Event>, s: State) {
    && (forall k | k in s.db.rows && s.db.rows[k].external.Some? ::
          Answered(events, s, k, s.db.rows[k].external.value.xPostId, s.db.rows[k].external.value.publishedAt))
    && (forall w | w in s.workers && s.workers[w].pc.CallAccepted? ::
          Answered(events, s, s.workers[w].row, s.workers[w].pc.external.xPostId, s.workers[w].pc.external.publishedAt))
    && (forall p | p in s.db.posts ::
          PostFits(cfg, s.db.rows, s.db.posts[p])
          && (s.db.posts[p].request in s.operator ==>
                Entered(events, s.db.posts[p].request, p, s.db.posts[p].published.xPostId,
                        s.db.posts[p].published.publishedAt)))
  }

  /** Workers keep their row, requests their content. */
  lemma AnsweredStays(cfg: Config, events: seq<Event>, s: State, e: Event, k: RowKey, xPostId: string, at: Time)
    requires Inv(cfg, s) && Answered(events, s, k, xPostId, at)
    ensures Answered(events + [e], Step(cfg, s, e), k, xPostId, at)
  {
    hide Inv, Step, RowsAfter;
    StepRows(cfg, s, e);
    var w :| w in s.workers && s.workers[w].row == k && CallX(w, XAccepted(xPostId, at)) in events;
    assert CallX(w, XAccepted(xPostId, at)) in events + [e];
  }

  lemma EnteredStays(events: seq<Event>, e: Event, k: RowKey, p: nat, xPostId: string, at: Time)
    requires Entered(events, k, p, xPostId, at)
    ensures Entered(events + [e], k, p, xPostId, at)
  {
    var audit, now :| ResolveAsPosted(k, p, xPostId, at, audit, now) in events;
    assert ResolveAsPosted(k, p, xPostId, at, audit, now) in events + [e];
  }

  /** The only new X result of a step is the one that X gives in it. */
  lemma NewResult(cfg: Config, s: State, e: Event, w: Token)
    requires Inv(cfg, s) && w in Step(cfg, s, e).workers && Step(cfg, s, e).workers[w].pc.CallAccepted?
    ensures var t := Step(cfg, s, e);
            || (w in s.workers && t.workers[w] == s.workers[w])
            || (e.CallX? && e.w == w && e.outcome.XAccepted? && e.outcome.xPostId == t.workers[w].pc.external.xPostId
                && e.outcome.at == t.workers[w].pc.external.publishedAt)
  {
    hide Inv, DbInv;
    if TokenOf(e).None? { OthersKeepResults(cfg, s, e); } else if TokenOf(e).value in s.workers {
      WorkerAnnounces(cfg, s, e, w);
    }
  }

  lemma WorkerAnnounces(cfg: Config, s: State, e: Event, w: Token)
    requires TokenOf(e).Some? && TokenOf(e).value in s.workers
    requires w in WorkerStep(cfg, s, e).workers && WorkerStep(cfg, s, e).workers[w].pc.CallAccepted?
    ensures var t := WorkerStep(cfg, s, e);
            || (w in s.workers && t.workers[w] == s.workers[w])
            || (e.CallX? && e.w == w && e.outcome.XAccepted? && e.outcome.xPostId == t.workers[w].pc.external.xPostId
                && e.outcome.at == t.workers[w].pc.external.publishedAt)
  {
    hide FinishApiTurn, WriteCampaign, FromExternal, Publishable, Insertable;
  }

  /** A row's result is the one it had, or the one that its worker announced. */
  lemma RowResult(cfg: Config, s: State, e: Event, k: RowKey)
    requires Inv(cfg, s) && k in Step(cfg, s, e).db.rows && Step(cfg, s, e).db.rows[k].external.Some?
    ensures var t := Step(cfg, s, e);
            || (k in s.db.rows && t.db.rows[k].external == s.db.rows[k].external)
            || (exists w :: w in s.workers && s.workers[w].row == k && s.workers[w].pc.CallAccepted?
                            && t.db.rows[k].external == Some(s.workers[w].pc.external))
  {
    hide Inv, DbInv, WorkerStep;
    if TokenOf(e).None? {
      OthersKeepResults(cfg, s, e);
    } else if TokenOf(e).value in s.workers {
      WorkerResult(cfg, s, e);
      WorkerStepEffect(cfg, s, e);
    }
  }

  lemma TracedResults(cfg: Config, events: seq<Event>, s: State, e: Event)
    requires Inv(cfg, s) && Traced(cfg, events, s)
    ensures var t := Step(cfg, s, e);
            && (forall k | k in t.db.rows && t.db.rows[k].external.Some? ::
                  Answered(events + [e], t, k, t.db.rows[k].external.value.xPostId,
                           t.db.rows[k].external.value.publishedAt))
            && (forall w | w in t.workers && t.workers[w].pc.CallAccepted? ::
                  Answered(events + [e], t, t.workers[w].row, t.workers[w].pc.external.xPostId,
                           t.workers[w].pc.external.publishedAt))
  {
    hide Inv, Step, Answered, PostFits, Entered;
    var t := Step(cfg, s, e);
    forall k | k in t.db.rows && t.db.rows[k].external.Some?
      ensures Answered(events + [e], t, k, t.db.rows[k].external.value.xPostId,
                       t.db.rows[k].external.value.publishedAt)
    {
      RowResult(cfg, s, e, k);
      var x := t.db.rows[k].external.value;
      AnsweredStays(cfg, events, s, e, k, x.xPostId, x.publishedAt);
    }
    forall w | w in t.workers && t.workers[w].pc.CallAccepted?
      ensures Answered(events + [e], t, t.workers[w].row, t.workers[w].pc.external.xPostId,
                       t.workers[w].pc.external.publishedAt)
    {
      NewResult(cfg, s, e, w);
      var x := t.workers[w].pc.external;
      if w in s.workers && t.workers[w] == s.workers[w] {
        AnsweredStays(cfg, events, s, e, s.workers[w].row, x.xPostId, x.publishedAt);
      } else {
        JustAnswered(events, t, e, w, x.xPostId, x.publishedAt);
      }
    }
  }

  lemma JustAnswered(events: seq<Event>, t: State, e: Event, w: Token, xPostId: string, at: Time)
    requires w in t.workers && e == CallX(w, XAccepted(xPostId, at))
    ensures Answered(events + [e], t, t.workers[w].row, xPostId, at)
  {
    assert e in events + [e];
  }

  lemma TracedPosts(cfg: Config, events: seq<Event>, s: State, e: Event, p: nat)
    requires Inv(cfg, s) && Traced(cfg, events, s) && p in Step(cfg, s, e).db.posts
    ensures var t := Step(cfg, s, e);
            && PostFits(cfg, t.db.rows, t.db.posts[p])
            && (t.db.posts[p].request in t.operator ==>
                  Entered(events + [e], t.db.posts[p].request, p, t.db.posts[p].published.xPostId,
                          t.db.posts[p].published.publishedAt))
  {
    hide Inv, Step, Answered, Entered;
    var t := Step(cfg, s, e);
    StepPosts(cfg, s, e);
    StepRows(cfg, s, e);
    var post := t.db.posts[p];
    OperatorsDecideUnknown(cfg, s, e, post.request);
    if p in s.db.posts {
      PostedIsFinal(cfg, s, p);
      if post.request in s.operator {
        EnteredStays(events, e, post.request, p, post.published.xPostId, post.published.publishedAt);
      }
    } else if e.ResolveAsPosted? {
      JustEntered(events, e);
    } else {
      if post.request in s.operator { OperatorsFinal(cfg, s, post.request); }
    }
  }

  lemma JustEntered(events: seq<Event>, e: Event)
    requires e.ResolveAsPosted?
    ensures Entered(events + [e], e.k, e.post, e.xPostId, e.at)
  {
    assert e == ResolveAsPosted(e.k, e.post, e.xPostId, e.at, e.audit, e.now) && e in events + [e];
  }

  /** Operators only ever decide outcome-unknown rows. */
  lemma OperatorsDecideUnknown(cfg: Config, s: State, e: Event, k: RowKey)
    requires Inv(cfg, s)
    ensures s.operator <= Step(cfg, s, e).operator
    ensures k in Step(cfg, s, e).operator && k !in s.operator ==>
              k in s.db.rows && s.db.rows[k].status == OutcomeUnknown && (e.ResolveAsPosted? || e.ResolveAsNotPosted?)
  {
    hide Inv, DbInv, AuditTurn, Insertable, ClaimStep, WorkerStep;
    if TokenOf(e).Some? && TokenOf(e).value in s.workers {
      WorkerStepEffect(cfg, s, e);
    } else if e.Claim? {
      ClaimNoOperator(s, e.args.(leaseSeconds := cfg.leaseSeconds));
    }
  }

  lemma ClaimNoOperator(s: State, args: ClaimArgs)
    ensures ClaimStep(s, args).operator == s.operator
  {
    hide ClaimRequest;
  }

  lemma OperatorsFinal(cfg: Config, s: State, k: RowKey)
    requires Inv(cfg, s) && k in s.operator
    ensures k in s.db.rows && Final(s.db.rows[k].status)
  {
    hide DbInv, WorkersOk, TokensIssued, OneMark, CallsOk, EvidenceOk, PostsDirect;
  }

  lemma PostedIsFinal(cfg: Config, s: State, p: nat)
    requires Inv(cfg, s) && p in s.db.posts
    ensures s.db.posts[p].request in s.db.rows && s.db.rows[s.db.posts[p].request].status == Succeeded
  {
    hide DbCore, NoDuplicates, ProtocolInv;
    assert PublishedRow(s.db.rows, s.db.posts[p].request);
  }

  lemma {:induction false} RunIsTraced(cfg: Config, events: seq<Event>)
    ensures Traced(cfg, events, Reached(cfg, events))
    decreases |events|
  {
    hide Inv, Step, Answered, Entered, PostFits;
    if events != [] {
      var front, e := events[..|events| - 1], events[|events| - 1];
      assert events == front + [e];
      RunConcat(cfg, INITIAL, front, [e]);
      var s := Reached(cfg, front);
      OneEvent(cfg, s, e);
      ReachedInv(cfg, front);
      RunIsTraced(cfg, front);
      TracedResults(cfg, front, s, e);
      var t := Step(cfg, s, e);
      forall p | p in t.db.posts
        ensures PostFits(cfg, t.db.rows, t.db.posts[p])
        ensures t.db.posts[p].request in t.operator ==>
                  Entered(front + [e], t.db.posts[p].request, p, t.db.posts[p].published.xPostId,
                          t.db.posts[p].published.publishedAt)
      {
        TracedPosts(cfg, front, s, e, p);
      }
    }
  }

  /**
   Every post of every run, whoever saved it: text, landing URL, campaign, key and tracked URL are those of the
   request of its row. Its X id and its time are those that an operator entered for it, if an operator decided the
   row, and otherwise those with which X answered a call of the row.
   */
  lemma PostsSayTheRequest(cfg: Config, events: seq<Event>, p: nat)
    requires p in Reached(cfg, events).db.posts
    ensures var s := Reached(cfg, events);
            var post := s.db.posts[p];
            && post.request in s.db.rows && s.db.rows[post.request].request.XPost?
            && var request := s.db.rows[post.request].request;
               && post.campaign == request.campaign && post.published.text == request.text
               && post.published.tracking ==
                  Tracking(request.landingUrl, "x", "social", request.campaign, post.request.key,
                           cfg.url(request.landingUrl, request.campaign, post.request.key))
               && (post.request in s.operator ==>
                     exists audit, now ::
                       ResolveAsPosted(post.request, p, post.published.xPostId, post.published.publishedAt, audit, now)
                         in events)
               && (post.request !in s.operator ==>
                     exists w :: w in s.workers && s.workers[w].row == post.request
                                 && CallX(w, XAccepted(post.published.xPostId, post.published.publishedAt)) in events)
  {
    hide DbInv, WorkersOk, TokensIssued, OneMark, CallsOk, EvidenceOk, OutcomeOk;
    RunIsTraced(cfg, events);
    ReachedInv(cfg, events);
    var s := Reached(cfg, events);
    var post := s.db.posts[p];
    assert PostFits(cfg, s.db.rows, post);
    if post.request in s.operator {
      assert Entered(events, post.request, p, post.published.xPostId, post.published.publishedAt);
    } else {
      assert PostDirect(cfg, s.db.rows, post);
      assert Answered(events, s, post.request, post.published.xPostId, post.published.publishedAt);
    }
  }

  // ---------- Result items ----------

  /** The result item of a row says success iff the row was saved by a worker. */
  predicate ItemSays(k: RowKey, r: Row, items: map<ItemRef, Item>, byOperator: bool) {
    r.turn.Some? && r.status != Processing ==>
      var ref := ItemRef(r.turn.value, ApprovalResultKey(k.key));
      && ref in items && items[ref].kind == AssistantMessage
      && items[ref].content == (if r.status == Succeeded && !byOperator then "api_result: success"
                                else "api_result: error")
  }

  ghost predicate ItemsSay(s: State) {
    forall k | k in s.db.rows :: ItemSays(k, s.db.rows[k], s.db.tables.items, k in s.operator)
  }

  /** No step changes or removes an item. */
  lemma ItemsStay(cfg: Config, s: State, e: Event)
    ensures forall r | r in s.db.tables.items ::
              r in Step(cfg, s, e).db.tables.items && Step(cfg, s, e).db.tables.items[r] == s.db.tables.items[r]
  {
    hide Step;
    if IsToolEvent(e) { ToolItemsStay(cfg, s, e); } else { StepEvolves(cfg, s, e); }
  }

  lemma ToolItemsStay(cfg: Config, s: State, e: Event)
    requires IsToolEvent(e)
    ensures forall r | r in s.db.tables.items ::
              r in Step(cfg, s, e).db.tables.items && Step(cfg, s, e).db.tables.items[r] == s.db.tables.items[r]
  {
  }

  lemma ApiTurnStores(a: Tables, turn: TurnId, key: Key, success: bool)
    requires Running(a.turns, turn) && ItemRef(turn, ApprovalResultKey(key)) !in a.items
    ensures var ref := ItemRef(turn, ApprovalResultKey(key));
            && FinishApiTurn(a, turn, key, success).Some?
            && var items := FinishApiTurn(a, turn, key, success).value.items;
               ref in items && items[ref].kind == AssistantMessage
               && items[ref].content == if success then "api_result: success" else "api_result: error"
  {
  }

  /** A processing row has its turn running and its result item free. */
  lemma ResultIsFree(tables: Tables, rows: Rows, k: RowKey)
    requires DbCore(tables, rows) && k in rows && rows[k].status == Processing
    ensures rows[k].turn.Some? && Running(tables.turns, rows[k].turn.value)
    ensures ItemRef(rows[k].turn.value, ApprovalResultKey(k.key)) !in tables.items
  {
    hide TablesInv, OneChat;
    assert RowOk(k, rows[k]) && TurnOfRow(tables.turns, rows[k]);
  }

  lemma CompleteStores(db: Db, ctx: Ctx, status: Status, response: Response, now: Time)
    requires DbCore(db.tables, db.rows) && CtxOk(db, ctx) && status != Processing
    ensures var tx := Complete(db, ctx, status, response, now, true);
            tx.Committed? ==>
              ctx.row in tx.db.rows && tx.db.rows[ctx.row].status == status
              && tx.db.rows == db.rows[ctx.row := tx.db.rows[ctx.row]]
              && ItemSays(ctx.row, tx.db.rows[ctx.row], tx.db.tables.items, false)
  {
    hide DbCore, FinishApiTurn;
    if Held(db.rows, ctx.row, ctx.token, now, true) {
      ResultIsFree(db.tables, db.rows, ctx.row);
      ApiTurnStores(db.tables, ctx.turn, ctx.row.key, status == Succeeded);
    }
  }

  /** What a step that closes row `k` leaves. */
  predicate ClosedItem(s: State, t: State, k: RowKey) {
    k in t.db.rows && t.db.rows[k].status != Processing && (k in s.db.rows ==> s.db.rows[k].status == Processing) ==>
      ItemSays(k, t.db.rows[k], t.db.tables.items, false)
  }

  lemma WorkerClosed(cfg: Config, s: State, e: Event)
    requires Inv(cfg, s) && TokenOf(e).Some? && TokenOf(e).value in s.workers
    ensures ClosedItem(s, WorkerStep(cfg, s, e), s.workers[TokenOf(e).value].row)
  {
    hide DbCore, NoDuplicates, PostsMatch, TokensIssued, OneMark, CallsOk, EvidenceOk, OutcomeOk, PostsDirect, Complete,
      Insertable, WriteCampaign, FromExternal, Publishable, ItemSays;
    var w := TokenOf(e).value;
    var worker, ctx := s.workers[w], CtxOf(s, w);
    assert WorkerOk(cfg, s.db.rows, w, worker);
    match e
    case FailPlan(_, code, now) => CompleteStores(s.db, ctx, Failed, ErrorResponse(code, ctx.turn), now);
    case CloseRejected(_, now, _, _) => CompleteStores(s.db, ctx, Failed, ErrorResponse(XPostFailed, ctx.turn), now);
    case CloseUnclear(_, now, _) =>
      CompleteStores(s.db, ctx, OutcomeUnknown, ErrorResponse(XPostOutcomeUnknown, ctx.turn), now);
    case Save(_, id, now, _, _) =>
      if worker.pc.Saving? && worker.request.XPost? {
        var post := Post(worker.row, worker.request.campaign, worker.pc.published);
        CompleteStores(s.db.(posts := s.db.posts[id := post]), ctx, Succeeded, PostResponse(id, ctx.turn, post), now);
      }
    case SaveUpsert(_, company, newId, generated, now, _) =>
      if worker.request.Upsert? && WriteCampaign(s.db.campaigns, company, newId, worker.request, generated, now).Some? {
        var campaigns := WriteCampaign(s.db.campaigns, company, newId, worker.request, generated, now).value;
        CompleteStores(s.db.(campaigns := campaigns), ctx, Succeeded,
                       CampaignResponse(worker.request, newId, ctx.turn, now), now);
      }
    case _ =>
  }

  lemma ClaimClosed(cfg: Config, s: State, args: ClaimArgs)
    requires Inv(cfg, s)
    ensures ClosedItem(s, ClaimStep(s, args), args.row)
  {
    hide DbInv, ProtocolInv, StartNew, DecideExisting, ItemSays;
    if args.token !in s.workers && args.turn !in s.db.tables.turns && args.leaseSeconds > 0 && args.ownsSession {
      if args.row in s.db.rows {
        DecideKeepsInv(s.db, args);
        DecideStores(s.db, args);
      } else if !args.archived {
        StartNewKeepsInv(s.db, args);
        StartStores(s.db, args);
      }
    }
  }

  lemma DecideStores(db: Db, args: ClaimArgs)
    requires DbInv(db) && args.row in db.rows
    ensures var result := DecideExisting(db, args);
            result.Replayed? && db.rows[args.row].status == Processing ==>
              args.row in result.db.rows
              && ItemSays(args.row, result.db.rows[args.row], result.db.tables.items, false)
  {
    hide DbCore, NoDuplicates, PostsMatch, FinishApiTurn, OpenApiTurn;
    if db.rows[args.row].status == Processing {
      ResultIsFree(db.tables, db.rows, args.row);
      ApiTurnStores(db.tables, db.rows[args.row].turn.value, args.row.key, false);
    }
  }

  lemma StartStores(db: Db, args: ClaimArgs)
    requires DbInv(db) && args.row !in db.rows && args.turn !in db.tables.turns && args.leaseSeconds > 0
    ensures var result := StartNew(db, args);
            result.Replayed? ==>
              args.row in result.db.rows
              && ItemSays(args.row, result.db.rows[args.row], result.db.tables.items, false)
  {
    hide DbCore, NoDuplicates, PostsMatch, HasUnresolvedDuplicate, OpenApiTurn, Complete, ItemSays;
    OpenedIsNew(db, args);
    var running := Opened(db, args);
    CompleteStores(running, Ctx(args.row, args.token, args.turn), Failed, ErrorResponse(XPostUnresolved, args.turn),
                   args.now);
  }

  /** Rows that a step did not close keep what their item says. */
  lemma ItemsStep(cfg: Config, s: State, e: Event)
    requires Inv(cfg, s) && ItemsSay(s)
    ensures ItemsSay(Step(cfg, s, e))
  {
    hide Inv, Step, ClosedItem;
    var t := Step(cfg, s, e);
    ItemsStay(cfg, s, e);
    StepRows(cfg, s, e);
    forall k | k in t.db.rows ensures ItemSays(k, t.db.rows[k], t.db.tables.items, k in t.operator) {
      OperatorsDecideUnknown(cfg, s, e, k);
      if k in s.db.rows && s.db.rows[k].status != Processing {
        SettledItem(cfg, s, e, k);
      } else if t.db.rows[k].status != Processing {
        JustClosed(cfg, s, e, k);
        NotYetDecided(cfg, s, e, k);
      }
    }
  }

  lemma SettledItem(cfg: Config, s: State, e: Event, k: RowKey)
    requires Inv(cfg, s) && ItemsSay(s) && k in s.db.rows && s.db.rows[k].status != Processing
    requires k in Step(cfg, s, e).db.rows
    ensures ItemSays(k, Step(cfg, s, e).db.rows[k], Step(cfg, s, e).db.tables.items, k in Step(cfg, s, e).operator)
  {
    hide Inv, Step;
    var t := Step(cfg, s, e);
    ItemsStay(cfg, s, e);
    StepRows(cfg, s, e);
    assert ItemSays(k, s.db.rows[k], s.db.tables.items, k in s.operator);
    SettledRow(cfg, s, e, k);
  }

  /** A row that has left processing keeps its turn and its place, but for an operator's decision. */
  lemma SettledRow(cfg: Config, s: State, e: Event, k: RowKey)
    requires Inv(cfg, s) && k in s.db.rows && s.db.rows[k].status != Processing
    ensures var t := Step(cfg, s, e);
            && k in t.db.rows && t.db.rows[k].turn == s.db.rows[k].turn && s.db.rows[k].turn.Some?
            && (if t.db.rows[k] == s.db.rows[k] then k in t.operator ==> k in s.operator || !Final(s.db.rows[k].status)
                else s.db.rows[k].status == OutcomeUnknown && k in t.operator && Final(t.db.rows[k].status))
            && (t.db.rows[k].status == OutcomeUnknown ==> k !in t.operator) && (k in s.operator ==> k in t.operator)
  {
    hide Inv, WorkerStep, ClaimStep;
    RowOfInv(cfg, s, k);
    StepRows(cfg, s, e);
    StepKeepsInv(cfg, s, e);
    OperatorsDecideUnknown(cfg, s, e, k);
    if k in Step(cfg, s, e).operator { OperatorsFinal(cfg, Step(cfg, s, e), k); }
    if e.ResolveAsPosted? || e.ResolveAsNotPosted? { ResolvedRow(cfg, s, e, k); }
  }

  lemma ResolvedRow(cfg: Config, s: State, e: Event, k: RowKey)
    requires (e.ResolveAsPosted? || e.ResolveAsNotPosted?) && k in s.db.rows
    ensures var t := Step(cfg, s, e);
            && k in t.db.rows && t.db.rows[k].turn == s.db.rows[k].turn
            && (t.db.rows[k] != s.db.rows[k] ==> k in t.operator)
  {
    hide AuditTurn, Insertable;
  }

  lemma NotYetDecided(cfg: Config, s: State, e: Event, k: RowKey)
    requires Inv(cfg, s) && k in Step(cfg, s, e).db.rows
    requires k in s.db.rows ==> s.db.rows[k].status == Processing
    ensures k !in Step(cfg, s, e).operator
  {
    hide Inv, Step;
    OperatorsDecideUnknown(cfg, s, e, k);
    if k in s.operator { OperatorsFinal(cfg, s, k); }
  }

  lemma JustClosed(cfg: Config, s: State, e: Event, k: RowKey)
    requires Inv(cfg, s) && k in Step(cfg, s, e).db.rows && Step(cfg, s, e).db.rows[k].status != Processing
    requires k in s.db.rows ==> s.db.rows[k].status == Processing
    ensures ItemSays(k, Step(cfg, s, e).db.rows[k], Step(cfg, s, e).db.tables.items, false)
  {
    hide Inv, DbInv, WorkerStep, ClaimStep, AuditTurn, Insertable, ItemSays;
    if TokenOf(e).Some? {
      if TokenOf(e).value in s.workers {
        WorkerStepEffect(cfg, s, e);
        WorkerClosed(cfg, s, e);
      }
    } else if e.Claim? {
      var args := e.args.(leaseSeconds := cfg.leaseSeconds);
      ClaimClosed(cfg, s, args);
      if k != args.row { OnlyItsRow(cfg, s, args, k); }
    }
  }

  lemma OnlyItsRow(cfg: Config, s: State, args: ClaimArgs, k: RowKey)
    requires Inv(cfg, s) && k != args.row && k in ClaimStep(s, args).db.rows
    ensures k in s.db.rows && ClaimStep(s, args).db.rows[k] == s.db.rows[k]
  {
    hide DbInv, ProtocolInv, StartNew, DecideExisting;
    if args.token !in s.workers && args.turn !in s.db.tables.turns && args.leaseSeconds > 0 && args.ownsSession {
      if args.row in s.db.rows { DecideKeepsInv(s.db, args); } else if !args.archived { StartNewKeepsInv(s.db, args); }
    }
  }

  lemma {:induction false} ItemsRun(cfg: Config, s: State, events: seq<Event>)
    requires Inv(cfg, s) && ItemsSay(s)
    ensures ItemsSay(Run(cfg, s, events))
    decreases |events|
  {
    hide Inv, ItemsSay, Step;
    if events != [] {
      StepKeepsInv(cfg, s, events[0]);
      ItemsStep(cfg, s, events[0]);
      ItemsRun(cfg, Step(cfg, s, events[0]), events[1..]);
    }
  }

  /** In every run: the result item of a row that has left processing says success iff a worker saved the row. */
  lemma ResultItemsSay(cfg: Config, events: seq<Event>, k: RowKey)
    requires k in Reached(cfg, events).db.rows && Reached(cfg, events).db.rows[k].status != Processing
    ensures var s := Reached(cfg, events);
            var r := s.db.rows[k];
            && r.turn.Some?
            && var ref := ItemRef(r.turn.value, ApprovalResultKey(k.key));
               && ref in s.db.tables.items && s.db.tables.items[ref].kind == AssistantMessage
               && s.db.tables.items[ref].content ==
                  (if r.status == Succeeded && k !in s.operator then "api_result: success" else "api_result: error")
  {
    hide Inv;
    InitialInv(cfg);
    ItemsRun(cfg, INITIAL, events);
    ReachedInv(cfg, events);
    RowOfInv(cfg, Reached(cfg, events), k);
    assert ItemSays(k, Reached(cfg, events).db.rows[k], Reached(cfg, events).db.tables.items,
                    k in Reached(cfg, events).operator);
  }

  // ---------- Request items ----------

  /** The API turn of a row holds its request. */
  predicate Asked(k: RowKey, r: Row, items: map<ItemRef, Item>) {
    r.turn.Some? ==>
      var ref := ItemRef(r.turn.value, ApprovalRequestKey(k.key));
      ref in items && items[ref].kind == UserMessage && items[ref].content == "approval request"
  }

  ghost predicate AllAsked(s: State) { forall k | k in s.db.rows :: Asked(k, s.db.rows[k], s.db.tables.items) }

  lemma TurnStays(cfg: Config, s: State, e: Event, k: RowKey)
    requires Inv(cfg, s) && k in s.db.rows
    ensures k in Step(cfg, s, e).db.rows && Step(cfg, s, e).db.rows[k].turn == s.db.rows[k].turn
  {
    hide Inv, DbInv, WorkerStep, ClaimStep, AuditTurn, Insertable, ClaimResume;
    StepRows(cfg, s, e);
    if TokenOf(e).Some? {
      if TokenOf(e).value in s.workers { WorkerStepEffect(cfg, s, e); }
    } else if e.Claim? {
      var args := e.args.(leaseSeconds := cfg.leaseSeconds);
      if k != args.row { OnlyItsRow(cfg, s, args, k); } else { ClaimedTurn(cfg, s, args); }
    } else if e.ClaimByOperator? {
      DbPart(cfg, s);
      ClaimResumeKeepsInv(s.db, e.k, e.token, e.now, cfg.leaseSeconds);
      ResumedTurn(s, e.k, e.token, e.now, cfg.leaseSeconds, k);
    }
  }

  lemma ResumedTurn(s: State, j: RowKey, token: Token, now: Time, leaseSeconds: nat, k: RowKey)
    requires k in s.db.rows
    ensures var result := ClaimResume(s.db, j, token, now, leaseSeconds);
            result.Granted? ==> k in result.db.rows && result.db.rows[k].turn == s.db.rows[k].turn
  {
  }

  lemma ClaimedTurn(cfg: Config, s: State, args: ClaimArgs)
    requires Inv(cfg, s) && args.row in s.db.rows
    ensures args.row in ClaimStep(s, args).db.rows
            && ClaimStep(s, args).db.rows[args.row].turn == s.db.rows[args.row].turn
  {
    hide DbInv, ProtocolInv, DecideExisting;
    DecideKeepsInv(s.db, args);
  }

  lemma NewRowAsks(cfg: Config, s: State, e: Event, k: RowKey)
    requires Inv(cfg, s) && k !in s.db.rows && k in Step(cfg, s, e).db.rows
    ensures Asked(k, Step(cfg, s, e).db.rows[k], Step(cfg, s, e).db.tables.items)
  {
    hide Inv, DbInv, WorkerStep, AuditTurn, Insertable, Asked, StartNew, DecideExisting;
    if TokenOf(e).Some? {
      if TokenOf(e).value in s.workers { WorkerStepEffect(cfg, s, e); }
    } else if e.Claim? {
      var args := e.args.(leaseSeconds := cfg.leaseSeconds);
      if k != args.row { OnlyItsRow(cfg, s, args, k); } else {
        DbPart(cfg, s);
        StartAsks(s.db, args);
      }
    }
  }

  lemma StartAsks(db: Db, args: ClaimArgs)
    requires DbInv(db) && args.row !in db.rows
    ensures args.turn !in db.tables.turns && args.leaseSeconds > 0 && !StartNew(db, args).Rejected? ==>
              var t := StartNew(db, args).db;
              args.row in t.rows && Asked(args.row, t.rows[args.row], t.tables.items)
  {
    hide DbCore, NoDuplicates, PostsMatch, HasUnresolvedDuplicate, Complete, OpenApiTurn, Asked;
    if args.turn !in db.tables.turns && args.leaseSeconds > 0 {
      OpenedIsNew(db, args);
      var running := Opened(db, args);
      OpenedAsks(db, args);
      var ctx, response := Ctx(args.row, args.token, args.turn), ErrorResponse(XPostUnresolved, args.turn);
      CompleteEvolves(running, ctx, Failed, response, args.now, true);
      CompleteEffect(running, ctx, Failed, response, args.now);
      StillAsked(running, After(running, Complete(running, ctx, Failed, response, args.now, true)), args.row);
    }
  }

  lemma OpenedAsks(db: Db, args: ClaimArgs)
    requires DbInv(db) && args.row !in db.rows && args.turn !in db.tables.turns
    ensures Asked(args.row, NewRow(args), Opened(db, args).tables.items)
  {
    hide GaplessTurns, NoOrphanExecs, ResultsMatch, RowsOk, TurnsCoupled, ResultItems, OneChat, NoDuplicates,
      PostsMatch;
    FreshTurnHasNoItems(db.tables, args.turn);
  }

  lemma StillAsked(a: Db, b: Db, k: RowKey)
    requires k in a.rows && Asked(k, a.rows[k], a.tables.items) && Evolves(a.tables, b.tables)
    ensures k in b.rows && b.rows[k].turn == a.rows[k].turn ==> Asked(k, b.rows[k], b.tables.items)
  {
  }

  lemma AskedStep(cfg: Config, s: State, e: Event)
    requires Inv(cfg, s) && AllAsked(s)
    ensures AllAsked(Step(cfg, s, e))
  {
    hide Inv, Step;
    var t := Step(cfg, s, e);
    ItemsStay(cfg, s, e);
    forall k | k in t.db.rows ensures Asked(k, t.db.rows[k], t.db.tables.items) {
      if k in s.db.rows {
        TurnStays(cfg, s, e, k);
        assert Asked(k, s.db.rows[k], s.db.tables.items);
      } else {
        NewRowAsks(cfg, s, e, k);
      }
    }
  }

  lemma {:induction false} AskedRun(cfg: Config, s: State, events: seq<Event>)
    requires Inv(cfg, s) && AllAsked(s)
    ensures AllAsked(Run(cfg, s, events))
    decreases |events|
  {
    hide Inv, AllAsked, Step;
    if events != [] {
      StepKeepsInv(cfg, s, events[0]);
      AskedStep(cfg, s, events[0]);
      AskedRun(cfg, Step(cfg, s, events[0]), events[1..]);
    }
  }

  /** In every run: the API turn of every row holds the request as a user message. */
  lemma RequestItemsAreKept(cfg: Config, events: seq<Event>, k: RowKey)
    requires k in Reached(cfg, events).db.rows
    ensures var s := Reached(cfg, events);
            var r := s.db.rows[k];
            && r.turn.Some?
            && var ref := ItemRef(r.turn.value, ApprovalRequestKey(k.key));
               ref in s.db.tables.items && s.db.tables.items[ref].kind == UserMessage
               && s.db.tables.items[ref].content == "approval request"
  {
    hide Inv;
    InitialInv(cfg);
    AskedRun(cfg, INITIAL, events);
    ReachedInv(cfg, events);
    RowOfInv(cfg, Reached(cfg, events), k);
    assert Asked(k, Reached(cfg, events).db.rows[k], Reached(cfg, events).db.tables.items);
  }

  // ---------- What an operator leaves behind ----------

  /**
   A reconciliation writes the row, and an audit turn of the same session that is completed at once and holds the
   decision and its result.
   */
  lemma ReconciliationLeaves(cfg: Config, events: seq<Event>, e: Event)
    requires e.ResolveAsPosted? || e.ResolveAsNotPosted?
    requires e.k in Reached(cfg, events).db.rows && e.audit !in Reached(cfg, events).db.tables.turns
    ensures var s := Reached(cfg, events);
            var r := s.db.rows[e.k];
            var t := Step(cfg, s, e);
            t.db.rows != s.db.rows ==>
              && r.status == OutcomeUnknown && r.turn.Some? && e.k in t.db.rows
              && t.db.rows[e.k].status == (if e.ResolveAsPosted? then Succeeded else Failed)
              && e.audit in t.db.tables.turns && t.db.tables.turns[e.audit].session == r.session
              && t.db.tables.turns[e.audit].status == TurnCompleted
              && ItemRef(e.audit, PlainKey("reconciliation-decision")) in t.db.tables.items
              && ItemRef(e.audit, PlainKey("reconciliation-result")) in t.db.tables.items
              && t.db.tables.items[ItemRef(e.audit, PlainKey("reconciliation-decision"))].content
                 == (if e.ResolveAsPosted? then "posted " + e.xPostId else "not_posted")
              && t.db.tables.items[ItemRef(e.audit, PlainKey("reconciliation-result"))].content
                 == (if e.ResolveAsPosted? then "api_result: success" else "api_result: error")
    ensures Step(cfg, Reached(cfg, events), e).db.rows == Reached(cfg, events).db.rows ==>
              Step(cfg, Reached(cfg, events), e).db == Reached(cfg, events).db
  {
    hide DbInv, ProtocolInv, Insertable, CreateTurn;
    ReachedInv(cfg, events);
    var s := Reached(cfg, events);
    RowOfInv(cfg, s, e.k);
    DbPart(cfg, s);
    AuditSays(s.db, e.audit, s.db.rows[e.k].session, e.now, if e.ResolveAsPosted? then Some(e.xPostId) else None);
    hide AuditTurn;
  }

  lemma AuditSays(db: Db, turn: TurnId, session: SessionId, now: Time, posted: Option<string>)
    requires DbInv(db) && turn !in db.tables.turns
    ensures var b := AuditTurn(db.tables, turn, session, now, posted);
            var decision, result :=
              ItemRef(turn, PlainKey("reconciliation-decision")), ItemRef(turn, PlainKey("reconciliation-result"));
            && turn in b.turns && b.turns[turn].session == session && b.turns[turn].status == TurnCompleted
            && decision in b.items && result in b.items
            && b.items[decision].content == (if posted.Some? then "posted " + posted.value else "not_posted")
            && b.items[result].content == (if posted.Some? then "api_result: success" else "api_result: error")
  {
    hide RowsOk, TurnsCoupled, ResultItems, OneChat, PostsMatch, NoDuplicates;
    FreshTurnHasNoItems(db.tables, turn);
    DecisionAndResult();
  }

  lemma DecisionAndResult()
    ensures PlainKey("reconciliation-decision") != PlainKey("reconciliation-result")
  {
    assert "reconciliation-decision"[15] == 'd' && "reconciliation-result"[15] == 'r';
  }
}
