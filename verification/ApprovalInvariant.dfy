/** The invariant that couples rows, API turns, result items and posts in every committed state. */
module ApprovalInvariant {
  import opened Options
  import opened Turns
  import opened Idempotency
  import opened PublishedPosts
  import opened Approval
  import Campaigns

  predicate RowOk(k: RowKey, r: Row) {
    && r.turn.Some?
    && (r.response.Some? <==> r.status != Processing)
    && (r.external.Some? ==> r.started.Some?)
    && (r.started.Some? ==> k.op == PublishXPost)
    && (r.status == OutcomeUnknown ==> r.started.Some?)
  }

  ghost predicate RowsOk(rows: Rows) { forall k | k in rows :: RowOk(k, rows[k]) }

  /** An approval row is processing iff its API turn is running; afterwards that turn is completed. */
  ghost predicate TurnsCoupled(turns: map<TurnId, Turn>, rows: Rows) {
    && (forall k | k in rows && rows[k].turn.Some? :: TurnOfRow(turns, rows[k]))
    && (forall j, k | j in rows && k in rows && rows[j].turn.Some? :: rows[j].turn == rows[k].turn ==> j == k)
  }

  predicate TurnOfRow(turns: map<TurnId, Turn>, r: Row)
    requires r.turn.Some?
  {
    && r.turn.value in turns
    && turns[r.turn.value].session == r.session
    && turns[r.turn.value].status == (if r.status == Processing then TurnRunning else TurnCompleted)
  }

  /** The API result item exists iff the row has left processing. */
  ghost predicate ResultItems(items: map<ItemRef, Item>, rows: Rows) {
    forall k | k in rows && rows[k].turn.Some? ::
      ItemRef(rows[k].turn.value, ApprovalResultKey(k.key)) in items <==> rows[k].status != Processing
  }

  /** A publish row has succeeded iff exactly one post refers to it. */
  ghost predicate PostsMatch(rows: Rows, posts: map<nat, Post>) {
    && (forall p | p in posts :: PublishedRow(rows, posts[p].request))
    && (forall p, q | p in posts && q in posts :: posts[p].request == posts[q].request ==> p == q)
    && (forall k | PublishedRow(rows, k) :: exists p :: p in posts && posts[p].request == k)
  }

  predicate PublishedRow(rows: Rows, k: RowKey) {
    k in rows && k.op == PublishXPost && rows[k].status == Succeeded
  }

  /** At most one publish row per marketer and content is processing or outcome-unknown. */
  ghost predicate NoDuplicates(rows: Rows) {
    forall j, k | Contends(rows, j) && Contends(rows, k) ::
      j.marketer == k.marketer && rows[j].request == rows[k].request ==> j == k
  }

  predicate Contends(rows: Rows, k: RowKey) {
    k in rows && k.op == PublishXPost && Unresolved(rows[k].status)
  }

  /** At most one pending or running turn per session, API turns aside. */
  ghost predicate OneChat(turns: map<TurnId, Turn>, api: set<TurnId>) {
    forall t, u | Chatting(turns, api, t) && Chatting(turns, api, u) ::
      turns[t].session == turns[u].session ==> t == u
  }

  predicate Chatting(turns: map<TurnId, Turn>, api: set<TurnId>, t: TurnId) {
    t in turns && t !in api && Active(turns[t].status)
  }

  ghost predicate DbCore(tables: Tables, rows: Rows) {
    && TablesInv(tables)
    && RowsOk(rows)
    && TurnsCoupled(tables.turns, rows)
    && ResultItems(tables.items, rows)
    && OneChat(tables.turns, ApiTurns(rows))
  }

  ghost predicate DbInv(db: Db) {
    && DbCore(db.tables, db.rows)
    && PostsMatch(db.rows, db.posts)
    && NoDuplicates(db.rows)
  }

  predicate CtxOk(db: Db, ctx: Ctx) {
    ctx.row in db.rows && db.rows[ctx.row].turn == Some(ctx.turn)
  }

  lemma EmptyDbInv()
    ensures DbInv(EMPTY_DB)
  {
    EmptyInv();
  }

  // ---------- Updates of one row that neither open nor close it ----------

  /** Same turn, session and request, and the same side of processing / unresolved / succeeded. */
  predicate SameStanding(r: Row, r': Row) {
    && r'.turn == r.turn && r'.session == r.session && r'.request == r.request
    && (r'.status == Processing <==> r.status == Processing)
    && (Unresolved(r'.status) ==> Unresolved(r.status))
    && (r'.status == Succeeded <==> r.status == Succeeded)
  }

  lemma SameApiTurns(rows: Rows, k: RowKey, r': Row)
    requires k in rows && r'.turn == rows[k].turn
    ensures ApiTurns(rows[k := r']) == ApiTurns(rows)
  {
    var rows' := rows[k := r'];
    forall t ensures t in ApiTurns(rows') <==> t in ApiTurns(rows) {
      if t in ApiTurns(rows) {
        var j :| j in rows && rows[j].turn == Some(t);
        assert j in rows' && rows'[j].turn == Some(t);
      }
      if t in ApiTurns(rows') {
        var j :| j in rows' && rows'[j].turn == Some(t);
        assert j in rows && rows[j].turn == Some(t);
      }
    }
  }

  lemma QuietCore(tables: Tables, rows: Rows, k: RowKey, r': Row)
    requires DbCore(tables, rows) && k in rows && RowOk(k, r') && SameStanding(rows[k], r')
    ensures DbCore(tables, rows[k := r'])
  {
    hide TablesInv, OneChat;
    SameApiTurns(rows, k, r');
  }

  lemma QuietUpdate(db: Db, k: RowKey, r': Row)
    requires DbInv(db) && k in db.rows && RowOk(k, r') && SameStanding(db.rows[k], r')
    ensures DbInv(db.(rows := db.rows[k := r']))
  {
    hide DbCore;
    var rows' := db.rows[k := r'];
    QuietCore(db.tables, db.rows, k, r');
    CloseKeepsNoDuplicates(db.rows, k, r');
    assert PostsMatch(rows', db.posts) by {
      assert forall j :: PublishedRow(rows', j) <==> PublishedRow(db.rows, j);
    }
  }

  // ---------- Closing a row ----------

  /** `b` is `a` with the item `ref` stored in `turn` and that turn completed. */
  ghost predicate ClosedTurn(a: Tables, b: Tables, turn: TurnId, ref: ItemRef) {
    && b.turns.Keys == a.turns.Keys && turn in a.turns
    && (forall t | t in a.turns && t != turn :: b.turns[t] == a.turns[t])
    && b.turns[turn].session == a.turns[turn].session
    && b.turns[turn].status == TurnCompleted
    && b.items.Keys == a.items.Keys + {ref}
  }

  /** `append_item` inside `complete` finds its turn running, so it never raises. */
  lemma FinishApiTurnCloses(a: Tables, turn: TurnId, key: Key, success: bool)
    requires TablesInv(a) && Running(a.turns, turn) && ItemRef(turn, ApprovalResultKey(key)) !in a.items
    ensures FinishApiTurn(a, turn, key, success).Some?
    ensures TablesInv(FinishApiTurn(a, turn, key, success).value)
    ensures ClosedTurn(a, FinishApiTurn(a, turn, key, success).value, turn, ItemRef(turn, ApprovalResultKey(key)))
  {
    hide TablesInv;
    var ref := ItemRef(turn, ApprovalResultKey(key));
    var content := if success then "api_result: success" else "api_result: error";
    AppendKeepsInv(a, ref, AssistantMessage, content);
    FinishTurnKeepsInv(Insert(a, ref, AssistantMessage, content, None), turn, TurnCompleted);
  }

  /** The row of `k` after it left processing. */
  predicate ClosesRow(rows: Rows, rows': Rows, k: RowKey, r': Row) {
    && k in rows && rows[k].status == Processing && rows' == rows[k := r']
    && RowOk(k, r') && r'.status != Processing
    && r'.turn == rows[k].turn && r'.session == rows[k].session && r'.request == rows[k].request
  }

  lemma CloseKeepsTurns(a: Tables, b: Tables, rows: Rows, rows': Rows, k: RowKey, r': Row)
    requires RowsOk(rows) && TurnsCoupled(a.turns, rows) && ResultItems(a.items, rows)
    requires ClosesRow(rows, rows', k, r')
    requires ClosedTurn(a, b, r'.turn.value, ItemRef(r'.turn.value, ApprovalResultKey(k.key)))
    ensures TurnsCoupled(b.turns, rows') && ResultItems(b.items, rows')
  {
  }

  lemma CloseKeepsChat(a: Tables, b: Tables, rows: Rows, rows': Rows, k: RowKey, r': Row)
    requires OneChat(a.turns, ApiTurns(rows)) && ClosesRow(rows, rows', k, r')
    requires ClosedTurn(a, b, r'.turn.value, ItemRef(r'.turn.value, ApprovalResultKey(k.key)))
    ensures OneChat(b.turns, ApiTurns(rows'))
  {
    SameApiTurns(rows, k, r');
    assert r'.turn.value in ApiTurns(rows);
    assert forall t | Chatting(b.turns, ApiTurns(rows'), t) :: Chatting(a.turns, ApiTurns(rows), t);
  }

  lemma CloseKeepsCore(a: Tables, b: Tables, rows: Rows, rows': Rows, k: RowKey, r': Row)
    requires DbCore(a, rows) && ClosesRow(rows, rows', k, r') && TablesInv(b)
    requires ClosedTurn(a, b, r'.turn.value, ItemRef(r'.turn.value, ApprovalResultKey(k.key)))
    ensures DbCore(b, rows')
  {
    hide TablesInv, TurnsCoupled, ResultItems, OneChat, ClosedTurn;
    CloseKeepsTurns(a, b, rows, rows', k, r');
    CloseKeepsChat(a, b, rows, rows', k, r');
  }

  lemma CloseKeepsNoDuplicates(rows: Rows, k: RowKey, r': Row)
    requires NoDuplicates(rows) && k in rows && r'.request == rows[k].request
    requires Unresolved(r'.status) ==> Unresolved(rows[k].status)
    ensures NoDuplicates(rows[k := r'])
  {
    assert forall j | Contends(rows[k := r'], j) :: Contends(rows, j);
  }

  lemma PostsAfterFailure(rows: Rows, rows': Rows, posts: map<nat, Post>, k: RowKey, r': Row)
    requires PostsMatch(rows, posts) && k in rows && rows' == rows[k := r']
    requires rows[k].status != Succeeded && (r'.status == Succeeded ==> k.op != PublishXPost)
    ensures PostsMatch(rows', posts)
  {
    assert forall j :: PublishedRow(rows', j) <==> PublishedRow(rows, j);
  }

  lemma PostsAfterSuccess(rows: Rows, rows': Rows, posts: map<nat, Post>, k: RowKey, r': Row, id: nat, post: Post)
    requires PostsMatch(rows, posts) && k in rows && rows' == rows[k := r']
    requires rows[k].status != Succeeded && r'.status == Succeeded && k.op == PublishXPost
    requires post.request == k && Insertable(posts, id, post)
    ensures PostsMatch(rows', posts[id := post])
  {
    var posts' := posts[id := post];
    forall j | PublishedRow(rows', j) ensures exists p :: p in posts' && posts'[p].request == j {
      if j == k {
        assert id in posts' && posts'[id].request == k;
      } else {
        assert PublishedRow(rows, j);
        var p :| p in posts && posts[p].request == j;
        assert p in posts' && posts'[p].request == j;
      }
    }
  }

  /** What `finalize` writes. */
  function FinalRow(r: Row, status: Status, response: Response): Row {
    r.(status := status, response := Some(response))
  }

  /** `complete` never raises for a turn that has ended, and it closes row and turn together. */
  lemma CompleteKeepsCore(db: Db, ctx: Ctx, status: Status, response: Response, now: Time, requireLease: bool)
    requires DbCore(db.tables, db.rows) && CtxOk(db, ctx) && status != Processing
    requires status == OutcomeUnknown ==> db.rows[ctx.row].started.Some?
    ensures var tx := Complete(db, ctx, status, response, now, requireLease);
            && (tx.Committed? <==> Held(db.rows, ctx.row, ctx.token, now, requireLease))
            && (!tx.Committed? ==> tx == LeaseLost)
            && (tx.Committed? ==>
                  && tx.db == db.(tables := tx.db.tables, rows := tx.db.rows)
                  && tx.db.rows == db.rows[ctx.row := FinalRow(db.rows[ctx.row], status, response)]
                  && DbCore(tx.db.tables, tx.db.rows))
  {
    hide TablesInv, OneChat;
    if Held(db.rows, ctx.row, ctx.token, now, requireLease) {
      var r := db.rows[ctx.row];
      assert RowOk(ctx.row, r) && TurnOfRow(db.tables.turns, r);
      FinishApiTurnCloses(db.tables, ctx.turn, ctx.row.key, status == Succeeded);
      var b := FinishApiTurn(db.tables, ctx.turn, ctx.row.key, status == Succeeded).value;
      var r' := FinalRow(r, status, response);
      CloseKeepsCore(db.tables, b, db.rows, db.rows[ctx.row := r'], ctx.row, r');
    }
  }

  lemma FailKeepsInv(db: Db, ctx: Ctx, code: ErrorCode, status: Status, now: Time)
    requires DbInv(db) && CtxOk(db, ctx) && (status == Failed || status == OutcomeUnknown)
    requires status == OutcomeUnknown ==> db.rows[ctx.row].started.Some?
    ensures DbInv(After(db, FailRequest(db, ctx, code, status, now)))
  {
    hide DbCore, NoDuplicates, PostsMatch;
    var response := ErrorResponse(code, ctx.turn);
    CompleteKeepsCore(db, ctx, status, response, now, true);
    if Held(db.rows, ctx.row, ctx.token, now, true) {
      var r' := FinalRow(db.rows[ctx.row], status, response);
      PostsAfterFailure(db.rows, db.rows[ctx.row := r'], db.posts, ctx.row, r');
      CloseKeepsNoDuplicates(db.rows, ctx.row, r');
    }
  }

  lemma SavePostKeepsInv(db: Db, ctx: Ctx, id: nat, campaign: nat, published: PublishedPosts.Published, now: Time)
    requires DbInv(db) && CtxOk(db, ctx) && ctx.row.op == PublishXPost
    ensures DbInv(After(db, SavePost(db, ctx, id, campaign, published, now)))
    ensures SavePost(db, ctx, id, campaign, published, now) != TurnEndedError
  {
    hide DbCore, NoDuplicates, PostsMatch;
    var post := Post(ctx.row, campaign, published);
    if Insertable(db.posts, id, post) {
      var response := PostResponse(id, ctx.turn, post);
      CompleteKeepsCore(db, ctx, Succeeded, response, now, true);
      if Held(db.rows, ctx.row, ctx.token, now, true) {
        var r' := FinalRow(db.rows[ctx.row], Succeeded, response);
        PostsAfterSuccess(db.rows, db.rows[ctx.row := r'], db.posts, ctx.row, r', id, post);
        CloseKeepsNoDuplicates(db.rows, ctx.row, r');
      }
    }
  }

  lemma SaveCampaignKeepsInv(db: Db, ctx: Ctx, company: nat, newId: nat, request: Request,
                             generated: Option<Campaigns.Digest>, now: Time)
    requires DbInv(db) && CtxOk(db, ctx) && ctx.row.op == UpsertCampaign && request.Upsert?
    ensures DbInv(After(db, SaveCampaign(db, ctx, company, newId, request, generated, now)))
    ensures SaveCampaign(db, ctx, company, newId, request, generated, now) != TurnEndedError
  {
    hide DbCore, NoDuplicates, PostsMatch;
    var response := CampaignResponse(request, newId, ctx.turn, now);
    CompleteKeepsCore(db, ctx, Succeeded, response, now, true);
    if Held(db.rows, ctx.row, ctx.token, now, true) {
      var r' := FinalRow(db.rows[ctx.row], Succeeded, response);
      PostsAfterFailure(db.rows, db.rows[ctx.row := r'], db.posts, ctx.row, r');
      CloseKeepsNoDuplicates(db.rows, ctx.row, r');
    }
  }

  // ---------- Opening a row ----------

  /** `b` is `a` with the new running turn `turn`, which holds no API result yet. */
  ghost predicate OpenedTurn(a: Tables, b: Tables, turn: TurnId, session: SessionId) {
    && turn !in a.turns && b.turns.Keys == a.turns.Keys + {turn}
    && (forall t | t in a.turns :: b.turns[t] == a.turns[t])
    && b.turns[turn].session == session && b.turns[turn].status == TurnRunning
    && (forall r: ItemRef | r.turn != turn :: r in b.items <==> r in a.items)
    && (forall key: Key :: ItemRef(turn, ApprovalResultKey(key)) !in b.items)
  }

  lemma FreshTurnHasNoItems(a: Tables, turn: TurnId)
    requires TablesInv(a) && turn !in a.turns
    ensures forall r | r in a.items :: r.turn != turn
  {
  }

  lemma OpenTurn(a: Tables, turn: TurnId, session: SessionId, now: Time, key: ItemKey, content: string)
    requires TablesInv(a) && turn !in a.turns && Appendable(key) && !key.ApprovalResultKey?
    ensures var b := AppendOpen(CreateTurn(a, turn, session, now), ItemRef(turn, key), UserMessage, content);
            TablesInv(b) && OpenedTurn(a, b, turn, session)
  {
    hide TablesInv;
    FreshTurnHasNoItems(a, turn);
    CreateTurnKeepsInv(a, turn, session, now);
    AppendKeepsInv(CreateTurn(a, turn, session, now), ItemRef(turn, key), UserMessage, content);
  }

  /** The row that `reserve` and `attach_turn` leave behind. */
  function NewRow(args: ClaimArgs): Row {
    Row(args.session, Some(args.turn), args.request, Processing, args.token, args.now + args.leaseSeconds, None, None,
        None)
  }

  lemma OpenApiTurns(rows: Rows, k: RowKey, r: Row)
    requires k !in rows && r.turn.Some?
    ensures ApiTurns(rows[k := r]) == ApiTurns(rows) + {r.turn.value}
  {
    var rows' := rows[k := r];
    forall t | t in ApiTurns(rows) ensures t in ApiTurns(rows') {
      var j :| j in rows && rows[j].turn == Some(t);
      assert j in rows' && rows'[j].turn == Some(t);
    }
    assert k in rows' && rows'[k].turn == r.turn;
  }

  lemma OpenKeepsCore(a: Tables, b: Tables, rows: Rows, k: RowKey, r: Row)
    requires DbCore(a, rows) && k !in rows && RowOk(k, r) && r.status == Processing
    requires TablesInv(b) && OpenedTurn(a, b, r.turn.value, r.session)
    ensures DbCore(b, rows[k := r])
  {
    hide TablesInv;
    var rows' := rows[k := r];
    OpenApiTurns(rows, k, r);
    assert OneChat(b.turns, ApiTurns(rows')) by {
      assert forall t | Chatting(b.turns, ApiTurns(rows'), t) :: Chatting(a.turns, ApiTurns(rows), t);
    }
  }

  lemma OpenKeepsPosts(rows: Rows, posts: map<nat, Post>, k: RowKey, r: Row)
    requires PostsMatch(rows, posts) && k !in rows && r.status == Processing
    ensures PostsMatch(rows[k := r], posts)
  {
    var rows' := rows[k := r];
    assert forall j :: PublishedRow(rows', j) <==> PublishedRow(rows, j);
    forall j | PublishedRow(rows', j) ensures exists p :: p in posts && posts[p].request == j {
      assert PublishedRow(rows, j);
    }
  }

  lemma OpenKeepsNoDuplicates(rows: Rows, k: RowKey, r: Row)
    requires NoDuplicates(rows) && k !in rows
    requires k.op == PublishXPost ==> !HasUnresolvedDuplicate(rows[k := r], k.marketer, r.request, k)
    ensures NoDuplicates(rows[k := r])
  {
    var rows' := rows[k := r];
    forall j | Contends(rows', j) && j != k && Contends(rows', k)
      ensures !(j.marketer == k.marketer && rows'[j].request == rows'[k].request)
    {
      assert j in rows' && Unresolved(rows'[j].status);
    }
    assert forall j | Contends(rows', j) && j != k :: Contends(rows, j);
  }

  /** What `reserve`, `_create_api_turn` and `attach_turn` leave behind. */
  function Opened(db: Db, args: ClaimArgs): Db
    requires args.row !in db.rows
  {
    OpenApiTurn(db.(rows := Reserve(db.rows, args.row, args.session, args.request, args.token,
                                    args.now + args.leaseSeconds).value), args)
  }

  lemma OpenedIsNew(db: Db, args: ClaimArgs)
    requires DbInv(db) && args.row !in db.rows && args.turn !in db.tables.turns
    ensures var o := Opened(db, args);
            o == db.(tables := o.tables, rows := db.rows[args.row := NewRow(args)])
            && DbCore(o.tables, o.rows) && PostsMatch(o.rows, db.posts)
  {
    hide TablesInv, RowsOk, TurnsCoupled, ResultItems, NoDuplicates, OneChat, PostsMatch, OpenedTurn;
    OpenTurn(db.tables, args.turn, args.session, args.now, ApprovalRequestKey(args.row.key), "approval request");
    OpenKeepsCore(db.tables, Opened(db, args).tables, db.rows, args.row, NewRow(args));
    OpenKeepsPosts(db.rows, db.posts, args.row, NewRow(args));
  }

  lemma StartNewKeepsInv(db: Db, args: ClaimArgs)
    requires DbInv(db) && args.row !in db.rows && args.turn !in db.tables.turns && args.leaseSeconds > 0
    ensures !StartNew(db, args).Rejected? && DbInv(StartNew(db, args).db)
    ensures var r := NewRow(args);
            var result := StartNew(db, args);
            result.db.rows ==
              if result.Granted? then db.rows[args.row := r]
              else db.rows[args.row := FinalRow(r, Failed, result.response)]
    ensures StartNew(db, args).Replayed? ==>
              StartNew(db, args).response == Response(409, ErrorBody(XPostUnresolved, args.turn))
    ensures StartNew(db, args).Granted? ==>
              StartNew(db, args).turn == args.turn && StartNew(db, args).external.None?
    ensures StartNew(db, args).Replayed? <==>
              args.row.op == PublishXPost
              && exists j :: j in db.rows && j.marketer == args.row.marketer && j.op == PublishXPost
                             && db.rows[j].request == args.request
                             && (db.rows[j].status == Processing || db.rows[j].status == OutcomeUnknown)
    ensures StartNew(db, args).db == db.(tables := StartNew(db, args).db.tables, rows := StartNew(db, args).db.rows)
  {
    hide DbCore, NoDuplicates, PostsMatch, HasUnresolvedDuplicate, OpenApiTurn, Complete;
    var r := NewRow(args);
    OpenedIsNew(db, args);
    var running := Opened(db, args);
    DuplicatesAreOthers(db, args, running.rows);
    if args.row.op == PublishXPost && HasUnresolvedDuplicate(running.rows, args.row.marketer, args.request, args.row) {
      var ctx := Ctx(args.row, args.token, args.turn);
      var response := ErrorResponse(XPostUnresolved, args.turn);
      CompleteKeepsCore(running, ctx, Failed, response, args.now, true);
      var r' := FinalRow(r, Failed, response);
      PostsAfterFailure(running.rows, running.rows[args.row := r'], db.posts, args.row, r');
      OpenClosedKeepsNoDuplicates(db.rows, args.row, r');
      assert running.rows[args.row := r'] == db.rows[args.row := r'];
    } else {
      OpenKeepsNoDuplicates(db.rows, args.row, r);
    }
  }

  lemma DuplicatesAreOthers(db: Db, args: ClaimArgs, rows: Rows)
    requires args.row !in db.rows && rows == db.rows[args.row := NewRow(args)]
    ensures HasUnresolvedDuplicate(rows, args.row.marketer, args.request, args.row) <==>
              exists j :: j in db.rows && j.marketer == args.row.marketer && j.op == PublishXPost
                          && db.rows[j].request == args.request
                          && (db.rows[j].status == Processing || db.rows[j].status == OutcomeUnknown)
  {
    if HasUnresolvedDuplicate(rows, args.row.marketer, args.request, args.row) {
      var k :| k in rows && k.marketer == args.row.marketer && k.op == PublishXPost && rows[k].request == args.request
          && k != args.row && Unresolved(rows[k].status);
      assert k in db.rows && rows[k] == db.rows[k];
    }
    forall j | j in db.rows ensures j in rows && rows[j] == db.rows[j] && j != args.row {}
  }

  lemma OpenClosedKeepsNoDuplicates(rows: Rows, k: RowKey, r': Row)
    requires NoDuplicates(rows) && k !in rows && !Unresolved(r'.status)
    ensures NoDuplicates(rows[k := r'])
  {
    assert forall j | Contends(rows[k := r'], j) :: Contends(rows, j);
  }

  // ---------- Re-sent requests ----------

  /** The row after `reacquire`. */
  function Retaken(r: Row, token: Token, lease: Time): Row { r.(token := token, lease := lease) }

  /** The only four things a re-sent request can do to the tables. */
  predicate DecidedAs(db: Db, args: ClaimArgs, result: ClaimResult)
    requires args.row in db.rows && db.rows[args.row].turn.Some?
  {
    var row := db.rows[args.row];
    match result
    case Rejected(error) =>
      if row.session != args.session || row.request != args.request then error == KeyReused
      else error == InProgress && row.status == Processing && row.lease > args.now
    case Granted(after, turn, external) =>
      && row.session == args.session && row.request == args.request
      && row.status == Processing && row.lease <= args.now
      && (row.started.Some? && args.row.op == PublishXPost ==> row.external.Some?)
      && row.turn == Some(turn) && external == row.external
      && after == db.(rows := db.rows[args.row := Retaken(row, args.token, args.now + args.leaseSeconds)])
    case Replayed(after, response) =>
      && row.session == args.session && row.request == args.request
      && if row.status != Processing then
        after == db && row.response == Some(response)
      else
        && args.row.op == PublishXPost && row.started.Some? && row.external.None? && row.lease <= args.now
        && response == Response(504, ErrorBody(XPostOutcomeUnknown, row.turn.value))
        && after == db.(tables := after.tables, rows := db.rows[args.row := FinalRow(row, OutcomeUnknown, response)])
  }

  lemma CloseUnknownKeepsInv(db: Db, args: ClaimArgs)
    requires DbInv(db) && args.row in db.rows && args.row.op == PublishXPost && db.rows[args.row].turn.Some?
    requires db.rows[args.row].status == Processing && db.rows[args.row].lease <= args.now
    requires db.rows[args.row].started.Some? && db.rows[args.row].external.None?
    requires db.rows[args.row].session == args.session && db.rows[args.row].request == args.request
    ensures CloseUnknown(db, args).Replayed? && DbInv(CloseUnknown(db, args).db)
    ensures DecidedAs(db, args, CloseUnknown(db, args))
  {
    hide TablesInv, NoDuplicates, OneChat, PostsMatch;
    var k, r := args.row, db.rows[args.row];
    var response := ErrorResponse(XPostOutcomeUnknown, r.turn.value);
    assert RowOk(k, r) && TurnOfRow(db.tables.turns, r);
    FinishApiTurnCloses(db.tables, r.turn.value, k.key, false);
    var b := FinishApiTurn(db.tables, r.turn.value, k.key, false).value;
    var r' := FinalRow(r, OutcomeUnknown, response);
    CloseKeepsCore(db.tables, b, db.rows, db.rows[k := r'], k, r');
    CloseKeepsNoDuplicates(db.rows, k, r');
    PostsAfterFailure(db.rows, db.rows[k := r'], db.posts, k, r');
  }

  /** A re-sent request keeps the invariant; the branches for a row without a turn or response are dead. */
  lemma DecideKeepsInv(db: Db, args: ClaimArgs)
    requires DbInv(db) && args.row in db.rows
    ensures DbInv(AfterClaim(db, DecideExisting(db, args)))
    ensures db.rows[args.row].turn.Some?
    ensures DecidedAs(db, args, DecideExisting(db, args))
  {
    hide TablesInv, TurnsCoupled, ResultItems, NoDuplicates, OneChat, PostsMatch;
    var k, r := args.row, db.rows[args.row];
    assert RowOk(k, r);
    if r.session == args.session && r.request == args.request && r.status == Processing && r.lease <= args.now {
      if k.op == PublishXPost && r.started.Some? && r.external.None? {
        CloseUnknownKeepsInv(db, args);
      } else {
        QuietUpdate(db, k, Retaken(r, args.token, args.now + args.leaseSeconds));
      }
    }
  }

  lemma ClaimResumeKeepsInv(db: Db, k: RowKey, token: Token, now: Time, leaseSeconds: nat)
    requires DbInv(db)
    ensures DbInv(AfterClaim(db, ClaimResume(db, k, token, now, leaseSeconds)))
    ensures Resumable(db.rows, k, now) ==>
              ClaimResume(db, k, token, now, leaseSeconds) ==
              Granted(db.(rows := db.rows[k := Retaken(db.rows[k], token, now + leaseSeconds)]),
                      db.rows[k].turn.value, db.rows[k].external)
  {
    hide TablesInv, TurnsCoupled, ResultItems, NoDuplicates, OneChat, PostsMatch;
    if Resumable(db.rows, k, now) {
      assert RowOk(k, db.rows[k]);
      QuietUpdate(db, k, Retaken(db.rows[k], token, now + leaseSeconds));
    }
  }

  // ---------- Updates that leave the API turns alone ----------

  /** Turns and items that belong to `api` are the same in `a` and `b`. */
  ghost predicate SameForApi(a: Tables, b: Tables, api: set<TurnId>) {
    && (forall t | t in api && t in a.turns :: t in b.turns && b.turns[t] == a.turns[t])
    && (forall r: ItemRef | r.turn in api :: r in b.items <==> r in a.items)
  }

  lemma SameForApiKeepsCore(a: Tables, b: Tables, rows: Rows)
    requires DbCore(a, rows) && TablesInv(b)
    requires SameForApi(a, b, ApiTurns(rows)) && OneChat(b.turns, ApiTurns(rows))
    ensures DbCore(b, rows)
  {
    hide TablesInv, OneChat;
    forall k | k in rows ensures rows[k].turn.value in ApiTurns(rows) { assert RowOk(k, rows[k]); }
  }

  lemma AnswerStaysOpen(a: Tables, asked: Tables, turn: TurnId, session: SessionId, name: string, content: string)
    requires OpenedTurn(a, asked, turn, session) && TablesInv(asked)
    ensures var b := AppendOpen(asked, ItemRef(turn, PlainKey(name)), AssistantMessage, content);
            TablesInv(b) && OpenedTurn(a, b, turn, session)
  {
    hide TablesInv;
    var ref := ItemRef(turn, PlainKey(name));
    if ref !in asked.items { AppendKeepsInv(asked, ref, AssistantMessage, content); }
  }

  lemma EndedAtOnce(a: Tables, b: Tables, turn: TurnId, session: SessionId, api: set<TurnId>)
    requires OpenedTurn(a, b, turn, session) && turn !in api && OneChat(a.turns, api) && api <= a.turns.Keys
    ensures SameForApi(a, FinishTurn(b, turn, TurnCompleted), api)
    ensures OneChat(FinishTurn(b, turn, TurnCompleted).turns, api)
  {
    var c := FinishTurn(b, turn, TurnCompleted);
    assert c.items == b.items;
    assert c.turns[turn].status == TurnCompleted;
    assert forall t | t in a.turns :: c.turns[t] == a.turns[t];
    assert forall t | Chatting(c.turns, api, t) :: Chatting(a.turns, api, t);
  }

  /** The audit turn is opened and completed in one step: afterwards no new turn is active. */
  lemma AuditKeeps(a: Tables, turn: TurnId, session: SessionId, now: Time, posted: Option<string>, api: set<TurnId>)
    requires TablesInv(a) && turn !in a.turns && api <= a.turns.Keys && OneChat(a.turns, api)
    ensures TablesInv(AuditTurn(a, turn, session, now, posted))
    ensures SameForApi(a, AuditTurn(a, turn, session, now, posted), api)
    ensures OneChat(AuditTurn(a, turn, session, now, posted).turns, api)
  {
    hide TablesInv, OneChat, OpenedTurn, SameForApi;
    var asked := AppendOpen(CreateTurn(a, turn, session, now), ItemRef(turn, PlainKey("reconciliation-decision")),
                            UserMessage, Decision(posted));
    var answered := AppendOpen(asked, ItemRef(turn, PlainKey("reconciliation-result")), AssistantMessage,
                               AuditResult(posted));
    OpenTurn(a, turn, session, now, PlainKey("reconciliation-decision"), Decision(posted));
    AnswerStaysOpen(a, asked, turn, session, "reconciliation-result", AuditResult(posted));
    FinishTurnKeepsInv(answered, turn, TurnCompleted);
    EndedAtOnce(a, answered, turn, session, api);
  }

  lemma ApiTurnsExist(db: Db)
    requires DbInv(db)
    ensures ApiTurns(db.rows) <= db.tables.turns.Keys
  {
    hide TablesInv, ResultItems, NoDuplicates, OneChat, PostsMatch;
    forall t | t in ApiTurns(db.rows) ensures t in db.tables.turns {
      var k :| k in db.rows && db.rows[k].turn == Some(t);
      assert TurnOfRow(db.tables.turns, db.rows[k]);
    }
  }

  lemma ResolveKeepsCore(db: Db, k: RowKey, status: Status, response: Response, audit: TurnId, now: Time,
                         posted: Option<string>)
    requires DbInv(db) && AwaitsOperator(db.rows, k) && Final(status) && audit !in db.tables.turns
    ensures DbCore(AuditTurn(db.tables, audit, db.rows[k].session, now, posted),
                   db.rows[k := FinalRow(db.rows[k], status, response)])
    ensures NoDuplicates(db.rows[k := FinalRow(db.rows[k], status, response)])
  {
    hide TablesInv, OneChat, PostsMatch;
    var r, r' := db.rows[k], FinalRow(db.rows[k], status, response);
    assert RowOk(k, r);
    ApiTurnsExist(db);
    AuditKeeps(db.tables, audit, r.session, now, posted, ApiTurns(db.rows));
    SameForApiKeepsCore(db.tables, AuditTurn(db.tables, audit, r.session, now, posted), db.rows);
    SameApiTurns(db.rows, k, r');
    CloseKeepsNoDuplicates(db.rows, k, r');
  }

  lemma ResolveKeepsInv(db: Db, url: UrlBuilder, k: RowKey, id: nat, xPostId: string, at: Time, audit: TurnId,
                        now: Time)
    requires DbInv(db) && audit !in db.tables.turns
    ensures DbInv(After(db, ResolvePosted(db, url, k, id, xPostId, at, audit, now)))
    ensures DbInv(After(db, ResolveNotPosted(db, k, audit, now)))
  {
    hide DbCore, NoDuplicates, PostsMatch;
    if AwaitsOperator(db.rows, k) {
      var r := db.rows[k];
      var refused := ErrorResponse(XPostFailed, r.turn.value);
      if k.op == PublishXPost {
        ResolveKeepsCore(db, k, Failed, refused, audit, now, None);
        PostsAfterFailure(db.rows, db.rows[k := FinalRow(r, Failed, refused)], db.posts, k,
                          FinalRow(r, Failed, refused));
        if r.request.XPost? {
          var post := Post(k, r.request.campaign, DirectPost(url, r.request, k.key, xPostId, at));
          var response := PostResponse(id, r.turn.value, post);
          if Insertable(db.posts, id, post) {
            ResolveKeepsCore(db, k, Succeeded, response, audit, now, Some(xPostId));
            PostsAfterSuccess(db.rows, db.rows[k := FinalRow(r, Succeeded, response)], db.posts, k,
                              FinalRow(r, Succeeded, response), id, post);
          }
        }
      }
    }
  }
}
