/**
 The committed transactions of the approval APIs over the shared tables: claim, complete, save,
 take-over, recovery and manual reconciliation. A transaction that raises rolls back as a whole.
 */
module Approval {
  import opened Options
  import opened Turns
  import opened Idempotency
  import opened PublishedPosts
  import Campaigns

  datatype Post = Post(request: RowKey, campaign: nat, published: Published)

  datatype Db = Db(tables: Tables, rows: Rows, posts: map<nat, Post>, campaigns: Campaigns.CampaignTables)

  const EMPTY_DB := Db(EMPTY, map[], map[], Campaigns.CampaignTables(map[], map[]))

  /** The context of a request that obtained the right to execute. */
  datatype Ctx = Ctx(row: RowKey, token: Token, turn: TurnId)

  /** How a transaction ends; every outcome but the first leaves no trace in the tables. */
  datatype Tx = Committed(db: Db) | LeaseLost | TurnEndedError | DbError | Conflict

  function After(db: Db, tx: Tx): Db { if tx.Committed? then tx.db else db }

  function ApiTurns(rows: Rows): set<TurnId> {
    set k | k in rows && rows[k].turn.Some? :: rows[k].turn.value
  }

  /** `append_item` on a turn known to be running. */
  function AppendOpen(a: Tables, ref: ItemRef, kind: ItemType, content: string): Tables
    requires Running(a.turns, ref.turn)
  {
    if ref in a.items then a else Insert(a, ref, kind, content, None)
  }

  /** `save_result_and_finish_turn`; None when `append_item` raises. */
  function FinishApiTurn(a: Tables, turn: TurnId, key: Key, success: bool): Option<Tables> {
    var ref := ItemRef(turn, ApprovalResultKey(key));
    var content := if success then "api_result: success" else "api_result: error";
    match AppendItem(a, ref, AssistantMessage, content)
    case TurnNotRunning => None
    case AlreadyThere => Some(FinishTurn(a, turn, TurnCompleted))
    case Appended(b) => Some(FinishTurn(b, turn, TurnCompleted))
  }

  /** `ApprovalStore.complete`: finalize the row, store the API result, end the turn. */
  function Complete(db: Db, ctx: Ctx, status: Status, response: Response, now: Time, requireLease: bool): Tx {
    match Finalize(db.rows, ctx.row, ctx.token, status, response, now, requireLease)
    case None => LeaseLost
    case Some(rows) =>
      match FinishApiTurn(db.tables, ctx.turn, ctx.row.key, status == Succeeded)
      case None => TurnEndedError
      case Some(tables) => Committed(db.(tables := tables, rows := rows))
  }

  /** `_fail`: an error response with status failed or outcome_unknown. */
  function FailRequest(db: Db, ctx: Ctx, code: ErrorCode, status: Status, now: Time): Tx {
    Complete(db, ctx, status, ErrorResponse(code, ctx.turn), now, true)
  }

  /** The columns under which a tracking link is unique. */
  predicate SameLink(a: Tracking, b: Tracking) {
    a.source == b.source && a.medium == b.medium && a.campaign == b.campaign && a.content == b.content
  }

  /** The unique constraints of posts and tracking links, and the width of the id column. */
  predicate Insertable(posts: map<nat, Post>, id: nat, post: Post) {
    && id !in posts
    && |post.published.xPostId| <= MAX_X_POST_ID_LENGTH
    && forall p | p in posts ::
         && posts[p].request != post.request && posts[p].published.xPostId != post.published.xPostId
         && !SameLink(posts[p].published.tracking, post.published.tracking)
  }

  function PostResponse(id: nat, turn: TurnId, post: Post): Response {
    Response(201, PostBody(id, turn, post.campaign, post.published.xPostId, post.published.text,
                           post.published.tracking.trackedUrl, post.published.publishedAt))
  }

  /** `_save`: post, API result, turn and final status in one transaction. */
  function SavePost(db: Db, ctx: Ctx, id: nat, campaign: nat, published: Published, now: Time): Tx {
    var post := Post(ctx.row, campaign, published);
    if !Insertable(db.posts, id, post) then DbError
    else Complete(db.(posts := db.posts[id := post]), ctx, Succeeded, PostResponse(id, ctx.turn, post), now, true)
  }

  function CampaignTarget(request: Request, newId: nat): nat
    requires request.Upsert?
  {
    if request.id.None? then newId else request.id.value
  }

  /** The campaign and embedding writes of `_save`; None when the update matched no row. */
  function WriteCampaign(t: Campaigns.CampaignTables, company: nat, newId: nat, request: Request,
                         generated: Option<Campaigns.Digest>, now: Time): Option<Campaigns.CampaignTables>
    requires request.Upsert?
  {
    var written :=
      if request.id.Some?
      then Campaigns.UpdateIfUnchanged(t, company, request.id.value, request.expected, request.content, now)
      else if newId in t.campaigns then None
      else Some(Campaigns.Insert(t, newId, company, request.content, now));
    if written.None? then None
    else Some(Campaigns.UpsertIfGenerated(written.value, CampaignTarget(request, newId), generated))
  }

  function CampaignResponse(request: Request, newId: nat, turn: TurnId, now: Time): Response
    requires request.Upsert?
  {
    Response(if request.id.None? then 201 else 200,
             CampaignBody(CampaignTarget(request, newId), turn, request.content, now))
  }

  /** `_save` of the campaign approval; `generated` is the digest of a newly generated embedding. */
  function SaveCampaign(db: Db, ctx: Ctx, company: nat, newId: nat, request: Request,
                        generated: Option<Campaigns.Digest>, now: Time): Tx
    requires request.Upsert?
  {
    match WriteCampaign(db.campaigns, company, newId, request, generated, now)
    case None => if request.id.None? then DbError else Conflict
    case Some(campaigns) =>
      Complete(db.(campaigns := campaigns), ctx, Succeeded, CampaignResponse(request, newId, ctx.turn, now), now, true)
  }

  /** A conditional update of the rows alone; None of the update is a lost lease. */
  function RowsTx(db: Db, rows: Option<Rows>): Tx {
    if rows.Some? then Committed(db.(rows := rows.value)) else LeaseLost
  }

  // ---------- Claiming the right to execute ----------

  datatype ClaimArgs = ClaimArgs(
    row: RowKey, session: SessionId, request: Request, token: Token, turn: TurnId,
    now: Time, leaseSeconds: nat, ownsSession: bool, archived: bool)

  datatype ClaimError = SessionNotFound | KeyReused | InProgress | BrokenRow

  datatype ClaimResult =
    | Granted(db: Db, turn: TurnId, external: Option<ExternalResult>)
    | Replayed(db: Db, response: Response)
    | Rejected(error: ClaimError)

  function AfterClaim(db: Db, r: ClaimResult): Db { if r.Rejected? then db else r.db }

  /** `_create_api_turn`: a running turn holding the final request, attached to the row. */
  function OpenApiTurn(db: Db, args: ClaimArgs): Db
    requires args.row in db.rows
  {
    var created := CreateTurn(db.tables, args.turn, db.rows[args.row].session, args.now);
    var asked := AppendOpen(created, ItemRef(args.turn, ApprovalRequestKey(args.row.key)), UserMessage,
                            "approval request");
    db.(tables := asked, rows := AttachTurn(db.rows, args.row, args.turn))
  }

  /** `_claim` and `_start_new` for a key that has no row yet. */
  function StartNew(db: Db, args: ClaimArgs): ClaimResult
    requires args.row !in db.rows
  {
    var reserved := Reserve(db.rows, args.row, args.session, args.request, args.token,
                            args.now + args.leaseSeconds).value;
    var withTurn := OpenApiTurn(db.(rows := reserved), args);
    if args.row.op == PublishXPost
       && HasUnresolvedDuplicate(withTurn.rows, args.row.marketer, args.request, args.row)
    then
      var response := ErrorResponse(XPostUnresolved, args.turn);
      match Complete(withTurn, Ctx(args.row, args.token, args.turn), Failed, response, args.now, true)
      case Committed(closed) => Replayed(closed, response)
      case _ => Rejected(InProgress)
    else Granted(withTurn, args.turn, None)
  }

  /** `_recover_unknown`: an interrupted send whose result was never persisted. */
  function CloseUnknown(db: Db, args: ClaimArgs): ClaimResult
    requires args.row in db.rows && db.rows[args.row].turn.Some?
  {
    var row := db.rows[args.row];
    var response := ErrorResponse(XPostOutcomeUnknown, row.turn.value);
    match Idempotency.RecoverUnknown(db.rows, args.row, row, response, args.now)
    case None => Rejected(InProgress)
    case Some(rows) =>
      match FinishApiTurn(db.tables, row.turn.value, args.row.key, false)
      case None => Rejected(BrokenRow)
      case Some(tables) => Replayed(db.(tables := tables, rows := rows), response)
  }

  /** `_decide_existing`. */
  function DecideExisting(db: Db, args: ClaimArgs): ClaimResult
    requires args.row in db.rows
  {
    var row := db.rows[args.row];
    if row.session != args.session || row.request != args.request then Rejected(KeyReused)
    else if row.status != Processing then
      if row.response.Some? then Replayed(db, row.response.value) else Rejected(BrokenRow)
    else if row.lease > args.now then Rejected(InProgress)
    else if args.row.op == PublishXPost && row.started.Some? && row.external.None? then
      if row.turn.Some? then CloseUnknown(db, args) else Rejected(BrokenRow)
    else
      match Reacquire(db.rows, args.row, row, args.token, args.now + args.leaseSeconds, args.now)
      case None => Rejected(InProgress)
      case Some(rows) =>
        if row.turn.Some? then Granted(db.(rows := rows), row.turn.value, row.external)
        else Granted(OpenApiTurn(db.(rows := rows), args), args.turn, row.external)
  }

  /** `_claim`: one serialized transaction per request (session row, advisory lock, idempotency row). */
  function ClaimRequest(db: Db, args: ClaimArgs): ClaimResult {
    if !args.ownsSession then Rejected(SessionNotFound)
    else if args.row in db.rows then DecideExisting(db, args)
    else if args.archived then Rejected(SessionNotFound)
    else StartNew(db, args)
  }

  // ---------- Operator recovery ----------

  /** `_is_resumable`. */
  predicate Resumable(rows: Rows, k: RowKey, now: Time) {
    k in rows && k.op == PublishXPost && rows[k].status == Processing && rows[k].lease <= now && rows[k].external.Some?
  }

  /** The claim of `resume_persistence`. */
  function ClaimResume(db: Db, k: RowKey, token: Token, now: Time, leaseSeconds: nat): ClaimResult {
    if !Resumable(db.rows, k, now) || db.rows[k].turn.None? then Rejected(InProgress)
    else
      match Reacquire(db.rows, k, db.rows[k], token, now + leaseSeconds, now)
      case None => Rejected(InProgress)
      case Some(rows) => Granted(db.(rows := rows), db.rows[k].turn.value, db.rows[k].external)
  }

  /** What the audit items say of an operator's decision: posted under an X id, or not posted. */
  function Decision(posted: Option<string>): string { if posted.Some? then "posted " + posted.value else "not_posted" }

  function AuditResult(posted: Option<string>): string {
    if posted.Some? then "api_result: success" else "api_result: error"
  }

  /** The audit turn of a manual reconciliation, opened and ended in the same transaction. */
  function AuditTurn(a: Tables, turn: TurnId, session: SessionId, now: Time, posted: Option<string>): Tables {
    var created := CreateTurn(a, turn, session, now);
    var asked := AppendOpen(created, ItemRef(turn, PlainKey("reconciliation-decision")), UserMessage, Decision(posted));
    var answered := AppendOpen(asked, ItemRef(turn, PlainKey("reconciliation-result")), AssistantMessage,
                               AuditResult(posted));
    FinishTurn(answered, turn, TurnCompleted)
  }

  predicate AwaitsOperator(rows: Rows, k: RowKey) {
    k in rows && rows[k].status == OutcomeUnknown && rows[k].turn.Some?
  }

  /** `resolve_posted`: the operator confirmed the post and gives its X id and time. */
  function ResolvePosted(db: Db, url: UrlBuilder, k: RowKey, id: nat, xPostId: string, at: Time, audit: TurnId,
                         now: Time): Tx {
    if xPostId == "" || |xPostId| > MAX_X_POST_ID_LENGTH || !AwaitsOperator(db.rows, k) || !db.rows[k].request.XPost?
    then Conflict
    else
      var row := db.rows[k];
      var post := Post(k, row.request.campaign, DirectPost(url, row.request, k.key, xPostId, at));
      if !Insertable(db.posts, id, post) then DbError
      else
        match ResolveUnknown(db.rows, k, Succeeded, PostResponse(id, row.turn.value, post))
        case None => Conflict
        case Some(rows) =>
          Committed(db.(tables := AuditTurn(db.tables, audit, row.session, now, Some(xPostId)), rows := rows,
                        posts := db.posts[id := post]))
  }

  /** `resolve_not_posted`: the operator confirmed that nothing was published. */
  function ResolveNotPosted(db: Db, k: RowKey, audit: TurnId, now: Time): Tx {
    if !AwaitsOperator(db.rows, k) then Conflict
    else
      var row := db.rows[k];
      match ResolveUnknown(db.rows, k, Failed, ErrorResponse(XPostFailed, row.turn.value))
      case None => Conflict
      case Some(rows) =>
        Committed(db.(tables := AuditTurn(db.tables, audit, row.session, now, None), rows := rows))
  }
}
