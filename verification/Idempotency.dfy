/**
 The idempotency rows and every conditional update over them.

 A row is identified by its unique key (marketer, operation, idempotency key). The request hash is
 modelled by the canonical request itself, that is, by an injective hash. A conditional update
 answers None when it matched no row.
 */
module Idempotency {
  import opened Options
  import Turns

  type Token = nat
  type Key = nat
  type Time = int

  datatype Operation = PublishXPost | UpsertCampaign

  datatype Request =
    | XPost(campaign: nat, text: string, landingUrl: string)
    | Upsert(id: Option<nat>, expected: Time, content: string)
    | Malformed(raw: string)

  datatype RowKey = RowKey(marketer: nat, op: Operation, key: Key)

  datatype Status = Processing | Succeeded | Failed | OutcomeUnknown

  datatype ErrorCode =
    | XPostUnresolved | XPostFailed | XPostOutcomeUnknown | XPostSaveFailed
    | InvalidXPost | InvalidArgument | CampaignNotFound | CampaignArchived | EmbeddingFailed
    | InvalidCampaign | CampaignConflict | CampaignSaveFailed | CampaignUpdateFailed

  /** The HTTP status registered for each error code. */
  function HttpStatus(code: ErrorCode): nat {
    match code
    case XPostUnresolved => 409
    case XPostFailed => 502
    case XPostOutcomeUnknown => 504
    case XPostSaveFailed => 500
    case InvalidXPost => 422
    case InvalidArgument => 400
    case CampaignNotFound => 404
    case CampaignArchived => 409
    case EmbeddingFailed => 500
    case InvalidCampaign => 422
    case CampaignConflict => 409
    case CampaignSaveFailed => 500
    case CampaignUpdateFailed => 500
  }

  datatype Body =
    | PostBody(post: nat, turn: Turns.TurnId, campaign: nat, xPostId: string, text: string, url: string, at: Time)
    | CampaignBody(campaign: nat, turn: Turns.TurnId, content: string, at: Time)
    | ErrorBody(code: ErrorCode, failedTurn: Turns.TurnId)

  datatype Response = Response(http: nat, body: Body)

  function ErrorResponse(code: ErrorCode, turn: Turns.TurnId): Response {
    Response(HttpStatus(code), ErrorBody(code, turn))
  }

  datatype ExternalResult = ExternalResult(xPostId: string, text: string, trackedUrl: string, publishedAt: Time)

  datatype Row = Row(
    session: Turns.SessionId,
    turn: Option<Turns.TurnId>,
    request: Request,
    status: Status,
    token: Token,
    lease: Time,
    started: Option<Time>,
    external: Option<ExternalResult>,
    response: Option<Response>)

  type Rows = map<RowKey, Row>

  predicate Unresolved(status: Status) { status.Processing? || status.OutcomeUnknown? }

  predicate Final(status: Status) { status.Succeeded? || status.Failed? }

  /** The token still owns the row, whatever the clock says. */
  predicate Owns(rows: Rows, k: RowKey, token: Token) {
    k in rows && rows[k].status == Processing && rows[k].token == token
  }

  predicate Held(rows: Rows, k: RowKey, token: Token, now: Time, requireLease: bool) {
    Owns(rows, k, token) && (requireLease ==> rows[k].lease > now)
  }

  function Reserve(rows: Rows, k: RowKey, session: Turns.SessionId, request: Request, token: Token,
                   lease: Time): Option<Rows> {
    if k in rows then None
    else Some(rows[k := Row(session, None, request, Processing, token, lease, None, None, None)])
  }

  function AttachTurn(rows: Rows, k: RowKey, turn: Turns.TurnId): Rows {
    if k in rows then rows[k := rows[k].(turn := Some(turn))] else rows
  }

  /** Another key of the same marketer holds the same content as processing or outcome-unknown. */
  predicate HasUnresolvedDuplicate(rows: Rows, marketer: nat, request: Request, exclude: RowKey) {
    exists k | k in rows ::
      k.marketer == marketer && k.op == PublishXPost && rows[k].request == request
      && k != exclude && Unresolved(rows[k].status)
  }

  /** The row has expired and is still the one that was read (same token, same lease). */
  predicate ExpiredAsRead(rows: Rows, k: RowKey, read: Row, now: Time) {
    k in rows && rows[k].status == Processing && rows[k].token == read.token
    && rows[k].lease == read.lease && rows[k].lease <= now
  }

  function Reacquire(rows: Rows, k: RowKey, read: Row, token: Token, lease: Time, now: Time): Option<Rows> {
    if ExpiredAsRead(rows, k, read, now)
    then Some(rows[k := rows[k].(token := token, lease := lease)])
    else None
  }

  function MarkExternalStarted(rows: Rows, k: RowKey, token: Token, now: Time): Option<Rows> {
    if Held(rows, k, token, now, true) then Some(rows[k := rows[k].(started := Some(now))]) else None
  }

  function SaveExternalResult(rows: Rows, k: RowKey, token: Token, result: ExternalResult, now: Time): Option<Rows> {
    if Held(rows, k, token, now, true) then Some(rows[k := rows[k].(external := Some(result))]) else None
  }

  function Finalize(rows: Rows, k: RowKey, token: Token, status: Status, response: Response, now: Time,
                    requireLease: bool): Option<Rows> {
    if Held(rows, k, token, now, requireLease)
    then Some(rows[k := rows[k].(status := status, response := Some(response))])
    else None
  }

  function ExpireLease(rows: Rows, k: RowKey, token: Token, now: Time): Option<Rows> {
    if Held(rows, k, token, now, true) then Some(rows[k := rows[k].(lease := now)]) else None
  }

  function RecoverUnknown(rows: Rows, k: RowKey, read: Row, response: Response, now: Time): Option<Rows> {
    if ExpiredAsRead(rows, k, read, now) && k.op == PublishXPost
       && rows[k].started.Some? && rows[k].external.None?
    then Some(rows[k := rows[k].(status := OutcomeUnknown, response := Some(response))])
    else None
  }

  function ResolveUnknown(rows: Rows, k: RowKey, status: Status, response: Response): Option<Rows> {
    if k in rows && k.op == PublishXPost && rows[k].status == OutcomeUnknown
    then Some(rows[k := rows[k].(status := status, response := Some(response))])
    else None
  }
}
