/**
 The approval protocol as a state machine. Each event is one committed transaction, one call of the
 X API, one step of a worker's own code, or a crash; events of any number of workers interleave
 freely. Every event carries its own clock reading, so nothing rests on clocks agreeing. The only
 assumption on the environment is that a token is never issued twice (`Claim`, `ClaimByOperator`).
 */
module Protocol {
  import opened Options
  import opened Turns
  import opened Idempotency
  import opened PublishedPosts
  import opened Approval
  import Campaigns
  import Chat

  datatype Config = Config(url: UrlBuilder, leaseSeconds: nat)

  /** Where a worker stands. A worker that lost its lease keeps its place and keeps running. */
  datatype Pc =
    | Planning                              // validating, embedding; nothing sent yet
    | ReadyToCall                           // start of the external effect is recorded
    | CallRejected                          // X definitely refused
    | CallUnclear                           // the outcome of the call is not known
    | CallAccepted(external: ExternalResult)
    | Resuming(stored: ExternalResult)      // took over a row whose X result is persisted
    | Saving(published: PublishedPosts.Published)
    | SaveAbandoned
    | Stopped

  datatype Worker = Worker(row: RowKey, turn: TurnId, request: Request, marked: bool, pc: Pc)

  /** The X client: accepted with an id, definitely refused, or unclear (and then X may publish all the same). */
  datatype XOutcome = XAccepted(xPostId: string, at: Time) | XRefused | XUnclear(didPublish: bool, unseenId: string)

  /** One call of the X API, and whether X publishes for it, at once or, unseen, after the answer was given up. */
  datatype Call = Call(token: Token, row: RowKey, text: string, published: bool, xPostId: string)

  datatype State = State(db: Db, workers: map<Token, Worker>, calls: seq<Call>, operator: set<RowKey>)

  const INITIAL := State(EMPTY_DB, map[], [], {})

  datatype Event =
    | Claim(args: ClaimArgs)
    | FailPlan(w: Token, code: ErrorCode, now: Time)
    | Mark(w: Token, now: Time, seen: bool)
    | CallX(w: Token, outcome: XOutcome)
    | CloseRejected(w: Token, now: Time, dbError: bool, seen: bool)
    | CloseUnclear(w: Token, now: Time, seen: bool)
    | Persist(w: Token, now: Time, dbError: bool, seen: bool)
    | CheckStored(w: Token, embedded: bool)
    | Save(w: Token, post: nat, now: Time, dbError: bool, seen: bool)
    | Trip(w: Token)
    | Expire(w: Token, now: Time, seen: bool)
    | SaveUpsert(w: Token, company: nat, newId: nat, generated: Option<Campaigns.Digest>, now: Time, seen: bool)
    | Crash(w: Token)
    | ResolveAsPosted(k: RowKey, post: nat, xPostId: string, at: Time, audit: TurnId, now: Time)
    | ResolveAsNotPosted(k: RowKey, audit: TurnId, now: Time)
    | ClaimByOperator(k: RowKey, token: Token, now: Time)
    | ChatEvent(chat: Chat.ChatEvent)
    | CampaignsMove(campaigns: Campaigns.CampaignTables)

  function CtxOf(s: State, w: Token): Ctx
    requires w in s.workers
  {
    Ctx(s.workers[w].row, w, s.workers[w].turn)
  }

  function Goto(s: State, w: Token, pc: Pc): State
    requires w in s.workers
  {
    s.(workers := s.workers[w := s.workers[w].(pc := pc)])
  }

  /** A request that obtained the right to execute starts with the stored X result, if there is one. */
  function Enter(s: State, db: Db, w: Token, row: RowKey, turn: TurnId, external: Option<ExternalResult>): State
    requires row in db.rows
  {
    var pc := if external.Some? then Resuming(external.value) else Planning;
    s.(db := db, workers := s.workers[w := Worker(row, turn, db.rows[row].request, false, pc)])
  }

  function ClaimStep(s: State, args: ClaimArgs): State {
    if args.token in s.workers || args.turn in s.db.tables.turns || args.leaseSeconds == 0 then s
    else
      match ClaimRequest(s.db, args)
      case Rejected(_) => s
      // A refused duplicate commits its row under the token of the request that ends here.
      case Replayed(db, _) =>
        if args.row in s.db.rows then s.(db := db)
        else s.(db := db, workers := s.workers[args.token := Worker(args.row, args.turn, args.request, false, Stopped)])
      case Granted(db, turn, external) =>
        if args.row in db.rows then Enter(s, db, args.token, args.row, turn, external) else s
  }

  /** The errors with which an execution can end before anything was sent, or when a campaign is not saved. */
  predicate PlanningError(op: Operation, code: ErrorCode) {
    match op
    case PublishXPost =>
      code == InvalidArgument || code == InvalidXPost || code == CampaignNotFound || code == CampaignArchived
      || code == EmbeddingFailed
    case UpsertCampaign =>
      code == InvalidArgument || code == InvalidCampaign || code == CampaignNotFound || code == CampaignArchived
      || code == CampaignConflict || code == EmbeddingFailed || code == CampaignSaveFailed
      || code == CampaignUpdateFailed
  }

  function MarkStep(cfg: Config, s: State, w: Token, now: Time, seen: bool): State
    requires w in s.workers
  {
    var worker := s.workers[w];
    if !worker.pc.Planning? || worker.row.op != PublishXPost || !Publishable(cfg.url, worker.request, worker.row.key)
       then s
    else
      match MarkExternalStarted(s.db.rows, worker.row, w, now)
      case None => Goto(s, w, Stopped)
      case Some(rows) =>
        s.(db := s.db.(rows := rows),
           workers := s.workers[w := worker.(marked := true, pc := if seen then ReadyToCall else Stopped)])
  }

  function CallStep(cfg: Config, s: State, w: Token, outcome: XOutcome): State
    requires w in s.workers
  {
    var worker := s.workers[w];
    if !worker.pc.ReadyToCall? || !worker.request.XPost? then s
    else
      var tracking := BuildTracking(cfg.url, worker.request.landingUrl, worker.request.campaign, worker.row.key);
      var text := PostText(worker.request.text, tracking);
      match outcome
      // An answer without an id is not an acceptance for the client, although X may have published.
      case XAccepted("", _) =>
        Goto(s.(calls := s.calls + [Call(w, worker.row, text, true, "")]), w, CallUnclear)
      case XAccepted(id, at) =>
        Goto(s.(calls := s.calls + [Call(w, worker.row, text, true, id)]), w,
             CallAccepted(ResultOf(cfg.url, worker.request, worker.row.key, id, at)))
      case XRefused =>
        Goto(s.(calls := s.calls + [Call(w, worker.row, text, false, "")]), w, CallRejected)
      case XUnclear(published, id) =>
        Goto(s.(calls := s.calls + [Call(w, worker.row, text, published, id)]), w, CallUnclear)
  }

  /** `_fail`, after which the worker goes to `next`. */
  function FailStep(s: State, w: Token, code: ErrorCode, status: Status, now: Time, next: Pc): State
    requires w in s.workers
  {
    Goto(s.(db := After(s.db, FailRequest(s.db, CtxOf(s, w), code, status, now))), w, next)
  }

  function PersistStep(cfg: Config, s: State, w: Token, now: Time, dbError: bool, seen: bool): State
    requires w in s.workers
  {
    var worker := s.workers[w];
    if !worker.pc.CallAccepted? || !worker.request.XPost? then s
    else
      var external := worker.pc.external;
      var direct := DirectPost(cfg.url, worker.request, worker.row.key, external.xPostId, external.publishedAt);
      match (if dbError then None else SaveExternalResult(s.db.rows, worker.row, w, external, now))
      case None => Goto(s, w, CallUnclear)
      case Some(rows) => Goto(s.(db := s.db.(rows := rows)), w, if seen then Saving(direct) else CallUnclear)
  }

  function CheckStoredStep(cfg: Config, s: State, w: Token, embedded: bool): State
    requires w in s.workers
  {
    var worker := s.workers[w];
    if !worker.pc.Resuming? then s
    else if !worker.request.XPost? then Goto(s, w, Stopped)
    else
      match FromExternal(cfg.url, worker.request, worker.row.key, worker.pc.stored)
      case None => Goto(s, w, SaveAbandoned)
      case Some(published) => Goto(s, w, if embedded then Saving(published) else SaveAbandoned)
  }

  /** One attempt of `_save_with_retry`; `seen` is false when the commit was applied but not reported. */
  function SaveStep(s: State, w: Token, post: nat, now: Time, dbError: bool, seen: bool): State
    requires w in s.workers
  {
    var worker := s.workers[w];
    if !worker.pc.Saving? || !worker.request.XPost? then s
    else
      match (if dbError then DbError
             else SavePost(s.db, CtxOf(s, w), post, worker.request.campaign, worker.pc.published, now))
      case Committed(db) => Goto(s.(db := db), w, if seen then Stopped else worker.pc)
      case LeaseLost => Goto(s, w, Stopped)
      case DbError => s
      case _ => Goto(s, w, SaveAbandoned)
  }

  function ExpireStep(s: State, w: Token, now: Time, seen: bool): State
    requires w in s.workers
  {
    if !s.workers[w].pc.SaveAbandoned? then s
    else
      var tx := RowsTx(s.db, ExpireLease(s.db.rows, s.workers[w].row, w, now));
      Goto(s.(db := After(s.db, tx)), w, if seen || tx.LeaseLost? then Stopped else SaveAbandoned)
  }

  function SaveUpsertStep(s: State, w: Token, company: nat, newId: nat, generated: Option<Campaigns.Digest>, now: Time,
                          seen: bool): State
    requires w in s.workers
  {
    var worker := s.workers[w];
    if !worker.pc.Planning? || worker.row.op != UpsertCampaign || !worker.request.Upsert? then s
    else
      match SaveCampaign(s.db, CtxOf(s, w), company, newId, worker.request, generated, now)
      case Committed(db) => Goto(s.(db := db), w, if seen then Stopped else worker.pc)
      case LeaseLost => Goto(s, w, Stopped)
      case _ => s
  }

  /** An unexpected exception: unclear before the result is persisted, an abandoned save afterwards. */
  function TripStep(s: State, w: Token): State
    requires w in s.workers
  {
    match s.workers[w].pc
    case ReadyToCall => Goto(s, w, CallUnclear)
    case CallAccepted(_) => Goto(s, w, CallUnclear)
    case Saving(_) => Goto(s, w, SaveAbandoned)
    case _ => s
  }

  function WorkerStep(cfg: Config, s: State, e: Event): State
    requires TokenOf(e).Some? && TokenOf(e).value in s.workers
  {
    match e
    case FailPlan(w, code, now) =>
      if s.workers[w].pc.Planning? && PlanningError(s.workers[w].row.op, code)
      then FailStep(s, w, code, Failed, now, Stopped) else s
    case Mark(w, now, seen) => MarkStep(cfg, s, w, now, seen)
    case CallX(w, outcome) => CallStep(cfg, s, w, outcome)
    case CloseRejected(w, now, dbError, seen) =>
      if !s.workers[w].pc.CallRejected? then s
      else if dbError then Goto(s, w, CallUnclear)
      else FailStep(s, w, XPostFailed, Failed, now, if seen then Stopped else CallUnclear)
    case CloseUnclear(w, now, seen) =>
      if !s.workers[w].pc.CallUnclear? then s
      else FailStep(s, w, XPostOutcomeUnknown, OutcomeUnknown, now, if seen then Stopped else CallUnclear)
    case Persist(w, now, dbError, seen) => PersistStep(cfg, s, w, now, dbError, seen)
    case CheckStored(w, embedded) => CheckStoredStep(cfg, s, w, embedded)
    case Save(w, post, now, dbError, seen) => SaveStep(s, w, post, now, dbError, seen)
    case Trip(w) => TripStep(s, w)
    case Expire(w, now, seen) => ExpireStep(s, w, now, seen)
    case SaveUpsert(w, company, newId, generated, now, seen) =>
      SaveUpsertStep(s, w, company, newId, generated, now, seen)
    case Crash(w) => Goto(s, w, Stopped)
    case _ => s
  }

  /** The worker that an event belongs to. */
  function TokenOf(e: Event): Option<Token> {
    match e
    case FailPlan(w, _, _) => Some(w)
    case Mark(w, _, _) => Some(w)
    case CallX(w, _) => Some(w)
    case CloseRejected(w, _, _, _) => Some(w)
    case CloseUnclear(w, _, _) => Some(w)
    case Persist(w, _, _, _) => Some(w)
    case CheckStored(w, _) => Some(w)
    case Save(w, _, _, _, _) => Some(w)
    case Trip(w) => Some(w)
    case Expire(w, _, _) => Some(w)
    case SaveUpsert(w, _, _, _, _, _) => Some(w)
    case Crash(w) => Some(w)
    case _ => None
  }

  function Step(cfg: Config, s: State, e: Event): State {
    if TokenOf(e).Some? then
      if TokenOf(e).value in s.workers then WorkerStep(cfg, s, e) else s
    else
      match e
      case Claim(args) => ClaimStep(s, args.(leaseSeconds := cfg.leaseSeconds))
      case ResolveAsPosted(k, post, xPostId, at, audit, now) =>
        if audit in s.db.tables.turns then s
        else
          var tx := ResolvePosted(s.db, cfg.url, k, post, xPostId, at, audit, now);
          s.(db := After(s.db, tx), operator := if tx.Committed? then s.operator + {k} else s.operator)
      case ResolveAsNotPosted(k, audit, now) =>
        if audit in s.db.tables.turns then s
        else
          var tx := ResolveNotPosted(s.db, k, audit, now);
          s.(db := After(s.db, tx), operator := if tx.Committed? then s.operator + {k} else s.operator)
      case ClaimByOperator(k, token, now) =>
        if token in s.workers || k !in s.db.rows then s
        else
          (match ClaimResume(s.db, k, token, now, cfg.leaseSeconds)
           case Granted(db, turn, external) => if k in db.rows then Enter(s, db, token, k, turn, external) else s
           case _ => s)
      case ChatEvent(chat) =>
        s.(db := s.db.(tables := Chat.ChatStep(s.db.tables, ApiTurns(s.db.rows), chat)))
      case CampaignsMove(campaigns) => s.(db := s.db.(campaigns := campaigns))
      case _ => s
  }

  function Run(cfg: Config, s: State, events: seq<Event>): State
    decreases |events|
  {
    if events == [] then s else Run(cfg, Step(cfg, s, events[0]), events[1..])
  }
}
