/**
 The approval transactions in place. A transaction that raises is rolled back: its earlier writes are
 undone, so that from outside it either happened as specified or left no trace.
 */
module ApprovalStore {
  import opened Options
  import opened Turns
  import opened Idempotency
  import opened PublishedPosts
  import opened Approval
  import opened IdempotencyStore
  import opened TurnStore
  import Campaigns

  datatype Raised = NoError | LeaseLostError | TurnNotRunningError | DatabaseError | ConflictError

  /** The error that a transaction of the specification ends in. */
  function ErrorOf(tx: Tx): Raised {
    match tx
    case Committed(_) => NoError
    case LeaseLost => LeaseLostError
    case TurnEndedError => TurnNotRunningError
    case DbError => DatabaseError
    case Conflict => ConflictError
  }

  class ApprovalDatabase {
    const idempotency: IdempotencyRepository
    const agents: AgentRepository
    var posts: map<nat, Post>
    var campaigns: Campaigns.CampaignTables

    constructor ()
      ensures Contents() == EMPTY_DB && fresh(idempotency) && fresh(agents)
    {
      idempotency := new IdempotencyRepository();
      agents := new AgentRepository();
      posts, campaigns := map[], Campaigns.CampaignTables(map[], map[]);
    }

    function Contents(): Db
      reads this, idempotency, agents
    {
      Db(agents.Contents(), idempotency.rows, posts, campaigns)
    }

    method RollBack(before: Db)
      modifies this, idempotency, agents
      ensures Contents() == before
    {
      agents.turns, agents.items, agents.execs := before.tables.turns, before.tables.items, before.tables.execs;
      idempotency.rows := before.rows;
      posts, campaigns := before.posts, before.campaigns;
    }

    /** `save_result_and_finish_turn`; false when `append_item` raises, with nothing written. */
    method SaveResultAndFinishTurn(turn: TurnId, key: Key, success: bool) returns (ok: bool)
      modifies agents
      ensures var spec := FinishApiTurn(old(agents.Contents()), turn, key, success);
              ok == spec.Some? && agents.Contents() == if ok then spec.value else old(agents.Contents())
    {
      ok := agents.Append(ItemRef(turn, ApprovalResultKey(key)), AssistantMessage,
                          if success then "api_result: success" else "api_result: error");
      if ok { var _ := agents.FinishTurn(turn, TurnCompleted); }
    }

    /** `ApprovalStore.complete`; the caller's transaction rolls back when it raises. */
    method Complete(ctx: Ctx, status: Status, response: Response, now: Time, requireLease: bool)
      returns (raised: Raised)
      modifies idempotency, agents
      ensures var tx := Approval.Complete(old(Contents()), ctx, status, response, now, requireLease);
              raised == ErrorOf(tx) && (raised.NoError? ==> Contents() == tx.db)
    {
      var finalized := idempotency.Finalize(ctx.row, ctx.token, status, response, now, requireLease);
      if !finalized { return LeaseLostError; }
      var saved := SaveResultAndFinishTurn(ctx.turn, ctx.row.key, status == Succeeded);
      return if saved then NoError else TurnNotRunningError;
    }

    /** `_fail` of both approval services. */
    method Fail(ctx: Ctx, code: ErrorCode, status: Status, now: Time) returns (raised: Raised)
      modifies this, idempotency, agents
      ensures var tx := FailRequest(old(Contents()), ctx, code, status, now);
              raised == ErrorOf(tx) && Contents() == After(old(Contents()), tx)
    {
      var before := Contents();
      raised := Complete(ctx, status, ErrorResponse(code, ctx.turn), now, true);
      if !raised.NoError? { RollBack(before); }
    }

    /** `_save` of the X post approval: the post is inserted first, and gone again if the lease is lost. */
    method SavePost(ctx: Ctx, id: nat, campaign: nat, published: PublishedPosts.Published, now: Time)
      returns (raised: Raised)
      modifies this, idempotency, agents
      ensures var tx := Approval.SavePost(old(Contents()), ctx, id, campaign, published, now);
              raised == ErrorOf(tx) && Contents() == After(old(Contents()), tx)
    {
      var before := Contents();
      var post := Post(ctx.row, campaign, published);
      if !Insertable(posts, id, post) { return DatabaseError; }
      posts := posts[id := post];
      raised := Complete(ctx, Succeeded, PostResponse(id, ctx.turn, post), now, true);
      if !raised.NoError? { RollBack(before); }
    }

    /** `_save` of the campaign approval: campaign, embedding, API result and row in one transaction. */
    method SaveCampaign(ctx: Ctx, company: nat, newId: nat, request: Request, generated: Option<Campaigns.Digest>,
                        now: Time)
      returns (raised: Raised)
      requires request.Upsert?
      modifies this, idempotency, agents
      ensures var tx := Approval.SaveCampaign(old(Contents()), ctx, company, newId, request, generated, now);
              raised == ErrorOf(tx) && Contents() == After(old(Contents()), tx)
    {
      var before := Contents();
      if request.id.None? {
        if newId in campaigns.campaigns { return DatabaseError; }
        campaigns := Campaigns.Insert(campaigns, newId, company, request.content, now);
      } else {
        var updated := Campaigns.UpdateIfUnchanged(campaigns, company, request.id.value, request.expected,
                                                   request.content, now);
        if updated.None? { return ConflictError; }
        campaigns := updated.value;
      }
      if generated.Some? {
        campaigns := Campaigns.UpsertEmbedding(campaigns, CampaignTarget(request, newId), generated.value);
      }
      raised := Complete(ctx, Succeeded, CampaignResponse(request, newId, ctx.turn, now), now, true);
      if !raised.NoError? { RollBack(before); }
    }

    // ---------- Claims ----------

    /** `_create_api_turn`. */
    method CreateApiTurn(args: ClaimArgs)
      requires args.row in idempotency.rows
      modifies idempotency, agents
      ensures Contents() == OpenApiTurn(old(Contents()), args)
    {
      agents.CreateTurn(args.turn, idempotency.rows[args.row].session, args.now);
      var _ := agents.Append(ItemRef(args.turn, ApprovalRequestKey(args.row.key)), UserMessage, "approval request");
      idempotency.AttachTurn(args.row, args.turn);
    }

    /** `_start_new`: reserve, open the turn and refuse a duplicate that is still unresolved. */
    method StartNew(args: ClaimArgs) returns (r: ClaimResult)
      requires args.row !in idempotency.rows
      modifies this, idempotency, agents
      ensures r == Approval.StartNew(old(Contents()), args) && Contents() == AfterClaim(old(Contents()), r)
    {
      hide OpenApiTurn, Approval.Complete, Idempotency.HasUnresolvedDuplicate;
      var before := Contents();
      var _ := idempotency.Reserve(args.row, args.session, args.request, args.token, args.now + args.leaseSeconds);
      CreateApiTurn(args);
      if args.row.op == PublishXPost {
        var duplicate := idempotency.HasUnresolvedDuplicate(args.row.marketer, args.request, args.row);
        if duplicate {
          var response := ErrorResponse(XPostUnresolved, args.turn);
          var raised := Complete(Ctx(args.row, args.token, args.turn), Failed, response, args.now, true);
          if raised.NoError? { return Replayed(Contents(), response); }
          RollBack(before);
          return Rejected(InProgress);
        }
      }
      return Granted(Contents(), args.turn, None);
    }

    /** `_recover_unknown`. */
    method CloseUnknown(args: ClaimArgs) returns (r: ClaimResult)
      requires args.row in idempotency.rows && idempotency.rows[args.row].turn.Some?
      modifies this, idempotency, agents
      ensures r == Approval.CloseUnknown(old(Contents()), args) && Contents() == AfterClaim(old(Contents()), r)
      ensures r.Replayed? ==>
                && r.response ==
                   Response(504, ErrorBody(XPostOutcomeUnknown, old(idempotency.rows)[args.row].turn.value))
                && idempotency.rows == old(idempotency.rows)[args.row :=
                     old(idempotency.rows)[args.row].(status := OutcomeUnknown, response := Some(r.response))]
    {
      var before := Contents();
      var row := idempotency.rows[args.row];
      var response := ErrorResponse(XPostOutcomeUnknown, row.turn.value);
      var recovered := idempotency.RecoverUnknown(args.row, row, response, args.now);
      if !recovered { return Rejected(InProgress); }
      var saved := SaveResultAndFinishTurn(row.turn.value, args.row.key, false);
      if saved { return Replayed(Contents(), response); }
      RollBack(before);
      return Rejected(BrokenRow);
    }

    /** `_decide_existing`. */
    method DecideExisting(args: ClaimArgs) returns (r: ClaimResult)
      requires args.row in idempotency.rows
      modifies this, idempotency, agents
      ensures r == Approval.DecideExisting(old(Contents()), args) && Contents() == AfterClaim(old(Contents()), r)
    {
      var row := idempotency.rows[args.row];
      if row.session != args.session || row.request != args.request { return Rejected(KeyReused); }
      if row.status != Processing {
        return if row.response.Some? then Replayed(Contents(), row.response.value) else Rejected(BrokenRow);
      }
      if row.lease > args.now { return Rejected(InProgress); }
      if args.row.op == PublishXPost && row.started.Some? && row.external.None? {
        if row.turn.None? { return Rejected(BrokenRow); }
        r := CloseUnknown(args);
        return;
      }
      var taken := idempotency.Reacquire(args.row, row, args.token, args.now + args.leaseSeconds, args.now);
      if !taken { return Rejected(InProgress); }
      if row.turn.Some? { return Granted(Contents(), row.turn.value, row.external); }
      CreateApiTurn(args);
      return Granted(Contents(), args.turn, row.external);
    }

    /** `_claim`. */
    method Claim(args: ClaimArgs) returns (r: ClaimResult)
      modifies this, idempotency, agents
      ensures r == ClaimRequest(old(Contents()), args) && Contents() == AfterClaim(old(Contents()), r)
    {
      if !args.ownsSession { return Rejected(SessionNotFound); }
      var row := idempotency.Find(args.row);
      if row.Some? {
        r := DecideExisting(args);
      } else if args.archived {
        r := Rejected(SessionNotFound);
      } else {
        r := StartNew(args);
      }
    }

    // ---------- Operator recovery ----------

    method Audit(turn: TurnId, session: SessionId, now: Time, posted: Option<string>)
      modifies agents
      ensures agents.Contents() == AuditTurn(old(agents.Contents()), turn, session, now, posted)
    {
      agents.CreateTurn(turn, session, now);
      var _ := agents.Append(ItemRef(turn, PlainKey("reconciliation-decision")), UserMessage, Decision(posted));
      var _ := agents.Append(ItemRef(turn, PlainKey("reconciliation-result")), AssistantMessage, AuditResult(posted));
      var _ := agents.FinishTurn(turn, TurnCompleted);
    }

    method ResolvePosted(url: UrlBuilder, k: RowKey, id: nat, xPostId: string, at: Time, audit: TurnId, now: Time)
      returns (raised: Raised)
      modifies this, idempotency, agents
      ensures var tx := Approval.ResolvePosted(old(Contents()), url, k, id, xPostId, at, audit, now);
              raised == ErrorOf(tx) && Contents() == After(old(Contents()), tx)
      ensures raised.NoError? ==>
                && k in old(idempotency.rows) && old(idempotency.rows)[k].request.XPost?
                && old(idempotency.rows)[k].status == OutcomeUnknown && old(idempotency.rows)[k].turn.Some?
                && var r := old(idempotency.rows)[k];
                   var link := url(r.request.landingUrl, r.request.campaign, k.key);
                   && posts == old(posts)[id := Post(k, r.request.campaign,
                        Published(r.request.text, xPostId, at,
                                  Tracking(r.request.landingUrl, "x", "social", r.request.campaign, k.key, link)))]
                   && idempotency.rows == old(idempotency.rows)[k := r.(status := Succeeded,
                        response := Some(Response(201, PostBody(id, r.turn.value, r.request.campaign, xPostId,
                                                                r.request.text, link, at))))]
    {
      if xPostId == "" || |xPostId| > MAX_X_POST_ID_LENGTH { return ConflictError; }
      var row := idempotency.Find(k);
      if row.None? || row.value.status != OutcomeUnknown || row.value.turn.None? || !row.value.request.XPost? {
        return ConflictError;
      }
      var before := Contents();
      var request := row.value.request;
      var post := Post(k, request.campaign, DirectPost(url, request, k.key, xPostId, at));
      if !Insertable(posts, id, post) { return DatabaseError; }
      posts := posts[id := post];
      Audit(audit, row.value.session, now, Some(xPostId));
      var resolved := idempotency.ResolveUnknown(k, Succeeded, PostResponse(id, row.value.turn.value, post));
      if resolved { return NoError; }
      RollBack(before);
      return ConflictError;
    }

    method ResolveNotPosted(k: RowKey, audit: TurnId, now: Time) returns (raised: Raised)
      modifies this, idempotency, agents
      ensures var tx := Approval.ResolveNotPosted(old(Contents()), k, audit, now);
              raised == ErrorOf(tx) && Contents() == After(old(Contents()), tx)
      ensures raised.NoError? ==>
                && k in old(idempotency.rows) && old(idempotency.rows)[k].status == OutcomeUnknown
                && old(idempotency.rows)[k].turn.Some? && posts == old(posts)
                && idempotency.rows == old(idempotency.rows)[k := old(idempotency.rows)[k].(status := Failed,
                     response := Some(Response(502, ErrorBody(XPostFailed, old(idempotency.rows)[k].turn.value))))]
    {
      var row := idempotency.Find(k);
      if row.None? || row.value.status != OutcomeUnknown || row.value.turn.None? { return ConflictError; }
      var before := Contents();
      Audit(audit, row.value.session, now, None);
      var resolved := idempotency.ResolveUnknown(k, Failed, ErrorResponse(XPostFailed, row.value.turn.value));
      if resolved { return NoError; }
      RollBack(before);
      return ConflictError;
    }
  }
}
