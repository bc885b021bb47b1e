# Crash-tolerant persistence of the campaign assistant

A model, in Dafny, of how the backend keeps its tables right although workers crash, stall, lose
their lease and come back, and although requests are sent again at any time. Every committed
database transaction is one atomic step. Steps of any number of workers, calls of outside services,
crashes and clock readings interleave freely.

The project has one part per machine. In each, pure functions say what a transaction does, lemmas say
what every run keeps and what every answer, row and item says in literal values, and classes carry out
the same transactions in place and are proved equal to those functions.

| part | modules |
|---|---|
| X post and campaign approval: idempotency rows, leases, tokens, the external call, manual reconciliation | `Idempotency`, `PublishedPosts`, `Approval`, `ApprovalInvariant`, `Protocol`, `ProtocolInvariant`, `ProtocolTheorems`, `ProtocolVerdicts`, `ProtocolEvidence`, `ProtocolProgress`, `ProtocolAnswers`, `ProtocolPosts`, `ProtocolOutcomes`; in place: `IdempotencyStore`, `ApprovalStore`, `XPostService` |
| Turns, items and tool executions | `Turns`, `Chat`, `TablesEvolution`, `ToolProtocol`, `ToolResults`; in place: `TurnStore`, `TurnService`, `ToolExecutor` |
| Context checkpoints, compaction and quarantine | `Context`, `ContextSafety`, `ContextShape`, `ContextOrder`, `ContextRuns`; in place: `ContextBuilder` |
| Metric and evaluation-memory crons on one row | `Cron`, `CronSafety`, `MetricHistory`; in place: `CronStore`, `CronServices` |
| Agent loops under one budget, and the turns of child agents | `AgentLoop`, `ChildTurns` |
| Campaign search index | `Campaigns`, `CampaignIndex`; in place: `CampaignStore` |
| Event stream printer and chunked parser | `Sse`, `SseTheorems`, `SseStability`, `SseChunking` |
| Snapshot pager | `Snapshots`, `SnapshotTheorems`; in place: `SnapshotStore` |

The approval protocol, the chat turns and the tool invokers share one state: `ToolProtocol` runs on
top of `Protocol`, whose steps include those of `Chat`, so the tool theorems hold in the presence of
approvals, recoveries and operators.

`dafny verify dfyconfig.toml` checks the whole project.

## Assumptions

- A token is never issued twice, and neither is the id of a turn or a snapshot.
- The request hash and the canonical request are injective: a request stands for its hash. The
  content hash of campaigns needs no such assumption.
- Clocks are arbitrary at every step. Where a statement asks for more it says so: creation times of
  checkpoints in `SaveNeverRefused` and `BoundariesIncreaseAlongRuns`, update times in the theorems
  about the campaign index and in `CampaignService.Edit`, the continuations of `SettlesInOrderIff`, and
  the expiry of a snapshot.
- Rows of a table are identified by a unique key of the schema: an idempotency row by marketer,
  operation and key; an item by turn and key; an execution by its call item. The turn of a session
  is its number in `Context`.
- The URL builder, the size estimate, the summary of the compactor and the hash of a content are
  parameters or free terms. JSON text is a string without raw line ends.
- A commit can happen and still look like an error to its worker (the connection breaks while it is
  committing, or the coroutine is cancelled); where that matters to a statement it is a case of its own.

## What the proofs turned up

Each case comes with its exact condition, and most with a run or an input that shows it.

- An outcome-unknown row may hold an X result after all, although docs/v.0.1/API_DESIGN.md, line 582,
  and docs/v.0.1/DATABASE.dbml, line 550, describe the row as one without. It gets one exactly when its
  owner believes the call unclear and closes the row although a result is stored
  (`UnknownGetsResultIff`), and the only step that leads there is a commit of the result that was
  reported as an error (`ForgottenIff`, `UnknownHoldsNoResult`, `UnknownHoldsResultInSomeRun`). A resend
  then answers "unknown" although the save could be resumed.
- An operator's "not posted" is right for good iff X publishes for no call made until then and no worker
  of the row stood between recording the start and calling X (`NotPostedIsRightIff`); such a worker can
  still publish (`OvertakenInSomeRun`). The first half includes a call that X had received and published
  only after its worker gave the answer up, which an operator cannot see either. For rows that failed
  without an operator it is always right (`FailedIsFailedForGood`).
- Every row can be settled from every reachable state, except exactly the obstructed ones
  (`SettlesInOrderIff`): a processing row whose stored X id has more than 255 characters, or whose id or
  tracking link belongs to another post, stays processing with its result in every continuation
  (`ObstructedForever`, `LongIdInSomeRun`), unless its owner was not told of the commit and closes it as
  unknown before its lease is over.
- An approval turn that completes at or below an active boundary costs coverage (`CoverageLostIff`,
  `OnlyApprovalTurnsAreLate`, `LateEndInSomeRun`), and its items are in no read, no context and no
  checkpoint built on that checkpoint (`LateItemsAreMissed`, `MissedIsNotRead`, `MissedIsInNoContext`,
  `MissedForever`).
- Reading for a compaction and saving it are separate transactions. The summary stays clean iff nothing
  that flowed into it is quarantined in between (`SplitSaveCleanIff`, `TaintedSaveInSomeRun`); one
  running turn per session and a time limit below the stale limit (backend/core/config.py:246-251) keep
  that from happening within one process.
- An update of a campaign at the time of the version that it replaces does no harm by itself. It is
  dangerous exactly when another pending plan expects the time that it writes, or a later one, and does not
  fit it (`UpdateIsSafeIff`, `SafeForeverIff`); then one of the updates can be lost
  (`UpdateLostInSomeRun`). A backfill does not advance `updated_at`, so from the stale hash that is left
  it can slip between a plan and its save (`BackfillInSomeRun`).
- What the finished loop of the stream parser cuts is independent of chunking iff the uncut text has no
  CR LF left after its first and its last round (`ChunkingSeenIff`): no CR CR LF in what the first round
  cuts, and no CR CR CR LF in what it leaves. Otherwise the page can receive different data
  (`CrCrLfShows`). The server prints no CR at all.
- A call that comes to its end leaves the turn of its child agent running when the commit of its creation
  is not reported, as an error or a cancellation, and when neither its final transaction nor `_fail_child`
  commits, and in no other case (`RunningIffLeft`, `LeavesRunningIff`, `EachWay`). A database error in the
  final transaction is enough, because only a cancellation is followed by another try. The parent is then
  told of a failed tool call or cancelled; recovery of stale turns ends the child.
- Short of the process dying, a chat turn of the event stream is left running only if the transaction of
  `execute` is missing or rolled back and the one of `fail_running` is rolled back too (`RunTurn`). The
  stream is then not closed: its last event is never queued. The JSON route calls `execute` alone
  (backend/api/routers/sessions.py:83) and has no second try.

## Model

| member | source | states |
|---|---|---|
| `ProtocolTheorems.AtMostOneCallPerRow` | backend/services/x_post_approval.py:265-307 | In every run of any number of workers, expiries, crashes, resends and operator recoveries, no two calls of X belong to the same row. |
| `ProtocolTheorems.NoSecondMark` | backend/repositories/idempotency.py:183-191 | Whenever the start of the effect can still be recorded for a row, it was not recorded before and X was not called for it. |
| `ProtocolTheorems.FailedMeansUnpublished` | backend/services/x_post_approval.py:281-286 | If X published for a row that no operator decided, the row is not failed; for operator-decided rows NotPostedIsRightIff gives the exact condition. |
| `ProtocolTheorems.OvertakenInSomeRun` | backend/services/x_post_approval.py:273-280 | There is a run at whose end X has published for a row that an operator resolved as not posted. |
| `ProtocolTheorems.OperatorCanBeOvertaken` | backend/services/x_post_recovery.py:177-205 | Why operator-decided rows are exempt: from any state with a stalled marked worker, resend, "not posted" and the late call end with a failed row and a published post. |
| `ProtocolVerdicts.NotPostedIsRightIff` | backend/services/x_post_recovery.py:177-205 | The exact condition: after an operator resolved a row as not posted, X never publishes for it in any continuation iff it publishes for no call made until then, not even late, and no worker of the row stood between recording the start and calling X. |
| `ProtocolVerdicts.NeverPublishedIff` | backend/services/x_post_approval.py:273-290 | The same condition decides it for every final row, whoever made it final. |
| `ProtocolVerdicts.FailedIsFailedForGood` | backend/services/x_post_approval.py:281-286 | In every run a row that failed without an operator is unpublished in every continuation: the condition always holds for it. |
| `ProtocolTheorems.SavedPostsAreReal` | backend/services/x_post_approval.py:354-379 | Whatever crashed or was resumed, a saved post equals the one of the uninterrupted run, and X published exactly its text under its id. |
| `ProtocolPosts.PostsSayTheRequest` | backend/services/x_post_recovery.py:111-175 | In every run, for every post, whoever saved it: text, campaign, landing URL, key and tracked URL are those of the request of its row; X id and time are those of an operator event for that row and post, or of an answer of X to a call of that row. |
| `ProtocolPosts.CallsSayTheRequest` | backend/services/x_post_approval.py:265-280 | In every run every call sent the body of its request, a line end and the URL built from that request and key. |
| `ProtocolPosts.ResultsSayTheRequest` | backend/services/x_post_approval.py:290-296 | In every run a stored X result repeats that text and that URL and has an id. |
| `ProtocolPosts.ResultItemsSay` | backend/services/approval.py:135-166 | In every run the result item of a row that left processing says success iff a worker saved the row. |
| `ProtocolPosts.RequestItemsAreKept` | backend/services/approval.py:290-314 | In every run the API turn of every row holds the request as a user message. |
| `ProtocolPosts.ReconciliationLeaves` | backend/services/x_post_recovery.py:311-367 | A reconciliation writes the row and a completed audit turn of its session that holds the decision and its result, or nothing at all. |
| `ProtocolOutcomes.AcceptanceSaves` | backend/services/x_post_approval.py:265-379 | From every reachable state with a worker that is ready to call and holds its row: if X accepts with a free id of at most 255 characters, the answer is stored, the post is saved with the columns of the request and that id and time, and the row answers 201 with them. |
| `ProtocolOutcomes.RefusalFails` | backend/services/x_post_approval.py:280-287 | From every such state: if X refuses, the row fails with 502 and no post is saved. |
| `ProtocolOutcomes.UnclearBecomesUnknown` | backend/services/x_post_approval.py:288-289 | From every such state: if the outcome stays unclear, or X gives no id, the row becomes outcome-unknown with 504 and no post is saved. |
| `ProtocolOutcomes.MarkGetsReady` | backend/services/x_post_approval.py:273-279 | An execution that only plans and holds its row gets into such a state by recording the start. |
| `ProtocolTheorems.SucceededIffOnePost` | backend/services/x_post_approval.py:77-117 | A publish row has succeeded iff exactly one post refers to it, in every committed state. |
| `ProtocolTheorems.RowsCoupled` | backend/services/approval.py:290-314 | A row is processing iff its API turn is running, iff it has no response and no result item; an external result implies a recorded start. |
| `ProtocolTheorems.CompleteNeverFindsTurnEnded` | backend/services/approval.py:105-133 | For every worker of every reachable state, complete either commits or loses the lease; the turn is never found ended. |
| `ProtocolTheorems.OneUnresolvedPerContent` | backend/services/approval.py:260-288 | Across keys and sessions, at most one row per marketer and content is processing or outcome-unknown. |
| `ProtocolTheorems.TablesAreGapless` | backend/repositories/agent.py:314-333 | In every reachable state turns are numbered 1..n per session, items 1..next-1 per turn, and a session has at most one active chat turn. |
| `ProtocolTheorems.FencedWorkersAreInert` | backend/repositories/idempotency.py:171-181 | In every run, once a worker lost its row, each of its later steps leaves rows, turns, items, posts and campaigns exactly unchanged, in every continuation. |
| `ProtocolTheorems.FencedForever` | backend/repositories/idempotency.py:171-181 | The induction behind it, from any state that satisfies the invariant. |
| `ProtocolTheorems.WorkerStepEffect` | backend/services/x_post_approval.py:363-378 | A worker step touches at most its own row, and nothing at all unless its token owns the row: insert plus failed finalize rolls back as a whole. |
| `ProtocolTheorems.StepRows` | backend/services/approval.py:316-369 | No step changes a final row, leaves outcome-unknown except by an operator, or gives a row to an existing worker. |
| `ProtocolTheorems.FinalRowsNeverChange` | backend/repositories/idempotency.py:205-229 | In every run succeeded and failed rows are equal in every later state, column by column. |
| `ProtocolTheorems.UnknownRowsWaitForOperator` | backend/repositories/idempotency.py:276-302 | In every run an outcome-unknown row is unchanged until an operator resolves it, once, into a final row. |
| `ProtocolTheorems.ResentRequestReplays` | backend/services/approval.py:316-332 | Every later request with the same session, key and body gets exactly the response stored in the final row and changes nothing. |
| `ProtocolTheorems.ResentUnknownReplays` | backend/services/approval.py:316-332 | The same for an outcome-unknown row, as long as no operator resolved it. |
| `ProtocolAnswers.UnknownRowsAnswer504` | backend/services/approval.py:371-393 | In every run an outcome-unknown row stores exactly 504 X_POST_OUTCOME_UNKNOWN with its own turn, whoever closed it. |
| `ProtocolAnswers.FailedRowsAnswer` | backend/services/x_post_approval.py:281-286 | In every run a failed row tells its own turn; it stores 502 X_POST_FAILED iff the start of the effect was recorded, otherwise one of the refusals of its operation with the HTTP status registered for it, and never the code of an unknown outcome or of a save that can be resumed. |
| `ProtocolAnswers.PublishedRowsAnswer201` | backend/services/x_post_approval.py:106-117 | In every run a succeeded publish row stores 201 with the id, campaign, X id, text, URL and time of its one post. |
| `ProtocolAnswers.SavedRowsAnswer` | backend/services/campaign_approval.py:125-168 | In every run a succeeded campaign row stores 201 for a new and 200 for an updated campaign, with the content of the request. |
| `ProtocolAnswers.SavedCampaignIsAnswered` | backend/services/campaign_approval.py:125-168 | The save of a campaign writes the id, content and time that it answers with, the embedding iff one was generated, and no other campaign. |
| `ProtocolAnswers.ResentRequestAnswers` | backend/services/approval.py:316-393 | Exactly when a resent request is refused as a reused key or as in progress, gets the stored response, is closed as unknown with 504, or is granted with what X had answered; and what each writes. |
| `ProtocolAnswers.FirstRequestAnswers` | backend/services/approval.py:260-288 | A first publish request is refused with 409 X_POST_UNRESOLVED, and stored as failed, iff the marketer has the same content processing or unknown under another key; otherwise it is granted with a fresh row. |
| `ProtocolAnswers.StrangersAreRefused` | backend/services/approval.py:224-240 | Without the session, and for new keys in an archived one, there is no request. |
| `ProtocolAnswers.SaveFailureIsResumable` | backend/services/x_post_approval.py:381-393 | After the lease was given up the same request is granted again at once, with what X had answered. |
| `ProtocolAnswers.MarkRecordsTheStart` | backend/repositories/idempotency.py:183-191 | Recording the start writes the time of the step into a row that is held, and nothing else. |
| `ProtocolAnswers.OperatorTakeover` | backend/services/x_post_recovery.py:207-263 | An operator takes a row over iff it is a processing publish row with an X result whose lease is over. |
| `ProtocolEvidence.ForgottenIff` | backend/services/x_post_approval.py:309-318 | The exact step: where no worker believes its call unclear and no row is outcome-unknown while a result is stored, one step breaks this iff it commits an X result to a held row and reports the commit as an error. |
| `ProtocolEvidence.UnknownHoldsNoResult` | backend/services/x_post_approval.py:292-318 | In every run without such a step no outcome-unknown row holds an X result. |
| `ProtocolEvidence.UnknownGetsResultIff` | backend/services/x_post_approval.py:395-397 | From any state with the invariant in which no outcome-unknown row holds a result, a step makes one iff an owner that believes the call unclear closes a held row in which a result is stored. |
| `ProtocolEvidence.UnknownHoldsResultInSomeRun` | backend/services/x_post_approval.py:309-318 | A run from the empty tables: claim, mark, call, one unreported commit and the answer "unknown" leave an outcome-unknown row with the id that X gave. |
| `ProtocolEvidence.UnreportedCommitForgets` | backend/services/x_post_approval.py:309-318 | From any state with the invariant, one commit that happened but was reported as an error leads to such a row. |
| `ProtocolInvariant.StepKeepsInv` | backend/services/approval.py:214-258 | Every event keeps the full invariant, whatever its clock reading. |
| `ProtocolInvariant.RunKeepsInv` | backend/services/approval.py:214-258 | The invariant holds after every run. |
| `ProtocolInvariant.MarkKeeps` | backend/services/x_post_approval.py:273-279 | Recording the start of the effect keeps it. |
| `ProtocolInvariant.CallKeeps` | backend/services/x_post_approval.py:280-290 | So does calling X, accepted, refused or unclear. |
| `ProtocolInvariant.PersistKeeps` | backend/services/x_post_approval.py:309-318 | So does persisting the X result, whether the commit fails, succeeds or succeeds unnoticed. |
| `ProtocolInvariant.CheckStoredKeeps` | backend/services/x_post_approval.py:320-335 | So does the check of a persisted result before a resumed save. |
| `ProtocolInvariant.SaveKeeps` | backend/services/x_post_approval.py:354-379 | So does one save attempt, including one whose commit is not noticed. |
| `ProtocolInvariant.ExpireKeeps` | backend/services/x_post_approval.py:381-393 | So does giving the lease up. |
| `ProtocolInvariant.FailStepKeeps` | backend/services/x_post_approval.py:399-420 | So does ending the row with an error response. |
| `ProtocolInvariant.FailureIsJustified` | backend/services/x_post_approval.py:281-286 | A worker that fails its row as not published knows that X published nothing for it. |
| `ProtocolInvariant.SaveUpsertKeeps` | backend/services/campaign_approval.py:125-168 | So does the save of a campaign approval. |
| `ProtocolInvariant.ClaimNewKeeps` | backend/services/approval.py:260-288 | So does a first request. |
| `ProtocolInvariant.ClaimExistingKeeps` | backend/services/approval.py:316-369 | So does a resent request, in each of its outcomes. |
| `ProtocolInvariant.ClaimByOperatorKeeps` | backend/services/x_post_recovery.py:207-263 | So does an operator taking over a resumable row. |
| `ProtocolInvariant.ResolveAsPostedKeeps` | backend/services/x_post_recovery.py:111-175 | So does resolving a row as posted. |
| `ProtocolInvariant.ResolveAsNotPostedKeeps` | backend/services/x_post_recovery.py:177-205 | So does resolving a row as not posted. |
| `ProtocolProgress.SettlesInOrderIff` | backend/services/approval.py:316-369 | Progress: from every reachable state, with clocks that do not run backwards from a given time, some continuation settles a row iff the row is not obstructed then. Obstructed: processing with an X result whose id is too long, or whose id or link another post has, and an owner that does not believe the call unclear or whose lease is over. |
| `ProtocolProgress.SettlesIffNotObstructed` | backend/services/approval.py:316-369 | The same with clocks that show anything; then the lease of an owner that believes the call unclear does not matter. |
| `ProtocolProgress.ObstructedForever` | backend/services/x_post_approval.py:337-393 | An obstructed row is processing with the same result in every continuation; no resend, operator or late worker frees it. |
| `ProtocolProgress.LongIdKeepsProcessing` | backend/models/post.py:38-38 | So in every run a stored id of more than 255 characters keeps its row processing. |
| `ProtocolProgress.LongIdInSomeRun` | backend/services/x_post_approval.py:309-318 | And such a row is reachable, if X answers with such an id. |
| `ProtocolProgress.StepResultsStay` | backend/repositories/idempotency.py:193-203 | No step ever removes or changes an X result once it is stored in a row. |
| `ApprovalInvariant.CompleteKeepsCore` | backend/services/approval.py:105-166 | complete commits exactly when the token and lease are held, and then closes row, result item and turn together. |
| `ApprovalInvariant.SavePostKeepsInv` | backend/services/x_post_approval.py:354-379 | Saving a post keeps rows, turns, items and posts coupled, and never meets an ended turn. |
| `ApprovalInvariant.SaveCampaignKeepsInv` | backend/services/campaign_approval.py:125-168 | Saving a campaign does too. |
| `ApprovalInvariant.StartNewKeepsInv` | backend/services/approval.py:260-288 | A first request leaves one running turn and a processing row, or, iff the content is unresolved elsewhere, a failed row that answers 409 X_POST_UNRESOLVED. |
| `ApprovalInvariant.DecideKeepsInv` | backend/services/approval.py:316-369 | A resent request is refused, takes the expired row over, replays the response or closes the row as unknown, each under its exact condition and with its literal answer; its broken-row branches are dead. |
| `ApprovalInvariant.CloseUnknownKeepsInv` | backend/services/approval.py:371-393 | An interrupted send without a result is always closed as unknown, with its turn, and answered with 504 X_POST_OUTCOME_UNKNOWN. |
| `ApprovalInvariant.ResolveKeepsInv` | backend/services/x_post_recovery.py:111-205 | Manual reconciliation keeps the coupled tables, with a completed audit turn of its own. |
| `ApprovalInvariant.AuditKeeps` | backend/services/x_post_recovery.py:311-367 | The audit turn is opened and completed at once and touches no API turn. |
| `PublishedPosts.ResumeMatchesDirect` | backend/services/x_post_approval.py:120-152 | The check of a stored result passes iff the X id has 1 to 255 characters, and then yields exactly the post of the direct path. |
| `PublishedPosts.ResumeIsSound` | backend/services/x_post_approval.py:120-152 | Whatever is stored, a resumed save agrees with the request and with the stored evidence. |
| `PublishedPosts.SuffixRoundTrip` | backend/services/x_post_approval.py:133-145 | Removing newline and URL from body, newline and URL gives the body back. |
| `XPostService.XPostApprovalService.Publish` | backend/services/x_post_approval.py:163-201 | One execution, with everyone else acting in between and commits that are reported as errors: a run of the protocol; at most one call of X, none when resuming; an answer is the stored response or the unsaved save failure; a lost lease is always answered by a replay. |
| `XPostService.XPostApprovalService.PostToX` | backend/services/x_post_approval.py:265-307 | Mark, call, persist and save, with the outer handler and its second try of recording the unknown outcome or the save failure; the answer is stored or the X result is kept. |
| `XPostService.XPostApprovalService.SaveWithRetry` | backend/services/x_post_approval.py:337-352 | At most three save transactions, a commit that was not reported being tried again like any other; the save failure is answered only after three. |
| `XPostService.XPostApprovalService.Resume` | backend/services/x_post_approval.py:320-335 | A resumed execution only saves. |
| `XPostService.XPostApprovalService.SaveFailed` | backend/services/x_post_approval.py:381-393 | The lease is given up and the X result is still in the row, also when the database fails with or without a commit. |
| `ApprovalStore.ApprovalDatabase.Complete` | backend/services/approval.py:105-133 | The in-place transaction equals its specification. |
| `ApprovalStore.ApprovalDatabase.Fail` | backend/services/x_post_approval.py:399-420 | So does _fail, with rollback when the lease is lost. |
| `ApprovalStore.ApprovalDatabase.SavePost` | backend/services/x_post_approval.py:354-379 | So does _save: the post inserted first is gone again when finalize matches no row. |
| `ApprovalStore.ApprovalDatabase.SaveCampaign` | backend/services/campaign_approval.py:125-168 | So does the campaign save, with conflict and rollback. |
| `ApprovalStore.ApprovalDatabase.Claim` | backend/services/approval.py:214-258 | The claim returns and leaves what its specification says. |
| `ApprovalStore.ApprovalDatabase.StartNew` | backend/services/approval.py:260-288 | So does the first request. |
| `ApprovalStore.ApprovalDatabase.DecideExisting` | backend/services/approval.py:316-369 | So does the resent request. |
| `ApprovalStore.ApprovalDatabase.CloseUnknown` | backend/services/approval.py:371-393 | In place: the row becomes outcome-unknown and stores and answers 504 X_POST_OUTCOME_UNKNOWN, with its turn ended, or everything is rolled back. |
| `ApprovalStore.ApprovalDatabase.ResolvePosted` | backend/services/x_post_recovery.py:111-175 | In place: the post has the text, links and campaign of the request and the id and time of the operator; the row stores 201 with them; otherwise nothing changes. |
| `ApprovalStore.ApprovalDatabase.ResolveNotPosted` | backend/services/x_post_recovery.py:177-205 | In place: the row is failed and stores 502 X_POST_FAILED; no post changes. |
| `IdempotencyStore.IdempotencyRepository.Reserve` | backend/repositories/idempotency.py:90-121 | The conditional update writes exactly its specification, or matches no row and writes nothing. |
| `IdempotencyStore.IdempotencyRepository.AttachTurn` | backend/repositories/idempotency.py:138-144 | The conditional update writes exactly its specification, or matches no row and writes nothing. |
| `IdempotencyStore.IdempotencyRepository.Reacquire` | backend/repositories/idempotency.py:146-169 | The conditional update writes exactly its specification, or matches no row and writes nothing. |
| `IdempotencyStore.IdempotencyRepository.MarkExternalStarted` | backend/repositories/idempotency.py:183-191 | The conditional update writes exactly its specification, or matches no row and writes nothing. |
| `IdempotencyStore.IdempotencyRepository.SaveExternalResult` | backend/repositories/idempotency.py:193-203 | The conditional update writes exactly its specification, or matches no row and writes nothing. |
| `IdempotencyStore.IdempotencyRepository.Finalize` | backend/repositories/idempotency.py:205-229 | The conditional update writes exactly its specification, or matches no row and writes nothing. |
| `IdempotencyStore.IdempotencyRepository.ExpireLease` | backend/repositories/idempotency.py:231-239 | The conditional update writes exactly its specification, or matches no row and writes nothing. |
| `IdempotencyStore.IdempotencyRepository.RecoverUnknown` | backend/repositories/idempotency.py:241-274 | The conditional update writes exactly its specification, or matches no row and writes nothing. |
| `IdempotencyStore.IdempotencyRepository.ResolveUnknown` | backend/repositories/idempotency.py:276-302 | The conditional update writes exactly its specification, or matches no row and writes nothing. |
| `IdempotencyStore.IdempotencyRepository.HasUnresolvedDuplicate` | backend/repositories/idempotency.py:123-136 | True iff another key of the marketer holds the same content as processing or outcome-unknown. |
| `Turns.CreateTurnKeepsInv` | backend/repositories/agent.py:314-333 | Creating a turn keeps turn numbers 1..n. |
| `Turns.AppendKeepsInv` | backend/repositories/agent.py:335-389 | Appending an item keeps item numbers 1..next-1. |
| `Turns.FinishTurnKeepsInv` | backend/repositories/agent.py:682-725 | Ending a turn cancels its live executions and keeps every execution settled or in a running turn. |
| `Turns.EndTurnsKeepsInv` | backend/repositories/agent.py:250-292 | So does recovering any set of stale turns. |
| `Turns.PrepareKeepsInv` | backend/repositories/agent.py:865-947 | Get-or-create of a tool call keeps numbering and the match of results and executions. |
| `Turns.FinishKeepsInv` | backend/repositories/agent.py:1070-1186 | Storing a result keeps them: a result exists only for an ended execution. |
| `Chat.ChatStepKeeps` | backend/services/turn_service.py:69-106 | Every chat step keeps the tables, leaves API turns alone and never opens a second active chat turn. |
| `Chat.ChildIsOpened` | backend/agent_runtime/proposal_tools.py:165-258 | A child turn is opened in its own session, running, with its input as its only item; nothing else changes. |
| `TablesEvolution.StepEvolves` | backend/repositories/agent.py:713-725 | No approval, operator, chat or recovery step touches a tool item or an attempt count; it can only cancel live executions. |
| `TurnStore.AgentRepository.CreateTurn` | backend/repositories/agent.py:314-333 | In place: the next free number under the session lock. |
| `TurnStore.AgentRepository.Append` | backend/repositories/agent.py:335-444 | In place: stored once per key under the next number, only in a running turn. |
| `TurnStore.AgentRepository.FinishTurn` | backend/repositories/agent.py:682-725 | In place: only while running, with the cancellation. |
| `TurnStore.AgentRepository.RecoverStale` | backend/repositories/agent.py:250-292 | In place: exactly the active non-API turns older than the threshold, with the cancellation. |
| `TurnStore.AgentRepository.Prepare` | backend/repositories/agent.py:865-947 | In place: get-or-create under the exact conditions of refusal and conflict, with the item and execution it leaves. |
| `TurnStore.AgentRepository.Claim` | backend/repositories/agent.py:949-969 | In place: only a pending execution of a running turn. |
| `TurnStore.AgentRepository.IncrementAttempt` | backend/repositories/agent.py:971-988 | In place: only a running execution of a running turn. |
| `TurnStore.AgentRepository.Finish` | backend/repositories/agent.py:1070-1186 | In place: the stored result wins; otherwise content and status are stored together. |
| `TurnService.TurnService.Begin` | backend/services/turn_service.py:69-106 | In place: older active turns of the session, API turns aside, fail and every other turn is as it was; the new turn is running and holds the message; a second active turn is refused, undoing the recovery. |
| `TurnService.TurnService.Finish` | backend/services/turn_service.py:225-270 | In place: a reply or a terminal tool completes a running turn, a blocked run blocks it, any other error fails it; the reply is stored as its assistant message; a turn that is not running is not touched. |
| `TurnService.TurnService.Execute` | backend/services/turn_service.py:168-270 | With everyone else acting during the run: the turn is running afterwards iff nobody else ended it and the last transaction was not reached or rolled back; otherwise a reply or a terminal tool completed it, a blocked run blocked it and any other error failed it, and its assistant message is the reply; it is shown only after that transaction; an ended turn is not touched. |
| `TurnService.TurnService.RunTurn` | backend/api/sse.py:82-113 | When execute ends with an exception or a cancellation, a second transaction ends the turn as failed. The stream is closed only over an ended turn; a turn still running means that the second transaction was tried and rolled back too. |
| `ToolProtocol.CallsRunByOneInvoker` | backend/agent_runtime/executor.py:150-162 | Any interleaving: all handler runs of a call are made by the one invoker that won its claim. |
| `ToolProtocol.AttemptsAreCounted` | backend/repositories/agent.py:971-988 | The attempt counter equals the handler runs plus the one still owed, and never exceeds the maximum. |
| `ToolProtocol.AnswersAgree` | backend/agent_runtime/executor.py:155-162 | All invokers of a call that are answered with a stored result are answered with the content of the same stored item. |
| `ToolResults.ResultsAreWhatHandlersSaid` | backend/agent_runtime/executor.py:321-362 | In every run the stored result and status of a call are what its last handler run said: the data of a success as completed, the code of a permanent error as failed or blocked, an exhausted retry as failed, an ended turn as cancelled; without a run it is not completed. |
| `ToolProtocol.ExecutionsSettle` | backend/repositories/agent.py:713-725 | Completed, failed and blocked executions have a result; a result means ended; a live execution means a running turn. |
| `ToolProtocol.ToolStepKeepsInv` | backend/agent_runtime/executor.py:106-246 | Every step of an invoker or of anything else keeps these invariants. |
| `ToolExecutor.ToolExecutor.ExecuteWithRetry` | backend/agent_runtime/executor.py:321-362 | The loop counts each handler run right before it, at most the maximum, and ends with the result and status that the last outcome of the handler calls for. |
| `ToolExecutor.ToolExecutor.Invoke` | backend/agent_runtime/executor.py:106-246 | One invocation, with others acting between its transactions: whoever is answered from the tables gets the stored item as it may be shown, quarantined or not; the handler runs only for the winner of the claim, as often as the counter says, and the winner stores what the handler said. |
| `ToolExecutor.ValidateProvenance` | backend/agent_runtime/executor.py:391-433 | Accepted iff every reference is genuine and none is repeated. |
| `ContextSafety.QuarantineIsForever` | backend/repositories/agent.py:642-680 | After an item is quarantined no context built later depends on its original content, under any reading of summaries, through any compactions and fallbacks, whatever the clock shows. |
| `Context.NotALeafNoInfluence` | backend/services/agent_context.py:58-65 | An item outside the leaves of a context has no influence on its text. |
| `ContextSafety.SessionRunKeeps` | backend/services/agent_context.py:131-164 | In every run each active summary depends only on its recorded sources and on nothing quarantined. |
| `ContextSafety.BuildKeepsTaintInv` | backend/services/agent_context.py:88-164 | A build whose read and save are one step keeps this. |
| `ContextSafety.SplitSaveCleanIff` | backend/services/agent_context.py:218-237 | With read and save apart, it is kept iff nothing that flowed into the summary was quarantined in between. |
| `ContextRuns.TaintedSaveInSomeRun` | backend/services/agent_context.py:218-237 | A run from an empty session: read, quarantine of a read item, save; the saved active summary depends on the quarantined item. |
| `ContextSafety.QuarantineKeepsTaintInv` | backend/repositories/agent.py:642-680 | Quarantine invalidates every active summary that depends on the item. |
| `ContextSafety.ContextLeaves` | backend/services/agent_context.py:167-189 | A returned context depends on no quarantined item. |
| `ContextSafety.StoredQuarantined` | backend/repositories/agent.py:1070-1186 | An item that is stored quarantined is quarantined in every later state. |
| `ContextShape.CompactionPartitions` | backend/services/agent_context.py:134-139 | Old sources plus rows are new sources plus recent rows, disjointly, and the boundary advances. |
| `ContextShape.CompactionKeepsOrder` | backend/services/agent_context.py:209-216 | Compacted rows followed by recent rows are the rows read; the newest completed turn stays recent. |
| `ContextShape.BoundaryFacts` | backend/services/agent_context.py:131-133 | The boundary is a completed turn after the old one and before the newest completed one. |
| `ContextShape.RebuiltIsCandidate` | backend/services/agent_context.py:140-164 | The rebuilt context is the size-checked candidate, entry for entry. |
| `ContextShape.ContextWithinLimit` | backend/services/agent_context.py:116-164 | Every returned context reports its own size, which is within the hard limit. |
| `ContextOrder.ContextShowsHistory` | backend/services/agent_context.py:88-189 | Every returned context, from the history alone: the notices, at most one checkpoint, the items of the completed turns after its boundary by turn and position, each once, and last the input of the running turn. A checkpoint saved by the build was summarised from the one before it and the items in order up to but without the newest completed turn. |
| `ContextOrder.SizeDecides` | backend/services/agent_context.py:116-164 | Nothing is compacted up to the threshold or in a child session; a build fails on size only if the uncompacted context is over the hard limit, and only a compaction can abort it. |
| `ContextOrder.EverySlotIsAnItem` | backend/repositories/agent.py:480-499 | The order leaves no room: every place between checkpoint and input belongs to one item of one completed turn. |
| `ContextOrder.LatestIsNewest` | backend/repositories/agent.py:446-478 | The checkpoint that is read is the newest active one below the turn, by time and then by id; none is read only if there is none. |
| `ContextShape.SaveNeverRefused` | backend/models/agent.py:214-221 | With clocks that do not run backwards, active boundaries strictly increase and saving a compaction is never refused by a check or the unique index. |
| `ContextShape.BoundariesIncreaseAlongRuns` | backend/repositories/agent.py:446-478 | This holds along every run with such clocks. |
| `ContextShape.ViewIsComplete` | backend/repositories/agent.py:480-499 | Sources and rows of a build are exactly the items of the completed turns before it, as long as coverage holds. |
| `ContextShape.CoverageLostIff` | backend/repositories/agent.py:584-640 | A step loses coverage iff it completes a turn at or below an active boundary. |
| `ContextShape.OnlyApprovalTurnsAreLate` | backend/repositories/agent.py:224-240 | Such a turn is an approval turn, never a chat turn. |
| `ContextRuns.LateEndInSomeRun` | backend/repositories/agent.py:480-499 | A run from an empty session in which an approval turn completes at or below the boundary of an active checkpoint that does not have its item. |
| `ContextRuns.LateItemsAreMissed` | backend/repositories/agent.py:480-499 | Every late end leaves all items of its turn behind every checkpoint at or above it, from any state with the invariant. |
| `ContextRuns.MissedForever` | backend/repositories/agent.py:584-640 | An item that a checkpoint missed is missed by it after every further run. |
| `ContextRuns.MissedIsNotRead` | backend/services/agent_context.py:88-115 | A read on that checkpoint has the item neither in the sources nor in the rows, and the next checkpoint compacted from it misses it as well. |
| `ContextRuns.MissedIsInNoContext` | backend/services/agent_context.py:116-164 | No context built on that checkpoint has the item among its leaves, compacted or not. |
| `ContextBuilder.ContextBuilder.Build` | backend/services/agent_context.py:88-164 | In place: the build that ContextShowsHistory and SizeDecides are about; the step is paid before anything is compacted or saved. |
| `ContextBuilder.ContextBuilder.CreateCheckpoint` | backend/repositories/agent.py:584-640 | In place: validity checks and the unique active boundary. |
| `ContextBuilder.ContextBuilder.Quarantine` | backend/repositories/agent.py:642-680 | In place: the item and every checkpoint that has it as a source. |
| `ContextBuilder.ContextBuilder.FindLatest` | backend/repositories/agent.py:446-478 | In place: the newest active checkpoint before the turn by creation time and id. |
| `CronSafety.MachinesDoNotInterfere` | backend/repositories/memory_cron.py:180-193 | A token of one cron never passes the guard of the other, on any row, at any time. |
| `CronSafety.WrittenOnce` | backend/repositories/metric_cron.py:124-148 | Counts, completion and memory markers, once written, are the same in every later state; settled rows never change. |
| `MetricHistory.ColumnsAreFirstAnswers` | backend/repositories/metric_cron.py:124-148 | In every run the X column of a row holds the value of the first X answer that came while its token held the row, the landing column that of the first GA4 answer; a column is empty iff there was none. |
| `MetricHistory.ProvidersAreApart` | backend/repositories/metric_cron.py:137-142 | No event of one provider changes the column of the other, and no other event changes either. |
| `MetricHistory.AttemptsAreDueClaims` | backend/repositories/metric_cron.py:73-122 | In every run the attempts of a row change exactly by a claim under a fresh token of a pending row that is due, not put off, without a live lease and below the maximum. |
| `MetricHistory.ClaimsWait` | backend/repositories/metric_cron.py:73-122 | A row that was put off is not touched before a claim at or after that time and after the measurement is due, whatever happens in between. |
| `MetricHistory.ClaimsHold` | backend/repositories/metric_cron.py:98-122 | A claim gives the row to its token for the length of the lease, counts one attempt and changes nothing else, for both crons. |
| `MetricHistory.FailureOutcomes` | backend/repositories/metric_cron.py:162-187 | A failure of the holder completes a row with both values, puts a retryable one below the maximum off by the delay of its attempt, and ends any other as failed with the error. |
| `MetricHistory.CompletedWithBoth` | backend/repositories/metric_cron.py:150-160 | A row is completed only by its holder, with both values, at the time of the step. |
| `MetricHistory.InterruptedRows` | backend/repositories/metric_cron.py:52-71 | Terminalizing ends exactly the rows whose last allowed worker let its lease run out, for both crons. |
| `MetricHistory.MemoryAttemptsAreDueClaims` | backend/repositories/memory_cron.py:73-129 | The memory attempts change exactly by a due claim of a completed row without a memory or a final failure. |
| `MetricHistory.MemoryOutcomes` | backend/repositories/memory_cron.py:131-178 | A created memory sets the marker at its time; a failure puts off below the maximum and is final at it. |
| `CronSafety.CronOutcomes` | backend/repositories/memory_cron.py:131-178 | Completed implies both counts; at most one memory per post, exactly when the marker is set and never beside the failure mark; claims and total backoff within their maxima. |
| `CronSafety.StaleWorkersAreInert` | backend/repositories/metric_cron.py:189-200 | A worker that lost its row never changes anything again, in any continuation. |
| `CronSafety.NeverStuck` | backend/repositories/metric_cron.py:52-111 | Every open row can be claimed or terminalized from a computable time on; a settled one never. |
| `CronSafety.DyingWorkersSettle` | backend/repositories/metric_cron.py:52-71 | Even if every worker dies right after its claim, the row settles within its remaining passes. |
| `CronSafety.StepKeepsCronInv` | backend/repositories/metric_cron.py:73-187 | Every event of either cron keeps the row invariant and the fit of tokens and machines. |
| `Cron.RetryDelay` | backend/domain/cron.py:6-8 | The delay is positive and at most 24 hours. |
| `Cron.RetryDoubles` | backend/domain/cron.py:6-8 | One hour after the first attempt, then exactly double after each further one until the day is reached. |
| `CronStore.CronRepository.ClaimMetrics` | backend/repositories/metric_cron.py:73-122 | In place: the first claimable unlocked rows in order, each once under a token of its own, no other row touched. |
| `CronStore.CronRepository.ClaimMemories` | backend/repositories/memory_cron.py:73-129 | In place: the same on the shared columns for the memory cron. |
| `CronStore.CronRepository.ClaimFirst` | backend/repositories/metric_cron.py:98-122 | The claim loop itself: order, limit, completeness and the exact new rows. |
| `CronStore.CronRepository.TerminalizeMetrics` | backend/repositories/metric_cron.py:52-71 | In place: exactly the exhausted expired rows fail. |
| `CronStore.CronRepository.TerminalizeMemories` | backend/repositories/memory_cron.py:50-71 | In place: exactly the exhausted expired memories fail; metrics stay completed. |
| `CronStore.CronRepository.SaveProviderSuccess` | backend/repositories/metric_cron.py:124-148 | In place: the value is stored once, in the column of its provider; both values complete the row. |
| `CronStore.CronRepository.CompleteIfReady` | backend/repositories/metric_cron.py:150-160 | In place: completed iff held and both values are there. |
| `CronStore.CronRepository.FinishMetricFailure` | backend/repositories/metric_cron.py:162-187 | In place: completed, failed or deferred as specified. |
| `CronStore.CronRepository.SaveMemory` | backend/repositories/memory_cron.py:131-155 | In place: memory and marker together, under the memory guard. |
| `CronStore.CronRepository.FinishMemoryFailure` | backend/repositories/memory_cron.py:157-178 | In place: deferred or failed, metrics untouched. |
| `CronServices.MetricCollectionService.Process` | backend/services/metric_collection.py:98-158 | The reported result is what the row says, whatever providers, clocks and other workers did between the transactions, also when a stored value was reported as an error. |
| `CronServices.Selected` | backend/services/metric_collection.py:112-114 | The decisive failure is not retryable if any failure is not. |
| `CronServices.MetricCollectionService.Run` | backend/services/metric_collection.py:56-77 | The batch loop stays within the limit, ends, and counts no more results than claims. |
| `CronServices.EvaluationMemoryService.Process` | backend/services/evaluation_memory.py:77-102 | A reported creation means that the marker is set and exactly one memory of the post is there, with others acting in between and also when the commit is not reported. |
| `CronServices.EvaluationMemoryService.Run` | backend/services/evaluation_memory.py:37-57 | The created count never exceeds the memories really inserted. |
| `AgentLoop.TurnBudget.ConsumeStep` | backend/agent_runtime/budget.py:27-39 | The time limit refuses the step if it is reached, else the step limit, else the cost limit; otherwise exactly one step is consumed. |
| `AgentLoop.TurnBudget.AddCost` | backend/agent_runtime/budget.py:41-45 | The cost is added, and refused iff the sum exceeds the limit. |
| `AgentLoop.TurnRun.Run` | backend/agent_runtime/real_runner.py:68-116 | Terminates; the reply is the final decision of the last model call, a terminal end is a successful terminal tool, and the turn is blocked only after a guardrail hit; model calls, tool calls and compactions of the turn and its children are together the consumed steps, within the maximum; no reply above the cost limit; at most one guardrail recovery; children within the limit, and each of them is running afterwards iff it was left running. |
| `AgentLoop.TurnRun.RunChild` | backend/agent_runtime/real_runner.py:118-172 | Terminates on the same measure; the output is the final decision of the last model call, within the cost limit. |
| `AgentLoop.TurnRun.Decide` | backend/agent_runtime/real_runner.py:174-243 | One step per model call, finished or cancelled; the decision is that of the last call, within the cost limit, and each other outcome of that call has its error; recursion only after a recovery. |
| `AgentLoop.TurnRun.RecoverGuardrail` | backend/agent_runtime/real_runner.py:275-327 | Succeeds only as the first recovery of the run, on the one active untrusted target, which is quarantined and gone from the new context. |
| `ChildTurns.RunningIffLeft` | backend/agent_runtime/proposal_tools.py:258-395 | Over every outcome of every transaction of one child call: the child turn is running afterwards iff its creation was committed without being reported, or it was reported and no end that was tried committed, by the call or by anybody else. |
| `ChildTurns.LeavesRunningIff` | backend/agent_runtime/proposal_tools.py:267-395 | The same by what happened around the call: which transaction was rolled back, and whether by the database or by a cancellation, which alone is followed by a second try under the shield. |
| `ChildTurns.EndIsTried` | backend/agent_runtime/proposal_tools.py:277-395 | After a reported creation at least one end is tried, and nothing but such tries follows. |
| `ChildTurns.AnswerTellsEnd` | backend/agent_runtime/proposal_tools.py:277-395 | Success and an exhausted budget are answered only over an ended child turn; one that is left running is answered with a failed tool call or the cancellation. |
| `ChildTurns.AnswerIff` | backend/agent_runtime/proposal_tools.py:258-395 | Exactly when a call answers success, an exhausted budget or the cancellation; everything else is a failed tool call. |
| `ChildTurns.EachWay` | backend/agent_runtime/proposal_tools.py:258-395 | One input for each way to leave a child turn running, with its answer. |
| `AgentLoop.TurnRun.RunChildTool` | backend/agent_runtime/proposal_tools.py:165-275 | In place: at most one child turn, with the transactions and the answer of such a call; refused above the child limit; only budget errors and cancellations are raised. |
| `AgentLoop.TurnRun.RunChildInner` | backend/agent_runtime/proposal_tools.py:277-395 | In place: context, child loop, final transaction and _fail_child, each of which can fail with or without its commit or be cancelled. |
| `CampaignIndex.IndexAlwaysAgrees` | backend/repositories/campaigns.py:76-123 | From inserted campaigns and increasing times, in every interleaving the stored hash is the hash of the current content. |
| `CampaignIndex.UpdatesFormAChain` | backend/repositories/campaigns.py:76-106 | Every version was written, at a later time, by someone who had read exactly the version before it: no update is lost. |
| `CampaignIndex.UpdateIsSafeIff` | backend/repositories/campaigns.py:84-106 | Whatever its time, a committed update keeps the index and loses no update; and every continuation with times that advance stays so iff no other pending plan of the campaign expects a later time, or just this time while it has read another content or relies on another stored hash. |
| `CampaignIndex.SafeForeverIff` | backend/repositories/campaigns.py:84-106 | From any state in which the index agrees and no update was lost: this stays so in every continuation iff each pending plan is harmless. |
| `CampaignIndex.SaveAgreesIff` | backend/services/campaign_approval.py:98-160 | From any state, a save leaves the index in agreement iff it generated an embedding or the stored hash already is the new one. |
| `CampaignIndex.UpdateLostInSomeRun` | backend/repositories/campaigns.py:84-95 | A run from empty tables: there and back planned before either is saved, both saved at one instant; the first update is lost and the index is left with its hash. |
| `CampaignIndex.SameInstantLosesAnUpdate` | backend/repositories/campaigns.py:84-95 | The same from any state with two such plans. |
| `CampaignIndex.BackfillInSomeRun` | backend/services/campaign_embedding_backfill.py:97-122 | That run continued with times that advance: a backfill between a plan and its save leaves the index wrong again. |
| `CampaignIndex.BackfillBetweenPlanAndSave` | backend/services/campaign_embedding_backfill.py:97-122 | The same from any state with a stale hash. |
| `CampaignIndex.StepKeeps` | backend/services/campaign_service.py:201-248 | Reading, embedding, saving, listing, backfilling and archiving keep the invariant. |
| `CampaignIndex.BackfillIsIdle` | backend/services/campaign_embedding_backfill.py:97-122 | Where the index agrees a backfill writes nothing. |
| `CampaignStore.CampaignRepository.UpdateIfUnchanged` | backend/repositories/campaigns.py:76-106 | In place: compare-and-set on company, id, time and archive mark. |
| `CampaignStore.CampaignRepository.ListCandidates` | backend/repositories/campaigns.py:125-155 | In place: the first matching campaigns in id order, none missed. |
| `CampaignStore.CampaignService.Edit` | backend/services/campaign_service.py:201-248 | A saved edit is what the row holds; on every path, refused, conflicting or broken by the database before or after the commit, an agreeing index keeps agreeing, with other editors between the reads and the save. |
| `CampaignStore.CampaignService.SaveIfCurrent` | backend/services/campaign_embedding_backfill.py:97-122 | Conflicts iff the content moved on; otherwise the index agrees afterwards. |
| `CampaignStore.CampaignService.Backfill` | backend/services/campaign_embedding_backfill.py:35-95 | Everything up to the reported position is up to date; without a stop or a bound nothing is left; the counts add up; others edit and insert campaigns meanwhile. |
| `SseTheorems.StreamRoundTrip` | frontend/features/chat/api.ts:129-163 | For any events and keep-alives and any chunking, the page receives exactly the events in order and the buffer ends empty. |
| `SseTheorems.TurnArrives` | backend/api/sse.py:101-134 | End to end from the queue of the server to the events of the page. |
| `SseTheorems.ChunkingIsInvisible` | frontend/features/chat/api.ts:144-155 | For any text without CR CR LF, line ends of any kind, chunking does not matter. |
| `SseTheorems.ReceivedIgnoresChunking` | frontend/features/chat/api.ts:129-163 | So what the page receives of such a text, with the last round and flush, does not depend on the chunks. |
| `SseStability.NormalizeInStepsIff` | frontend/features/chat/api.ts:147-147 | Replacing line ends of a beginning and then of everything equals replacing them once, for every cut, iff there is no CR CR LF. |
| `SseChunking.ChunkingSeenIff` | frontend/features/chat/api.ts:143-155 | The exact condition: the text on which the finished loop, last round included, cuts its blocks is the same for every chunking iff the uncut text has no CR LF after its first and its last round. |
| `SseChunking.SettlesIffClear` | frontend/features/chat/api.ts:143-155 | That is: iff after one replacement there is no CR CR LF, and no blank line after a CR LF. |
| `SseChunking.SeenSettles` | frontend/features/chat/api.ts:147-147 | In every chunking, the text that the loop has seen is the text that was read with some of the CR before LF taken out, and nothing else. |
| `SseChunking.SeenDecides` | frontend/features/chat/api.ts:148-155 | The events reported and the text held back are decided by the text seen alone. |
| `SseChunking.SettledIsReceivedAlike` | frontend/features/chat/api.ts:129-163 | So what the page receives of such a text does not depend on its chunks. |
| `SseChunking.StableSettles` | frontend/features/chat/api.ts:143-155 | Every text without CR CR LF is such a text, and the condition is wider than that. |
| `SseStability.CrCrLfShows` | frontend/features/chat/api.ts:143-163 | With CR CR LF the page can receive different data for one text in different chunks. |
| `SseTheorems.EventBlockParses` | backend/api/sse.py:76-79 | The block of a formatted event parses to the event. |
| `Sse.StreamOut` | backend/api/sse.py:101-134 | The generator yields the first event and one chunk per queue item or timeout until the queue closes. |
| `Sse.ParseBlock` | frontend/features/chat/api.ts:111-127 | The loop over lines equals the field-by-field specification. |
| `Sse.StreamTurn` | frontend/features/chat/api.ts:129-163 | The nested loops, with the last empty round at the end of the stream and the flush, equal the specification that the theorems are about. |
| `SnapshotTheorems.WholeListOnce` | backend/services/post_service.py:178-250 | First page plus following cursors, with any limits, is the whole list as it was, once and in order, and ends. |
| `SnapshotTheorems.WalkShowsTheList` | backend/services/post_service.py:217-250 | From any cursor, whatever other requests do before the expiry: no gap, no repeat, no refusal. |
| `SnapshotTheorems.NeverTruncated` | backend/repositories/snapshots.py:89-99 | With any clocks and cleanups a page is a correct slice or refused, never shortened; after the expiry it is refused. |
| `SnapshotTheorems.PageOfFrozen` | backend/repositories/snapshots.py:100-114 | One page is the next slice, with a cursor iff something remains. |
| `SnapshotTheorems.RefusedIff` | backend/repositories/snapshots.py:89-114 | A cursor is refused iff marketer, resource or filter differ, the snapshot has expired, or nothing is stored at its position. |
| `SnapshotTheorems.ReadOfFrozen` | backend/repositories/snapshots.py:100-114 | What is read is the next slice, one row more than the limit, with the summary that was frozen. |
| `SnapshotTheorems.CleanupDeletes` | backend/repositories/snapshots.py:31-47 | A cleanup deletes the oldest expired snapshots up to its limit, with their items, and nothing else. |
| `SnapshotTheorems.CleanupKeeps` | backend/repositories/snapshots.py:31-47 | Cleanup before the expiry leaves the snapshot as it was frozen. |
| `SnapshotStore.SnapshotRepository.Create` | backend/repositories/snapshots.py:49-76 | In place: metadata and projections numbered from zero. |
| `SnapshotStore.SnapshotRepository.CleanupExpired` | backend/repositories/snapshots.py:31-47 | In place: at most limit expired snapshots, oldest first, with their items. |
| `SnapshotStore.SnapshotRepository.ReadPage` | backend/repositories/snapshots.py:78-114 | In place: the ordered rows from the position on, one more than the limit. |
| `SnapshotStore.PostService.FirstPage` | backend/services/post_service.py:178-215 | In place: clean up, freeze the list for its owner, resource and filter for 30 minutes, show the head. |
| `SnapshotStore.PostService.SnapshotPage` | backend/services/post_service.py:217-250 | In place: the next slice of the frozen rows. |

## Left out

- HTTP routing, authentication, CSRF, signing of cursors, rate limits and middleware; the clients of X, GA4, the embedding, the web and the models, whose answers are arbitrary values.
- SQL and locking as such: a transaction is one atomic step, and the session lock and the advisory lock appear as serialized claims. The two reads of a campaign plan are separate steps.
- Masking, validation of fields, weighted post length, clarification answers and view shaping; a request that fails them is a planning failure with any of the error codes that the operation can give.
- The loading and comparison of the original request by an operator, and the time zone check of the evidence.
- Security events, progress reports, usage records and log lines; what the model calls `Notice` has no content of an item.
- Similarity search, list filters and sort orders: the pager takes the list as it was read.
- The archive mark of campaigns changes by an event of its own, since nothing in the repository sets it.
- AgentLoop.TurnRun.Run: what is said to the model, and which tool the model picks, are arbitrary; the ledger, the limits and termination do not depend on them. A cancellation can arrive at each call of a model or a tool and in each transaction on a child turn.
- AgentLoop.TurnRun.Invoke: the persisted attempt and claim steps of a tool call are those of ToolProtocol and are not repeated here.
- ToolExecutor.ToolExecutor.Invoke: whether a stored result is quarantined is a choice of the guardrail, whose rules are not part of this model.
- ToolProtocol.AttemptsAreCounted: an invoker that dies between counting and running leaves the counter one ahead, and the statement says so.
- ProtocolVerdicts.NotPostedIsRightIff: whether X publishes for a call, at once or after its answer was given up, is fixed with the call; the time at which a late post appears is not modelled.
- CronServices.MetricCollectionService.Process: the two providers of a claim answer in either order, and the stores of their values are two transactions in that order.
- CronStore.CronRepository.ClaimFirst: the snapshot of post and campaign data that travels with a claim is not part of this model.
- CampaignIndex.IndexAlwaysAgrees: starts from inserted campaigns; for rows from elsewhere see SaveAgreesIff, SafeForeverIff and BackfillBetweenPlanAndSave.
- ContextShape.ViewIsComplete: order inside the source set of a checkpoint is not modelled; sources are a set.
- Sse.StreamTurn: decoding of bytes into text across chunks is left to the decoder, so chunks are texts and the last round brings an empty one.
- Snapshots for indicators use the same repository with a summary; only the post list service is carried out in place.
