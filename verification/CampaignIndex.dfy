/**
 The campaign search index under concurrent approvals, edits and backfills. A plan reads the
 campaign and then the stored embedding hash in separate statements, embeds outside any transaction
 and saves under compare-and-set on `updated_at`. The hash function is a parameter.
 */
module CampaignIndex {
  import opened Options
  import opened Idempotency
  import opened Campaigns
  import opened Approval
  import Turns

  type Hash = string -> Digest

  /** One stored content of a campaign; `base` and `seen` are what its author had read. */
  datatype Version = Version(content: string, at: Campaigns.Time, base: Campaigns.Time, seen: string)

  datatype Stage = ReadCampaign | Embedded(generated: Option<Digest>)

  /** An approval or an edit of an existing campaign (`id` Some) or a new one (`id` None). */
  datatype Plan = Plan(company: CompanyId, request: Request, seen: string, stage: Stage)

  /** A backfill candidate: the hash of the content that was listed. */
  datatype Candidate = Candidate(company: CompanyId, campaign: CampaignId, digest: Digest)

  datatype State = State(tables: CampaignTables, plans: map<nat, Plan>, candidates: map<nat, Candidate>,
                         versions: map<CampaignId, seq<Version>>)

  const NO_CAMPAIGNS := State(CampaignTables(map[], map[]), map[], map[], map[])

  datatype Event =
    | Read(plan: nat, company: CompanyId, request: Request)
    | Embed(plan: nat)
    | Save(plan: nat, newId: CampaignId, now: Campaigns.Time)
    | List(candidate: nat, company: CompanyId, campaign: CampaignId)
    | Backfill(candidate: nat)
    | Archive(campaign: CampaignId)

  /** The checks of `_plan` and `_edit` before anything is embedded; None for their errors. */
  function ReadFor(t: CampaignTables, company: CompanyId, request: Request): Option<string>
    requires request.Upsert?
  {
    if request.id.None? then Some("")
    else
      match Get(t, company, request.id.value)
      case None => None
      case Some(existing) =>
        if existing.archived || existing.updatedAt != request.expected then None else Some(existing.content)
  }

  /** A new embedding is generated unless the stored hash is already the one of the new content. */
  function GenerateFor(t: CampaignTables, request: Request, hash: Hash): Option<Digest>
    requires request.Upsert?
  {
    var stored := if request.id.None? then None else EmbeddingHash(t, request.id.value);
    if stored == Some(hash(request.content)) then None else Some(hash(request.content))
  }

  /** `_save_if_current`. */
  function SaveIfCurrent(t: CampaignTables, c: Candidate, hash: Hash): CampaignTables {
    match Get(t, c.company, c.campaign)
    case None => t
    case Some(current) =>
      if hash(current.content) != c.digest || EmbeddingHash(t, c.campaign) == Some(c.digest) then t
      else UpsertEmbedding(t, c.campaign, c.digest)
  }

  function Versions(s: State, id: CampaignId): seq<Version> { if id in s.versions then s.versions[id] else [] }

  function SaveStep(s: State, p: Plan, newId: CampaignId, now: Campaigns.Time): State
    requires p.request.Upsert? && p.stage.Embedded?
  {
    match WriteCampaign(s.tables, p.company, newId, p.request, p.stage.generated, now)
    case None => s
    case Some(tables) =>
      var id := CampaignTarget(p.request, newId);
      s.(tables := tables,
         versions := s.versions[id := Versions(s, id) + [Version(p.request.content, now, p.request.expected, p.seen)]])
  }

  function Step(hash: Hash, s: State, e: Event): State {
    match e
    case Read(plan, company, request) =>
      if plan in s.plans || !request.Upsert? || ReadFor(s.tables, company, request).None? then s
      else s.(plans := s.plans[plan := Plan(company, request, ReadFor(s.tables, company, request).value, ReadCampaign)])
    case Embed(plan) =>
      if plan !in s.plans || !s.plans[plan].stage.ReadCampaign? || !s.plans[plan].request.Upsert? then s
      else
        var generated := GenerateFor(s.tables, s.plans[plan].request, hash);
        s.(plans := s.plans[plan := s.plans[plan].(stage := Embedded(generated))])
    case Save(plan, newId, now) =>
      if plan !in s.plans || !s.plans[plan].stage.Embedded? || !s.plans[plan].request.Upsert? then s
      else SaveStep(s, s.plans[plan], newId, now).(plans := s.plans - {plan})
    case List(candidate, company, campaign) =>
      if Get(s.tables, company, campaign).None? then s
      else s.(candidates := s.candidates[candidate := Candidate(company, campaign,
                                                                hash(s.tables.campaigns[campaign].content))])
    case Backfill(candidate) =>
      if candidate !in s.candidates then s else s.(tables := SaveIfCurrent(s.tables, s.candidates[candidate], hash))
    case Archive(campaign) =>
      if campaign !in s.tables.campaigns then s
      else
        var row := s.tables.campaigns[campaign].(archived := true);
        s.(tables := s.tables.(campaigns := s.tables.campaigns[campaign := row]))
  }

  function Run(hash: Hash, s: State, events: seq<Event>): State
    decreases |events|
  {
    if events == [] then s else Run(hash, Step(hash, s, events[0]), events[1..])
  }

  /** An update carries a later time than the version it replaces. */
  predicate TimeAdvances(s: State, e: Event) {
    e.Save? && e.plan in s.plans && s.plans[e.plan].request.Upsert? && s.plans[e.plan].request.id.Some?
    && s.plans[e.plan].request.id.value in s.tables.campaigns
    ==> s.tables.campaigns[s.plans[e.plan].request.id.value].updatedAt < e.now
  }

  predicate TimesAdvance(hash: Hash, s: State, events: seq<Event>)
    decreases |events|
  {
    events == [] || (TimeAdvances(s, events[0]) && TimesAdvance(hash, Step(hash, s, events[0]), events[1..]))
  }

  // ---------- Invariant ----------

  /** The stored hash is the hash of the stored content. */
  predicate Agrees(t: CampaignTables, id: CampaignId, hash: Hash)
    requires id in t.campaigns
  {
    EmbeddingHash(t, id) == Some(hash(t.campaigns[id].content))
  }

  ghost predicate IndexAgrees(t: CampaignTables, hash: Hash) {
    forall id | id in t.campaigns :: Agrees(t, id, hash)
  }

  /** What holds of every plan: its campaign is there, and what it generated is the hash of its content. */
  predicate PlanFormed(t: CampaignTables, p: Plan, hash: Hash) {
    && p.request.Upsert?
    && (p.stage.Embedded? && p.stage.generated.Some? ==> p.stage.generated.value == hash(p.request.content))
    && (p.request.id.None? && p.stage.Embedded? ==> p.stage.generated.Some?)
    && (p.request.id.Some? ==> Get(t, p.company, p.request.id.value).Some?)
  }

  /** The plan saw the current content, and if it generated nothing, the stored hash is the one it needs. */
  predicate PlanFits(t: CampaignTables, p: Plan, hash: Hash)
    requires p.request.Upsert? && p.request.id.Some? && p.request.id.value in t.campaigns
  {
    && p.seen == t.campaigns[p.request.id.value].content
    && (p.stage.Embedded? && p.stage.generated.None? ==>
          EmbeddingHash(t, p.request.id.value) == Some(hash(p.request.content)))
  }

  /** A plan that no save will let through, or that fits the version it expects. */
  predicate Harmless(t: CampaignTables, p: Plan, hash: Hash) {
    p.request.Upsert? && p.request.id.Some? && p.request.id.value in t.campaigns ==>
      var row := t.campaigns[p.request.id.value];
      row.archived || p.request.expected < row.updatedAt
      || (p.request.expected == row.updatedAt && PlanFits(t, p, hash))
  }

  ghost predicate PlansFormed(t: CampaignTables, plans: map<nat, Plan>, hash: Hash) {
    forall p | p in plans :: PlanFormed(t, plans[p], hash)
  }

  ghost predicate PlansHarmless(t: CampaignTables, plans: map<nat, Plan>, hash: Hash) {
    forall p | p in plans :: Harmless(t, plans[p], hash)
  }

  /** Each version was written by someone who had read exactly the version before it. */
  predicate Chained(vs: seq<Version>) {
    forall k | 1 <= k < |vs| :: vs[k].base == vs[k - 1].at && vs[k].seen == vs[k - 1].content
  }

  predicate Ordered(vs: seq<Version>) { forall k | 1 <= k < |vs| :: vs[k - 1].at < vs[k].at }

  predicate HistoryOk(t: CampaignTables, vs: seq<Version>, id: CampaignId) {
    && (id in t.campaigns <==> vs != [])
    && Chained(vs)
    && (vs != [] && id in t.campaigns ==>
          t.campaigns[id].content == vs[|vs| - 1].content && t.campaigns[id].updatedAt == vs[|vs| - 1].at)
  }

  ghost predicate HistoriesOk(s: State) { forall id :: HistoryOk(s.tables, Versions(s, id), id) }

  ghost predicate HistoriesOrdered(s: State) { forall id :: Ordered(Versions(s, id)) }

  /** The index agrees and no update was lost. Nothing is said about times. */
  ghost predicate Sound(hash: Hash, s: State) { IndexAgrees(s.tables, hash) && HistoriesOk(s) }

  ghost predicate CampaignInv(hash: Hash, s: State) {
    Sound(hash, s) && PlansFormed(s.tables, s.plans, hash) && PlansHarmless(s.tables, s.plans, hash)
  }

  // ---------- Preservation ----------

  /** What a successful save does to the tables. */
  lemma SavedTables(s: State, p: Plan, newId: CampaignId, now: Campaigns.Time)
    requires p.request.Upsert? && p.stage.Embedded?
    requires WriteCampaign(s.tables, p.company, newId, p.request, p.stage.generated, now).Some?
    ensures var t := WriteCampaign(s.tables, p.company, newId, p.request, p.stage.generated, now).value;
            var id := CampaignTarget(p.request, newId);
            && id in t.campaigns && t.campaigns[id].content == p.request.content && t.campaigns[id].updatedAt == now
            && t.campaigns.Keys == s.tables.campaigns.Keys + {id}
            && (forall j | j in s.tables.campaigns && j != id :: t.campaigns[j] == s.tables.campaigns[j])
            && (forall j | j != id :: EmbeddingHash(t, j) == EmbeddingHash(s.tables, j))
            && EmbeddingHash(t, id)
               == (if p.stage.generated.Some? then p.stage.generated else EmbeddingHash(s.tables, id))
            && (if p.request.id.None? then id !in s.tables.campaigns && !t.campaigns[id].archived
                else
                  && id in s.tables.campaigns && s.tables.campaigns[id].updatedAt == p.request.expected
                  && s.tables.campaigns[id].company == p.company && !s.tables.campaigns[id].archived
                  && !t.campaigns[id].archived)
            && t.campaigns[id].company == p.company
  {
  }

  /** Whatever the index looked like before, a save leaves the campaign in agreement exactly in these cases. */
  lemma SaveAgreesIff(hash: Hash, s: State, p: Plan, newId: CampaignId, now: Campaigns.Time)
    requires p.request.Upsert? && p.stage.Embedded?
    requires p.stage.generated.Some? ==> p.stage.generated.value == hash(p.request.content)
    requires WriteCampaign(s.tables, p.company, newId, p.request, p.stage.generated, now).Some?
    ensures var t := WriteCampaign(s.tables, p.company, newId, p.request, p.stage.generated, now).value;
            var id := CampaignTarget(p.request, newId);
            id in t.campaigns &&
            (Agrees(t, id, hash)
             <==> p.stage.generated.Some? || EmbeddingHash(s.tables, id) == Some(hash(p.request.content)))
  {
    SavedTables(s, p, newId, now);
  }

  /** The save of an embedded plan that passes the compare-and-set. */
  predicate Commits(s: State, p: Plan, newId: CampaignId, now: Campaigns.Time) {
    && p.request.Upsert? && p.stage.Embedded?
    && WriteCampaign(s.tables, p.company, newId, p.request, p.stage.generated, now).Some?
  }

  /** Whatever its time, a harmless plan keeps the index and loses no update. */
  lemma SaveKeepsSound(hash: Hash, s: State, p: Plan, newId: CampaignId, now: Campaigns.Time)
    requires Sound(hash, s) && PlanFormed(s.tables, p, hash) && Harmless(s.tables, p, hash) && Commits(s, p, newId, now)
    ensures Sound(hash, SaveStep(s, p, newId, now))
  {
    hide WriteCampaign, Chained;
    SavedTables(s, p, newId, now);
    SaveAgreesIff(hash, s, p, newId, now);
    if p.request.id.Some? { NotArchived(s, p, newId, now); }
    var t := SaveStep(s, p, newId, now);
    var target := CampaignTarget(p.request, newId);
    forall id | id in t.tables.campaigns ensures Agrees(t.tables, id, hash) {
      if id != target { assert Agrees(s.tables, id, hash); }
    }
    forall id ensures HistoryOk(t.tables, Versions(t, id), id) {
      assert HistoryOk(s.tables, Versions(s, id), id);
      if id == target { ChainGrows(Versions(s, id), Version(p.request.content, now, p.request.expected, p.seen)); }
    }
  }

  lemma NotArchived(s: State, p: Plan, newId: CampaignId, now: Campaigns.Time)
    requires Commits(s, p, newId, now) && p.request.id.Some?
    ensures var id := p.request.id.value;
            id in s.tables.campaigns && !s.tables.campaigns[id].archived
            && s.tables.campaigns[id].updatedAt == p.request.expected
  {
  }

  lemma ChainGrows(vs: seq<Version>, v: Version)
    requires Chained(vs)
    requires vs != [] ==> v.base == vs[|vs| - 1].at && v.seen == vs[|vs| - 1].content
    ensures Chained(vs + [v])
  {
  }

  lemma SaveKeepsFormed(hash: Hash, s: State, p: Plan, newId: CampaignId, now: Campaigns.Time)
    requires PlansFormed(s.tables, s.plans, hash) && Commits(s, p, newId, now)
    ensures PlansFormed(SaveStep(s, p, newId, now).tables, s.plans, hash)
  {
    var t := SaveStep(s, p, newId, now).tables;
    forall q | q in s.plans ensures PlanFormed(t, s.plans[q], hash) { assert PlanFormed(s.tables, s.plans[q], hash); }
  }

  /** Plans of other campaigns are as harmless as they were. */
  lemma SaveOfAnother(hash: Hash, s: State, p: Plan, newId: CampaignId, now: Campaigns.Time, q: Plan)
    requires Commits(s, p, newId, now) && PlanFormed(s.tables, q, hash)
    requires q.request.id != Some(CampaignTarget(p.request, newId))
    ensures Harmless(SaveStep(s, p, newId, now).tables, q, hash) <==> Harmless(s.tables, q, hash)
  {
    hide WriteCampaign;
    SavedTables(s, p, newId, now);
  }

  lemma SaveKeepsHarmless(hash: Hash, s: State, p: Plan, newId: CampaignId, now: Campaigns.Time)
    requires CampaignInv(hash, s) && Commits(s, p, newId, now)
    requires p.request.id.Some? && p.request.id.value in s.tables.campaigns ==>
               s.tables.campaigns[p.request.id.value].updatedAt < now
    ensures PlansHarmless(SaveStep(s, p, newId, now).tables, s.plans, hash)
  {
    hide WriteCampaign, Sound, PlanFits;
    SavedTables(s, p, newId, now);
    if p.request.id.Some? { NotArchived(s, p, newId, now); }
    var t := SaveStep(s, p, newId, now).tables;
    forall q | q in s.plans ensures Harmless(t, s.plans[q], hash) {
      assert PlanFormed(s.tables, s.plans[q], hash) && Harmless(s.tables, s.plans[q], hash);
      if s.plans[q].request.id != Some(CampaignTarget(p.request, newId)) {
        SaveOfAnother(hash, s, p, newId, now, s.plans[q]);
      }
    }
  }

  lemma SaveKeeps(hash: Hash, s: State, plan: nat, newId: CampaignId, now: Campaigns.Time)
    requires CampaignInv(hash, s) && TimeAdvances(s, Save(plan, newId, now))
    ensures CampaignInv(hash, Step(hash, s, Save(plan, newId, now)))
  {
    hide WriteCampaign, HistoryOk, IndexAgrees, PlanFits;
    if plan in s.plans && s.plans[plan].stage.Embedded? && s.plans[plan].request.Upsert? {
      var p := s.plans[plan];
      assert PlanFormed(s.tables, p, hash) && Harmless(s.tables, p, hash);
      if Commits(s, p, newId, now) {
        SaveKeepsSound(hash, s, p, newId, now);
        SaveKeepsFormed(hash, s, p, newId, now);
        SaveKeepsHarmless(hash, s, p, newId, now);
      }
      SameVersions(hash, s, plan, newId, now);
    }
  }

  /** Which plans are left does not matter to the tables and their history. */
  lemma SameVersions(hash: Hash, s: State, plan: nat, newId: CampaignId, now: Campaigns.Time)
    requires plan in s.plans && s.plans[plan].stage.Embedded? && s.plans[plan].request.Upsert?
    ensures var a, b := SaveStep(s, s.plans[plan], newId, now), Step(hash, s, Save(plan, newId, now));
            a.tables == b.tables && b.plans == s.plans - {plan} && Sound(hash, a) == Sound(hash, b)
  {
    hide WriteCampaign, HistoryOk, IndexAgrees;
    var a, b := SaveStep(s, s.plans[plan], newId, now), Step(hash, s, Save(plan, newId, now));
    assert forall id :: Versions(a, id) == Versions(b, id);
  }

  lemma ReadAndEmbedKeep(hash: Hash, s: State, e: Event)
    requires CampaignInv(hash, s) && (e.Read? || e.Embed? || e.List?)
    ensures CampaignInv(hash, Step(hash, s, e))
  {
    hide HistoryOk;
    var t := Step(hash, s, e);
    assert forall id :: Versions(t, id) == Versions(s, id);
    forall p | p in t.plans ensures PlanFormed(t.tables, t.plans[p], hash) && Harmless(t.tables, t.plans[p], hash) {
      if p in s.plans { assert PlanFormed(s.tables, s.plans[p], hash) && Harmless(s.tables, s.plans[p], hash); }
    }
  }

  /** Where the index agrees, a backfill has nothing to write. */
  lemma BackfillIsIdle(hash: Hash, s: State, c: Candidate)
    requires IndexAgrees(s.tables, hash)
    ensures SaveIfCurrent(s.tables, c, hash) == s.tables
  {
  }

  lemma ArchiveKeeps(hash: Hash, s: State, campaign: CampaignId)
    requires CampaignInv(hash, s)
    ensures CampaignInv(hash, Step(hash, s, Archive(campaign)))
  {
    hide Chained;
    var t := Step(hash, s, Archive(campaign));
    forall id | id in t.tables.campaigns ensures Agrees(t.tables, id, hash) { assert Agrees(s.tables, id, hash); }
    forall p | p in t.plans ensures PlanFormed(t.tables, t.plans[p], hash) && Harmless(t.tables, t.plans[p], hash) {
      assert PlanFormed(s.tables, s.plans[p], hash) && Harmless(s.tables, s.plans[p], hash);
    }
    forall id ensures HistoryOk(t.tables, Versions(t, id), id) { assert HistoryOk(s.tables, Versions(s, id), id); }
  }

  lemma IndexOf(hash: Hash, s: State)
    requires Sound(hash, s)
    ensures IndexAgrees(s.tables, hash)
  {
  }

  lemma StepKeeps(hash: Hash, s: State, e: Event)
    requires CampaignInv(hash, s) && TimeAdvances(s, e)
    ensures CampaignInv(hash, Step(hash, s, e))
  {
    hide Sound, PlansFormed, PlansHarmless, TimeAdvances, SaveStep, ReadFor;
    match e
    case Save(plan, newId, now) => SaveKeeps(hash, s, plan, newId, now);
    case Backfill(candidate) =>
      IndexOf(hash, s);
      if candidate in s.candidates { BackfillIsIdle(hash, s, s.candidates[candidate]); }
      assert Step(hash, s, e) == s;
    case Archive(campaign) => ArchiveKeeps(hash, s, campaign);
    case _ => ReadAndEmbedKeep(hash, s, e);
  }

  lemma StepKeepsOrder(hash: Hash, s: State, e: Event)
    requires HistoriesOk(s) && HistoriesOrdered(s) && TimeAdvances(s, e)
    ensures HistoriesOrdered(Step(hash, s, e))
  {
    var t := Step(hash, s, e);
    forall id ensures Ordered(Versions(t, id)) {
      assert Ordered(Versions(s, id)) && HistoryOk(s.tables, Versions(s, id), id);
    }
  }

  lemma {:induction false} RunKeeps(hash: Hash, s: State, events: seq<Event>)
    requires CampaignInv(hash, s) && TimesAdvance(hash, s, events)
    ensures CampaignInv(hash, Run(hash, s, events))
    ensures HistoriesOrdered(s) ==> HistoriesOrdered(Run(hash, s, events))
    decreases |events|
  {
    hide Sound, PlansFormed, PlansHarmless, HistoriesOk, HistoriesOrdered, Step, TimeAdvances;
    if events != [] {
      StepKeeps(hash, s, events[0]);
      if HistoriesOrdered(s) {
        HistoriesOf(hash, s);
        StepKeepsOrder(hash, s, events[0]);
      }
      RunKeeps(hash, Step(hash, s, events[0]), events[1..]);
    }
  }

  lemma HistoriesOf(hash: Hash, s: State)
    requires Sound(hash, s)
    ensures HistoriesOk(s)
  {
  }

  lemma NoCampaignsInv(hash: Hash)
    ensures CampaignInv(hash, NO_CAMPAIGNS) && HistoriesOrdered(NO_CAMPAIGNS)
  {
  }

  /** Every campaign, in every committed state: its stored hash is the hash of its current content. */
  lemma IndexAlwaysAgrees(hash: Hash, events: seq<Event>, id: CampaignId)
    requires TimesAdvance(hash, NO_CAMPAIGNS, events) && id in Run(hash, NO_CAMPAIGNS, events).tables.campaigns
    ensures Agrees(Run(hash, NO_CAMPAIGNS, events).tables, id, hash)
  {
    hide PlansFormed, PlansHarmless, HistoriesOk;
    NoCampaignsInv(hash);
    RunKeeps(hash, NO_CAMPAIGNS, events);
  }

  /** No update is lost: every version was written, later, on top of the one its author had read. */
  lemma UpdatesFormAChain(hash: Hash, events: seq<Event>, id: CampaignId)
    requires TimesAdvance(hash, NO_CAMPAIGNS, events)
    ensures var s := Run(hash, NO_CAMPAIGNS, events);
            var vs := Versions(s, id);
            && Chained(vs) && Ordered(vs)
            && (id in s.tables.campaigns <==> vs != [])
            && (id in s.tables.campaigns ==> s.tables.campaigns[id].content == vs[|vs| - 1].content)
  {
    hide PlansFormed, PlansHarmless, IndexAgrees;
    NoCampaignsInv(hash);
    RunKeeps(hash, NO_CAMPAIGNS, events);
    var s := Run(hash, NO_CAMPAIGNS, events);
    assert HistoryOk(s.tables, Versions(s, id), id) && Ordered(Versions(s, id));
  }

  // ---------- Exactly which pending plans are a danger ----------

  /** Whatever happens from here on, if times advance: the index agrees and no update is lost. */
  ghost predicate SafeForever(hash: Hash, s: State) {
    forall later | TimesAdvance(hash, s, later) :: Sound(hash, Run(hash, s, later))
  }

  /** A sound state stays sound in every continuation iff each of its pending plans is harmless. */
  lemma SafeForeverIff(hash: Hash, s: State)
    requires Sound(hash, s) && PlansFormed(s.tables, s.plans, hash)
    ensures SafeForever(hash, s) <==> PlansHarmless(s.tables, s.plans, hash)
  {
    hide Sound, PlansFormed, Harmless, TimesAdvance;
    if PlansHarmless(s.tables, s.plans, hash) {
      forall later | TimesAdvance(hash, s, later) ensures Sound(hash, Run(hash, s, later)) { RunKeeps(hash, s, later); }
    } else {
      var n :| n in s.plans && !Harmless(s.tables, s.plans[n], hash);
      var later := HarmfulRun(hash, s, n);
    }
  }

  /** The run in which a harmful plan does harm. */
  lemma HarmfulRun(hash: Hash, s: State, n: nat) returns (later: seq<Event>)
    requires Sound(hash, s) && PlansFormed(s.tables, s.plans, hash)
    requires n in s.plans && !Harmless(s.tables, s.plans[n], hash)
    ensures TimesAdvance(hash, s, later) && !Sound(hash, Run(hash, s, later))
  {
    hide Sound, PlanFits, Step, TimeAdvances, TimesAdvance;
    var p := s.plans[n];
    assert PlanFormed(s.tables, p, hash);
    var row := s.tables.campaigns[p.request.id.value];
    if p.request.expected == row.updatedAt {
      later := UnfitRun(hash, s, n);
    } else {
      var m := Turns.Maximum(s.plans.Keys) + 1;
      later := OtherEdit(hash, s, n, m);
      var t := Run(hash, s, later);
      if Sound(hash, t) {
        var more := UnfitRun(hash, t, n);
        AdvanceConcat(hash, s, later, more);
        RunConcat(hash, s, later, more);
        later := later + more;
      }
    }
  }

  /** The plan is saved as it is, one moment after the version that it does not fit. */
  lemma UnfitRun(hash: Hash, s: State, n: nat) returns (later: seq<Event>)
    requires Sound(hash, s) && n in s.plans && Pending(s.tables, s.plans[n])
    requires s.plans[n].request.expected == s.tables.campaigns[s.plans[n].request.id.value].updatedAt
    requires !PlanFits(s.tables, s.plans[n], hash)
    ensures TimesAdvance(hash, s, later) && !Sound(hash, Run(hash, s, later))
  {
    hide Sound;
    var now := s.plans[n].request.expected + 1;
    var save := Save(n, 0, now);
    if s.plans[n].stage.Embedded? {
      UnfitSave(hash, s, n, now);
      later := [save];
      OneStep(hash, s, save);
    } else {
      var t := Step(hash, s, Embed(n));
      EmbedStays(hash, s, n);
      UnfitSave(hash, t, n, now);
      later := [Embed(n), save];
      assert later[1..] == [save];
      OneStep(hash, t, save);
    }
  }

  lemma OneStep(hash: Hash, s: State, e: Event)
    ensures Run(hash, s, [e]) == Step(hash, s, e)
    ensures TimeAdvances(s, e) ==> TimesAdvance(hash, s, [e])
  {
    hide Step, TimeAdvances;
    assert [e][1..] == [];
    assert Run(hash, Step(hash, s, e), []) == Step(hash, s, e);
    assert TimesAdvance(hash, Step(hash, s, e), []);
  }

  /** The campaign of the plan is there and can be updated. */
  predicate Pending(t: CampaignTables, p: Plan) {
    && p.request.Upsert? && p.request.id.Some? && Get(t, p.company, p.request.id.value).Some?
    && !t.campaigns[p.request.id.value].archived
  }

  lemma EmbedStays(hash: Hash, s: State, n: nat)
    requires Sound(hash, s) && n in s.plans && Pending(s.tables, s.plans[n]) && !s.plans[n].stage.Embedded?
    ensures var t := Step(hash, s, Embed(n));
            && t.tables == s.tables && Sound(hash, t) && n in t.plans && t.plans[n].stage.Embedded?
            && t.plans[n].request == s.plans[n].request && t.plans[n].seen == s.plans[n].seen
            && t.plans[n].company == s.plans[n].company
  {
    hide HistoryOk, IndexAgrees;
    var t := Step(hash, s, Embed(n));
    assert forall id :: Versions(t, id) == Versions(s, id);
  }

  lemma UnfitSave(hash: Hash, s: State, n: nat, now: Campaigns.Time)
    requires Sound(hash, s) && n in s.plans && Pending(s.tables, s.plans[n]) && s.plans[n].stage.Embedded?
    requires s.plans[n].request.expected == s.tables.campaigns[s.plans[n].request.id.value].updatedAt
    requires !PlanFits(s.tables, s.plans[n], hash)
    ensures !Sound(hash, Step(hash, s, Save(n, 0, now)))
  {
    var p := s.plans[n];
    var id := p.request.id.value;
    var t := Step(hash, s, Save(n, 0, now));
    var vs, v := Versions(s, id), Version(p.request.content, now, p.request.expected, p.seen);
    SavedTables(s, p, 0, now);
    assert HistoryOk(s.tables, vs, id);
    assert Versions(t, id) == vs + [v];
    if p.seen != s.tables.campaigns[id].content {
      Unchained(vs, v);
      assert !HistoryOk(t.tables, vs + [v], id);
    } else {
      SaveAgreesNot(hash, s, p, now);
      assert id in t.tables.campaigns && !Agrees(t.tables, id, hash);
    }
  }

  lemma SaveAgreesNot(hash: Hash, s: State, p: Plan, now: Campaigns.Time)
    requires p.request.Upsert? && p.request.id.Some? && p.stage.Embedded? && p.stage.generated.None?
    requires WriteCampaign(s.tables, p.company, 0, p.request, p.stage.generated, now).Some?
    requires EmbeddingHash(s.tables, p.request.id.value) != Some(hash(p.request.content))
    ensures var t := WriteCampaign(s.tables, p.company, 0, p.request, p.stage.generated, now).value;
            p.request.id.value in t.campaigns && !Agrees(t, p.request.id.value, hash)
  {
  }

  lemma Unchained(vs: seq<Version>, v: Version)
    requires vs != [] && v.seen != vs[|vs| - 1].content
    ensures !Chained(vs + [v])
  {
    var more := vs + [v];
    assert more[|vs|] == v && more[|vs| - 1] == vs[|vs| - 1];
  }

  /** Somebody writes another content at exactly the time that plan `n` expects. */
  lemma OtherEdit(hash: Hash, s: State, n: nat, m: nat) returns (later: seq<Event>)
    requires n in s.plans && m !in s.plans && Pending(s.tables, s.plans[n])
    requires s.plans[n].request.expected > s.tables.campaigns[s.plans[n].request.id.value].updatedAt
    ensures TimesAdvance(hash, s, later)
    ensures var t := Run(hash, s, later);
            && n in t.plans && t.plans[n] == s.plans[n] && Pending(t.tables, s.plans[n])
            && s.plans[n].request.expected == t.tables.campaigns[s.plans[n].request.id.value].updatedAt
            && !PlanFits(t.tables, s.plans[n], hash)
  {
    var p := s.plans[n];
    var id := p.request.id.value;
    var content := p.seen + "x";
    var read := Read(m, p.company, Upsert(Some(id), s.tables.campaigns[id].updatedAt, content));
    var save := Save(m, 0, p.request.expected);
    later := [read, Embed(m), save];
    var s1 := Step(hash, s, read);
    var s2 := Step(hash, s1, Embed(m));
    assert s2.tables == s.tables && s2.plans[m].stage.Embedded? && s2.plans[m].request == read.request;
    assert s2.plans[n] == p && s2.plans[m].company == p.company;
    var s3 := Step(hash, s2, save);
    SavedTables(s2, s2.plans[m], 0, p.request.expected);
    EditAdvances(hash, s, later, s1, s2, s3);
    ThreeSteps(hash, s, later, s1, s2, s3);
  }

  lemma EditAdvances(hash: Hash, s: State, e: seq<Event>, s1: State, s2: State, s3: State)
    requires |e| == 3 && s1 == Step(hash, s, e[0]) && s2 == Step(hash, s1, e[1]) && s3 == Step(hash, s2, e[2])
    requires TimeAdvances(s, e[0]) && TimeAdvances(s1, e[1]) && TimeAdvances(s2, e[2])
    ensures TimesAdvance(hash, s, e)
  {
    hide Step, TimeAdvances;
    var e1 := e[1..];
    var e2 := e1[1..];
    assert TimesAdvance(hash, s3, e2[1..]);
    assert TimesAdvance(hash, s2, e2);
    assert TimesAdvance(hash, s1, e1);
  }

  lemma {:induction false} AdvanceConcat(hash: Hash, s: State, a: seq<Event>, b: seq<Event>)
    requires TimesAdvance(hash, s, a) && TimesAdvance(hash, Run(hash, s, a), b)
    ensures TimesAdvance(hash, s, a + b)
    decreases |a|
  {
    hide Step, TimeAdvances;
    if a == [] {
      assert a + b == b;
    } else {
      assert (a + b)[0] == a[0] && (a + b)[1..] == a[1..] + b;
      AdvanceConcat(hash, Step(hash, s, a[0]), a[1..], b);
    }
  }

  /** The update that a save event commits, if it commits one. */
  predicate CommitsUpdate(s: State, e: Event) {
    e.Save? && e.plan in s.plans && Commits(s, s.plans[e.plan], e.newId, e.now) && s.plans[e.plan].request.id.Some?
  }

  /**
   Plan `q` of the same campaign is endangered by update `p` at time `now`: it expects a later version,
   or it expects just this time and has read another content or relies on another stored hash.
   */
  predicate Endangered(q: Plan, p: Plan, now: Campaigns.Time, hash: Hash)
    requires p.request.Upsert?
  {
    && q.request.Upsert? && q.request.id == p.request.id
    && (q.request.expected > now
        || (q.request.expected == now
            && (q.seen != p.request.content
                || (q.stage.Embedded? && q.stage.generated.None?
                    && hash(q.request.content) != hash(p.request.content)))))
  }

  /**
   A committed update leaves a sound state, whatever its time; and that state stays sound in every
   continuation iff the update endangers no other pending plan.
   */
  lemma UpdateIsSafeIff(hash: Hash, s: State, e: Event)
    requires CampaignInv(hash, s) && CommitsUpdate(s, e)
    ensures Sound(hash, Step(hash, s, e))
    ensures SafeForever(hash, Step(hash, s, e))
       <==> forall q | q in s.plans && q != e.plan :: !Endangered(s.plans[q], s.plans[e.plan], e.now, hash)
  {
    hide Sound, PlansFormed, PlansHarmless, SaveStep, WriteCampaign, SafeForever, Endangered, Harmless;
    var p := s.plans[e.plan];
    var t := Step(hash, s, e);
    PlanOf(hash, s, e.plan);
    SaveKeepsSound(hash, s, p, e.newId, e.now);
    SaveKeepsFormed(hash, s, p, e.newId, e.now);
    SameVersions(hash, s, e.plan, e.newId, e.now);
    FewerFormed(t.tables, s.plans, e.plan, hash);
    SafeForeverIff(hash, t);
    forall q | q in s.plans && q != e.plan
      ensures Harmless(t.tables, s.plans[q], hash) <==> !Endangered(s.plans[q], p, e.now, hash)
    {
      PlanOf(hash, s, q);
      HarmlessAfter(hash, s, p, e.newId, e.now, s.plans[q]);
    }
    HarmlessPlans(t.tables, s.plans, e.plan, hash);
  }

  lemma PlanOf(hash: Hash, s: State, n: nat)
    requires CampaignInv(hash, s) && n in s.plans
    ensures PlanFormed(s.tables, s.plans[n], hash) && Harmless(s.tables, s.plans[n], hash)
  {
  }

  lemma FewerFormed(t: CampaignTables, plans: map<nat, Plan>, n: nat, hash: Hash)
    requires PlansFormed(t, plans, hash)
    ensures PlansFormed(t, plans - {n}, hash)
  {
  }

  lemma HarmlessPlans(t: CampaignTables, plans: map<nat, Plan>, n: nat, hash: Hash)
    ensures PlansHarmless(t, plans - {n}, hash) <==> forall q | q in plans && q != n :: Harmless(t, plans[q], hash)
  {
    hide Harmless;
    if PlansHarmless(t, plans - {n}, hash) {
      forall q | q in plans && q != n ensures Harmless(t, plans[q], hash) { assert q in plans - {n}; }
    }
  }

  lemma HarmlessAfter(hash: Hash, s: State, p: Plan, newId: CampaignId, now: Campaigns.Time, q: Plan)
    requires Commits(s, p, newId, now) && Sound(hash, SaveStep(s, p, newId, now)) && p.request.id.Some?
    requires PlanFormed(s.tables, q, hash) && Harmless(s.tables, q, hash)
    ensures Harmless(SaveStep(s, p, newId, now).tables, q, hash) <==> !Endangered(q, p, now, hash)
  {
    hide WriteCampaign, HistoriesOk;
    SavedTables(s, p, newId, now);
    NotArchived(s, p, newId, now);
    var t := SaveStep(s, p, newId, now).tables;
    if q.request.id == p.request.id {
      StillOpen(s, p, newId, now);
      assert Agrees(t, p.request.id.value, hash);
    } else {
      SaveOfAnother(hash, s, p, newId, now, q);
    }
  }

  lemma StillOpen(s: State, p: Plan, newId: CampaignId, now: Campaigns.Time)
    requires Commits(s, p, newId, now) && p.request.id.Some?
    ensures var t := SaveStep(s, p, newId, now).tables;
            p.request.id.value in t.campaigns && !t.campaigns[p.request.id.value].archived
  {
  }

  // ---------- Why both assumptions are needed ----------

  /**
   Two updates at the same instant: the second passes the compare-and-set although it read the version
   before the first. The first update is lost, and the index keeps its hash.
   */
  lemma SameInstantLosesAnUpdate(hash: Hash, s: State, first: nat, second: nat, id: CampaignId)
    requires first in s.plans && second in s.plans && id in s.tables.campaigns && !s.tables.campaigns[id].archived
    requires forall p | p == first || p == second ::
               s.plans[p].request.Upsert? && s.plans[p].request.id == Some(id) && s.plans[p].stage.Embedded?
               && s.plans[p].company == s.tables.campaigns[id].company
               && s.plans[p].request.expected == s.tables.campaigns[id].updatedAt
    requires s.plans[first].stage.generated == Some(hash(s.plans[first].request.content))
             && s.plans[second].stage.generated.None?
    requires hash(s.plans[first].request.content) != hash(s.plans[second].request.content)
    ensures var now := s.tables.campaigns[id].updatedAt;
            var t := Run(hash, s, [Save(first, 0, now), Save(second, 0, now)]);
            && id in t.tables.campaigns && !Agrees(t.tables, id, hash)
            && Versions(t, id) == Versions(s, id) +
                 [Version(s.plans[first].request.content, now, now, s.plans[first].seen),
                  Version(s.plans[second].request.content, now, now, s.plans[second].seen)]
  {
    var now := s.tables.campaigns[id].updatedAt;
    var s1 := Step(hash, s, Save(first, 0, now));
    var t := Step(hash, s1, Save(second, 0, now));
    assert [Save(first, 0, now), Save(second, 0, now)][1..] == [Save(second, 0, now)];
    assert Run(hash, s1, [Save(second, 0, now)]) == Run(hash, t, []);
    assert Versions(t, id) == Versions(s, id)
        + [Version(s.plans[first].request.content, now, now, s.plans[first].seen),
           Version(s.plans[second].request.content, now, now, s.plans[second].seen)];
  }

  /**
   A stale stored hash that happens to be the one of the new content: the plan generates nothing, a
   backfill repairs the row without touching `updated_at`, and the save then stores content whose hash
   is gone. Increasing times do not help; the index has to agree to begin with.
   */
  lemma BackfillBetweenPlanAndSave(hash: Hash, s: State, plan: nat, candidate: nat, request: Request,
                                   now: Campaigns.Time)
    requires plan !in s.plans && request.Upsert? && request.id.Some? && request.id.value in s.tables.campaigns
    requires var row := s.tables.campaigns[request.id.value];
             !row.archived && row.updatedAt == request.expected && row.updatedAt < now
             && EmbeddingHash(s.tables, request.id.value) == Some(hash(request.content))
             && hash(row.content) != hash(request.content)
    ensures var id := request.id.value;
            var company := s.tables.campaigns[id].company;
            var t := Run(hash, s,
                         [Read(plan, company, request), Embed(plan), List(candidate, company, id), Backfill(candidate),
                          Save(plan, 0, now)]);
            id in t.tables.campaigns && !Agrees(t.tables, id, hash)
  {
    var id := request.id.value;
    var company := s.tables.campaigns[id].company;
    var events := [Read(plan, company, request), Embed(plan), List(candidate, company, id), Backfill(candidate),
                   Save(plan, 0, now)];
    var s1 := Step(hash, s, events[0]);
    var s2 := Step(hash, s1, events[1]);
    assert s2.tables == s.tables && s2.plans[plan].stage == Embedded(None);
    var s3 := Step(hash, s2, events[2]);
    var s4 := Step(hash, s3, events[3]);
    assert s4.tables == UpsertEmbedding(s.tables, id, hash(s.tables.campaigns[id].content));
    var s5 := Step(hash, s4, events[4]);
    assert !Agrees(s5.tables, id, hash);
    FiveSteps(hash, s, events, s1, s2, s3, s4, s5);
  }

  lemma FiveSteps(hash: Hash, s: State, e: seq<Event>, s1: State, s2: State, s3: State, s4: State, s5: State)
    requires |e| == 5 && s1 == Step(hash, s, e[0]) && s2 == Step(hash, s1, e[1]) && s3 == Step(hash, s2, e[2])
    requires s4 == Step(hash, s3, e[3]) && s5 == Step(hash, s4, e[4])
    ensures Run(hash, s, e) == s5
  {
    hide Step;
    var e1 := e[1..];
    var e2 := e1[1..];
    var e3 := e2[1..];
    var e4 := e3[1..];
    assert Run(hash, s5, e4[1..]) == s5;
    assert Run(hash, s4, e4) == s5;
    assert Run(hash, s3, e3) == s5;
    assert Run(hash, s2, e2) == s5;
    assert Run(hash, s1, e1) == s5;
  }

  // ---------- Runs in which it happens ----------

  lemma {:induction false} RunConcat(hash: Hash, s: State, a: seq<Event>, b: seq<Event>)
    ensures Run(hash, s, a + b) == Run(hash, Run(hash, s, a), b)
    decreases |a|
  {
    hide Step;
    if a == [] {
      assert a + b == b;
    } else {
      assert (a + b)[0] == a[0] && (a + b)[1..] == a[1..] + b;
      RunConcat(hash, Step(hash, s, a[0]), a[1..], b);
    }
  }

  const COMPANY: CompanyId := 7
  const CAMPAIGN: CampaignId := 5
  const NOON: Campaigns.Time := 12

  function First(a: string): Request { Upsert(None, 0, a) }

  function Change(content: string): Request { Upsert(Some(CAMPAIGN), NOON, content) }

  /** A campaign is inserted; one user plans a change, another plans to leave it as it is. */
  function TwoPlans(a: string, b: string): seq<Event> {
    [Read(0, COMPANY, First(a)), Embed(0), Save(0, CAMPAIGN, NOON),
     Read(1, COMPANY, Change(b)), Embed(1), Read(2, COMPANY, Change(a)), Embed(2)]
  }

  lemma Inserted(hash: Hash, a: string)
    ensures var s := Run(hash, NO_CAMPAIGNS, [Read(0, COMPANY, First(a)), Embed(0), Save(0, CAMPAIGN, NOON)]);
            && s.tables == CampaignTables(map[CAMPAIGN := Campaign(COMPANY, a, NOON, false)], map[CAMPAIGN := hash(a)])
            && s.plans == map[] && s.candidates == map[]
            && Versions(s, CAMPAIGN) == [Version(a, NOON, 0, "")]
  {
    var events := [Read(0, COMPANY, First(a)), Embed(0), Save(0, CAMPAIGN, NOON)];
    var s1 := Step(hash, NO_CAMPAIGNS, events[0]);
    var s2 := Step(hash, s1, events[1]);
    assert s2.plans[0].stage == Embedded(Some(hash(a))) && s2.tables == NO_CAMPAIGNS.tables;
    var s3 := Step(hash, s2, events[2]);
    assert s3.tables.campaigns == map[CAMPAIGN := Campaign(COMPANY, a, NOON, false)];
    assert s3.tables.embeddings == map[CAMPAIGN := hash(a)];
    ThreeSteps(hash, NO_CAMPAIGNS, events, s1, s2, s3);
  }

  lemma ThreeSteps(hash: Hash, s: State, e: seq<Event>, s1: State, s2: State, s3: State)
    requires |e| == 3 && s1 == Step(hash, s, e[0]) && s2 == Step(hash, s1, e[1]) && s3 == Step(hash, s2, e[2])
    ensures Run(hash, s, e) == s3
  {
    hide Step;
    var e1 := e[1..];
    var e2 := e1[1..];
    assert Run(hash, s3, e2[1..]) == s3;
    assert Run(hash, s2, e2) == s3;
    assert Run(hash, s1, e1) == s3;
  }

  /** Planning a change of an existing campaign: read, then embed unless the stored hash fits. */
  lemma Planned(hash: Hash, s: State, plan: nat, content: string)
    requires plan !in s.plans && CAMPAIGN in s.tables.campaigns
    requires s.tables.campaigns[CAMPAIGN].company == COMPANY && s.tables.campaigns[CAMPAIGN].updatedAt == NOON
    requires !s.tables.campaigns[CAMPAIGN].archived
    ensures var t := Run(hash, s, [Read(plan, COMPANY, Change(content)), Embed(plan)]);
            var seen := s.tables.campaigns[CAMPAIGN].content;
            var generated := GenerateFor(s.tables, Change(content), hash);
            t == s.(plans := s.plans[plan := Plan(COMPANY, Change(content), seen, Embedded(generated))])
  {
    var read, embed := Read(plan, COMPANY, Change(content)), Embed(plan);
    var s1 := Step(hash, s, read);
    assert [read, embed][1..] == [embed] && [embed][1..] == [];
    assert Run(hash, s1, [embed]) == Run(hash, Step(hash, s1, embed), []);
  }

  lemma TwoPlansMade(hash: Hash, a: string, b: string)
    requires hash(a) != hash(b)
    ensures var s := Run(hash, NO_CAMPAIGNS, TwoPlans(a, b));
            && s.tables == CampaignTables(map[CAMPAIGN := Campaign(COMPANY, a, NOON, false)], map[CAMPAIGN := hash(a)])
            && s.plans.Keys == {1, 2} && s.candidates == map[]
            && s.plans[1] == Plan(COMPANY, Change(b), a, Embedded(Some(hash(b))))
            && s.plans[2] == Plan(COMPANY, Change(a), a, Embedded(None))
            && Versions(s, CAMPAIGN) == [Version(a, NOON, 0, "")]
  {
    hide Step;
    var insert := [Read(0, COMPANY, First(a)), Embed(0), Save(0, CAMPAIGN, NOON)];
    var one, two := [Read(1, COMPANY, Change(b)), Embed(1)], [Read(2, COMPANY, Change(a)), Embed(2)];
    assert TwoPlans(a, b) == insert + (one + two);
    RunConcat(hash, NO_CAMPAIGNS, insert, one + two);
    Inserted(hash, a);
    var s := Run(hash, NO_CAMPAIGNS, insert);
    RunConcat(hash, s, one, two);
    Planned(hash, s, 1, b);
    Planned(hash, Run(hash, s, one), 2, a);
  }

  /** Both plans are saved at the same instant: the change is lost, and the index is left with its hash. */
  function LostUpdateRun(a: string, b: string): seq<Event> {
    TwoPlans(a, b) + [Save(1, 0, NOON), Save(2, 0, NOON)]
  }

  lemma UpdateLostInSomeRun(hash: Hash, a: string, b: string)
    requires hash(a) != hash(b)
    ensures var s := Run(hash, NO_CAMPAIGNS, LostUpdateRun(a, b));
            && CAMPAIGN in s.tables.campaigns && !Agrees(s.tables, CAMPAIGN, hash)
            && Versions(s, CAMPAIGN) == [Version(a, NOON, 0, ""), Version(b, NOON, NOON, a), Version(a, NOON, NOON, a)]
  {
    hide Step;
    TwoPlansMade(hash, a, b);
    var s := Run(hash, NO_CAMPAIGNS, TwoPlans(a, b));
    RunConcat(hash, NO_CAMPAIGNS, TwoPlans(a, b), [Save(1, 0, NOON), Save(2, 0, NOON)]);
    SameInstantLosesAnUpdate(hash, s, 1, 2, CAMPAIGN);
  }

  lemma LostUpdateState(hash: Hash, a: string, b: string)
    requires hash(a) != hash(b)
    ensures var s := Run(hash, NO_CAMPAIGNS, LostUpdateRun(a, b));
            && s.tables == CampaignTables(map[CAMPAIGN := Campaign(COMPANY, a, NOON, false)], map[CAMPAIGN := hash(b)])
            && 3 !in s.plans
  {
    TwoPlansMade(hash, a, b);
    var s := Run(hash, NO_CAMPAIGNS, TwoPlans(a, b));
    var saves := [Save(1, 0, NOON), Save(2, 0, NOON)];
    RunConcat(hash, NO_CAMPAIGNS, TwoPlans(a, b), saves);
    assert saves[1..] == [Save(2, 0, NOON)] && saves[1..][1..] == [];
    var s1 := Step(hash, s, saves[0]);
    var s2 := Step(hash, s1, saves[1]);
    assert Run(hash, s1, saves[1..]) == Run(hash, s2, []);
    assert s2.tables.campaigns == map[CAMPAIGN := Campaign(COMPANY, a, NOON, false)];
    assert s2.tables.embeddings == map[CAMPAIGN := hash(b)];
  }

  /** From that stale hash, with times that advance: plan the change again, backfill in between, save. */
  lemma BackfillInSomeRun(hash: Hash, a: string, b: string)
    requires hash(a) != hash(b)
    ensures var later :=
      [Read(3, COMPANY, Change(b)), Embed(3), List(0, COMPANY, CAMPAIGN), Backfill(0), Save(3, 0, NOON + 1)];
            var s := Run(hash, NO_CAMPAIGNS, LostUpdateRun(a, b) + later);
            CAMPAIGN in s.tables.campaigns && !Agrees(s.tables, CAMPAIGN, hash)
  {
    hide Step;
    var later := [Read(3, COMPANY, Change(b)), Embed(3), List(0, COMPANY, CAMPAIGN), Backfill(0), Save(3, 0, NOON + 1)];
    LostUpdateState(hash, a, b);
    RunConcat(hash, NO_CAMPAIGNS, LostUpdateRun(a, b), later);
    BackfillBetweenPlanAndSave(hash, Run(hash, NO_CAMPAIGNS, LostUpdateRun(a, b)), 3, 0, Change(b), NOON + 1);
  }
}
