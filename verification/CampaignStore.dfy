/** The campaign repository, the edit of a campaign and the embedding backfill, in place. */
module CampaignStore {
  import opened Options
  import opened Campaigns

  type Hash = string -> Digest

  /** A listed campaign with the hash stored for it at that time. */
  datatype Candidate = Candidate(id: CampaignId, company: CompanyId, content: string, stored: Option<Digest>)

  predicate Matching(t: CampaignTables, id: CampaignId, after: CampaignId, company: Option<CompanyId>) {
    id in t.campaigns && id > after && (company.Some? ==> t.campaigns[id].company == company.value)
  }

  predicate Agrees(t: CampaignTables, id: CampaignId, hash: Hash) {
    id in t.campaigns && EmbeddingHash(t, id) == Some(hash(t.campaigns[id].content))
  }

  function CandidateOf(t: CampaignTables, id: CampaignId): Candidate
    requires id in t.campaigns
  {
    Candidate(id, t.campaigns[id].company, t.campaigns[id].content, EmbeddingHash(t, id))
  }

  predicate IdsIncrease(candidates: seq<Candidate>) {
    forall j, k | 0 <= j < k < |candidates| :: candidates[j].id < candidates[k].id
  }

  ghost predicate NoneMissed(t: CampaignTables, from: CampaignId, company: Option<CompanyId>,
                             candidates: seq<Candidate>) {
    forall id: CampaignId, k | Matching(t, id, from, company) && 0 <= k < |candidates| && id <= candidates[k].id ::
      exists j :: 0 <= j <= k && candidates[j].id == id
  }

  /** The candidates are all matching campaigns after `from` up to the last of them, in order. */
  ghost predicate Listed(t: CampaignTables, from: CampaignId, company: Option<CompanyId>, candidates: seq<Candidate>) {
    && IdsIncrease(candidates)
    && (forall k | 0 <= k < |candidates| ::
        Matching(t, candidates[k].id, from, company) && candidates[k].company == t.campaigns[candidates[k].id].company)
    && NoneMissed(t, from, company, candidates)
  }

  /** Every matching campaign after `after`, up to `upTo`, has the hash of its current content. */
  ghost predicate BackfilledTo(t: CampaignTables, after: CampaignId, upTo: CampaignId, company: Option<CompanyId>,
                               hash: Hash) {
    forall id: CampaignId | Matching(t, id, after, company) && id <= upTo :: Agrees(t, id, hash)
  }

  /** Candidates that agreed when they were listed still do. */
  ghost predicate ListedStillAgree(t: CampaignTables, candidates: seq<Candidate>, hash: Hash) {
    forall c | c in candidates && c.stored == Some(hash(c.content)) :: Agrees(t, c.id, hash)
  }

  /** No campaign vanished or changed hands, and one that appeared agrees with its embedding. */
  predicate Grown(t: CampaignTables, t': CampaignTables, hash: Hash) {
    && (forall id | id in t.campaigns :: id in t'.campaigns && t'.campaigns[id].company == t.campaigns[id].company)
    && (forall id | id in t'.campaigns && id !in t.campaigns :: Agrees(t', id, hash))
  }

  lemma GrownOn(a: CampaignTables, b: CampaignTables, c: CampaignTables, hash: Hash)
    requires Grown(a, b, hash) && Grown(b, c, hash) && StillAgree(b, c, hash)
    ensures Grown(a, c, hash)
  {
    hide Agrees;
  }

  /** A campaign whose time did not move did not change at all; otherwise its time moved forward. */
  predicate OnlyForward(t: CampaignTables, t': CampaignTables, id: CampaignId) {
    id in t.campaigns && id in t'.campaigns && t.campaigns[id].updatedAt <= t'.campaigns[id].updatedAt
    && (t'.campaigns[id].updatedAt == t.campaigns[id].updatedAt ==>
          t'.campaigns[id] == t.campaigns[id] && EmbeddingHash(t', id) == EmbeddingHash(t, id))
  }

  ghost predicate StillAgree(t: CampaignTables, t': CampaignTables, hash: Hash) {
    forall id: CampaignId | Agrees(t, id, hash) :: Agrees(t', id, hash)
  }

  lemma GrownKeepsBackfilled(t: CampaignTables, t': CampaignTables, after: CampaignId, upTo: CampaignId,
                             company: Option<CompanyId>, hash: Hash)
    requires Grown(t, t', hash) && StillAgree(t, t', hash) && BackfilledTo(t, after, upTo, company, hash)
    ensures BackfilledTo(t', after, upTo, company, hash)
  {
    hide Agrees;
    forall id: CampaignId | Matching(t', id, after, company) && id <= upTo ensures Agrees(t', id, hash) {
      if id in t.campaigns { assert Matching(t, id, after, company); }
    }
  }

  lemma MatchingBeyond(t: CampaignTables, id: CampaignId, after: CampaignId, further: CampaignId,
                       company: Option<CompanyId>)
    requires Matching(t, id, after, company)
    ensures id > further ==> Matching(t, id, further, company)
  {
  }

  /** A matching campaign no later than candidate `n` is one of the candidates up to `n`. */
  lemma InList(t: CampaignTables, from: CampaignId, company: Option<CompanyId>, candidates: seq<Candidate>, n: nat,
               id: CampaignId)
    requires Listed(t, from, company, candidates) && n < |candidates| && Matching(t, id, from, company)
             && id <= candidates[n].id
    ensures id == candidates[n].id || (n > 0 && id <= candidates[n - 1].id)
  {
    hide Matching, IdsIncrease, NoneMissed;
    var j := Found(t, from, company, candidates, n, id);
    if j < n - 1 { Increasing(candidates, j, n - 1); }
  }

  lemma Found(t: CampaignTables, from: CampaignId, company: Option<CompanyId>, candidates: seq<Candidate>, n: nat,
              id: CampaignId) returns (j: nat)
    requires NoneMissed(t, from, company, candidates) && n < |candidates| && Matching(t, id, from, company)
             && id <= candidates[n].id
    ensures j <= n && candidates[j].id == id
  {
    hide Matching;
    j :| 0 <= j <= n && candidates[j].id == id;
  }

  lemma Increasing(candidates: seq<Candidate>, j: nat, k: nat)
    requires IdsIncrease(candidates) && j < k < |candidates|
    ensures candidates[j].id < candidates[k].id
  {
  }

  lemma GrownMatching(t: CampaignTables, t': CampaignTables, id: CampaignId, from: CampaignId,
                      company: Option<CompanyId>, hash: Hash)
    requires Grown(t, t', hash) && Matching(t', id, from, company)
    ensures Matching(t, id, from, company) || Agrees(t', id, hash)
  {
  }

  /** One more candidate up to date; what appeared since the listing `t` agrees anyway. */
  lemma OneFurther(t: CampaignTables, t': CampaignTables, after: CampaignId, company: Option<CompanyId>,
                   candidates: seq<Candidate>, from: CampaignId, lastId: CampaignId, n: nat, hash: Hash)
    requires n < |candidates| && Listed(t, from, company, candidates) && Grown(t, t', hash)
    requires BackfilledTo(t', after, lastId, company, hash)
    requires after <= from <= lastId && lastId == if n == 0 then from else candidates[n - 1].id
    requires Agrees(t', candidates[n].id, hash)
    ensures BackfilledTo(t', after, candidates[n].id, company, hash)
  {
    hide Agrees, Listed, Matching, Grown;
    forall id: CampaignId | Matching(t', id, after, company) && id <= candidates[n].id ensures Agrees(t', id, hash) {
      if id > lastId {
        MatchingBeyond(t', id, after, from, company);
        GrownMatching(t, t', id, from, company, hash);
        if Matching(t, id, from, company) { InList(t, from, company, candidates, n, id); }
      }
    }
  }

  /** The state of the listing loop: `left` are the matching campaigns after all that were found. */
  ghost predicate Partly(t: CampaignTables, after: CampaignId, company: Option<CompanyId>, found: seq<Candidate>,
                         left: set<CampaignId>) {
    && (forall id | id in left :: Matching(t, id, after, company))
    && (forall k | 0 <= k < |found| ::
        Matching(t, found[k].id, after, company) && found[k] == CandidateOf(t, found[k].id))
    && (forall j, k | 0 <= j < k < |found| :: found[j].id < found[k].id)
    && (forall id, k | id in left && 0 <= k < |found| :: found[k].id < id)
    && (forall id: CampaignId | Matching(t, id, after, company) ::
        id in left || exists k :: 0 <= k < |found| && found[k].id == id)
  }

  lemma OneMoreListed(t: CampaignTables, after: CampaignId, company: Option<CompanyId>, found: seq<Candidate>,
                      left: set<CampaignId>, least: CampaignId)
    requires Partly(t, after, company, found, left) && least in left && forall id | id in left :: least <= id
    ensures least in t.campaigns && Partly(t, after, company, found + [CandidateOf(t, least)], left - {least})
  {
    hide Matching;
    assert Matching(t, least, after, company);
    MatchingExists(t, least, after, company);
    var more := found + [CandidateOf(t, least)];
    forall id: CampaignId | Matching(t, id, after, company)
      ensures id in left - {least} || exists k :: 0 <= k < |more| && more[k].id == id
    {
      if id == least {
        assert more[|found|].id == id;
      } else if id !in left {
        var k :| 0 <= k < |found| && found[k].id == id;
        assert more[k].id == id;
      }
    }
  }

  lemma MatchingExists(t: CampaignTables, id: CampaignId, after: CampaignId, company: Option<CompanyId>)
    requires Matching(t, id, after, company)
    ensures id in t.campaigns
  {
  }

  lemma PartlyIsListed(t: CampaignTables, after: CampaignId, company: Option<CompanyId>, found: seq<Candidate>,
                       left: set<CampaignId>)
    requires Partly(t, after, company, found, left)
    ensures Listed(t, after, company, found)
    ensures forall k | 0 <= k < |found| :: found[k].id in t.campaigns && found[k] == CandidateOf(t, found[k].id)
    ensures left == {} ==>
              forall id: CampaignId | Matching(t, id, after, company) ::
                exists k :: 0 <= k < |found| && found[k].id == id
  {
    forall id: CampaignId, k | Matching(t, id, after, company) && 0 <= k < |found| && id <= found[k].id
      ensures exists j :: 0 <= j <= k && found[j].id == id
    {
      assert id !in left;
      var j :| 0 <= j < |found| && found[j].id == id;
      assert j <= k;
    }
  }

  class CampaignRepository {
    var campaigns: map<CampaignId, Campaign>
    var embeddings: map<CampaignId, Digest>

    constructor ()
      ensures Contents() == CampaignTables(map[], map[])
    {
      campaigns, embeddings := map[], map[];
    }

    function Contents(): CampaignTables
      reads this
    {
      CampaignTables(campaigns, embeddings)
    }

    method Insert(id: CampaignId, company: CompanyId, content: string, now: Time)
      modifies this`campaigns
      ensures Contents() == Campaigns.Insert(old(Contents()), id, company, content, now)
    {
      campaigns := campaigns[id := Campaign(company, content, now, false)];
    }

    method UpdateIfUnchanged(company: CompanyId, id: CampaignId, expected: Time, content: string, now: Time)
      returns (ok: bool)
      modifies this`campaigns
      ensures var spec := Campaigns.UpdateIfUnchanged(old(Contents()), company, id, expected, content, now);
              ok == spec.Some? && Contents() == if ok then spec.value else old(Contents())
    {
      if id !in campaigns || campaigns[id].company != company { return false; }
      if campaigns[id].updatedAt != expected || campaigns[id].archived { return false; }
      campaigns := campaigns[id := campaigns[id].(content := content, updatedAt := now)];
      return true;
    }

    method UpsertEmbedding(id: CampaignId, digest: Digest)
      modifies this`embeddings
      ensures Contents() == Campaigns.UpsertEmbedding(old(Contents()), id, digest)
    {
      embeddings := embeddings[id := digest];
    }

    /** `list_embedding_candidates`: the first `limit` matching campaigns in the order of their ids. */
    method ListCandidates(after: CampaignId, limit: nat, company: Option<CompanyId>) returns (found: seq<Candidate>)
      ensures |found| <= limit && Listed(Contents(), after, company, found)
      ensures forall k | 0 <= k < |found| ::
                found[k].id in campaigns && found[k] == CandidateOf(Contents(), found[k].id)
      ensures |found| < limit ==>
                forall id: CampaignId | Matching(Contents(), id, after, company) ::
                  exists k :: 0 <= k < |found| && found[k].id == id
    {
      found := [];
      ghost var t := Contents();
      var left := set id: CampaignId | id in campaigns && id > after
          && (company.Some? ==> campaigns[id].company == company.value);
      while |found| < limit && left != {}
        invariant |found| <= limit && t == Contents()
        invariant Partly(t, after, company, found, left)
        decreases |left|
      {
        var least := Smallest(left);
        OneMoreListed(t, after, company, found, left, least);
        found := found + [CandidateOf(Contents(), least)];
        left := left - {least};
      }
      PartlyIsListed(t, after, company, found, left);
    }

    static method Smallest(ids: set<CampaignId>) returns (least: CampaignId)
      requires ids != {}
      ensures least in ids && forall id | id in ids :: least <= id
    {
      least :| least in ids;
      var left := ids - {least};
      while left != {}
        invariant left <= ids && least in ids
        invariant forall id | id in ids && id !in left :: least <= id
        decreases |left|
      {
        var id :| id in left;
        if id < least { least := id; }
        left := left - {id};
      }
    }
  }

  // ---------- Editing ----------

  datatype Edited = Saved(at: Time) | NotFound | Archived | Invalid | Conflict | EmbeddingFailed | UpdateFailed

  class CampaignService {
    const repository: CampaignRepository
    const hash: Hash
    var arrivals: nat              // new campaigns that others will still insert

    constructor (repository: CampaignRepository, hash: Hash, arrivals: nat)
      ensures this.repository == repository && this.hash == hash && this.arrivals == arrivals
    {
      this.repository, this.hash, this.arrivals := repository, hash, arrivals;
    }

    /** Others save contents of their own, at later times or as new campaigns, each with the hash that belongs to it. */
    method Others()
      modifies repository, this`arrivals
      ensures Grown(old(repository.Contents()), repository.Contents(), hash)
      ensures StillAgree(old(repository.Contents()), repository.Contents(), hash)
      ensures |repository.campaigns| + arrivals == old(|repository.campaigns| + arrivals)
      ensures forall id | id in old(repository.campaigns) ::
                OnlyForward(old(repository.Contents()), repository.Contents(), id)
    {
      var edits: seq<(CampaignId, CompanyId, string, Time)> := *;
      for n := 0 to |edits|
        invariant Grown(old(repository.Contents()), repository.Contents(), hash)
        invariant StillAgree(old(repository.Contents()), repository.Contents(), hash)
        invariant |repository.campaigns| + arrivals == old(|repository.campaigns| + arrivals)
        invariant forall id | id in old(repository.campaigns) ::
                    OnlyForward(old(repository.Contents()), repository.Contents(), id)
      {
        ghost var t := repository.Contents();
        Other(edits[n].0, edits[n].1, edits[n].2, edits[n].3);
        ghost var t' := repository.Contents();
        GrownOn(old(repository.Contents()), t, t', hash);
        AgreeOn(old(repository.Contents()), t, t', hash);
        ForwardOn(old(repository.Contents()), t, t');
      }
    }

    method Other(id: CampaignId, company: CompanyId, content: string, now: Time)
      modifies repository, this`arrivals
      ensures Grown(old(repository.Contents()), repository.Contents(), hash)
      ensures StillAgree(old(repository.Contents()), repository.Contents(), hash)
      ensures |repository.campaigns| + arrivals == old(|repository.campaigns| + arrivals)
      ensures forall id | id in old(repository.campaigns) ::
                OnlyForward(old(repository.Contents()), repository.Contents(), id)
    {
      if id !in repository.campaigns {
        if arrivals > 0 {
          repository.Insert(id, company, content, now);
          repository.UpsertEmbedding(id, hash(content));
          arrivals := arrivals - 1;
        }
      } else if repository.campaigns[id].updatedAt < now {
        repository.campaigns :=
          repository.campaigns[id := repository.campaigns[id].(content := content, updatedAt := now)];
        repository.UpsertEmbedding(id, hash(content));
      }
    }

    /**
     `_edit`: read, embed outside any transaction, then save under compare-and-set. A database error rolls
     the save back or comes after its commit; on every path the index keeps agreeing.
     */
    method Edit(company: CompanyId, id: CampaignId, expected: Time, content: string) returns (r: Edited)
      modifies repository, this`arrivals
      ensures r.Saved? ==> id in repository.campaigns && repository.campaigns[id].content == content
                           && repository.campaigns[id].updatedAt == r.at && repository.campaigns[id].company == company
      ensures old(Agrees(repository.Contents(), id, hash)) ==> Agrees(repository.Contents(), id, hash)
      ensures r.NotFound? || r.Archived? || r.Invalid? ==> repository.Contents() == old(repository.Contents())
      ensures old(repository.campaigns.Keys) <= repository.campaigns.Keys
    {
      var existing := Get(repository.Contents(), company, id);
      if existing.None? { return NotFound; }
      if existing.value.archived { return Archived; }
      var valid: bool := *;
      if !valid { return Invalid; }
      if existing.value.updatedAt != expected { return Conflict; }
      Others();
      var stored := EmbeddingHash(repository.Contents(), id);
      var generated: Option<Digest> := None;
      if stored != Some(hash(content)) {
        var embedded: bool := *;
        if !embedded { return EmbeddingFailed; }
        generated := Some(hash(content));
      }
      Others();
      var now: Time, dbError: bool, seen: bool := *, *, *;
      if dbError { return UpdateFailed; }
      var updated := repository.UpdateIfUnchanged(company, id, expected, content, now);
      if !updated { return Conflict; }
      if generated.Some? { repository.UpsertEmbedding(id, generated.value); }
      return if seen then Saved(now) else UpdateFailed;
    }

    // ---------- Backfill ----------

    /** `_save_if_current`. */
    method SaveIfCurrent(c: Candidate, digest: Digest) returns (r: SaveResult)
      modifies repository`embeddings
      ensures r.Conflicted? ==> repository.embeddings == old(repository.embeddings)
      ensures !r.Conflicted? ==>
                Agrees(repository.Contents(), c.id, hash)
                && repository.embeddings == old(repository.embeddings)[c.id := digest]
      ensures r.Conflicted? <==> c.id !in repository.campaigns || repository.campaigns[c.id].company != c.company
                                 || hash(repository.campaigns[c.id].content) != digest
    {
      var current := Get(repository.Contents(), c.company, c.id);
      if current.None? { return Conflicted; }
      if hash(current.value.content) != digest { return Conflicted; }
      if EmbeddingHash(repository.Contents(), c.id) == Some(digest) {
        assert repository.embeddings[c.id := digest] == repository.embeddings;
        return Unchanged;
      }
      repository.UpsertEmbedding(c.id, digest);
      return Updated;
    }

    /** One candidate: embed what was listed, save it if it is still current. */
    method Process(c: Candidate) returns (r: ItemOutcome)
      requires c.stored == Some(hash(c.content)) ==> Agrees(repository.Contents(), c.id, hash)
      modifies repository, this`arrivals
      ensures Grown(old(repository.Contents()), repository.Contents(), hash)
      ensures StillAgree(old(repository.Contents()), repository.Contents(), hash)
      ensures |repository.campaigns| + arrivals == old(|repository.campaigns| + arrivals)
      ensures r.WasUpdated? || r.WasUnchanged? ==> Agrees(repository.Contents(), c.id, hash)
    {
      var digest := hash(c.content);
      if c.stored == Some(digest) { return WasUnchanged; }
      var embedded: bool := *;
      if !embedded { return EmbedFailed; }
      Others();
      var saved := SaveIfCurrent(c, digest);
      match saved
      case Updated => return WasUpdated;
      case Unchanged => return WasUnchanged;
      case Conflicted => return WasConflicted;
    }

    /** The inner loop; it stops at the first candidate it could not bring up to date. */
    method ProcessBatch(after: CampaignId, company: Option<CompanyId>, candidates: seq<Candidate>, before: Totals)
      returns (totals: Totals, stopped: bool)
      requires after <= before.lastId && Balanced(before) && before.conflicted + before.failed == 0
      requires Listed(repository.Contents(), before.lastId, company, candidates)
      requires ListedStillAgree(repository.Contents(), candidates, hash)
      requires BackfilledTo(repository.Contents(), after, before.lastId, company, hash)
      modifies repository, this`arrivals
      ensures Grown(old(repository.Contents()), repository.Contents(), hash)
      ensures |repository.campaigns| + arrivals == old(|repository.campaigns| + arrivals)
      ensures BackfilledTo(repository.Contents(), after, totals.lastId, company, hash) && Balanced(totals)
      ensures stopped <==> totals.conflicted + totals.failed > 0
      ensures !stopped && candidates != [] ==> totals.lastId == candidates[|candidates| - 1].id
      ensures totals.scanned <= before.scanned + |candidates| && totals.lastId >= before.lastId
    {
      hide Listed, BackfilledTo, Agrees, Grown, StillAgree;
      totals, stopped := before, false;
      ghost var listed := repository.Contents();
      SameGrown(listed, hash);
      for n := 0 to |candidates|
        invariant Grown(listed, repository.Contents(), hash)
        invariant |repository.campaigns| + arrivals == old(|repository.campaigns| + arrivals)
        invariant BackfilledTo(repository.Contents(), after, totals.lastId, company, hash)
        invariant ListedStillAgree(repository.Contents(), candidates, hash)
        invariant Balanced(totals) && totals.conflicted + totals.failed == 0 && totals.scanned <= before.scanned + n
        invariant totals.lastId == (if n == 0 then before.lastId else candidates[n - 1].id) >= before.lastId
      {
        var c := candidates[n];
        ghost var t := repository.Contents();
        var outcome := Process(c);
        ghost var t' := repository.Contents();
        AfterOthers(listed, t, t', after, totals.lastId, company, candidates, hash);
        if outcome.WasConflicted? || outcome.EmbedFailed? {
          totals := Add(totals, c.id, outcome);
          return totals, true;
        }
        OneFurther(listed, t', after, company, candidates, before.lastId, totals.lastId, n, hash);
        LaterId(listed, before.lastId, company, candidates, n);
        totals := Add(totals, c.id, outcome);
      }
    }

    /**
     `run`: everything that matches is up to date from the start position to the reported one, so a
     later run may resume there; an end without a stop means that nothing beyond it was left.
     */
    method Backfill(batchSize: int, after: int, maxItems: Option<int>, company: Option<CompanyId>)
      returns (r: Option<Totals>)
      modifies repository, this`arrivals
      ensures r.None? <==> batchSize <= 0 || after < 0 || (maxItems.Some? && maxItems.value <= 0)
      ensures r.Some? ==> after <= r.value.lastId && Balanced(r.value)
      ensures r.Some? ==> BackfilledTo(repository.Contents(), after, r.value.lastId, company, hash)
      ensures r.Some? && maxItems.None? && r.value.conflicted + r.value.failed == 0 ==>
                forall id: CampaignId | Matching(repository.Contents(), id, after, company) ::
                    Agrees(repository.Contents(), id, hash)
      ensures r.Some? && maxItems.Some? ==> r.value.scanned <= maxItems.value
    {
      hide Listed, BackfilledTo, Agrees, Grown, ListedStillAgree;
      if batchSize <= 0 || after < 0 || (maxItems.Some? && maxItems.value <= 0) { return None; }
      var totals, stopped, exhausted := Totals(0, 0, 0, 0, 0, after), false, false;
      NothingBackfilled(repository.Contents(), after, company, hash);
      while !stopped && !exhausted && (maxItems.None? || totals.scanned < maxItems.value)
        invariant after <= totals.lastId && BackfilledTo(repository.Contents(), after, totals.lastId, company, hash)
                  && Balanced(totals)
        invariant maxItems.Some? ==> totals.scanned <= maxItems.value
        invariant stopped <==> totals.conflicted + totals.failed > 0
        invariant exhausted ==> forall id: CampaignId :: !Matching(repository.Contents(), id, totals.lastId, company)
        decreases !stopped, !exhausted, arrivals + |After(repository.Contents(), totals.lastId)|
      {
        var limit := if maxItems.Some? && maxItems.value - totals.scanned < batchSize
            then maxItems.value - totals.scanned else batchSize;
        var candidates := repository.ListCandidates(totals.lastId, limit, company);
        ghost var t, lastId := repository.Contents(), totals.lastId;
        if candidates == [] {
          exhausted := true;
        } else {
          JustListed(t, candidates, hash);
          totals, stopped := ProcessBatch(after, company, candidates, totals);
          if !stopped { FewerLeft(t, repository.Contents(), lastId, company, candidates, hash); }
        }
      }
      if exhausted { AllBackfilled(repository.Contents(), after, totals.lastId, company, hash); }
      return Some(totals);
    }
  }

  // ---------- Small steps of the loops ----------

  lemma SameGrown(t: CampaignTables, hash: Hash)
    ensures Grown(t, t, hash) && StillAgree(t, t, hash)
  {
  }

  lemma AgreeOn(a: CampaignTables, b: CampaignTables, c: CampaignTables, hash: Hash)
    requires StillAgree(a, b, hash) && StillAgree(b, c, hash)
    ensures StillAgree(a, c, hash)
  {
    hide Agrees;
  }

  lemma ForwardOn(a: CampaignTables, b: CampaignTables, c: CampaignTables)
    ensures forall id | OnlyForward(a, b, id) && OnlyForward(b, c, id) :: OnlyForward(a, c, id)
  {
  }

  lemma AfterOthers(listed: CampaignTables, t: CampaignTables, t': CampaignTables, after: CampaignId,
                    lastId: CampaignId,
                    company: Option<CompanyId>, candidates: seq<Candidate>, hash: Hash)
    requires Grown(listed, t, hash) && Grown(t, t', hash) && StillAgree(t, t', hash)
    requires BackfilledTo(t, after, lastId, company, hash) && ListedStillAgree(t, candidates, hash)
    ensures Grown(listed, t', hash)
    ensures BackfilledTo(t', after, lastId, company, hash) && ListedStillAgree(t', candidates, hash)
  {
    hide BackfilledTo, Agrees, Grown;
    GrownOn(listed, t, t', hash);
    GrownKeepsBackfilled(t, t', after, lastId, company, hash);
  }

  lemma LaterId(t: CampaignTables, from: CampaignId, company: Option<CompanyId>, candidates: seq<Candidate>, n: nat)
    requires Listed(t, from, company, candidates) && n < |candidates|
    ensures from < candidates[n].id && candidates[n].id in t.campaigns
  {
  }

  lemma NothingBackfilled(t: CampaignTables, after: CampaignId, company: Option<CompanyId>, hash: Hash)
    ensures BackfilledTo(t, after, after, company, hash)
  {
  }

  /** What is listed agrees if its listed hash says so. */
  lemma JustListed(t: CampaignTables, candidates: seq<Candidate>, hash: Hash)
    requires forall k | 0 <= k < |candidates| ::
               candidates[k].id in t.campaigns && candidates[k] == CandidateOf(t, candidates[k].id)
    ensures ListedStillAgree(t, candidates, hash)
  {
  }

  function After(t: CampaignTables, id: CampaignId): set<CampaignId> { set i | i in t.campaigns && i > id }

  lemma FewerLeft(t: CampaignTables, t': CampaignTables, lastId: CampaignId, company: Option<CompanyId>,
                  candidates: seq<Candidate>, hash: Hash)
    requires Grown(t, t', hash) && Listed(t, lastId, company, candidates) && candidates != []
    ensures |t.campaigns| <= |t'.campaigns|
    ensures |After(t', candidates[|candidates| - 1].id)| < |After(t, lastId)| + (|t'.campaigns| - |t.campaigns|)
  {
    hide Listed, Agrees;
    var last := candidates[|candidates| - 1].id;
    LaterId(t, lastId, company, candidates, |candidates| - 1);
    var new_ := t'.campaigns.Keys - t.campaigns.Keys;
    assert t'.campaigns.Keys == t.campaigns.Keys + new_;
    assert last in After(t, lastId);
    var some := (After(t, lastId) - {last}) + new_;
    assert After(t', last) <= some;
    Smaller(After(t', last), some);
  }

  lemma {:induction false} Smaller<T>(a: set<T>, b: set<T>)
    requires a <= b
    ensures |a| <= |b|
    decreases |a|
  {
    if a != {} {
      var x :| x in a;
      Smaller(a - {x}, b - {x});
    }
  }

  lemma AllBackfilled(t: CampaignTables, after: CampaignId, lastId: CampaignId, company: Option<CompanyId>, hash: Hash)
    requires BackfilledTo(t, after, lastId, company, hash) && forall id: CampaignId :: !Matching(t, id, lastId, company)
    ensures forall id: CampaignId | Matching(t, id, after, company) :: Agrees(t, id, hash)
  {
    hide Agrees, Matching;
    forall id: CampaignId | Matching(t, id, after, company) ensures Agrees(t, id, hash) {
      MatchingBeyond(t, id, after, lastId, company);
    }
  }

  datatype SaveResult = Updated | Unchanged | Conflicted

  datatype ItemOutcome = WasUpdated | WasUnchanged | WasConflicted | EmbedFailed

  /** The result of a backfill: its counts and the position to resume from. */
  datatype Totals = Totals(scanned: nat, updated: nat, kept: nat, conflicted: nat, failed: nat, lastId: CampaignId)

  predicate Balanced(t: Totals) { t.scanned == t.updated + t.kept + t.conflicted + t.failed }

  function Add(t: Totals, id: CampaignId, outcome: ItemOutcome): Totals {
    match outcome
    case WasUpdated => t.(scanned := t.scanned + 1, updated := t.updated + 1, lastId := id)
    case WasUnchanged => t.(scanned := t.scanned + 1, kept := t.kept + 1, lastId := id)
    case WasConflicted => t.(scanned := t.scanned + 1, conflicted := t.conflicted + 1)
    case EmbedFailed => t.(scanned := t.scanned + 1, failed := t.failed + 1)
  }
}
