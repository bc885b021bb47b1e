/** The campaign table and its one-to-one search embeddings, with the conditional writes over them. */
module Campaigns {
  import opened Options

  type CampaignId = nat
  type CompanyId = nat
  type Time = int
  type Digest = nat

  datatype Campaign = Campaign(company: CompanyId, content: string, updatedAt: Time, archived: bool)

  datatype CampaignTables = CampaignTables(campaigns: map<CampaignId, Campaign>, embeddings: map<CampaignId, Digest>)

  function Get(t: CampaignTables, company: CompanyId, id: CampaignId): Option<Campaign> {
    if id in t.campaigns && t.campaigns[id].company == company then Some(t.campaigns[id]) else None
  }

  function EmbeddingHash(t: CampaignTables, id: CampaignId): Option<Digest> {
    if id in t.embeddings then Some(t.embeddings[id]) else None
  }

  function Insert(t: CampaignTables, id: CampaignId, company: CompanyId, content: string, now: Time): CampaignTables {
    t.(campaigns := t.campaigns[id := Campaign(company, content, now, false)])
  }

  /** `update_if_unchanged`: None when no row matched the expected `updated_at`. */
  function UpdateIfUnchanged(t: CampaignTables, company: CompanyId, id: CampaignId, expected: Time,
                             content: string, now: Time): Option<CampaignTables> {
    match Get(t, company, id)
    case None => None
    case Some(row) =>
      if row.updatedAt == expected && !row.archived
      then Some(t.(campaigns := t.campaigns[id := row.(content := content, updatedAt := now)]))
      else None
  }

  function UpsertEmbedding(t: CampaignTables, id: CampaignId, digest: Digest): CampaignTables {
    t.(embeddings := t.embeddings[id := digest])
  }

  /** Writes the embedding only when one was generated. */
  function UpsertIfGenerated(t: CampaignTables, id: CampaignId, generated: Option<Digest>): CampaignTables {
    if generated.Some? then UpsertEmbedding(t, id, generated.value) else t
  }
}
