/**
 * The database the agents share: one table per entity of models.py, each a
 * map from primary key to row, plus the source of fresh keys. Every agent
 * call commits its changes at once, so a table is replaced as a whole.
 */
module Store {
  import opened Models
  import Query

  function ProjectKey(p: Project): Id { p.id }
  function SectionKey(s: Section): Id { s.id }
  function AssetKey(a: Asset): Id { a.id }
  function OpportunityKey(o: FundingOpportunity): Id { o.id }
  function ApplicationKey(a: ApplicationPackage): Id { a.id }

  class Database {
    var projects: map<Id, Project>
    var sections: map<Id, Section>
    var assets: map<Id, Asset>
    var opportunities: map<Id, FundingOpportunity>
    var applications: map<Id, ApplicationPackage>
    /** Every key handed out so far is below this one. */
    var nextId: nat

    /** Each table stores a row under the row's own id, and no key is in use at or above `nextId`. */
    ghost predicate Valid()
      reads this
    {
      && Query.Keyed(projects, ProjectKey, nextId)
      && Query.Keyed(sections, SectionKey, nextId)
      && Query.Keyed(assets, AssetKey, nextId)
      && Query.Keyed(opportunities, OpportunityKey, nextId)
      && Query.Keyed(applications, ApplicationKey, nextId)
    }

    constructor ()
      ensures Valid()
      ensures projects == map[] && sections == map[] && assets == map[]
      ensures opportunities == map[] && applications == map[]
    {
      projects, sections, assets := map[], map[], map[];
      opportunities, applications := map[], map[];
      nextId := 0;
    }

    /** Draws a primary key that no table uses (the source's `uuid.uuid4()`). */
    method NewId() returns (id: Id)
      requires Valid()
      modifies this`nextId
      ensures Valid()
      ensures id == old(nextId) && nextId == id + 1
      ensures id !in projects && id !in sections && id !in assets
      ensures id !in opportunities && id !in applications
    {
      id := nextId;
      nextId := nextId + 1;
    }

    /** `session.add` of a new asset whose key was drawn from `NewId`, committed. */
    method AddAsset(a: Asset)
      requires Valid() && a.id < nextId
      modifies this`assets
      ensures Valid()
      ensures assets == old(assets)[a.id := a]
    {
      Query.KeyedStore(assets, AssetKey, nextId, a);
      assets := assets[a.id := a];
    }

    /**
     * Deleting a project through the ORM: the `cascade="all, delete-orphan"`
     * relationships remove its sections and assets with it.
     */
    method DeleteProject(projectId: Id)
      requires Valid()
      modifies this`projects, this`sections, this`assets
      ensures Valid()
      ensures projects == old(projects) - {projectId}
      ensures sections == map k | k in old(sections) && old(sections)[k].project_id != projectId :: old(sections)[k]
      ensures assets == map k | k in old(assets) && old(assets)[k].project_id != projectId :: old(assets)[k]
      ensures forall s :: s in sections.Values ==> s.project_id != projectId
      ensures forall a :: a in assets.Values ==> a.project_id != projectId
    {
      projects := projects - {projectId};
      sections := map k | k in sections && sections[k].project_id != projectId :: sections[k];
      assets := map k | k in assets && assets[k].project_id != projectId :: assets[k];
    }

    /** Deleting an opportunity through the ORM removes its application packages with it. */
    method DeleteOpportunity(opportunityId: Id)
      requires Valid()
      modifies this`opportunities, this`applications
      ensures Valid()
      ensures opportunities == old(opportunities) - {opportunityId}
      ensures applications == map k | k in old(applications) && old(applications)[k].opportunity_id != opportunityId
                                    :: old(applications)[k]
      ensures forall a :: a in applications.Values ==> a.opportunity_id != opportunityId
    {
      opportunities := opportunities - {opportunityId};
      applications := map k | k in applications && applications[k].opportunity_id != opportunityId :: applications[k];
    }
  }
}
