/**
 * The funding agent (backend/app/agents/funding.py): funding opportunities
 * and the application package drafted for each of them.
 */
module Funding {
  import opened Basics
  import opened Models
  import Query
  import opened Store

  const DuplicateApplication := "Application already exists for this opportunity"

  /** Some stored package belongs to the opportunity. */
  ghost predicate HasApplicationFor(apps: map<Id, ApplicationPackage>, opportunityId: Id) {
    exists k :: k in apps && apps[k].opportunity_id == opportunityId
  }

  /** No two stored packages belong to the same opportunity. */
  ghost predicate OneApplicationPerOpportunity(apps: map<Id, ApplicationPackage>) {
    forall k, l :: k in apps && l in apps && apps[k].opportunity_id == apps[l].opportunity_id ==> k == l
  }

  /**
   * The package `update_application` leaves: each of narrative, budget and
   * status is overwritten when given (not None) and kept otherwise; the id,
   * the opportunity and the final approval are never touched. The current
   * status does not matter.
   */
  function Patched(a: ApplicationPackage, narrative: Option<string>, budget: Option<Json>,
                   status: Option<SubmissionStatus>): (r: ApplicationPackage)
    ensures r.narrative_draft == (if narrative.Some? then narrative else a.narrative_draft)
    ensures r.budget_json == (if budget.Some? then budget else a.budget_json)
    ensures r.submission_status == (if status.Some? then status.value else a.submission_status)
    ensures r.id == a.id && r.opportunity_id == a.opportunity_id && r.final_approval == a.final_approval
  {
    var r := if narrative.Some? then a.(narrative_draft := Some(narrative.value)) else a;
    var r := if budget.Some? then r.(budget_json := Some(budget.value)) else r;
    if status.Some? then r.(submission_status := status.value) else r
  }

  /** Of two updates in a row, the later value of each given field wins; an update with nothing given is no change. */
  lemma LaterUpdateWins(a: ApplicationPackage, n1: Option<string>, b1: Option<Json>, s1: Option<SubmissionStatus>,
                        n2: Option<string>, b2: Option<Json>, s2: Option<SubmissionStatus>)
    ensures Patched(Patched(a, n1, b1, s1), n2, b2, s2)
         == Patched(a, if n2.Some? then n2 else n1, if b2.Some? then b2 else b1, if s2.Some? then s2 else s1)
    ensures Patched(a, None, None, None) == a
  {
  }

  /** Storing a new package for an opportunity that has none keeps one package per opportunity, and then it has one. */
  lemma {:induction false} AddingKeepsOnePerOpportunity(apps: map<Id, ApplicationPackage>, p: ApplicationPackage)
    requires OneApplicationPerOpportunity(apps)
    requires !HasApplicationFor(apps, p.opportunity_id)
    ensures OneApplicationPerOpportunity(apps[p.id := p])
    ensures HasApplicationFor(apps[p.id := p], p.opportunity_id)
  {
    var next := apps[p.id := p];
    assert p.id in next && next[p.id].opportunity_id == p.opportunity_id;
    forall k, l | k in next && l in next && next[k].opportunity_id == next[l].opportunity_id
      ensures k == l
    {
      if k != p.id && l != p.id {
        assert apps[k].opportunity_id == apps[l].opportunity_id;
      }
    }
  }

  /** Overwriting a stored package with an update of itself keeps one package per opportunity. */
  lemma {:induction false} PatchKeepsOnePerOpportunity(apps: map<Id, ApplicationPackage>, id: Id, narrative: Option<string>,
                                                      budget: Option<Json>, status: Option<SubmissionStatus>)
    requires OneApplicationPerOpportunity(apps) && id in apps
    ensures OneApplicationPerOpportunity(apps[id := Patched(apps[id], narrative, budget, status)])
  {
    var next := apps[id := Patched(apps[id], narrative, budget, status)];
    forall k, l | k in next && l in next && next[k].opportunity_id == next[l].opportunity_id
      ensures k == l
    {
      assert next[k].opportunity_id == apps[k].opportunity_id;
      assert next[l].opportunity_id == apps[l].opportunity_id;
    }
  }

  class FundingAgent {
    const db: Database

    constructor (db: Database)
      ensures this.db == db
    {
      this.db := db;
    }

    /** `get_opportunities`: every stored opportunity, once each, by ascending deadline. */
    function GetOpportunities(): (r: seq<FundingOpportunity>)
      reads db
      requires db.Valid()
      ensures forall o :: o in r <==> o in db.opportunities.Values
      ensures Query.Distinct(r) && |r| == |db.opportunities|
      ensures forall i, j :: 0 <= i < j < |r| ==> r[i].deadline <= r[j].deadline
    {
      Query.RowsOfKeyedTable(db.opportunities, OpportunityKey, db.nextId);
      Query.RowsCountTable(db.opportunities, OpportunityKey, db.nextId);
      Query.SortBy(Query.Rows(db.opportunities, db.nextId), (o: FundingOpportunity) => o.deadline)
    }

    /** `get_opportunity`: the stored opportunity with that id, if any. */
    function GetOpportunity(opportunityId: Id): (r: Option<FundingOpportunity>)
      reads db
      ensures r.Some? <==> opportunityId in db.opportunities
      ensures r.Some? ==> r.value == db.opportunities[opportunityId]
    {
      if opportunityId in db.opportunities then Some(db.opportunities[opportunityId]) else None
    }

    /** `get_application`: the stored package with that id, if any. */
    function GetApplication(appId: Id): (r: Option<ApplicationPackage>)
      reads db
      ensures r.Some? <==> appId in db.applications
      ensures r.Some? ==> r.value == db.applications[appId]
    {
      if appId in db.applications then Some(db.applications[appId]) else None
    }

    /**
     * `get_application_by_opportunity`: a stored package of the opportunity
     * when there is one (the first the table scan meets), None otherwise.
     */
    function GetApplicationByOpportunity(opportunityId: Id): (r: Option<ApplicationPackage>)
      reads db
      requires db.Valid()
      ensures r.Some? <==> HasApplicationFor(db.applications, opportunityId)
      ensures r.Some? ==> r.value in db.applications.Values && r.value.opportunity_id == opportunityId
      ensures r.Some? ==> r.value.id in db.applications && db.applications[r.value.id] == r.value
    {
      Query.RowsOfKeyedTable(db.applications, ApplicationKey, db.nextId);
      var matches := Query.Filter(Query.Rows(db.applications, db.nextId),
                                  (a: ApplicationPackage) => a.opportunity_id == opportunityId);
      if matches == [] then
        assert forall k :: k in db.applications ==> db.applications[k] in db.applications.Values;
        None
      else
        assert matches[0] in matches;
        Some(matches[0])
    }

    /**
     * `create_opportunity`: stores the funder, programme and deadline with
     * status "To Review" and empty eligibility criteria and budget rules.
     */
    method CreateOpportunity(funder: string, programme: string, deadline: Date) returns (o: FundingOpportunity)
      requires db.Valid()
      modifies db`opportunities, db`nextId
      ensures db.Valid()
      ensures o.id !in old(db.opportunities) && db.opportunities == old(db.opportunities)[o.id := o]
      ensures o.funder_name == funder && o.programme_name == programme && o.deadline == deadline
      ensures o.status == ToReview && o.eligibility_criteria == Some(EmptyObject) && o.budget_rules == Some(EmptyObject)
    {
      var id := db.NewId();
      o := OpportunityRow(id, funder, programme, deadline, Some(ToReview), Some(EmptyObject), Some(EmptyObject));
      db.opportunities := db.opportunities[id := o];
    }

    /**
     * `create_application`: fails with "Application already exists for this
     * opportunity", changing nothing, when any package has that opportunity;
     * otherwise stores an empty Draft package without final approval.
     * Either way the opportunity has a package afterwards, so a second call
     * fails, and one package per opportunity is kept.
     */
    method CreateApplication(opportunityId: Id) returns (r: Result<ApplicationPackage, string>)
      requires db.Valid()
      modifies db`applications, db`nextId
      ensures db.Valid()
      ensures r.Err? <==> HasApplicationFor(old(db.applications), opportunityId)
      ensures r.Err? ==> r.error == DuplicateApplication && db.applications == old(db.applications)
      ensures r.Ok? ==> r.value.id !in old(db.applications) && db.applications == old(db.applications)[r.value.id := r.value]
      ensures r.Ok? ==> r.value.opportunity_id == opportunityId && r.value.narrative_draft == Some("")
                        && r.value.budget_json == Some(EmptyObject) && r.value.submission_status == SubmissionDraft
                        && !r.value.final_approval
      ensures HasApplicationFor(db.applications, opportunityId)
      ensures OneApplicationPerOpportunity(old(db.applications)) ==> OneApplicationPerOpportunity(db.applications)
    {
      var existing := GetApplicationByOpportunity(opportunityId);
      if existing.Some? {
        return Err(DuplicateApplication);
      }
      var id := db.NewId();
      var package := ApplicationRow(id, opportunityId, Some(""), Some(EmptyObject), Some(SubmissionDraft), Some(false));
      if OneApplicationPerOpportunity(db.applications) {
        AddingKeepsOnePerOpportunity(db.applications, package);
      }
      db.applications := db.applications[id := package];
      assert db.applications[id].opportunity_id == opportunityId;
      r := Ok(package);
    }

    /**
     * `update_application`: None for an unknown id, with nothing changed;
     * otherwise the package with the given fields overwritten, whatever its
     * submission status.
     */
    method UpdateApplication(appId: Id, narrative: Option<string>, budget: Option<Json>,
                             status: Option<SubmissionStatus>) returns (r: Option<ApplicationPackage>)
      requires db.Valid()
      modifies db`applications
      ensures db.Valid()
      ensures appId !in old(db.applications) ==> r == None && db.applications == old(db.applications)
      ensures appId in old(db.applications) ==>
                r == Some(Patched(old(db.applications)[appId], narrative, budget, status))
                && db.applications == old(db.applications)[appId := r.value]
      ensures OneApplicationPerOpportunity(old(db.applications)) ==> OneApplicationPerOpportunity(db.applications)
    {
      var found := GetApplication(appId);
      if found.None? {
        return None;
      }
      var package := found.value;
      if narrative.Some? {
        package := package.(narrative_draft := Some(narrative.value));
      }
      if budget.Some? {
        package := package.(budget_json := Some(budget.value));
      }
      if status.Some? {
        package := package.(submission_status := status.value);
      }
      if OneApplicationPerOpportunity(db.applications) {
        PatchKeepsOnePerOpportunity(db.applications, appId, narrative, budget, status);
      }
      db.applications := db.applications[appId := package];
      r := Some(package);
    }
  }
}
