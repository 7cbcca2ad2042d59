/**
 * The HTTP layer (backend/app/api/endpoints.py): how agent results and
 * failures become responses, the dashboard's deadline query, and the
 * development utility that wipes the funding tables.
 */
module Endpoints {
  import opened Basics
  import opened Models
  import Query
  import opened Store
  import opened Funding

  const NotFound := "Application not found"

  /** An endpoint's answer: a status code with a body, or an `HTTPException` with its code and detail. */
  datatype Response<+T> = Response(code: int, body: T) | HttpError(code: int, detail: string)

  /** What `get_dashboard_stats` answers. */
  datatype Dashboard = Dashboard(opportunities: nat, upcoming: seq<FundingOpportunity>)

  /** The ordering key of the deadline query: `deadline` ascending. */
  function ByDeadline(o: FundingOpportunity): int {
    o.deadline
  }

  /**
   * `get_dashboard_stats`: the number of stored opportunities, and the (at
   * most three) opportunities with the earliest deadlines on or after
   * `today`, earliest first. `today` is the server's `datetime.now().date()`.
   */
  function DashboardStats(db: Database, today: Date): (r: Dashboard)
    reads db
    requires db.Valid()
    ensures r.opportunities == |db.opportunities|
    ensures |r.upcoming| <= 3 && Query.Distinct(r.upcoming)
    ensures forall o :: o in r.upcoming ==> o in db.opportunities.Values && o.deadline >= today
    ensures forall i, j :: 0 <= i < j < |r.upcoming| ==> r.upcoming[i].deadline <= r.upcoming[j].deadline
    ensures forall o, u :: o in db.opportunities.Values && o.deadline >= today && o !in r.upcoming && u in r.upcoming ==>
              u.deadline <= o.deadline
    ensures |r.upcoming| < 3 ==> forall o :: o in db.opportunities.Values && o.deadline >= today ==> o in r.upcoming
  {
    Query.RowsOfKeyedTable(db.opportunities, OpportunityKey, db.nextId);
    Query.RowsCountTable(db.opportunities, OpportunityKey, db.nextId);
    var upcoming := Query.TopBy(Query.Rows(db.opportunities, db.nextId), (o: FundingOpportunity) => o.deadline >= today, ByDeadline, 3);
    Dashboard(|db.opportunities|, upcoming)
  }

  /**
   * `clear_all_projects`: despite its name, deletes every application and
   * every opportunity and nothing else; it answers 204 with no body.
   */
  method ClearAllProjects(db: Database) returns (code: int)
    requires db.Valid()
    modifies db`applications, db`opportunities
    ensures db.Valid()
    ensures code == 204
    ensures db.applications == map[] && db.opportunities == map[]
    ensures db.projects == old(db.projects) && db.sections == old(db.sections) && db.assets == old(db.assets)
  {
    db.applications := map[];
    db.opportunities := map[];
    code := 204;
  }

  /**
   * `create_application`: 201 with the new package, or 400 whose detail is
   * the agent's message when the opportunity already has a package.
   */
  method CreateApplication(db: Database, opportunityId: Id) returns (r: Response<ApplicationPackage>)
    requires db.Valid()
    modifies db`applications, db`nextId
    ensures db.Valid()
    ensures r.HttpError? <==> HasApplicationFor(old(db.applications), opportunityId)
    ensures r.HttpError? ==> r.code == 400 && r.detail == DuplicateApplication && db.applications == old(db.applications)
    ensures r.Response? ==>
              r.code == 201 && r.body.opportunity_id == opportunityId
              && r.body.id !in old(db.applications) && db.applications == old(db.applications)[r.body.id := r.body]
    ensures OneApplicationPerOpportunity(old(db.applications)) ==> OneApplicationPerOpportunity(db.applications)
  {
    var agent := new FundingAgent(db);
    var created := agent.CreateApplication(opportunityId);
    if created.Err? {
      return HttpError(400, created.error);
    }
    return Response(201, created.value);
  }

  /** `get_application`: 200 with the stored package, or 404 "Application not found". */
  method GetApplication(db: Database, appId: Id) returns (r: Response<ApplicationPackage>)
    ensures r.Response? <==> appId in db.applications
    ensures r.Response? ==> r.code == 200 && r.body == db.applications[appId]
    ensures r.HttpError? ==> r.code == 404 && r.detail == NotFound
  {
    var agent := new FundingAgent(db);
    var found := agent.GetApplication(appId);
    if found.None? {
      return HttpError(404, NotFound);
    }
    return Response(200, found.value);
  }

  /**
   * `update_application`: 200 with the patched package, or 404 "Application
   * not found" and no change.
   */
  method UpdateApplication(db: Database, appId: Id, narrative: Option<string>, budget: Option<Json>,
                           status: Option<SubmissionStatus>) returns (r: Response<ApplicationPackage>)
    requires db.Valid()
    modifies db`applications
    ensures db.Valid()
    ensures r.HttpError? <==> appId !in old(db.applications)
    ensures r.HttpError? ==> r.code == 404 && r.detail == NotFound && db.applications == old(db.applications)
    ensures r.Response? ==>
              r.code == 200 && r.body == Patched(old(db.applications)[appId], narrative, budget, status)
              && db.applications == old(db.applications)[appId := r.body]
  {
    var agent := new FundingAgent(db);
    var updated := agent.UpdateApplication(appId, narrative, budget, status);
    if updated.None? {
      return HttpError(404, NotFound);
    }
    return Response(200, updated.value);
  }
}
