/**
 * The project orchestrator (backend/app/agents/orchestrator.py): creates
 * monograph projects, looks them up, moves them through their statuses and
 * lists them newest first.
 */
module Orchestrator {
  import opened Basics
  import opened Models
  import Query
  import opened Store

  /**
   * `update_status` on one project: the status is replaced, and `updated_at`
   * takes the time of the commit only when the status really changes (an
   * assignment of the value a column already holds leaves the row clean, so
   * no UPDATE is issued and `onupdate` does not fire).
   */
  function StatusUpdated(p: Project, status: ProjectStatus, now: Timestamp): (r: Project)
    ensures r.status == status
    ensures r.updated_at == (if p.status == status then p.updated_at else now)
    ensures r.(status := p.status, updated_at := p.updated_at) == p
  {
    if p.status == status then p else p.(status := status, updated_at := now)
  }

  /** Setting a project to the status it already has changes nothing. */
  lemma SameStatusIsNoOp(p: Project, now: Timestamp)
    ensures StatusUpdated(p, p.status, now) == p
  {
  }

  /**
   * Setting the same status twice is setting it once: the second call finds
   * the status already in place and keeps the first call's `updated_at`.
   */
  lemma UpdateStatusIsIdempotent(p: Project, status: ProjectStatus, t1: Timestamp, t2: Timestamp)
    ensures StatusUpdated(StatusUpdated(p, status, t1), status, t2) == StatusUpdated(p, status, t1)
  {
  }

  /** Of two status changes in a row only the second status stays, and the row shows when the last real change happened. */
  lemma LaterStatusWins(p: Project, s1: ProjectStatus, s2: ProjectStatus, t1: Timestamp, t2: Timestamp)
    requires s1 != s2
    ensures StatusUpdated(StatusUpdated(p, s1, t1), s2, t2) == StatusUpdated(p, s2, t2).(updated_at := t2)
    ensures StatusUpdated(StatusUpdated(p, s1, t1), s2, t2).updated_at == t2
  {
  }

  /** The ordering key of `list_projects`: `created_at` descending. */
  function NewestFirst(p: Project): int {
    -p.created_at
  }

  class ProjectOrchestrator {
    const db: Database

    constructor (db: Database)
      ensures this.db == db
    {
      this.db := db;
    }

    /**
     * `create_project`: a new row with the title and dates given, status
     * Planning, no launch date, and both timestamps set to the clock reading
     * `now`.
     */
    method CreateProject(title: string, startDate: Option<Date>, printDeadline: Option<Date>, now: Timestamp)
      returns (p: Project)
      requires db.Valid()
      modifies db`projects, db`nextId
      ensures db.Valid()
      ensures p.id !in old(db.projects) && db.projects == old(db.projects)[p.id := p]
      ensures |db.projects| == |old(db.projects)| + 1
      ensures p.title == title && p.status == Planning
      ensures p.start_date == startDate && p.print_deadline == printDeadline && p.launch_date == None
      ensures p.created_at == now && p.updated_at == now
    {
      var id := db.NewId();
      p := ProjectRow(id, title, Some(Planning), startDate, printDeadline, None, now);
      db.projects := db.projects[id := p];
    }

    /** `get_project`: the stored project with this id, or None. */
    function GetProject(projectId: Id): (r: Option<Project>)
      reads db
      ensures r.Some? <==> projectId in db.projects
      ensures r.Some? ==> r.value == db.projects[projectId]
    {
      if projectId in db.projects then Some(db.projects[projectId]) else None
    }

    /**
     * `update_status`: on a stored project, sets the status (see
     * `StatusUpdated` for `updated_at`); on an unknown id, answers None and
     * changes nothing. Nothing stops any status from following any other.
     */
    method UpdateStatus(projectId: Id, status: ProjectStatus, now: Timestamp) returns (r: Option<Project>)
      requires db.Valid()
      modifies db`projects
      ensures db.Valid()
      ensures projectId !in old(db.projects) ==> r == None && db.projects == old(db.projects)
      ensures projectId in old(db.projects) ==>
                r == Some(StatusUpdated(old(db.projects)[projectId], status, now))
                && db.projects == old(db.projects)[projectId := r.value]
      ensures r.Some? ==> r.value.status == status && r.value.id == projectId
    {
      r := GetProject(projectId);
      if r.Some? {
        var p := StatusUpdated(r.value, status, now);
        db.projects := db.projects[projectId := p];
        r := Some(p);
      }
    }

    /** `list_projects`: every stored project once, the most recently created first. */
    function ListProjects(): (r: seq<Project>)
      reads db
      requires db.Valid()
      ensures forall p :: p in r <==> p in db.projects.Values
      ensures Query.Distinct(r) && |r| == |db.projects|
      ensures forall i, j :: 0 <= i < j < |r| ==> r[i].created_at >= r[j].created_at
    {
      Query.RowsOfKeyedTable(db.projects, ProjectKey, db.nextId);
      Query.RowsCountTable(db.projects, ProjectKey, db.nextId);
      Query.SortBy(Query.Rows(db.projects, db.nextId), NewestFirst)
    }
  }
}
