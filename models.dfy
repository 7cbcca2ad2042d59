/**
 * The entities of the studio store (backend/app/models.py): the enumerations,
 * the five record types, and the column defaults an insert applies when a
 * value is not given.
 */
module Models {
  import opened Basics

  /** Primary keys. The source draws random UUIDs; the store hands out unused numbers instead. */
  type Id = nat

  /** A calendar date as a day number; the order of numbers is the order of dates. */
  type Date = int

  /** A point in time (the `datetime.utcnow()` readings), ordered like the clock. */
  type Timestamp = int

  datatype ProjectStatus = Planning | InProgress | ProjectReview | Completed {
    /** The enumeration's value: the string the API reads and writes. */
    function Value(): string {
      match this
      case Planning => "Planning"
      case InProgress => "In Progress"
      case ProjectReview => "Review"
      case Completed => "Completed"
    }
  }

  datatype SectionStatus = Draft | Review | Locked {
    function Value(): string {
      match this
      case Draft => "Draft"
      case Review => "Review"
      case Locked => "Locked"
    }
  }

  datatype AssetType = Photo | Poster | Menu | Audio | VerificationDoc {
    function Value(): string {
      match this
      case Photo => "Photo"
      case Poster => "Poster"
      case Menu => "Menu"
      case Audio => "Audio"
      case VerificationDoc => "VerificationDoc"
    }
  }

  datatype RightsStatus = Unknown | Requested | Cleared | Restricted {
    function Value(): string {
      match this
      case Unknown => "Unknown"
      case Requested => "Requested"
      case Cleared => "Cleared"
      case Restricted => "Restricted"
    }
  }

  datatype UsageScope = Print | Digital | Both {
    function Value(): string {
      match this
      case Print => "Print"
      case Digital => "Digital"
      case Both => "Both"
    }
  }

  datatype FundingStatus = ToReview | Pursuing | FundingSubmitted | Rejected | Awarded {
    function Value(): string {
      match this
      case ToReview => "To Review"
      case Pursuing => "Pursuing"
      case FundingSubmitted => "Submitted"
      case Rejected => "Rejected"
      case Awarded => "Awarded"
    }
  }

  datatype SubmissionStatus = SubmissionDraft | Approved | Submitted {
    function Value(): string {
      match this
      case SubmissionDraft => "Draft"
      case Approved => "Approved"
      case Submitted => "Submitted"
    }
  }

  /** `SectionStatus(v)`, the lookup by value: exactly the three values name a status. */
  function ParseSectionStatus(v: string): (r: Option<SectionStatus>)
    ensures r.Some? <==> v in {"Draft", "Review", "Locked"}
    ensures r.Some? ==> r.value.Value() == v
  {
    if v == "Draft" then Some(Draft)
    else if v == "Review" then Some(Review)
    else if v == "Locked" then Some(Locked)
    else None
  }

  /** `SubmissionStatus(v)`, the lookup by value: exactly the three values name a status. */
  function ParseSubmissionStatus(v: string): (r: Option<SubmissionStatus>)
    ensures r.Some? <==> v in {"Draft", "Approved", "Submitted"}
    ensures r.Some? ==> r.value.Value() == v
  {
    if v == "Draft" then Some(SubmissionDraft)
    else if v == "Approved" then Some(Approved)
    else if v == "Submitted" then Some(Submitted)
    else None
  }

  /** Looking a status up by its own value gives it back, so distinct statuses have distinct values. */
  lemma StatusesRoundTrip(s: SectionStatus, t: SubmissionStatus)
    ensures ParseSectionStatus(s.Value()) == Some(s)
    ensures ParseSubmissionStatus(t.Value()) == Some(t)
  {
  }

  /** A JSON column value (budget, eligibility and budget-rule mappings are free-form). */
  datatype Json =
    | JNull
    | JBool(b: bool)
    | JNumber(n: real)
    | JString(s: string)
    | JArray(items: seq<Json>)
    | JObject(fields: map<string, Json>)

  /** The JSON value `{}`. */
  const EmptyObject: Json := JObject(map[])

  datatype Project = Project(
    id: Id,
    title: string,
    status: ProjectStatus,
    start_date: Option<Date>,
    print_deadline: Option<Date>,
    launch_date: Option<Date>,
    created_at: Timestamp,
    updated_at: Timestamp)

  datatype Section = Section(
    id: Id,
    project_id: Id,
    title: string,
    version: int,
    status: SectionStatus,
    content_text: Option<string>,
    order_index: int)

  datatype Asset = Asset(
    id: Id,
    project_id: Id,
    asset_type: AssetType,
    file_path: string,
    rights_status: RightsStatus,
    credit_line: Option<string>,
    usage_scope: UsageScope,
    is_selected_for_book: bool)

  datatype FundingOpportunity = FundingOpportunity(
    id: Id,
    funder_name: string,
    programme_name: string,
    deadline: Date,
    status: FundingStatus,
    eligibility_criteria: Option<Json>,
    budget_rules: Option<Json>)

  datatype ApplicationPackage = ApplicationPackage(
    id: Id,
    opportunity_id: Id,
    narrative_draft: Option<string>,
    budget_json: Option<Json>,
    submission_status: SubmissionStatus,
    final_approval: bool)

  // Column defaults. Each row builder takes the values an insert is given
  // (None: not given) and fills the rest from the column's default; a
  // nullable column without a default stays empty. `now` is the clock
  // reading the `datetime.utcnow` defaults take.

  function ProjectRow(id: Id, title: string, status: Option<ProjectStatus>, startDate: Option<Date>,
                      printDeadline: Option<Date>, launchDate: Option<Date>, now: Timestamp): (p: Project)
    ensures p.id == id && p.title == title
    ensures p.status == (if status.Some? then status.value else Planning)
    ensures p.start_date == startDate && p.print_deadline == printDeadline && p.launch_date == launchDate
    ensures p.created_at == now && p.updated_at == now
  {
    Project(id, title, status.GetOr(Planning), startDate, printDeadline, launchDate, now, now)
  }

  function SectionRow(id: Id, projectId: Id, title: string, version: Option<int>, status: Option<SectionStatus>,
                      contentText: Option<string>, orderIndex: Option<int>): (s: Section)
    ensures s.id == id && s.project_id == projectId && s.title == title
    ensures s.version == (if version.Some? then version.value else 1)
    ensures s.status == (if status.Some? then status.value else Draft)
    ensures s.content_text == contentText
    ensures s.order_index == (if orderIndex.Some? then orderIndex.value else 0)
  {
    Section(id, projectId, title, version.GetOr(1), status.GetOr(Draft), contentText, orderIndex.GetOr(0))
  }

  function AssetRow(id: Id, projectId: Id, assetType: AssetType, filePath: string, rights: Option<RightsStatus>,
                    creditLine: Option<string>, scope: Option<UsageScope>, selected: Option<bool>): (a: Asset)
    ensures a.id == id && a.project_id == projectId && a.asset_type == assetType && a.file_path == filePath
    ensures a.rights_status == (if rights.Some? then rights.value else Unknown)
    ensures a.credit_line == creditLine
    ensures a.usage_scope == (if scope.Some? then scope.value else Print)
    ensures a.is_selected_for_book == (selected.Some? && selected.value)
  {
    Asset(id, projectId, assetType, filePath, rights.GetOr(Unknown), creditLine, scope.GetOr(Print), selected.GetOr(false))
  }

  function OpportunityRow(id: Id, funder: string, programme: string, deadline: Date, status: Option<FundingStatus>,
                          eligibility: Option<Json>, budgetRules: Option<Json>): (o: FundingOpportunity)
    ensures o.id == id && o.funder_name == funder && o.programme_name == programme && o.deadline == deadline
    ensures o.status == (if status.Some? then status.value else ToReview)
    ensures o.eligibility_criteria == eligibility && o.budget_rules == budgetRules
  {
    FundingOpportunity(id, funder, programme, deadline, status.GetOr(ToReview), eligibility, budgetRules)
  }

  function ApplicationRow(id: Id, opportunityId: Id, narrative: Option<string>, budget: Option<Json>,
                          status: Option<SubmissionStatus>, finalApproval: Option<bool>): (a: ApplicationPackage)
    ensures a.id == id && a.opportunity_id == opportunityId
    ensures a.narrative_draft == narrative && a.budget_json == budget
    ensures a.submission_status == (if status.Some? then status.value else SubmissionDraft)
    ensures a.final_approval == (finalApproval.Some? && finalApproval.value)
  {
    ApplicationPackage(id, opportunityId, narrative, budget, status.GetOr(SubmissionDraft), finalApproval.GetOr(false))
  }

  /** A row inserted with nothing but its required columns takes every default of models.py. */
  lemma DefaultsWhenNothingGiven(id: Id, projectId: Id, title: string, path: string, t: AssetType,
                                 funder: string, programme: string, deadline: Date, now: Timestamp)
    ensures ProjectRow(id, title, None, None, None, None, now).status == Planning
    ensures var s := SectionRow(id, projectId, title, None, None, None, None);
      s.version == 1 && s.status == Draft && s.order_index == 0 && s.content_text == None
    ensures var a := AssetRow(id, projectId, t, path, None, None, None, None);
      a.rights_status == Unknown && a.usage_scope == Print && !a.is_selected_for_book && a.credit_line == None
    ensures OpportunityRow(id, funder, programme, deadline, None, None, None).status == ToReview
    ensures var p := ApplicationRow(id, projectId, None, None, None, None);
      p.submission_status == SubmissionDraft && !p.final_approval
  {
  }
}
