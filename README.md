# Mono-Grant-OS backend core in Dafny

This project models the backend of a small studio system for producing a
monograph. Projects hold text sections and media assets, and a funding
desk tracks grant opportunities with one application package each. Four
agents act on a shared database:

- the project orchestrator;
- the editorial agent, which saves sections and locks them once they pass
  its checks;
- the funding agent;
- the archive agent, which indexes a directory of media files as assets.

A thin HTTP layer turns agent failures into 400 and 404 responses. It also
serves a dashboard query and a development utility that wipes the funding
tables.

The model has these parts:

- `Models` holds the entities of `backend/app/models.py`. Each enumeration
  carries its values, the strings the API reads and writes (the database
  columns hold the member names). The five records are datatypes, and
  row builders apply the column defaults.
- `Store.Database` is the session. It is a class with one map per table
  (primary key to row) and a counter that hands out fresh keys.
- `Query` holds the SQL shapes the agents use: a scan in key order, WHERE,
  ORDER BY (a stable insertion sort) and LIMIT.
- `Text` and `PosixPath` hold the Python string and path operations the
  agents call: `str.strip`, `in` on strings, `str.lower`,
  `os.path.splitext` and `os.path.join`.
- `Editorial`, `Funding`, `Archive` and `Orchestrator` each hold one agent
  class. Its getters are functions that read the database. Its mutators are
  methods that modify only the tables they touch. Each agent class comes
  with the pure functions that specify it and lemmas about them.
- `Endpoints` holds the response mapping, the dashboard query and the
  clear utility.

Some files around the backend suggest behaviour that the backend's code
does not have. The model follows the backend's code:

- Saving a section's text has no status guard. Only the section page of the
  frontend (`frontend/src/app/sections/[id]/page.tsx:99,128`) disables its
  controls for a Locked section.
- Sections have no submit, approve or reject transitions. Only the script
  `verify_production.py:88-108` calls such endpoints, and the API does not
  define them.

The duplicate check of `scan_directory` asks the store as it was when the
scan began, because the session does not autoflush
(`backend/app/core/database.py:27`). Assets added earlier in the same scan
are not yet visible to that query.

## Model

| member | source | states |
|---|---|---|
| Models.ParseSectionStatus | backend/app/models.py:16-19 | exactly "Draft", "Review" and "Locked" name a section status, and each value looks up the status it belongs to, as `SectionStatus(v)` does |
| Models.ParseSubmissionStatus | backend/app/models.py:46-49 | exactly "Draft", "Approved" and "Submitted" name a submission status, and each value looks up the status it belongs to, as `SubmissionStatus(v)` does |
| Models.StatusesRoundTrip | backend/app/models.py:16-49 | looking a section or submission status up by its own value gives it back, so distinct statuses have distinct values |
| Models.ProjectRow | backend/app/models.py:52-62 | a new project row keeps the given title and dates; its status defaults to Planning; both timestamps are the insert time |
| Models.SectionRow | backend/app/models.py:67-76 | a new section row defaults to version 1, status Draft and order_index 0 |
| Models.AssetRow | backend/app/models.py:80-90 | a new asset row defaults to rights Unknown, usage Print, not selected for the book and no credit line |
| Models.OpportunityRow | backend/app/models.py:94-103 | a new opportunity row defaults to status "To Review" |
| Models.ApplicationRow | backend/app/models.py:107-115 | a new application row defaults to submission status Draft and no final approval |
| Models.DefaultsWhenNothingGiven | backend/app/models.py:52-115 | a row inserted with only its required columns takes every default of the five tables at once |
| Query.RowsOfKeyedTable | backend/app/agents/funding.py:26-29 | the scan of a table lists every stored row exactly once and nothing else |
| Query.RowsCountTable | backend/app/api/endpoints.py:96 | the scan of a table has as many rows as the table, so a row count is the table's size |
| Query.Filter | backend/app/agents/editorial.py:55-57 | WHERE keeps exactly the rows satisfying the condition, never more rows than it was given, and keeps rows distinct |
| Query.SortBy | backend/app/agents/editorial.py:58 | ORDER BY returns a permutation of its input (same multiset) that is ascending in the key |
| Query.Limit | backend/app/api/endpoints.py:97 | LIMIT n is the prefix of length min(n, length) |
| Query.TopBy | backend/app/api/endpoints.py:97 | WHERE, ORDER BY, LIMIT n gives at most n matching rows in ascending key order; no matching row left out has a smaller key than a kept one; with fewer than n results every matching row is kept |
| Query.LimitOfSortedKeepsSmallest | backend/app/api/endpoints.py:97 | the first n rows of a sorted result have keys no larger than any row left out |
| Store.Database.NewId | backend/app/models.py:55 | a drawn primary key is used by no table, and later draws differ from it |
| Store.Database.AddAsset | backend/app/agents/archive.py:44-46 | adding an asset under its fresh key keeps every table keyed by its rows' ids |
| Store.Database.DeleteProject | backend/app/models.py:64-65 | deleting a project removes exactly it, its sections and its assets, and keeps every other row |
| Store.Database.DeleteOpportunity | backend/app/models.py:105 | deleting an opportunity removes exactly it and its application packages |
| Text.Strip | backend/app/agents/editorial.py:99 | strip returns a contiguous slice with only whitespace cut from both ends, and the result neither starts nor ends with whitespace |
| Text.StripEmptyIffAllSpace | backend/app/agents/editorial.py:99 | a text strips to nothing exactly when it is all whitespace |
| Text.StripOfTrimmed | backend/app/agents/editorial.py:99 | a text with no whitespace at either end strips to itself |
| Text.Contains | backend/app/agents/editorial.py:104 | the substring test holds exactly when the needle occurs at some position |
| Text.NotContainsWithoutFirst | backend/app/agents/editorial.py:104 | a text lacking the needle's first character does not contain the needle |
| Text.Lower | backend/app/agents/archive.py:21 | lower-casing keeps the length, leaves no capital letter, turns each capital into its small letter and keeps every other character |
| Text.LowerIsIdempotent | backend/app/agents/archive.py:21 | lower-casing twice is lower-casing once |
| Text.LowerMatches | backend/app/agents/archive.py:21 | a text lower-cases to a word without capitals exactly when it matches that word ignoring ASCII case |
| PosixPath.SplitExt | backend/app/agents/archive.py:21 | splitext splits the name into root + ext; ext is empty or starts at the last dot of the final component with a non-dot before it, and is empty only when no such dot exists |
| PosixPath.LeadingDotIsNotAnExtension | backend/app/agents/archive.py:21 | a name such as ".png", whose only dot leads, has no extension and so is never indexed |
| PosixPath.Join | backend/app/agents/archive.py:23 | an absolute file name replaces the directory; otherwise the result is the directory and the name, with one '/' put between them exactly when the directory is non-empty and does not end in '/' |
| Editorial.RunChecks | backend/app/agents/editorial.py:93-107 | "too short" is reported iff the stripped text (missing = "") has under 10 characters; "contains TODOs" is reported iff the raw text contains "TODO"; errors come in that order, at most two, and there are none iff both checks pass |
| Editorial.WhitespaceIsTooShort | backend/app/agents/editorial.py:99-100 | text made only of whitespace is always too short to lock, however long |
| Editorial.Saved | backend/app/agents/editorial.py:67-75 | a save sets the text and increments the version, and leaves every other field as it was |
| Editorial.VersionCountsSaves | backend/app/agents/editorial.py:67-75 | after any sequence of saves the version has grown by their number, the status is unchanged and the last text is kept |
| Editorial.LockAttempt | backend/app/agents/editorial.py:77-91 | a lock answers the checks' errors and sets Locked exactly when there are none; nothing but the status ever changes |
| Editorial.LockIsIdempotent | backend/app/agents/editorial.py:77-91 | locking a second time gives the same section and the same errors; a Locked section that passes locks again |
| Editorial.NewSectionCannotLock | backend/app/agents/editorial.py:38-51 | a section as created, with the empty text, fails the lock as too short and is left as it was |
| Editorial.SavedDraftLocks | backend/tests/test_main.py:55-72 | after saving "E2E Draft Content" into any section the lock succeeds, keeps that text and shows one more version |
| Editorial.EditorialAgent.constructor | backend/app/agents/editorial.py:16-18 | a language model is configured exactly when the API key is set and non-empty |
| Editorial.EditorialAgent.GetSection | backend/app/agents/editorial.py:62-65 | the stored section with that id, or none when the id is unknown |
| Editorial.EditorialAgent.GetSections | backend/app/agents/editorial.py:53-60 | exactly the project's sections, each once, in non-decreasing order_index |
| Editorial.EditorialAgent.ReviewSection | backend/app/agents/editorial.py:20-27 | a missing section or empty text answers "No content to review."; otherwise a missing key answers "OpenAI API Key not configured."; otherwise the text goes to the model; the store is only read |
| Editorial.EditorialAgent.CreateSection | backend/app/agents/editorial.py:38-51 | a new section under a fresh key with the given project, title and order_index, status Draft, version 1 and text "" |
| Editorial.EditorialAgent.UpdateContent | backend/app/agents/editorial.py:67-75 | on a stored section the table holds `Saved` of it, whatever its status; an unknown id answers none and changes nothing |
| Editorial.EditorialAgent.LockSection | backend/app/agents/editorial.py:77-91 | an unknown id answers (none, ["Section not found"]) with no change; otherwise the table holds `LockAttempt` of the section and the errors are returned |
| Funding.Patched | backend/app/agents/funding.py:68-73 | each of narrative, budget and status is overwritten only when given; id, opportunity and final approval never change |
| Funding.LaterUpdateWins | backend/app/agents/funding.py:68-73 | two updates in a row equal one update where the later given values win, and an update with nothing given is no change |
| Funding.AddingKeepsOnePerOpportunity | backend/app/agents/funding.py:37-52 | adding a package for an opportunity that has none keeps at most one package per opportunity |
| Funding.PatchKeepsOnePerOpportunity | backend/app/agents/funding.py:62-77 | updating a package keeps at most one package per opportunity |
| Funding.FundingAgent.GetOpportunities | backend/app/agents/funding.py:26-29 | every stored opportunity exactly once, in non-decreasing deadline order |
| Funding.FundingAgent.GetOpportunity | backend/app/agents/funding.py:31-33 | the stored opportunity with that id, or none |
| Funding.FundingAgent.GetApplication | backend/app/agents/funding.py:58-60 | the stored package with that id, or none |
| Funding.FundingAgent.GetApplicationByOpportunity | backend/app/agents/funding.py:54-56 | a stored package of that opportunity exactly when one exists, or none |
| Funding.FundingAgent.CreateOpportunity | backend/app/agents/funding.py:11-24 | a new opportunity under a fresh key with the given funder, programme and deadline, status "To Review" and empty eligibility and budget rules |
| Funding.FundingAgent.CreateApplication | backend/app/agents/funding.py:35-52 | fails with "Application already exists for this opportunity" and no change iff the opportunity has a package; otherwise stores a Draft package with narrative "", budget {} and no approval; keeps one package per opportunity |
| Funding.FundingAgent.UpdateApplication | backend/app/agents/funding.py:62-77 | an unknown id answers none and changes nothing; otherwise the table holds `Patched` of the package, whatever its current status; keeps one package per opportunity |
| Archive.AssetTypeFor | backend/app/agents/archive.py:17-30 | an extension is indexed iff it is one of .jpg .jpeg .png .pdf .mp3 .wav; the first three give Photo, .mp3 and .wav give Audio, .pdf gives VerificationDoc, and Poster and Menu never arise |
| Archive.Classify | backend/app/agents/archive.py:21-23 | a file of the walk is seen under its joined path; it has a type exactly when its splitext extension equals one of the six indexed extensions ignoring ASCII case, and then the type is that extension's |
| Archive.ScanGrowsByAdded | backend/app/agents/archive.py:44-52 | a scan keeps every stored asset as it was, and the table grows by exactly the returned assets under fresh consecutive keys |
| Archive.ScanAddsNewMediaOnly | backend/app/agents/archive.py:21-45 | every added asset belongs to the project, has the path and type of a media file of the walk not yet indexed, and carries rights Unknown, usage Print, no credit line and no selection |
| Archive.ScanIndexesEveryMediaFile | backend/app/agents/archive.py:19-45 | after a scan every media file of the walk has an asset of the project with its path |
| Archive.RescanAddsNothing | backend/app/agents/archive.py:32-35 | scanning an unchanged directory a second time adds nothing and leaves the table as it is |
| Archive.ScanKeepsPathsUnique | backend/app/agents/archive.py:32-45 | if no two assets of a project share a path before a scan, none do after it, for a walk that lists each path once |
| Archive.WithMetadata | backend/app/agents/archive.py:63-64 | the rights status and credit line are replaced, and nothing else changes |
| Archive.ArchiveAgent.GetAssets | backend/app/agents/archive.py:54-57 | exactly the project's assets, each once |
| Archive.ArchiveAgent.ScanDirectory | backend/app/agents/archive.py:11-52 | a missing directory fails with "Directory not found: " + path and changes nothing; otherwise the table and returned list are those of `Scan` of the walk, in walk order |
| Archive.ArchiveAgent.IndexFile | backend/app/agents/archive.py:32-45 | for one classified file, the duplicate check and insert change the table exactly as one step of `Scan` prescribes |
| Archive.ArchiveAgent.UpdateAssetMetadata | backend/app/agents/archive.py:59-68 | an unknown id answers none and changes nothing; otherwise the table holds `WithMetadata` of the asset (an absent credit line clears it); paths stay unique per project |
| Orchestrator.StatusUpdated | backend/app/agents/orchestrator.py:29-36 | the status is replaced; updated_at moves to the commit time only when the status really changes; nothing else changes |
| Orchestrator.SameStatusIsNoOp | backend/app/agents/orchestrator.py:29-36 | setting the status a project already has changes nothing |
| Orchestrator.UpdateStatusIsIdempotent | backend/app/agents/orchestrator.py:29-36 | setting the same status twice is setting it once |
| Orchestrator.LaterStatusWins | backend/app/agents/orchestrator.py:29-36 | of two different status changes in a row, the second status stays and updated_at is the second time |
| Orchestrator.ProjectOrchestrator.CreateProject | backend/app/agents/orchestrator.py:11-22 | one new project under a fresh key with the title and dates given, status Planning, no launch date and both timestamps now |
| Orchestrator.ProjectOrchestrator.GetProject | backend/app/agents/orchestrator.py:24-27 | the stored project with that id, or none |
| Orchestrator.ProjectOrchestrator.UpdateStatus | backend/app/agents/orchestrator.py:29-36 | an unknown id answers none and changes nothing; otherwise the table holds `StatusUpdated` of the project, with any status allowed after any other |
| Orchestrator.ProjectOrchestrator.ListProjects | backend/app/agents/orchestrator.py:38-41 | every stored project exactly once, newest created_at first |
| Endpoints.DashboardStats | backend/app/api/endpoints.py:92-104 | the count is the number of stored opportunities; upcoming holds at most 3 distinct stored opportunities, all due today or later, in ascending deadline order; they are the earliest such deadlines, and with fewer than 3 every such opportunity is listed |
| Endpoints.ClearAllProjects | backend/app/api/endpoints.py:16-22 | answers 204 after deleting every application and every opportunity; projects, sections and assets are untouched |
| Endpoints.CreateApplication | backend/app/api/endpoints.py:66-72 | 400 with the agent's "already exists" message iff the opportunity has a package, else 201 with the new package |
| Endpoints.GetApplication | backend/app/api/endpoints.py:74-80 | 200 with the stored package, or 404 "Application not found" iff the id is unknown |
| Endpoints.UpdateApplication | backend/app/api/endpoints.py:82-88 | 404 "Application not found" and no change iff the id is unknown, else 200 with the patched package |

## Left out

- The language-model call of `review_section` (backend/app/agents/editorial.py:29-35) is an external service. `ReviewSection` answers `Critique(text)` for the text that would be sent, not the model's reply.
- The opportunity import and research endpoints (backend/app/api/endpoints.py:36-63) call agent methods that are not part of this model. They depend on AI parsing and web search.
- The section, project and archive HTTP routes that the end-to-end test calls are not part of this model. Their agent operations are modelled directly.
- The file system is not modelled. `ScanDirectory` takes two inputs instead: whether the directory exists, and what `os.walk` yields (a sequence of directories with their file names).
- `ScanKeepsPathsUnique` assumes the walk lists each full path once, as `os.walk` does; a walk that repeats a path is not considered.
- Random UUID keys are replaced by a counter, drawn by `Store.Database.NewId`, that never reuses a key. Collisions of random keys are not modelled.
- Clock readings are passed in: the project timestamps and the dashboard's `today` are parameters. The two `utcnow` readings of one insert are taken as one.
- Asynchronous sessions, commits, refreshes and concurrency are left out. Every agent call is one atomic step on the store.
- Foreign keys are not enforced by the store. A section, asset or package may name a project or opportunity that does not exist; PostgreSQL would reject such an insert (the SQLite fallback of `backend/app/core/database.py:14` enforces foreign keys only when they are switched on).
- `FundingOpportunity.deadline` is nullable in the table but never NULL in the model. Every creating path in this core supplies a date. Rows with a NULL deadline would fall out of the dashboard's `>= today` filter.
- ORDER BY leaves ties in an unspecified order. The model breaks ties by key order, and its contracts promise only the order of the sort keys.
- Text.Lower lower-cases ASCII letters only; Python's `str.lower` also maps other letters. No non-ASCII letter lower-cases into one of the six indexed extensions, so which files are indexed does not change. The stored path keeps the original case.
- Editorial.VersionCountsSaves: `version` and `order_index` are 32-bit `Integer` columns (`backend/app/models.py:73,76`), but the model's integers are unbounded. A save past version 2^31-1 would fail at commit, and so would `Editorial.EditorialAgent.CreateSection` with an `order_index` outside the 32-bit range. The model promises neither failure.
- JSON numbers are modelled as `real`; floating-point rounding is left out.
- The response schemas are left out. `get_dashboard_stats` returns a dict without the `counts`, `recent_projects` and `recent_assets` that `DashboardResponse` requires (`backend/app/schemas.py:127-136`), so the real HTTP call fails response validation and answers 500. `Endpoints.DashboardStats` models only the query.
- The frontend, the application wiring in `main.py` and the scripts around the backend are outside this model.
