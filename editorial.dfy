/**
 * The editorial agent (backend/app/agents/editorial.py): creating sections,
 * saving their content, locking them once they pass the consistency checks,
 * and the early answers of the AI review.
 */
module Editorial {
  import opened Basics
  import opened Models
  import opened Text
  import Query
  import opened Store

  const TooShortError := "Content is too short to lock."
  const TodoError := "Section contains TODOs."
  const SectionNotFound := "Section not found"
  const NoContentReply := "No content to review."
  const NoKeyReply := "OpenAI API Key not configured."

  /** The fewest characters, after stripping whitespace, a section needs to be locked. */
  const MinLockLength := 10

  /**
   * `_run_checks`: the problems that keep a section from being locked, in the
   * order they are found. A missing text counts as the empty text.
   */
  function RunChecks(s: Section): (errors: seq<string>)
    ensures TooShortError in errors <==> |Strip(s.content_text.GetOr(""))| < MinLockLength
    ensures TodoError in errors <==> Contains(s.content_text.GetOr(""), "TODO")
    ensures forall e :: e in errors ==> e == TooShortError || e == TodoError
    ensures |errors| <= 2 && (|errors| == 2 ==> errors == [TooShortError, TodoError])
    ensures errors == [] <==> |Strip(s.content_text.GetOr(""))| >= MinLockLength && !Contains(s.content_text.GetOr(""), "TODO")
  {
    var content := s.content_text.GetOr("");
    (if |Strip(content)| < MinLockLength then [TooShortError] else [])
      + (if Contains(content, "TODO") then [TodoError] else [])
  }

  /** However long it is, text made only of whitespace is too short to lock. */
  lemma WhitespaceIsTooShort(s: Section)
    requires AllSpace(s.content_text.GetOr(""))
    ensures TooShortError in RunChecks(s)
  {
    StripEmptyIffAllSpace(s.content_text.GetOr(""));
  }

  /** A section after `update_content(content)`: the new text and the next version; nothing else changes. */
  function Saved(s: Section, content: string): (r: Section)
    ensures r.content_text == Some(content) && r.version == s.version + 1
    ensures r.(content_text := s.content_text, version := s.version) == s
  {
    s.(content_text := Some(content), version := s.version + 1)
  }

  /** A section after the saves of `contents`, one after another. */
  function SavedAll(s: Section, contents: seq<string>): Section
    decreases |contents|
  {
    if contents == [] then s else SavedAll(Saved(s, contents[0]), contents[1..])
  }

  /**
   * The version counts the saves exactly, every save applies whatever the
   * status (a Locked section included), and the last save's text is the one
   * kept.
   */
  lemma {:induction false} VersionCountsSaves(s: Section, contents: seq<string>)
    ensures SavedAll(s, contents).version == s.version + |contents|
    ensures SavedAll(s, contents).status == s.status
    ensures contents != [] ==> SavedAll(s, contents).content_text == Some(contents[|contents| - 1])
    ensures contents == [] ==> SavedAll(s, contents) == s
    decreases |contents|
  {
    if contents != [] {
      VersionCountsSaves(Saved(s, contents[0]), contents[1..]);
      if |contents| > 1 {
        assert contents[1..][|contents[1..]| - 1] == contents[|contents| - 1];
      }
    }
  }

  /**
   * The outcome of `lock_section` on a stored section: the checks' errors,
   * and the section, whose status becomes Locked exactly when there are none.
   * Nothing but the status ever changes.
   */
  function LockAttempt(s: Section): (r: (Section, seq<string>))
    ensures r.1 == RunChecks(s)
    ensures r.0.(status := s.status) == s
    ensures r.0.status == (if r.1 == [] then Locked else s.status)
  {
    var errors := RunChecks(s);
    if errors == [] then (s.(status := Locked), errors) else (s, errors)
  }

  /** Locking again changes nothing: a Locked section that passes stays Locked and the lock succeeds again. */
  lemma LockIsIdempotent(s: Section)
    ensures LockAttempt(LockAttempt(s).0) == LockAttempt(s)
  {
  }

  /** A section as `create_section` leaves it, with the empty text, cannot be locked: it is too short. */
  lemma NewSectionCannotLock(s: Section)
    requires s.content_text == Some("")
    ensures LockAttempt(s).1 == [TooShortError] && LockAttempt(s).0 == s
  {
    assert !Contains("", "TODO");
  }

  /**
   * The editing flow of the end-to-end test: once "E2E Draft Content" is
   * saved into a section, whatever its text was, the lock succeeds and
   * keeps that text.
   */
  lemma SavedDraftLocks(s: Section)
    ensures var locked := LockAttempt(Saved(s, "E2E Draft Content"));
            locked.1 == [] && locked.0.status == Locked && locked.0.content_text == Some("E2E Draft Content")
            && locked.0.version == s.version + 1
  {
    var text := "E2E Draft Content";
    StripOfTrimmed(text);
    NotContainsWithoutFirst(text, "TODO");
    assert RunChecks(Saved(s, text)) == [];
  }

  /** What `review_section` answers itself, and what it hands to the critique model. */
  datatype ReviewReply =
    | Reply(text: string)       // an answer the agent gives without the model
    | Critique(content: string) // the text sent to the external model, whose feedback is returned as is

  class EditorialAgent {
    const db: Database
    /** Whether a language model client exists: only when OPENAI_API_KEY is set and not empty. */
    const llmConfigured: bool

    constructor (db: Database, apiKey: Option<string>)
      ensures this.db == db
      ensures llmConfigured <==> apiKey.Some? && apiKey.value != ""
    {
      this.db := db;
      llmConfigured := apiKey.Some? && apiKey.value != "";
    }

    /** `get_section`: the stored section with that id, if any. */
    function GetSection(sectionId: Id): (r: Option<Section>)
      reads db
      ensures r.Some? <==> sectionId in db.sections
      ensures r.Some? ==> r.value == db.sections[sectionId]
    {
      if sectionId in db.sections then Some(db.sections[sectionId]) else None
    }

    /** `get_sections`: exactly the project's sections, each once, by ascending order_index. */
    function GetSections(projectId: Id): (r: seq<Section>)
      reads db
      requires db.Valid()
      ensures forall s :: s in r <==> s in db.sections.Values && s.project_id == projectId
      ensures Query.Distinct(r)
      ensures forall i, j :: 0 <= i < j < |r| ==> r[i].order_index <= r[j].order_index
    {
      Query.RowsOfKeyedTable(db.sections, SectionKey, db.nextId);
      Query.SortBy(Query.Filter(Query.Rows(db.sections, db.nextId), (s: Section) => s.project_id == projectId),
                   (s: Section) => s.order_index)
    }

    /**
     * `review_section`, up to the model call: a missing section or an empty
     * text gets "No content to review.", a missing key gets "OpenAI API Key
     * not configured.", and otherwise the text goes to the model. It reads
     * the store and changes nothing.
     */
    function ReviewSection(sectionId: Id): (r: ReviewReply)
      reads db
      ensures (sectionId !in db.sections || db.sections[sectionId].content_text.GetOr("") == []) ==>
                r == Reply(NoContentReply)
      ensures sectionId in db.sections && db.sections[sectionId].content_text.GetOr("") != [] ==>
                r == if llmConfigured then Critique(db.sections[sectionId].content_text.value) else Reply(NoKeyReply)
    {
      var section := GetSection(sectionId);
      if section.None? || section.value.content_text.GetOr("") == [] then Reply(NoContentReply)
      else if !llmConfigured then Reply(NoKeyReply)
      else Critique(section.value.content_text.value)
    }

    /**
     * `create_section`: stores a new Draft section of the project at version
     * 1 with empty text and the given title and order_index.
     */
    method CreateSection(projectId: Id, title: string, orderIndex: int := 0) returns (s: Section)
      requires db.Valid()
      modifies db`sections, db`nextId
      ensures db.Valid()
      ensures s.id !in old(db.sections) && db.sections == old(db.sections)[s.id := s]
      ensures s.project_id == projectId && s.title == title && s.order_index == orderIndex
      ensures s.status == Draft && s.version == 1 && s.content_text == Some("")
    {
      var id := db.NewId();
      s := SectionRow(id, projectId, title, Some(1), Some(Draft), Some(""), Some(orderIndex));
      db.sections := db.sections[id := s];
    }

    /**
     * `update_content`: on a stored section, sets the text and bumps the
     * version, whatever the status; on an unknown id, answers None and
     * changes nothing.
     */
    method UpdateContent(sectionId: Id, content: string) returns (r: Option<Section>)
      requires db.Valid()
      modifies db`sections
      ensures db.Valid()
      ensures sectionId !in old(db.sections) ==> r == None && db.sections == old(db.sections)
      ensures sectionId in old(db.sections) ==>
                r == Some(Saved(old(db.sections)[sectionId], content)) && db.sections == old(db.sections)[sectionId := r.value]
    {
      r := GetSection(sectionId);
      if r.Some? {
        var section := r.value;
        section := section.(content_text := Some(content));
        section := section.(version := section.version + 1);
        db.sections := db.sections[sectionId := section];
        r := Some(section);
      }
    }

    /**
     * `lock_section`: an unknown id answers (None, ["Section not found"]);
     * otherwise the checks run and the section is Locked exactly when they
     * find nothing, and the errors are answered with the section.
     */
    method LockSection(sectionId: Id) returns (s: Option<Section>, errors: seq<string>)
      requires db.Valid()
      modifies db`sections
      ensures db.Valid()
      ensures sectionId !in old(db.sections) ==>
                s == None && errors == [SectionNotFound] && db.sections == old(db.sections)
      ensures sectionId in old(db.sections) ==>
                s.Some? && (s.value, errors) == LockAttempt(old(db.sections)[sectionId])
                && db.sections == old(db.sections)[sectionId := s.value]
    {
      var found := GetSection(sectionId);
      if found.None? {
        return None, [SectionNotFound];
      }
      var section := found.value;
      errors := RunChecks(section);
      if errors == [] {
        section := section.(status := Locked);
        db.sections := db.sections[sectionId := section];
      }
      s := Some(section);
    }
  }
}
