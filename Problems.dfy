/**
 * The problem catalogue: the problems table, its slug rule (trimmed,
 * lower-cased and unique), its test-file rule (at least one file, no blank
 * path or content), the comma-joined tag column, partial updates and the
 * one-time seeding of a sample problem.
 */
module Problems {
  import opened Base
  import opened Strings
  import opened Models
  import Submissions

  datatype ProblemError =
    | NoTestFiles      // the request has no test file
    | BlankTestFile    // a test file has a blank path or blank content
    | SlugTaken        // another problem already has the normalised slug
    | IdTaken          // the generated id is already a primary key

  datatype CreateProblemRequest = CreateProblemRequest(
    title: string,
    slug: string,
    description: string,
    difficulty: string,
    language: Language,
    tags: seq<string>,
    testFiles: FileMap,
    starterCode: Option<string>)

  /** A partial update: `None` leaves the column as it is. */
  datatype UpdateProblemRequest = UpdateProblemRequest(
    title: Option<string>,
    description: Option<string>,
    difficulty: Option<string>,
    language: Option<Language>,
    tags: Option<seq<string>>,
    testFiles: Option<FileMap>,
    starterCode: Option<string>)

  /** A row of the problems table: tags are one comma-joined text column. */
  datatype ProblemRow = ProblemRow(
    id: string,
    slug: string,
    title: string,
    description: string,
    difficulty: string,
    language: Language,
    tags: string,
    testFiles: FileMap,
    starterCode: Option<string>,
    evaluationCriteria: EvaluationCriteria,
    performanceTarget: Option<int>,
    createdAt: int,
    updatedAt: int)

  const DefaultCriteria: EvaluationCriteria := EvaluationCriteria(40, 20, 20, 20)
  const DefaultPerformanceTarget: int := 150

  // ---------------------------------------------------------------------------
  // Slugs

  /** `normalizeSlug`: trimmed, then lower-cased. */
  function NormalizeSlug(slug: string): string
  {
    Lower(Trim(slug))
  }

  /** A normalised slug has no surrounding whitespace and no upper-case ASCII letter, and normalising it again changes nothing. */
  lemma NormalizeSlugIdempotent(slug: string)
    ensures var n := NormalizeSlug(slug);
      NormalizeSlug(n) == n
      && (n == [] || (!IsWhitespace(n[0]) && !IsWhitespace(n[|n| - 1])))
      && forall i :: 0 <= i < |n| ==> !('A' <= n[i] <= 'Z')
  {
    var t := Trim(slug);
    var n := Lower(t);
    TrimEnds(slug);
    if |n| > 0 {
      LowerKeepsWhitespace(t[0]);
      LowerKeepsWhitespace(t[|t| - 1]);
    }
    TrimOfTrimmed(n);
    LowerIdempotent(t);
  }

  // ---------------------------------------------------------------------------
  // Test files

  /** The two `require`s on test files: at least one, and none with a blank path or content. */
  function CheckTestFiles(files: FileMap): Outcome<ProblemError>
  {
    if files == map[] then Fail(NoTestFiles)
    else if exists path | path in files :: IsBlank(path) || IsBlank(files[path]) then Fail(BlankTestFile)
    else Pass
  }

  lemma CheckTestFilesIff(files: FileMap)
    ensures CheckTestFiles(files) == Pass <==>
      files != map[] && forall path :: path in files ==> !IsBlank(path) && !IsBlank(files[path])
    ensures CheckTestFiles(files) == Fail(NoTestFiles) <==> files == map[]
  {
  }

  // ---------------------------------------------------------------------------
  // The tag column

  /** `joinToString(",")`. */
  function EncodeTags(tags: seq<string>): string
  {
    Join(tags, ",")
  }

  function NonBlank(parts: seq<string>): (r: seq<string>)
    ensures |r| <= |parts|
    ensures forall k :: 0 <= k < |r| ==> !IsBlank(r[k]) && r[k] in parts
  {
    if |parts| == 0 then []
    else if IsBlank(parts[0]) then NonBlank(parts[1..])
    else [parts[0]] + NonBlank(parts[1..])
  }

  /** `split(",").filter { it.isNotBlank() }`. */
  function DecodeTags(column: string): (r: seq<string>)
    ensures forall k :: 0 <= k < |r| ==> !IsBlank(r[k]) && ',' !in r[k]
  {
    NonBlank(Split(column, ','))
  }

  predicate StorableTag(tag: string)
  {
    !IsBlank(tag) && ',' !in tag
  }

  lemma {:induction false} NonBlankKeepsAll(parts: seq<string>)
    requires forall k :: 0 <= k < |parts| ==> !IsBlank(parts[k])
    ensures NonBlank(parts) == parts
  {
    if |parts| > 0 {
      NonBlankKeepsAll(parts[1..]);
    }
  }

  /** Non-blank tags without commas read back exactly as they were stored. */
  lemma TagsRoundTrip(tags: seq<string>)
    requires forall k :: 0 <= k < |tags| ==> StorableTag(tags[k])
    ensures DecodeTags(EncodeTags(tags)) == tags
  {
    if |tags| == 0 {
      assert Split("", ',') == [""];
      assert IsBlank("");
    } else {
      SplitJoin(tags, ',');
      NonBlankKeepsAll(tags);
    }
  }

  /** Whatever the column holds, storing what was read and reading it again gives the same tags. */
  lemma TagsDecodeStable(column: string)
    ensures DecodeTags(EncodeTags(DecodeTags(column))) == DecodeTags(column)
  {
    TagsRoundTrip(DecodeTags(column));
  }

  // ---------------------------------------------------------------------------
  // Rows

  /** `toProblem`: the tag column is decoded; the JSON columns are taken as they were stored. */
  function ToProblem(row: ProblemRow): Problem
  {
    Problem(row.id, row.slug, row.title, row.description, row.difficulty, row.language, DecodeTags(row.tags),
            row.testFiles, row.starterCode, row.evaluationCriteria, row.performanceTarget, row.createdAt, row.updatedAt)
  }

  /** The row `createProblem` inserts. */
  function NewRow(id: string, request: CreateProblemRequest, now: int): ProblemRow
  {
    ProblemRow(id, NormalizeSlug(request.slug), request.title, request.description, request.difficulty,
               request.language, EncodeTags(request.tags), request.testFiles, request.starterCode,
               DefaultCriteria, Some(DefaultPerformanceTarget), now, now)
  }

  /** A created problem reads back with the normalised slug, the request's storable tags and test files, and the default criteria. */
  lemma NewRowReadsBack(id: string, request: CreateProblemRequest, now: int)
    requires forall k :: 0 <= k < |request.tags| ==> StorableTag(request.tags[k])
    ensures var p := ToProblem(NewRow(id, request, now));
      p.id == id && p.slug == NormalizeSlug(request.slug) && p.tags == request.tags
      && p.testFiles == request.testFiles && p.starterCode == request.starterCode
      && p.evaluationCriteria == DefaultCriteria && p.performanceTarget == Some(150)
      && p.createdAt == now && p.updatedAt == now
  {
    TagsRoundTrip(request.tags);
  }

  /** The `update` body: every column the request names is overwritten, updatedAt is refreshed. */
  function ApplyUpdate(row: ProblemRow, request: UpdateProblemRequest, now: int): ProblemRow
  {
    row.(
      title := if request.title.Some? then request.title.value else row.title,
      description := if request.description.Some? then request.description.value else row.description,
      difficulty := if request.difficulty.Some? then request.difficulty.value else row.difficulty,
      language := if request.language.Some? then request.language.value else row.language,
      tags := if request.tags.Some? then EncodeTags(request.tags.value) else row.tags,
      testFiles := if request.testFiles.Some? then request.testFiles.value else row.testFiles,
      starterCode := if request.starterCode.Some? then request.starterCode else row.starterCode,
      updatedAt := now)
  }

  /**
   * An update never touches the id, the slug, the criteria, the performance
   * target or the creation time; an empty request only refreshes updatedAt;
   * and applying the same request twice is the same as applying it once.
   */
  lemma ApplyUpdateProperties(row: ProblemRow, request: UpdateProblemRequest, now: int, later: int)
    ensures var u := ApplyUpdate(row, request, now);
      u.id == row.id && u.slug == row.slug && u.evaluationCriteria == row.evaluationCriteria
      && u.performanceTarget == row.performanceTarget && u.createdAt == row.createdAt && u.updatedAt == now
    ensures ApplyUpdate(row, UpdateProblemRequest(None, None, None, None, None, None, None), now) == row.(updatedAt := now)
    ensures ApplyUpdate(ApplyUpdate(row, request, now), request, later) == ApplyUpdate(row, request, later)
  {
  }

  /** The columns a request names read back as requested. */
  lemma ApplyUpdateReadsBack(row: ProblemRow, request: UpdateProblemRequest, now: int)
    requires request.tags.Some? ==> forall k :: 0 <= k < |request.tags.value| ==> StorableTag(request.tags.value[k])
    ensures var p := ToProblem(ApplyUpdate(row, request, now));
      (request.title.Some? ==> p.title == request.title.value)
      && (request.tags.Some? ==> p.tags == request.tags.value)
      && (request.tags.None? ==> p.tags == DecodeTags(row.tags))
      && (request.testFiles.Some? ==> p.testFiles == request.testFiles.value)
      && (request.starterCode.Some? ==> p.starterCode == request.starterCode)
      && (request.starterCode.None? ==> p.starterCode == row.starterCode)
  {
    if request.tags.Some? {
      TagsRoundTrip(request.tags.value);
    }
  }

  // ---------------------------------------------------------------------------
  // The table invariant

  predicate SlugInUse(rows: map<string, ProblemRow>, slug: string)
  {
    exists id | id in rows :: rows[id].slug == slug
  }

  /** Every row is stored under its id, and the unique index on slug holds. */
  ghost predicate WellKeyed(rows: map<string, ProblemRow>)
  {
    (forall id :: id in rows ==> rows[id].id == id)
    && (forall a, b :: a in rows && b in rows && rows[a].slug == rows[b].slug ==> a == b)
  }

  /** Inserting a row whose id and slug are both free keeps the table well keyed. */
  lemma InsertKeepsKeys(rows: map<string, ProblemRow>, row: ProblemRow)
    requires WellKeyed(rows) && row.id !in rows && !SlugInUse(rows, row.slug)
    ensures WellKeyed(rows[row.id := row])
  {
  }

  /** Updating a row in place keeps the table well keyed, since no update changes the id or the slug. */
  lemma UpdateKeepsKeys(rows: map<string, ProblemRow>, id: string, request: UpdateProblemRequest, now: int)
    requires WellKeyed(rows) && id in rows
    ensures WellKeyed(rows[id := ApplyUpdate(rows[id], request, now)])
  {
    var rows' := rows[id := ApplyUpdate(rows[id], request, now)];
    forall a, b | a in rows' && b in rows' && rows'[a].slug == rows'[b].slug
      ensures a == b
    {
      assert rows'[a].slug == rows[a].slug && rows'[b].slug == rows[b].slug;
    }
  }

  // ---------------------------------------------------------------------------
  // Seeding

  /** The long texts of the sample problem, which the model does not spell out. */
  datatype SampleText = SampleText(description: string, testCode: string, starterCode: string)

  const SampleSlug: string := "kotlin-shopping-cart"
  const SampleTags: seq<string> := ["kotlin", "service", "testing"]
  const SampleTestPath: string := "src/test/kotlin/ShoppingCartTest.kt"

  function SampleRow(id: string, now: int, text: SampleText): ProblemRow
  {
    ProblemRow(id, SampleSlug, "장바구니 서비스 구현", text.description, "MEDIUM", KOTLIN, EncodeTags(SampleTags),
               map[SampleTestPath := text.testCode], Some(text.starterCode), DefaultCriteria,
               Some(DefaultPerformanceTarget), now, now)
  }

  /** `seedDefaults`: the sample goes into an empty table only. */
  function Seeded(rows: map<string, ProblemRow>, id: string, now: int, text: SampleText): map<string, ProblemRow>
  {
    if rows == map[] then map[id := SampleRow(id, now, text)] else rows
  }

  /** Seeding a second time changes nothing, whatever id and time it draws. */
  lemma SeedIdempotent(rows: map<string, ProblemRow>, id1: string, now1: int, id2: string, now2: int, text: SampleText)
    ensures var once := Seeded(rows, id1, now1, text);
      Seeded(once, id2, now2, text) == once
      && once != map[]
      && (rows != map[] ==> once == rows)
  {
    if rows == map[] {
      assert id1 in Seeded(rows, id1, now1, text);
    }
  }

  /** The seeded table is well keyed and its one problem reads back with the sample's three tags. */
  lemma SeedReadsBack(id: string, now: int, text: SampleText)
    ensures WellKeyed(Seeded(map[], id, now, text))
    ensures ToProblem(Seeded(map[], id, now, text)[id]).tags == SampleTags
  {
    assert StorableTag(SampleTags[0]) by { assert !IsWhitespace(SampleTags[0][0]); }
    assert StorableTag(SampleTags[1]) by { assert !IsWhitespace(SampleTags[1][0]); }
    assert StorableTag(SampleTags[2]) by { assert !IsWhitespace(SampleTags[2][0]); }
    TagsRoundTrip(SampleTags);
  }

  // ---------------------------------------------------------------------------
  // The service

  class ProblemCatalogue {
    /** The problems table, by id. */
    var rows: map<string, ProblemRow>

    ghost predicate Valid()
      reads this
    {
      WellKeyed(rows)
    }

    constructor()
      ensures rows == map[] && Valid()
    {
      rows := map[];
    }

    /** `getProblem`. */
    function GetProblem(id: string): (r: Option<Problem>)
      reads this
      ensures r.Some? <==> id in rows
      ensures r.Some? ==> r.value == ToProblem(rows[id])
    {
      if id in rows then Some(ToProblem(rows[id])) else None
    }

    /** `listProblems` (the query's order is not modelled). */
    function ListProblems(): (r: set<Problem>)
      reads this
      ensures forall p :: p in r <==> exists id :: id in rows && p == ToProblem(rows[id])
    {
      set id | id in rows :: ToProblem(rows[id])
    }

    /**
     * `createProblem`: test files are checked first, then the normalised
     * slug must be free; the new row gets the default criteria and
     * performance target and equal creation and update times.
     */
    method CreateProblem(request: CreateProblemRequest, id: string, now: int) returns (r: Result<Problem, ProblemError>)
      requires Valid()
      modifies this
      ensures Valid()
      ensures CheckTestFiles(request.testFiles).Fail? ==>
        r == Err(CheckTestFiles(request.testFiles).error) && rows == old(rows)
      ensures CheckTestFiles(request.testFiles).Pass? && SlugInUse(old(rows), NormalizeSlug(request.slug)) ==>
        r == Err(SlugTaken) && rows == old(rows)
      ensures CheckTestFiles(request.testFiles).Pass? && !SlugInUse(old(rows), NormalizeSlug(request.slug)) && id in old(rows) ==>
        r == Err(IdTaken) && rows == old(rows)
      ensures CheckTestFiles(request.testFiles).Pass? && !SlugInUse(old(rows), NormalizeSlug(request.slug)) && id !in old(rows) ==>
        rows == old(rows)[id := NewRow(id, request, now)] && r == Ok(ToProblem(NewRow(id, request, now)))
    {
      var check := CheckTestFiles(request.testFiles);
      if check.Fail? {
        return Err(check.error);
      }
      var slug := NormalizeSlug(request.slug);
      if SlugInUse(rows, slug) {
        return Err(SlugTaken);
      }
      if id in rows {
        return Err(IdTaken);
      }
      var row := NewRow(id, request, now);
      InsertKeepsKeys(rows, row);
      rows := rows[id := row];
      var created := GetProblem(id);
      r := Ok(created.value);
    }

    /**
     * `updateProblem`: invalid test files make the whole update throw, so
     * nothing changes; otherwise the result is absent exactly when no row
     * has the id.
     */
    method UpdateProblem(id: string, request: UpdateProblemRequest, now: int) returns (r: Result<Option<Problem>, ProblemError>)
      requires Valid()
      modifies this
      ensures Valid()
      ensures request.testFiles.Some? && CheckTestFiles(request.testFiles.value).Fail? ==>
        r == Err(CheckTestFiles(request.testFiles.value).error) && rows == old(rows)
      ensures (request.testFiles.None? || CheckTestFiles(request.testFiles.value).Pass?) && id !in old(rows) ==>
        r == Ok(None) && rows == old(rows)
      ensures (request.testFiles.None? || CheckTestFiles(request.testFiles.value).Pass?) && id in old(rows) ==>
        rows == old(rows)[id := ApplyUpdate(old(rows)[id], request, now)]
        && r == Ok(Some(ToProblem(rows[id])))
    {
      if request.testFiles.Some? {
        var check := CheckTestFiles(request.testFiles.value);
        if check.Fail? {
          return Err(check.error);
        }
      }
      if id !in rows {
        return Ok(None);
      }
      UpdateKeepsKeys(rows, id, request, now);
      rows := rows[id := ApplyUpdate(rows[id], request, now)];
      r := Ok(GetProblem(id));
    }

    /**
     * `deleteProblem`: true exactly when a row had the id. The submissions to
     * a deleted problem go with it, and their executions with them (the
     * schema declares both references `ON DELETE CASCADE`).
     */
    method DeleteProblem(id: string, submissions: Submissions.SubmissionStore) returns (removed: bool)
      requires Valid() && submissions.Valid()
      modifies this, submissions
      ensures Valid() && submissions.Valid()
      ensures removed <==> id in old(rows)
      ensures rows == old(rows) - {id}
      ensures var gone := if id in old(rows) then old(submissions.SubmissionsOf(id)) else {};
        submissions.rows == old(submissions.rows) - gone
        && submissions.executions == Submissions.Cascade(old(submissions.executions), gone)
    {
      removed := id in rows;
      var gone := if removed then submissions.SubmissionsOf(id) else {};
      rows := rows - {id};
      submissions.DeleteSubmissions(gone);
    }

    /** `seedDefaults`: inserts the sample problem into an empty table, and does nothing otherwise. */
    method SeedDefaults(id: string, now: int, text: SampleText)
      requires Valid()
      modifies this
      ensures Valid()
      ensures rows == Seeded(old(rows), id, now, text)
    {
      if rows != map[] {
        return;
      }
      SeedReadsBack(id, now, text);
      rows := map[id := SampleRow(id, now, text)];
    }
  }
}
