/**
 * The grepSearch tool (grep_search): a LIKE search over one report's
 * artifact rows, optionally restricted to some artifact types, case
 * sensitive or not. Its answers and errors use the shared error response.
 */
module GrepSearchTool {
  import opened Values
  import opened Sql
  import opened SharedUtils

  // ---------------------------------------------------------------------------
  // String helpers: `str.strip()` and `str.lower()`

  /** The characters for which Python's `str.isspace()` holds. */
  predicate IsSpace(ch: char) {
    || ch == ' '
    || ('\t' <= ch <= '\r')
    || ('\U{1C}' <= ch <= '\U{1F}')
    || ch == '\U{85}' || ch == '\U{A0}' || ch == '\U{1680}'
    || ('\U{2000}' <= ch <= '\U{200A}')
    || ch == '\U{2028}' || ch == '\U{2029}' || ch == '\U{202F}' || ch == '\U{205F}' || ch == '\U{3000}'
  }

  /** The number of whitespace characters at the start of `s`. */
  function LeadingSpaces(s: string): (k: nat)
    ensures k <= |s| && (k == |s| || !IsSpace(s[k]))
    ensures forall i :: 0 <= i < k ==> IsSpace(s[i])
    decreases |s|
  {
    if s != [] && IsSpace(s[0]) then
      var k := 1 + LeadingSpaces(s[1..]);
      assert forall i :: 1 <= i < k ==> s[i] == s[1..][i - 1];
      k
    else 0
  }

  /** The length of `s` without the whitespace at its end. */
  function TrailingStart(s: string): (k: nat)
    ensures k <= |s| && (k == 0 || !IsSpace(s[k - 1]))
    ensures forall i :: k <= i < |s| ==> IsSpace(s[i])
    decreases |s|
  {
    if s != [] && IsSpace(s[|s| - 1]) then
      var init := s[..|s| - 1];
      var k := TrailingStart(init);
      assert forall i :: k <= i < |init| ==> s[i] == init[i];
      k
    else |s|
  }

  /** `s.strip()`: without its leading and trailing whitespace. */
  function Strip(s: string): string {
    var i := LeadingSpaces(s);
    var rest := s[i..];
    rest[..TrailingStart(rest)]
  }

  /**
   * The stripped pattern is the original with only whitespace removed at
   * both ends, and it neither starts nor ends with whitespace.
   */
  lemma StripSound(s: string)
    ensures var i := LeadingSpaces(s);
      var j := i + TrailingStart(s[i..]);
      && i <= j <= |s|
      && Strip(s) == s[i..j]
      && (forall k :: 0 <= k < i || j <= k < |s| ==> IsSpace(s[k]))
      && (Strip(s) == "" || (!IsSpace(Strip(s)[0]) && !IsSpace(Strip(s)[|Strip(s)| - 1])))
  {
    var i := LeadingSpaces(s);
    var rest := s[i..];
    var j := i + TrailingStart(rest);
    assert Strip(s) == s[i..j];
    TrailingSpaces(s, i);
    StripTrimmed(s);
  }

  /** The stripped text neither starts nor ends with whitespace. */
  lemma StripTrimmed(s: string)
    ensures Strip(s) == "" || (!IsSpace(Strip(s)[0]) && !IsSpace(Strip(s)[|Strip(s)| - 1]))
  {
    var i := LeadingSpaces(s);
    var rest := s[i..];
    var t := Strip(s);
    if t != "" {
      assert t[0] == rest[0] == s[i];
      assert t[|t| - 1] == rest[TrailingStart(rest) - 1];
    }
  }

  /** The whitespace that ends `s[i..]` ends `s`. */
  lemma TrailingSpaces(s: string, i: nat)
    requires i <= |s|
    ensures forall k :: i + TrailingStart(s[i..]) <= k < |s| ==> IsSpace(s[k])
  {
    var rest := s[i..];
    forall k | i + TrailingStart(rest) <= k < |s|
      ensures IsSpace(s[k])
    {
      assert s[k] == rest[k - i];
    }
  }

  /** The stripped pattern is empty exactly when the original is all whitespace. */
  lemma StripEmpty(s: string)
    ensures Strip(s) == "" <==> forall k :: 0 <= k < |s| ==> IsSpace(s[k])
  {
    StripSound(s);
    var i := LeadingSpaces(s);
    if i < |s| {
      assert !IsSpace(s[i]);
      var rest := s[i..];
      assert rest[0] == s[i];
      assert TrailingStart(rest) > 0;
    }
  }

  /** `str.lower()` on one character: the ASCII capitals become small letters. */
  function LowerChar(ch: char): char {
    if 'A' <= ch <= 'Z' then (ch as int + 32) as char else ch
  }

  /** `s.lower()`, position by position. */
  function Lower(s: string): (r: string)
    ensures |r| == |s| && forall i :: 0 <= i < |s| ==> r[i] == LowerChar(s[i])
  {
    seq(|s|, i requires 0 <= i < |s| => LowerChar(s[i]))
  }

  /** Lowering twice is lowering once, and lowering leaves no ASCII capital. */
  lemma LowerIdempotent(s: string)
    ensures Lower(Lower(s)) == Lower(s)
    ensures forall i :: 0 <= i < |s| ==> !('A' <= Lower(s)[i] <= 'Z')
  {
  }

  // ---------------------------------------------------------------------------
  // The statements

  const ReportSelectSql: string := "SELECT job_name FROM reports WHERE job_name = "
  const LimitOneSql: string := " LIMIT 1"
  const SearchSelectSql: string :=
    "SELECT ad.row_index, ad.data_json, at.file_name, at.id as artifact_type_id FROM artifact_data ad "
    + "JOIN artifact_types at ON ad.artifact_type_id = at.id WHERE "
  const JobEqualsSql: string := "ad.job_name = "
  const IdInSql: string := "ad.artifact_type_id IN ("
  const CloseSql: string := ")"
  const IdEqualsSql: string := "ad.artifact_type_id = "
  const LikeSql: string := "ad.data_json LIKE "
  const LowerLikeSql: string := "LOWER(ad.data_json) LIKE "
  const OrderByFileSql: string := "ORDER BY at.file_name, ad.row_index"
  const OrderByRowSql: string := "ORDER BY ad.row_index"

  /** Whether the report exists. */
  function ReportQuery(jobName: Json): (q: SqlQuery)
    ensures WellFormed(q) && q.params == [jobName]
  {
    PlaceholdersAppend(Lit(ReportSelectSql), Param());
    PlaceholdersAppend(Lit(ReportSelectSql) + Param(), Lit(LimitOneSql));
    SqlQuery(Lit(ReportSelectSql) + Param() + Lit(LimitOneSql), [jobName])
  }

  /** The artifact type condition: none for no id, an IN list for a list, an equality for one id. */
  function IdConditions(artifactTypeId: Json): (r: seq<seq<SqlPart>>)
    ensures PlaceholdersOfAll(r) == |IdParams(artifactTypeId)|
  {
    match artifactTypeId
    case JNull => []
    case JList(ids) =>
      var cond := Lit(IdInSql) + MarkList(|ids|) + Lit(CloseSql);
      PlaceholdersAppend(Lit(IdInSql), MarkList(|ids|));
      PlaceholdersAppend(Lit(IdInSql) + MarkList(|ids|), Lit(CloseSql));
      assert [cond][1..] == [];
      [cond]
    case _ =>
      var cond := Lit(IdEqualsSql) + Param();
      PlaceholdersAppend(Lit(IdEqualsSql), Param());
      assert [cond][1..] == [];
      [cond]
  }

  /** The parameters of the artifact type condition. */
  function IdParams(artifactTypeId: Json): seq<Json> {
    match artifactTypeId
    case JNull => []
    case JList(ids) => ids
    case _ => [artifactTypeId]
  }

  /** The ordering: by file and row unless one single id is asked for. */
  function OrderBy(artifactTypeId: Json): string {
    if artifactTypeId.JNull? || artifactTypeId.JList? then OrderByFileSql
    else OrderByRowSql
  }

  /** The pattern condition: case sensitive, or on the lowered column. */
  function PatternCondition(caseSensitive: bool): (r: seq<SqlPart>)
    ensures Placeholders(r) == 1
  {
    var column := if caseSensitive then LikeSql else LowerLikeSql;
    PlaceholdersAppend(Lit(column), Param());
    Lit(column) + Param()
  }

  /** The LIKE parameter: the pattern (lowered for a case-insensitive search) between `%` wildcards. */
  function PatternParam(pattern: string, caseSensitive: bool): Json {
    JStr("%" + (if caseSensitive then pattern else Lower(pattern)) + "%")
  }

  /** The first condition, on the job name. */
  function JobCondition(): (r: seq<SqlPart>)
    ensures Placeholders(r) == 1
  {
    PlaceholdersAppend(Lit(JobEqualsSql), Param());
    Lit(JobEqualsSql) + Param()
  }

  /** The search statement from its conditions, their parameters and the ordering. */
  function Assemble(conditions: seq<seq<SqlPart>>, orderBy: string, params: seq<Json>): SqlQuery {
    SqlQuery(Lit(SearchSelectSql)
             + JoinParts(conditions, " AND ") + Lit(" " + orderBy + " LIMIT ") + Param(),
             params)
  }

  /** The search statement as grep_search assembles it. */
  function SearchQuery(jobName: Json, artifactTypeId: Json, pattern: string, caseSensitive: bool, limit: Json): (q: SqlQuery)
    ensures q.params == [jobName] + IdParams(artifactTypeId) + [PatternParam(pattern, caseSensitive), limit]
  {
    Assemble([JobCondition()] + IdConditions(artifactTypeId) + [PatternCondition(caseSensitive)],
             OrderBy(artifactTypeId),
             [jobName] + IdParams(artifactTypeId) + [PatternParam(pattern, caseSensitive), limit])
  }

  /**
   * Every `?` of the search statement has its parameter: the job name, the
   * ids, the LIKE pattern and, last, the limit.
   */
  lemma SearchQueryWellFormed(jobName: Json, artifactTypeId: Json, pattern: string, caseSensitive: bool, limit: Json)
    ensures var q := SearchQuery(jobName, artifactTypeId, pattern, caseSensitive, limit);
      WellFormed(q) && q.params[|q.params| - 1] == limit
  {
    var ids := IdConditions(artifactTypeId);
    var conditions := [JobCondition()] + ids + [PatternCondition(caseSensitive)];
    PlaceholdersOfAllAppend([JobCondition()], ids);
    PlaceholdersOfAllAppend([JobCondition()] + ids, [PatternCondition(caseSensitive)]);
    assert [JobCondition()][1..] == [] && [PatternCondition(caseSensitive)][1..] == [];
    JoinKeepsPlaceholders(conditions, " AND ");
    var select := Lit(SearchSelectSql);
    var tail := Lit(" " + OrderBy(artifactTypeId) + " LIMIT ");
    PlaceholdersAppend(select, JoinParts(conditions, " AND "));
    PlaceholdersAppend(select + JoinParts(conditions, " AND "), tail);
    PlaceholdersAppend(select + JoinParts(conditions, " AND ") + tail, Param());
  }

  /**
   * How the artifact type id shapes the search: none adds no condition and
   * orders by file and row; a list adds one IN condition with one placeholder
   * per id and binds the ids; one id adds an equality condition, binds it and
   * orders by row only.
   */
  lemma IdShapes(artifactTypeId: Json)
    ensures artifactTypeId.JNull? ==>
      IdConditions(artifactTypeId) == [] && IdParams(artifactTypeId) == [] && OrderBy(artifactTypeId) == OrderByFileSql
    ensures artifactTypeId.JList? ==>
      && |IdConditions(artifactTypeId)| == 1
      && Placeholders(IdConditions(artifactTypeId)[0]) == |artifactTypeId.items|
      && IdParams(artifactTypeId) == artifactTypeId.items
      && OrderBy(artifactTypeId) == OrderByFileSql
    ensures !artifactTypeId.JNull? && !artifactTypeId.JList? ==>
      && |IdConditions(artifactTypeId)| == 1
      && Placeholders(IdConditions(artifactTypeId)[0]) == 1
      && IdParams(artifactTypeId) == [artifactTypeId]
      && OrderBy(artifactTypeId) == OrderByRowSql
  {
    var conditions := IdConditions(artifactTypeId);
    if conditions != [] {
      assert conditions[1..] == [];
      assert PlaceholdersOfAll(conditions) == Placeholders(conditions[0]) + PlaceholdersOfAll(conditions[1..]);
    }
  }

  // ---------------------------------------------------------------------------
  // The matches

  /** One fetched row as a match: the data decoded when it is text, kept with `parse_error` when it does not decode. */
  function MatchEntry(c: Codec, row: seq<Json>): (r: Outcome<Json>)
    ensures r.Returned? <==> |row| >= 4
  {
    if |row| < 4 then Raised("tuple index out of range")
    else
      var decoded := if row[1].JStr? then c.loads(row[1].s) else Some(row[1]);
      match decoded
      case Some(data) =>
        Returned(JObj(map["row_index" := row[0], "data_json" := data, "file_name" := row[2], "artifact_type_id" := row[3]]))
      case None =>
        Returned(JObj(map["row_index" := row[0], "data_json" := row[1], "file_name" := row[2], "artifact_type_id" := row[3],
                          "parse_error" := JBool(true)]))
  }

  /** The matches of all rows, in order, or the first short row's exception. */
  function Matches(c: Codec, rows: seq<seq<Json>>): (r: Outcome<seq<Json>>)
    ensures r.Returned? ==> |r.value| == |rows| && forall i :: 0 <= i < |rows| ==> Returned(r.value[i]) == MatchEntry(c, rows[i])
    ensures r.Returned? <==> forall i :: 0 <= i < |rows| ==> |rows[i]| >= 4
    decreases |rows|
  {
    if rows == [] then Returned([])
    else
      var init := rows[..|rows| - 1];
      assert forall i :: 0 <= i < |init| ==> init[i] == rows[i];
      var found :- Matches(c, init);
      var entry :- MatchEntry(c, rows[|rows| - 1]);
      Returned(found + [entry])
  }

  lemma {:induction false} FirstShortRowDecides(c: Codec, rows: seq<seq<Json>>, k: nat)
    requires k <= |rows| && Matches(c, rows[..k]).Raised?
    ensures Matches(c, rows) == Matches(c, rows[..k])
    decreases |rows| - k
  {
    if k < |rows| {
      var init := rows[..|rows| - 1];
      assert init[..k] == rows[..k];
      FirstShortRowDecides(c, init, k);
    } else {
      assert rows[..k] == rows;
    }
  }

  // ---------------------------------------------------------------------------
  // The tool

  /** The values grep_search reads from its input, or the exception of reading them. */
  datatype GrepInput = GrepInput(jobName: Json, pattern: string, artifactTypeId: Json, limit: Json, caseSensitive: Json)

  /**
   * The input reads, in order: `input_data["job_name"]`,
   * `input_data["pattern"].strip()`, `.get("artifact_type_id")`,
   * `["limit"]` and `["case_sensitive"]`. They happen before the `try`, so a
   * missing key or a value of the wrong type raises.
   */
  function ReadInput(input: Json): Outcome<GrepInput> {
    var jobName :- Subscript(input, "job_name");
    var rawPattern :- Subscript(input, "pattern");
    if !rawPattern.JStr? then Raised("AttributeError: '" + TypeName(rawPattern) + "' object has no attribute 'strip'")
    else
      var artifactTypeId :- GetMethod(input, "artifact_type_id", JNull);
      var limit :- Subscript(input, "limit");
      var caseSensitive :- Subscript(input, "case_sensitive");
      Returned(GrepInput(jobName, Strip(rawPattern.s), artifactTypeId, limit, caseSensitive))
  }

  /** The `database_error` response for an exception inside the `try`. */
  function DatabaseError(message: string): Dict {
    BuildErrorResponse("database_error", "Database error: " + message, map[])
  }

  /** The success response of a search that fetched `rows`. */
  function Found(g: GrepInput, found: seq<Json>): Dict {
    map["success" := JBool(true), "matches" := JList(found), "count" := JInt(|found|),
        "pattern" := JStr(g.pattern), "job_name" := g.jobName, "artifact_type_id" := g.artifactTypeId]
  }

  /** The response once the search statement has run. */
  function SearchResponse(c: Codec, g: GrepInput, fetched: DbResult): Dict {
    match fetched
    case DbError(message) => DatabaseError(message)
    case Rows(rows) =>
      match Matches(c, rows)
      case Raised(error) => DatabaseError(error)
      case Returned(found) => Found(g, found)
  }

  /** The search statement for the values read from the input. */
  function SearchOf(g: GrepInput): SqlQuery {
    SearchQuery(g.jobName, g.artifactTypeId, g.pattern, Truthy(g.caseSensitive), g.limit)
  }

  /** No report row: `cursor.fetchone()` is None or an empty tuple. */
  predicate NoReport(reports: seq<seq<Json>>) {
    reports == [] || reports[0] == []
  }

  /** The validation error for a pattern that is empty after stripping. */
  function EmptyPatternError(): Dict {
    BuildErrorResponse("validation_error", "Search pattern cannot be empty", map[])
  }

  /** The error for a job name without a report. */
  function ReportNotFound(c: Codec, jobName: Json): Dict {
    BuildErrorResponse("report_not_found", "Report '" + Str(c, jobName) + "' not found", map[])
  }

  /** The part of grep_search after the pattern check: the report check, then the search. */
  function CheckedSearch(c: Codec, db: Db, g: GrepInput): (Outcome<Dict>, seq<SqlQuery>) {
    var check := ReportQuery(g.jobName);
    match db(check)
    case DbError(message) => (Returned(DatabaseError(message)), [check])
    case Rows(reports) =>
      if NoReport(reports) then (Returned(ReportNotFound(c, g.jobName)), [check])
      else (Returned(SearchResponse(c, g, db(SearchOf(g)))), [check, SearchOf(g)])
  }

  /**
   * grep_search as a function of its input: the response, or the exception,
   * together with the statements it ran, in order.
   */
  function GrepSearchResult(c: Codec, db: Db, input: Json): (Outcome<Dict>, seq<SqlQuery>) {
    match ReadInput(input)
    case Raised(error) => (Raised(error), [])
    case Returned(g) =>
      if g.pattern == "" then (Returned(EmptyPatternError()), [])
      else CheckedSearch(c, db, g)
  }

  /** The search statement, built from conditions and parameters appended one by one. */
  method BuildSearch(g: GrepInput) returns (search: SqlQuery)
    ensures search == SearchOf(g)
  {
    var artifactTypeId := g.artifactTypeId;
    var conditions := [JobCondition()];
    var params := [g.jobName];
    var orderBy;
    if artifactTypeId.JNull? {
      orderBy := OrderByFileSql;
    } else if artifactTypeId.JList? {
      conditions := conditions + [Lit(IdInSql) + MarkList(|artifactTypeId.items|) + Lit(CloseSql)];
      params := params + artifactTypeId.items;
      orderBy := OrderByFileSql;
    } else {
      conditions := conditions + [Lit(IdEqualsSql) + Param()];
      params := params + [artifactTypeId];
      orderBy := OrderByRowSql;
    }
    assert conditions == [JobCondition()] + IdConditions(artifactTypeId);
    assert params == [g.jobName] + IdParams(artifactTypeId);
    if Truthy(g.caseSensitive) {
      conditions := conditions + [Lit(LikeSql) + Param()];
      params := params + [JStr("%" + g.pattern + "%")];
    } else {
      conditions := conditions + [Lit(LowerLikeSql) + Param()];
      params := params + [JStr("%" + Lower(g.pattern) + "%")];
    }
    params := params + [g.limit];
    search := Assemble(conditions, orderBy, params);
  }

  /** The matches, collected row by row. */
  method CollectMatches(c: Codec, rows: seq<seq<Json>>) returns (r: Outcome<seq<Json>>)
    ensures r == Matches(c, rows)
  {
    var matches: seq<Json> := [];
    for i := 0 to |rows|
      invariant Matches(c, rows[..i]) == Returned(matches)
    {
      var entry := MatchEntry(c, rows[i]);
      assert rows[..i + 1][..i] == rows[..i];
      if entry.Raised? {
        FirstShortRowDecides(c, rows, i + 1);
        return Raised(entry.error);
      }
      matches := matches + [entry.value];
    }
    assert rows[..|rows|] == rows;
    r := Returned(matches);
  }

  /** The report check and the search of grep_search's `try`. */
  method RunCheckedSearch(c: Codec, db: Db, g: GrepInput) returns (r: Outcome<Dict>, queries: seq<SqlQuery>)
    ensures r == CheckedSearch(c, db, g).0
    ensures queries == CheckedSearch(c, db, g).1
  {
    var check := ReportQuery(g.jobName);
    queries := [check];
    var reports := db(check);
    if reports.DbError? {
      return Returned(DatabaseError(reports.message)), queries;
    }
    if NoReport(reports.rows) {
      return Returned(ReportNotFound(c, g.jobName)), queries;
    }
    var search := BuildSearch(g);
    queries := queries + [search];
    var fetched := db(search);
    if fetched.DbError? {
      return Returned(DatabaseError(fetched.message)), queries;
    }
    var found := CollectMatches(c, fetched.rows);
    if found.Raised? {
      return Returned(DatabaseError(found.error)), queries;
    }
    r := Returned(Found(g, found.value));
  }

  /** grep_search: read the input, reject an empty pattern, then check the report and search. */
  method GrepSearch(c: Codec, db: Db, input: Json) returns (r: Outcome<Dict>, queries: seq<SqlQuery>)
    ensures r == GrepSearchResult(c, db, input).0
    ensures queries == GrepSearchResult(c, db, input).1
  {
    var read := ReadInput(input);
    if read.Raised? {
      return Raised(read.error), [];
    }
    var g := read.value;
    if g.pattern == "" {
      return Returned(EmptyPatternError()), [];
    }
    r, queries := RunCheckedSearch(c, db, g);
  }

  // ---------------------------------------------------------------------------
  // Properties

  /** A pattern that is empty after stripping is a validation error, and no statement runs. */
  lemma EmptyPatternTouchesNoDatabase(c: Codec, db: Db, input: Json)
    requires ReadInput(input).Returned? && ReadInput(input).value.pattern == ""
    ensures GrepSearchResult(c, db, input) == (Returned(EmptyPatternError()), [])
  {
  }

  /** An unknown report is reported before the search statement is ever run. */
  lemma UnknownReportStopsEarly(c: Codec, db: Db, g: GrepInput)
    requires db(ReportQuery(g.jobName)) == Rows([])
    ensures CheckedSearch(c, db, g) == (Returned(ReportNotFound(c, g.jobName)), [ReportQuery(g.jobName)])
    ensures ReportNotFound(c, g.jobName)["error_type"] == JStr("report_not_found")
    ensures !Truthy(ReportNotFound(c, g.jobName)["success"])
  {
    PlainErrorResponse("report_not_found", "Report '" + Str(c, g.jobName) + "' not found");
  }

  /**
   * Every statement the checked search runs is well formed: the existence
   * check binds the job name, and the search, which runs only after the
   * check found the report, binds the limit last.
   */
  lemma CheckedStatementsWellFormed(c: Codec, db: Db, g: GrepInput)
    ensures var queries := CheckedSearch(c, db, g).1;
      && 1 <= |queries| <= 2
      && (forall i :: 0 <= i < |queries| ==> WellFormed(queries[i]))
      && queries[0] == ReportQuery(g.jobName)
      && (|queries| == 2 ==>
            && db(queries[0]).Rows? && !NoReport(db(queries[0]).rows)
            && queries[1] == SearchOf(g)
            && queries[1].params[|queries[1].params| - 1] == g.limit)
  {
    SearchQueryWellFormed(g.jobName, g.artifactTypeId, g.pattern, Truthy(g.caseSensitive), g.limit);
  }

  /** grep_search runs at most those two statements, and none when reading the input or the pattern check fails. */
  lemma StatementsWellFormed(c: Codec, db: Db, input: Json)
    ensures var queries := GrepSearchResult(c, db, input).1;
      && |queries| <= 2
      && (forall i :: 0 <= i < |queries| ==> WellFormed(queries[i]))
      && (queries != [] ==> ReadInput(input).Returned? && ReadInput(input).value.pattern != ""
                            && queries == CheckedSearch(c, db, ReadInput(input).value).1)
  {
    if ReadInput(input).Returned? && ReadInput(input).value.pattern != "" {
      CheckedStatementsWellFormed(c, db, ReadInput(input).value);
    }
  }

  /**
   * The matches have one entry per fetched row, in order; a row whose text
   * does not decode is kept as it is, with `parse_error` set to True.
   */
  lemma MatchesShape(c: Codec, rows: seq<seq<Json>>)
    requires forall i :: 0 <= i < |rows| ==> |rows[i]| >= 4
    ensures var found := Matches(c, rows).value;
      && |found| == |rows|
      && forall i :: 0 <= i < |rows| ==>
           && found[i].JObj?
           && found[i].fields["row_index"] == rows[i][0]
           && found[i].fields["file_name"] == rows[i][2]
           && found[i].fields["artifact_type_id"] == rows[i][3]
           && ("parse_error" in found[i].fields <==> rows[i][1].JStr? && c.loads(rows[i][1].s).None?)
           && ("parse_error" in found[i].fields ==> found[i].fields["parse_error"] == JBool(true))
           && (found[i].fields["data_json"] ==
                 if rows[i][1].JStr? && c.loads(rows[i][1].s).Some? then c.loads(rows[i][1].s).value else rows[i][1])
  {
    var found := Matches(c, rows).value;
    forall i | 0 <= i < |rows|
      ensures found[i] == MatchEntry(c, rows[i]).value
    {
      assert Returned(found[i]) == MatchEntry(c, rows[i]);
    }
  }

  /** A found report and a failing search statement give the `database_error` response. */
  lemma SearchErrorResponse(c: Codec, db: Db, g: GrepInput, message: string)
    requires db(ReportQuery(g.jobName)).Rows? && !NoReport(db(ReportQuery(g.jobName)).rows)
    requires db(SearchOf(g)) == DbError(message)
    ensures var r := CheckedSearch(c, db, g).0;
      && r == Returned(DatabaseError(message))
      && r.value.Keys == {"success", "error", "error_type"}
      && r.value["success"] == JBool(false)
      && r.value["error_type"] == JStr("database_error")
  {
    PlainErrorResponse("database_error", "Database error: " + message);
  }

  /** A found report and a short fetched row give the `database_error` response with the row's exception. */
  lemma ShortRowResponse(c: Codec, db: Db, g: GrepInput, rows: seq<seq<Json>>)
    requires db(ReportQuery(g.jobName)).Rows? && !NoReport(db(ReportQuery(g.jobName)).rows)
    requires db(SearchOf(g)) == Rows(rows) && Matches(c, rows).Raised?
    ensures var r := CheckedSearch(c, db, g).0;
      && r == Returned(DatabaseError(Matches(c, rows).error))
      && r.value["success"] == JBool(false)
      && r.value["error_type"] == JStr("database_error")
  {
    PlainErrorResponse("database_error", "Database error: " + Matches(c, rows).error);
  }

  /**
   * A found report and fetched rows that all give matches: `success` true,
   * the matches, their count, the stripped pattern and the echoed filters.
   */
  lemma SuccessResponse(c: Codec, db: Db, g: GrepInput, rows: seq<seq<Json>>)
    requires db(ReportQuery(g.jobName)).Rows? && !NoReport(db(ReportQuery(g.jobName)).rows)
    requires db(SearchOf(g)) == Rows(rows) && Matches(c, rows).Returned?
    ensures var r := CheckedSearch(c, db, g).0;
      var found := Matches(c, rows).value;
      && r.Returned?
      && r.value.Keys == {"success", "matches", "count", "pattern", "job_name", "artifact_type_id"}
      && r.value["success"] == JBool(true)
      && r.value["matches"] == JList(found)
      && r.value["count"] == JInt(|found|)
      && |found| == |rows|
      && r.value["pattern"] == JStr(g.pattern)
      && r.value["job_name"] == g.jobName
      && r.value["artifact_type_id"] == g.artifactTypeId
  {
  }

  /** A successful checked search echoes the pattern it searched for. */
  lemma CheckedSuccessEchoesPattern(c: Codec, db: Db, g: GrepInput)
    ensures var r := CheckedSearch(c, db, g).0;
      r.Returned? && "success" in r.value && r.value["success"] == JBool(true) ==>
        "pattern" in r.value && r.value["pattern"] == JStr(g.pattern)
  {
    match db(ReportQuery(g.jobName))
    case DbError(message) =>
      PlainErrorResponse("database_error", "Database error: " + message);
    case Rows(reports) =>
      if NoReport(reports) {
        PlainErrorResponse("report_not_found", "Report '" + Str(c, g.jobName) + "' not found");
      } else {
        match db(SearchOf(g))
        case DbError(message) => SearchErrorResponse(c, db, g, message);
        case Rows(rows) =>
          if Matches(c, rows).Raised? { ShortRowResponse(c, db, g, rows); } else { SuccessResponse(c, db, g, rows); }
      }
  }

  /** A successful response echoes the pattern as stripped from the input. */
  lemma SuccessEchoesStrippedPattern(c: Codec, db: Db, input: Json)
    ensures var r := GrepSearchResult(c, db, input).0;
      r.Returned? && "success" in r.value && r.value["success"] == JBool(true) ==>
        && input.JObj? && "pattern" in input.fields && input.fields["pattern"].JStr?
        && "pattern" in r.value && r.value["pattern"] == JStr(Strip(input.fields["pattern"].s))
  {
    match ReadInput(input)
    case Raised(_) =>
    case Returned(g) =>
      assert input.JObj? && "pattern" in input.fields && input.fields["pattern"].JStr?;
      assert g.pattern == Strip(input.fields["pattern"].s);
      if g.pattern == "" {
        PlainErrorResponse("validation_error", "Search pattern cannot be empty");
      } else {
        assert GrepSearchResult(c, db, input) == CheckedSearch(c, db, g);
        CheckedSuccessEchoesPattern(c, db, g);
      }
  }

  /** The pattern is used as given for a case-sensitive search, and lowered against the lowered column otherwise. */
  lemma CaseHandling(pattern: string, caseSensitive: bool)
    ensures caseSensitive ==> PatternCondition(caseSensitive) == [Text(LikeSql), Mark]
                                && PatternParam(pattern, caseSensitive) == JStr("%" + pattern + "%")
    ensures !caseSensitive ==> PatternCondition(caseSensitive) == [Text(LowerLikeSql), Mark]
                                 && PatternParam(pattern, caseSensitive) == JStr("%" + Lower(pattern) + "%")
  {
  }
}
