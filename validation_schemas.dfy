/**
 * The declared input schemas of the tools (validation_schemas): for each
 * tool, its fields with their types, defaults and bounds, and whether keys
 * outside the schema are refused. A schema is data; `Validate` is the
 * validator it denotes: a dict is accepted with its defaults filled in, or
 * rejected with the set of problems found.
 */
module ValidationSchemas {
  import opened Values
  import opened SharedUtils

  datatype Kind = StrKind | IntKind | BoolKind | IntOrIntList

  /** A field's bound: `min_length`, `gt` or `ge`. */
  datatype Constraint = Unconstrained | MinLength(length: nat) | GreaterThan(bound: int) | AtLeast(bound: int)

  /** One declared field: its type, whether `None` is allowed (`Optional`), its default (`None` when required) and its bound. */
  datatype FieldSpec = FieldSpec(kind: Kind, nullable: bool, default: Option<Json>, constraint: Constraint)

  datatype Schema = Schema(fields: map<string, FieldSpec>, forbidExtra: bool)

  datatype Issue = NotADict | Missing(name: string) | WrongType(name: string) | OutOfRange(name: string) | ExtraField(name: string)

  datatype Validation = Accepted(values: Dict) | Rejected(issues: set<Issue>)

  // ---------------------------------------------------------------------------
  // The validator

  predicate HasKind(kind: Kind, v: Json) {
    match kind
    case StrKind => v.JStr?
    case IntKind => v.JInt?
    case BoolKind => v.JBool?
    case IntOrIntList => v.JInt? || (v.JList? && forall i :: 0 <= i < |v.items| ==> v.items[i].JInt?)
  }

  predicate Meets(constraint: Constraint, v: Json) {
    match constraint
    case Unconstrained => true
    case MinLength(n) => v.JStr? && |v.s| >= n
    case GreaterThan(n) => v.JInt? && v.i > n
    case AtLeast(n) => v.JInt? && v.i >= n
  }

  /** The problem with one field of the input, if any. */
  function FieldIssue(name: string, f: FieldSpec, m: Dict): Option<Issue> {
    if name !in m then
      if f.default.None? then Some(Missing(name)) else None
    else
      var v := m[name];
      if v.JNull? && f.nullable then None
      else if !HasKind(f.kind, v) then Some(WrongType(name))
      else if !Meets(f.constraint, v) then Some(OutOfRange(name))
      else None
  }

  /** All problems of a dict: one per bad field, and one per extra key when extras are refused. */
  function Issues(s: Schema, m: Dict): set<Issue> {
    (set name | name in s.fields && FieldIssue(name, s.fields[name], m).Some? :: FieldIssue(name, s.fields[name], m).value)
    + (if s.forbidExtra then set k | k in m && k !in s.fields :: ExtraField(k) else {})
  }

  /** A field's value in an accepted dict: the given one, or its default. */
  function ValueOf(name: string, f: FieldSpec, m: Dict): Json {
    if name in m then m[name] else if f.default.Some? then f.default.value else JNull
  }

  /** Model validation of a tool input. */
  function Validate(s: Schema, input: Json): Validation {
    if !input.JObj? then Rejected({NotADict})
    else
      var m := input.fields;
      var issues := Issues(s, m);
      if issues == {} then Accepted(map name | name in s.fields :: ValueOf(name, s.fields[name], m))
      else Rejected(issues)
  }

  // ---------------------------------------------------------------------------
  // What a schema accepts, stated field by field

  /** A field is fine: present with a value of its type within its bound (or `None` when optional), or absent with a default. */
  predicate FieldOk(f: FieldSpec, present: bool, v: Json) {
    if !present then f.default.Some?
    else (v.JNull? && f.nullable) || (HasKind(f.kind, v) && Meets(f.constraint, v))
  }

  predicate Acceptable(s: Schema, m: Dict) {
    && (forall name :: name in s.fields ==> FieldOk(s.fields[name], name in m, Get(m, name, JNull)))
    && (s.forbidExtra ==> forall k :: k in m ==> k in s.fields)
  }

  /** Each field's own check agrees with FieldOk, and each problem found is reported. */
  lemma FieldIssues(s: Schema, m: Dict)
    ensures forall name :: name in s.fields ==>
      (FieldIssue(name, s.fields[name], m).None? <==> FieldOk(s.fields[name], name in m, Get(m, name, JNull)))
    ensures forall name :: name in s.fields && FieldIssue(name, s.fields[name], m).Some? ==>
      FieldIssue(name, s.fields[name], m).value in Issues(s, m)
    ensures forall k :: s.forbidExtra && k in m && k !in s.fields ==> ExtraField(k) in Issues(s, m)
  {
    forall name | name in s.fields
      ensures FieldIssue(name, s.fields[name], m).None? <==> FieldOk(s.fields[name], name in m, Get(m, name, JNull))
    {
    }
    forall name | name in s.fields && FieldIssue(name, s.fields[name], m).Some?
      ensures FieldIssue(name, s.fields[name], m).value in Issues(s, m)
    {
    }
    forall k | s.forbidExtra && k in m && k !in s.fields
      ensures ExtraField(k) in Issues(s, m)
    {
    }
  }

  /** A dict is accepted exactly when every field is fine and, where extras are refused, it has no other key. */
  lemma ValidateAccepts(s: Schema, m: Dict)
    ensures Validate(s, JObj(m)).Accepted? <==> Acceptable(s, m)
  {
    FieldIssues(s, m);
    var issues := Issues(s, m);
    if issues != {} {
      var issue :| issue in issues;
      if !(exists name :: name in s.fields && FieldIssue(name, s.fields[name], m) == Some(issue)) {
        assert s.forbidExtra && issue.ExtraField? && issue.name in m && issue.name !in s.fields;
      }
    }
  }

  /** An accepted dict has exactly the schema's fields, each with the given value or its default. */
  lemma ValidateValues(s: Schema, m: Dict)
    requires Validate(s, JObj(m)).Accepted?
    ensures var values := Validate(s, JObj(m)).values;
      && values.Keys == s.fields.Keys
      && (forall name :: name in s.fields && name in m ==> values[name] == m[name])
      && (forall name :: name in s.fields && name !in m ==> s.fields[name].default.Some? && values[name] == s.fields[name].default.value)
  {
    FieldIssues(s, m);
  }

  /**
   * A dict is accepted exactly when every field is fine and, where extras
   * are refused, it has no other key; every problem is reported; and an
   * accepted dict has exactly the schema's fields, each with the given value
   * or its default.
   */
  lemma ValidateExactly(s: Schema, m: Dict)
    ensures Validate(s, JObj(m)).Accepted? <==> Acceptable(s, m)
    ensures forall name :: name in s.fields && !FieldOk(s.fields[name], name in m, Get(m, name, JNull)) ==>
      Validate(s, JObj(m)).Rejected? && FieldIssue(name, s.fields[name], m).Some?
      && FieldIssue(name, s.fields[name], m).value in Validate(s, JObj(m)).issues
    ensures forall k :: s.forbidExtra && k in m && k !in s.fields ==>
      Validate(s, JObj(m)).Rejected? && ExtraField(k) in Validate(s, JObj(m)).issues
    ensures Validate(s, JObj(m)).Accepted? ==>
      var values := Validate(s, JObj(m)).values;
      && values.Keys == s.fields.Keys
      && (forall name :: name in s.fields && name in m ==> values[name] == m[name])
      && (forall name :: name in s.fields && name !in m ==> s.fields[name].default.Some? && values[name] == s.fields[name].default.value)
  {
    FieldIssues(s, m);
    ValidateAccepts(s, m);
    if Validate(s, JObj(m)).Accepted? {
      ValidateValues(s, m);
    }
  }

  // ---------------------------------------------------------------------------
  // The schemas

  /** viewReportList: no fields, and unknown keys are ignored rather than refused. */
  const ReportListSchema: Schema := Schema(map[], false)

  /** viewArtifactList: a non-empty `job_name`, nothing else. */
  const ArtifactListSchema: Schema :=
    Schema(map["job_name" := FieldSpec(StrKind, false, None, MinLength(1))], true)

  /** viewArtifactData: `job_name`, `artifact_type_id` (one id or a list), `limit` > 0 (100), `offset` >= 0 (0). */
  const ArtifactDataSchema: Schema :=
    Schema(map[
      "job_name" := FieldSpec(StrKind, false, None, MinLength(1)),
      "artifact_type_id" := FieldSpec(IntOrIntList, false, None, Unconstrained),
      "limit" := FieldSpec(IntKind, false, Some(JInt(100)), GreaterThan(0)),
      "offset" := FieldSpec(IntKind, false, Some(JInt(0)), AtLeast(0))], true)

  /** grepSearch: `pattern`, `job_name`, optional ids (None), `limit` > 0 (50), `case_sensitive` (False). */
  const GrepSearchSchema: Schema :=
    Schema(map[
      "pattern" := FieldSpec(StrKind, false, None, MinLength(1)),
      "job_name" := FieldSpec(StrKind, false, None, MinLength(1)),
      "artifact_type_id" := FieldSpec(IntOrIntList, true, Some(JNull), Unconstrained),
      "limit" := FieldSpec(IntKind, false, Some(JInt(50)), GreaterThan(0)),
      "case_sensitive" := FieldSpec(BoolKind, false, Some(JBool(false)), Unconstrained)], true)

  /** semanticSearch: a non-empty `query`, optional `job_name` (None), `n_results` > 0 (10). */
  const SemanticSearchSchema: Schema :=
    Schema(map[
      "query" := FieldSpec(StrKind, false, None, MinLength(1)),
      "job_name" := FieldSpec(StrKind, true, Some(JNull), Unconstrained),
      "n_results" := FieldSpec(IntKind, false, Some(JInt(10)), GreaterThan(0))], true)

  /** TOOL_SCHEMAS. */
  const ToolSchemas: map<string, Schema> := map[
    "viewReportList" := ReportListSchema,
    "viewArtifactList" := ArtifactListSchema,
    "viewArtifactData" := ArtifactDataSchema,
    "grepSearch" := GrepSearchSchema,
    "semanticSearch" := SemanticSearchSchema]

  // ---------------------------------------------------------------------------
  // Per-schema properties

  /** A non-empty string. */
  predicate NonEmptyStr(v: Json) {
    v.JStr? && |v.s| >= 1
  }

  /** viewReportList accepts every dict and keeps none of its keys. */
  lemma ReportListAcceptsAnything(m: Dict)
    ensures Validate(ReportListSchema, JObj(m)) == Accepted(map[])
  {
    assert Issues(ReportListSchema, m) == {};
  }

  /** viewArtifactList accepts exactly a dict whose only key is a non-empty `job_name`. */
  lemma ArtifactListAccepts(m: Dict)
    ensures Validate(ArtifactListSchema, JObj(m)).Accepted? <==>
      m.Keys == {"job_name"} && NonEmptyStr(m["job_name"])
  {
    ValidateExactly(ArtifactListSchema, m);
  }

  /**
   * viewArtifactData accepts exactly: a non-empty `job_name`, an
   * `artifact_type_id` that is an int or a list of ints, an optional int
   * `limit` > 0 and an optional int `offset` >= 0, and no other key.
   */
  lemma ArtifactDataAccepts(m: Dict)
    ensures Validate(ArtifactDataSchema, JObj(m)).Accepted? <==>
      && "job_name" in m && NonEmptyStr(m["job_name"])
      && "artifact_type_id" in m && HasKind(IntOrIntList, m["artifact_type_id"])
      && ("limit" in m ==> m["limit"].JInt? && m["limit"].i > 0)
      && ("offset" in m ==> m["offset"].JInt? && m["offset"].i >= 0)
      && m.Keys <= {"job_name", "artifact_type_id", "limit", "offset"}
  {
    ValidateAccepts(ArtifactDataSchema, m);
    var f := ArtifactDataSchema.fields;
    assert f.Keys == {"job_name", "artifact_type_id", "limit", "offset"};
    assert FieldOk(f["job_name"], "job_name" in m, Get(m, "job_name", JNull)) <==> "job_name" in m && NonEmptyStr(m["job_name"]);
    assert FieldOk(f["limit"], "limit" in m, Get(m, "limit", JNull)) <==> ("limit" in m ==> m["limit"].JInt? && m["limit"].i > 0);
    assert FieldOk(f["offset"], "offset" in m, Get(m, "offset", JNull)) <==> ("offset" in m ==> m["offset"].JInt? && m["offset"].i >= 0);
  }

  /** The accepted viewArtifactData values default `limit` to 100 and `offset` to 0. */
  lemma ArtifactDataDefaults(m: Dict)
    requires Validate(ArtifactDataSchema, JObj(m)).Accepted?
    ensures Validate(ArtifactDataSchema, JObj(m)).values["limit"] == Get(m, "limit", JInt(100))
    ensures Validate(ArtifactDataSchema, JObj(m)).values["offset"] == Get(m, "offset", JInt(0))
  {
    ValidateValues(ArtifactDataSchema, m);
  }

  /**
   * grepSearch accepts exactly: non-empty `pattern` and `job_name`, an
   * optional `artifact_type_id` that is None, an int or a list of ints, an
   * optional int `limit` > 0 and an optional bool `case_sensitive`, and no
   * other key.
   */
  lemma GrepSearchAccepts(m: Dict)
    ensures Validate(GrepSearchSchema, JObj(m)).Accepted? <==>
      && "pattern" in m && NonEmptyStr(m["pattern"])
      && "job_name" in m && NonEmptyStr(m["job_name"])
      && ("artifact_type_id" in m ==> m["artifact_type_id"].JNull? || HasKind(IntOrIntList, m["artifact_type_id"]))
      && ("limit" in m ==> m["limit"].JInt? && m["limit"].i > 0)
      && ("case_sensitive" in m ==> m["case_sensitive"].JBool?)
      && m.Keys <= {"pattern", "job_name", "artifact_type_id", "limit", "case_sensitive"}
  {
    ValidateAccepts(GrepSearchSchema, m);
    var f := GrepSearchSchema.fields;
    assert f.Keys == {"pattern", "job_name", "artifact_type_id", "limit", "case_sensitive"};
    assert FieldOk(f["pattern"], "pattern" in m, Get(m, "pattern", JNull)) <==> "pattern" in m && NonEmptyStr(m["pattern"]);
    assert FieldOk(f["job_name"], "job_name" in m, Get(m, "job_name", JNull)) <==> "job_name" in m && NonEmptyStr(m["job_name"]);
    assert FieldOk(f["limit"], "limit" in m, Get(m, "limit", JNull)) <==> ("limit" in m ==> m["limit"].JInt? && m["limit"].i > 0);
    assert FieldOk(f["case_sensitive"], "case_sensitive" in m, Get(m, "case_sensitive", JNull)) <==> ("case_sensitive" in m ==> m["case_sensitive"].JBool?);
  }

  /** The accepted grepSearch values default `artifact_type_id` to None, `limit` to 50 and `case_sensitive` to False. */
  lemma GrepSearchDefaults(m: Dict)
    requires Validate(GrepSearchSchema, JObj(m)).Accepted?
    ensures Validate(GrepSearchSchema, JObj(m)).values["artifact_type_id"] == Get(m, "artifact_type_id", JNull)
    ensures Validate(GrepSearchSchema, JObj(m)).values["limit"] == Get(m, "limit", JInt(50))
    ensures Validate(GrepSearchSchema, JObj(m)).values["case_sensitive"] == Get(m, "case_sensitive", JBool(false))
  {
    ValidateValues(GrepSearchSchema, m);
  }

  /**
   * semanticSearch accepts exactly: a non-empty `query`, an optional
   * `job_name` that is None or a string, an optional int `n_results` > 0,
   * and no other key; the defaults are None and 10.
   */
  lemma SemanticSearchAccepts(m: Dict)
    ensures Validate(SemanticSearchSchema, JObj(m)).Accepted? <==>
      && "query" in m && NonEmptyStr(m["query"])
      && ("job_name" in m ==> m["job_name"].JNull? || m["job_name"].JStr?)
      && ("n_results" in m ==> m["n_results"].JInt? && m["n_results"].i > 0)
      && m.Keys <= {"query", "job_name", "n_results"}
    ensures Validate(SemanticSearchSchema, JObj(m)).Accepted? ==>
      && Validate(SemanticSearchSchema, JObj(m)).values["job_name"] == Get(m, "job_name", JNull)
      && Validate(SemanticSearchSchema, JObj(m)).values["n_results"] == Get(m, "n_results", JInt(10))
  {
    ValidateExactly(SemanticSearchSchema, m);
  }

  /** Only lower bounds are declared: any positive limit is accepted, however large. */
  lemma NoMaximumLimit(n: int, jobName: string, pattern: string)
    requires n > 0 && jobName != "" && pattern != ""
    ensures Validate(ArtifactDataSchema, JObj(map["job_name" := JStr(jobName), "artifact_type_id" := JInt(1), "limit" := JInt(n)])).Accepted?
    ensures Validate(GrepSearchSchema, JObj(map["pattern" := JStr(pattern), "job_name" := JStr(jobName), "limit" := JInt(n)])).Accepted?
  {
    ArtifactDataAccepts(map["job_name" := JStr(jobName), "artifact_type_id" := JInt(1), "limit" := JInt(n)]);
    GrepSearchAccepts(map["pattern" := JStr(pattern), "job_name" := JStr(jobName), "limit" := JInt(n)]);
  }

  /** TOOL_SCHEMAS names five tools, grepSearch among them, and the declared defaults are the shared constants. */
  lemma ToolSchemasTable()
    ensures ToolSchemas.Keys == {"viewReportList", "viewArtifactList", "viewArtifactData", "grepSearch", "semanticSearch"}
    ensures ToolSchemas["grepSearch"] == GrepSearchSchema
    ensures ArtifactDataSchema.fields["limit"].default == Some(JInt(DefaultLimit))
    ensures GrepSearchSchema.fields["limit"].default == Some(JInt(DefaultSearchLimit))
    ensures SemanticSearchSchema.fields["n_results"].default == Some(JInt(DefaultSemanticResults))
  {
  }
}
