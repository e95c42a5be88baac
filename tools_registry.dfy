/**
 * The tool registry and dispatcher (tools/__init__.py): four registered
 * tools, looked up by name; an unknown name gets a "not found" response.
 * viewArtifactData is the artifact_data tool over the database; the other
 * three handlers (semantic_search, artifact_list, report_list) are not part
 * of this model and are supplied as functions.
 */
module Tools {
  import opened Values
  import opened Sql
  import opened ArtifactDataTool
  import opened ValidationSchemas

  datatype Tool = SemanticSearch | ViewArtifactList | ViewArtifactData | ViewReportList

  /** TOOLS. grepSearch has a schema but is not registered. */
  const Registry: map<string, Tool> := map[
    "semanticSearch" := SemanticSearch,
    "viewArtifactList" := ViewArtifactList,
    "viewArtifactData" := ViewArtifactData,
    "viewReportList" := ViewReportList]

  /** The handlers outside the model, and the database artifact_data reads. */
  datatype Handlers = Handlers(
    semanticSearch: Json -> Outcome<Json>,
    artifactList: Json -> Outcome<Json>,
    reportList: Json -> Outcome<Json>,
    db: Db)

  /** Calling a registered tool's handler on the input as given. */
  function Invoke(h: Handlers, tool: Tool, input: Json): Outcome<Json> {
    match tool
    case SemanticSearch => h.semanticSearch(input)
    case ViewArtifactList => h.artifactList(input)
    case ViewReportList => h.reportList(input)
    case ViewArtifactData =>
      var r :- ArtifactDataResult(h.db, input);
      Returned(JObj(r))
  }

  /** The response for a name that is not registered. */
  function NotFound(c: Codec, name: Json): Json {
    JObj(map["success" := JBool(false), "error" := JStr("Tool '" + Str(c, name) + "' not found")])
  }

  /** A list or dict cannot be a dict key: looking it up raises. */
  predicate Hashable(v: Json) {
    !v.JList? && !v.JObj?
  }

  /**
   * execute_tool: `TOOLS.get(name)`, then the handler's result, or the not
   * found response. There is no schema validation on the way.
   */
  function ExecuteTool(c: Codec, h: Handlers, name: Json, input: Json): Outcome<Json> {
    if !Hashable(name) then Raised("TypeError: unhashable type: '" + TypeName(name) + "'")
    else if name.JStr? && name.s in Registry then Invoke(h, Registry[name.s], input)
    else Returned(NotFound(c, name))
  }

  // ---------------------------------------------------------------------------
  // Properties

  /** The registry holds exactly the four tools; grepSearch is not among them. */
  lemma RegistryNames()
    ensures Registry.Keys == {"semanticSearch", "viewArtifactList", "viewArtifactData", "viewReportList"}
    ensures "grepSearch" !in Registry
    ensures "grepSearch" in ToolSchemas
  {
    ToolSchemasTable();
  }

  /**
   * A name that is not registered gets the not found response, whatever the
   * handlers are: no handler is invoked.
   */
  lemma UnknownNameInvokesNothing(c: Codec, h1: Handlers, h2: Handlers, name: Json, input: Json)
    requires Hashable(name) && !(name.JStr? && name.s in Registry)
    ensures ExecuteTool(c, h1, name, input) == ExecuteTool(c, h2, name, input) == Returned(NotFound(c, name))
    ensures ExecuteTool(c, h1, name, input).value.fields["error"] == JStr("Tool '" + Str(c, name) + "' not found")
  {
  }

  /** grepSearch in particular is not found. */
  lemma GrepSearchIsNotFound(c: Codec, h: Handlers, input: Json)
    ensures ExecuteTool(c, h, JStr("grepSearch"), input) ==
      Returned(JObj(map["success" := JBool(false), "error" := JStr("Tool 'grepSearch' not found")]))
  {
    RegistryNames();
    assert "Tool '" + "grepSearch" + "' not found" == "Tool 'grepSearch' not found";
  }

  /** Each registered name reaches its own handler, with the input unchanged and the result returned unchanged. */
  lemma RegisteredNamesDispatch(c: Codec, h: Handlers, input: Json)
    ensures ExecuteTool(c, h, JStr("semanticSearch"), input) == h.semanticSearch(input)
    ensures ExecuteTool(c, h, JStr("viewArtifactList"), input) == h.artifactList(input)
    ensures ExecuteTool(c, h, JStr("viewReportList"), input) == h.reportList(input)
    ensures ExecuteTool(c, h, JStr("viewArtifactData"), input) ==
      match ArtifactDataResult(h.db, input)
      case Raised(e) => Raised(e)
      case Returned(r) => Returned(JObj(r))
  {
    assert Registry["viewArtifactList"] == ViewArtifactList;
    assert Registry["viewArtifactData"] == ViewArtifactData;
    assert Registry["semanticSearch"] == SemanticSearch;
    assert Registry["viewReportList"] == ViewReportList;
  }

  /** No validation: an input its schema rejects still reaches the handler. */
  lemma NoSchemaCheck(c: Codec, h: Handlers)
    ensures Validate(ArtifactListSchema, JObj(map[])).Rejected?
    ensures ExecuteTool(c, h, JStr("viewArtifactList"), JObj(map[])) == h.artifactList(JObj(map[]))
  {
    ArtifactListAccepts(map[]);
    RegisteredNamesDispatch(c, h, JObj(map[]));
  }
}
