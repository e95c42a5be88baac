/**
 * The viewArtifactData tool (artifact_data): rows of one report's artifact
 * tables, selected by one artifact type id or a list of them, with a limit.
 */
module ArtifactDataTool {
  import opened Values
  import opened Sql

  const SelectSql: string :=
    "SELECT ad.row_index, ad.data_json, at.file_name FROM artifact_data ad "
    + "JOIN artifact_types at ON ad.artifact_type_id = at.id WHERE ad.job_name = "
  const ListIdSql: string := " AND ad.artifact_type_id IN ("
  const ListTailSql: string := ") ORDER BY ad.artifact_type_id, ad.row_index LIMIT "
  const OneIdSql: string := " AND ad.artifact_type_id = "
  const ScalarTailSql: string := " ORDER BY ad.row_index LIMIT "

  /** The row-selection statement and its parameters, for a list of ids or for one id. */
  function ArtifactQuery(jobName: Json, artifactTypeId: Json, limit: Json): (q: SqlQuery)
    ensures artifactTypeId.JList? ==> q.params == [jobName] + artifactTypeId.items + [limit]
    ensures !artifactTypeId.JList? ==> q.params == [jobName, artifactTypeId, limit]
    ensures WellFormed(q)
  {
    var select := SelectSql;
    if artifactTypeId.JList? then
      var ids := artifactTypeId.items;
      var head := Lit(select) + Param() + Lit(ListIdSql);
      var tail := Lit(ListTailSql) + Param();
      PlaceholdersAppend(Lit(select), Param());
      PlaceholdersAppend(Lit(select) + Param(), Lit(ListIdSql));
      PlaceholdersAppend(Lit(ListTailSql), Param());
      PlaceholdersAppend(head, MarkList(|ids|));
      PlaceholdersAppend(head + MarkList(|ids|), tail);
      SqlQuery(head + MarkList(|ids|) + tail, [jobName] + ids + [limit])
    else
      var first := Lit(select) + Param() + Lit(OneIdSql) + Param();
      PlaceholdersAppend(Lit(select), Param());
      PlaceholdersAppend(Lit(select) + Param(), Lit(OneIdSql));
      PlaceholdersAppend(Lit(select) + Param() + Lit(OneIdSql), Param());
      PlaceholdersAppend(first, Lit(ScalarTailSql));
      PlaceholdersAppend(first + Lit(ScalarTailSql), Param());
      SqlQuery(first + Lit(ScalarTailSql) + Param(), [jobName, artifactTypeId, limit])
  }

  /** One fetched row as a result entry; a row with fewer than three columns raises. */
  function DataEntry(row: seq<Json>): (r: Outcome<Json>)
    ensures r.Returned? <==> |row| >= 3
    ensures r.Returned? ==> r.value == JObj(map["row_index" := row[0], "data_json" := row[1], "file_name" := row[2]])
    ensures r.Raised? ==> r.error == "tuple index out of range"
  {
    var rowIndex :- Column(row, 0);
    var dataJson :- Column(row, 1);
    var fileName :- Column(row, 2);
    Returned(JObj(map["row_index" := rowIndex, "data_json" := dataJson, "file_name" := fileName]))
  }

  /** The entries of all rows, in order, or the exception of the first row that raises. */
  function DataEntries(rows: seq<seq<Json>>): (r: Outcome<seq<Json>>)
    ensures r.Returned? ==> |r.value| == |rows| && forall i :: 0 <= i < |rows| ==> Returned(r.value[i]) == DataEntry(rows[i])
    ensures r.Returned? <==> forall i :: 0 <= i < |rows| ==> |rows[i]| >= 3
    decreases |rows|
  {
    if rows == [] then Returned([])
    else
      var init := rows[..|rows| - 1];
      assert forall i :: 0 <= i < |init| ==> init[i] == rows[i];
      var data :- DataEntries(init);
      var entry :- DataEntry(rows[|rows| - 1]);
      Returned(data + [entry])
  }

  /** The failure response: the exception's text as `error`. */
  function Failure(error: string): Dict {
    map["success" := JBool(false), "error" := JStr(error)]
  }

  /**
   * artifact_data as a function of the database and the input. Reading the
   * input happens outside the `try`, so an input that is not a dict raises;
   * everything after it is caught and reported as a failure response.
   */
  function ArtifactDataResult(db: Db, input: Json): (r: Outcome<Dict>)
    ensures r.Raised? <==> !input.JObj?
  {
    if !input.JObj? then Raised(NoGet(input))
    else
      match db(Request(input.fields))
      case DbError(message) => Returned(Failure(message))
      case Rows(rows) =>
        match DataEntries(rows)
        case Raised(error) => Returned(Failure(error))
        case Returned(data) =>
          Returned(map["success" := JBool(true), "data" := JList(data), "count" := JInt(|data|)])
  }

  /** The statement for an input dict: its job name, its ids, and its limit or 100. */
  function Request(m: Dict): SqlQuery {
    ArtifactQuery(Get(m, "job_name", JNull), Get(m, "artifact_type_id", JNull), Get(m, "limit", JInt(100)))
  }

  /** The exception of `v.get(...)` on a value that is not a dict. */
  function NoGet(v: Json): string {
    "AttributeError: '" + TypeName(v) + "' object has no attribute 'get'"
  }

  /** artifact_data: build the statement, run it, and shape the rows one by one. */
  method ArtifactData(db: Db, input: Json) returns (r: Outcome<Dict>)
    ensures r == ArtifactDataResult(db, input)
  {
    if !input.JObj? {
      return Raised(NoGet(input));
    }
    var jobName := Get(input.fields, "job_name", JNull);
    var artifactTypeId := Get(input.fields, "artifact_type_id", JNull);
    var limit := Get(input.fields, "limit", JInt(100));
    var fetched := db(ArtifactQuery(jobName, artifactTypeId, limit));
    if fetched.DbError? {
      return Returned(Failure(fetched.message));
    }
    var rows := fetched.rows;
    var data: seq<Json> := [];
    for i := 0 to |rows|
      invariant DataEntries(rows[..i]) == Returned(data)
    {
      var entry := DataEntry(rows[i]);
      assert rows[..i + 1][..i] == rows[..i];
      if entry.Raised? {
        FirstRaiseDecides(rows, i + 1);
        return Returned(Failure(entry.error));
      }
      data := data + [entry.value];
    }
    assert rows[..|rows|] == rows;
    r := Returned(map["success" := JBool(true), "data" := JList(data), "count" := JInt(|data|)]);
  }

  /** A row's entry raises exactly when the row is short, whichever prefix of rows is shaped first. */
  lemma {:induction false} FirstRaiseDecides(rows: seq<seq<Json>>, k: nat)
    requires k <= |rows| && DataEntries(rows[..k]).Raised?
    ensures DataEntries(rows) == DataEntries(rows[..k])
    decreases |rows| - k
  {
    if k < |rows| {
      var init := rows[..|rows| - 1];
      assert init[..k] == rows[..k];
      FirstRaiseDecides(init, k);
    } else {
      assert rows[..k] == rows;
    }
  }

  /**
   * The statement binds the job name, then the ids (one placeholder each for
   * a list, one for a single id), then the limit, which is 100 when the input
   * omits it.
   */
  lemma RequestParams(m: Dict)
    ensures var q := Request(m);
      && WellFormed(q)
      && q.params[0] == Get(m, "job_name", JNull)
      && q.params[|q.params| - 1] == (if "limit" in m then m["limit"] else JInt(100))
      && (Get(m, "artifact_type_id", JNull).JList? ==> |q.params| == 2 + |Get(m, "artifact_type_id", JNull).items|)
      && (!Get(m, "artifact_type_id", JNull).JList? ==> |q.params| == 3)
  {
  }

  /** The call succeeds exactly when the statement runs and every fetched row has at least three columns. */
  lemma SucceedsExactly(db: Db, m: Dict)
    ensures var r := ArtifactDataResult(db, JObj(m)).value;
      r["success"] == JBool(true) <==>
        (db(Request(m)).Rows? && forall i :: 0 <= i < |db(Request(m)).rows| ==> |db(Request(m)).rows[i]| >= 3)
  {
  }

  /**
   * The success response holds one entry per fetched row, in order, each with
   * the row's first three columns, and `count` is the number of entries.
   */
  lemma SuccessShape(db: Db, m: Dict, rows: seq<seq<Json>>)
    requires db(Request(m)) == Rows(rows)
    requires forall i :: 0 <= i < |rows| ==> |rows[i]| >= 3
    ensures var r := ArtifactDataResult(db, JObj(m)).value;
      && r.Keys == {"success", "data", "count"}
      && r["success"] == JBool(true)
      && r["count"] == JInt(|rows|)
      && r["data"].JList? && |r["data"].items| == |rows|
      && forall i :: 0 <= i < |rows| ==>
           r["data"].items[i] == JObj(map["row_index" := rows[i][0], "data_json" := rows[i][1], "file_name" := rows[i][2]])
  {
    var data := DataEntries(rows).value;
    forall i | 0 <= i < |rows|
      ensures data[i] == JObj(map["row_index" := rows[i][0], "data_json" := rows[i][1], "file_name" := rows[i][2]])
    {
      assert Returned(data[i]) == DataEntry(rows[i]);
    }
  }

  /** A failure response holds only `success` and the exception's text: the database's message, or the short row's index error. */
  lemma FailureShape(db: Db, m: Dict)
    ensures var r := ArtifactDataResult(db, JObj(m)).value;
      && (db(Request(m)).DbError? ==> r == Failure(db(Request(m)).message))
      && (db(Request(m)).Rows? && (exists i :: 0 <= i < |db(Request(m)).rows| && |db(Request(m)).rows[i]| < 3) ==>
            r == Failure("tuple index out of range"))
  {
    if db(Request(m)).Rows? {
      var rows := db(Request(m)).rows;
      if DataEntries(rows).Raised? {
        ShortRowError(rows);
      }
    }
  }

  /** The exception of shaping rows is always the tuple index error. */
  lemma {:induction false} ShortRowError(rows: seq<seq<Json>>)
    requires DataEntries(rows).Raised?
    ensures DataEntries(rows).error == "tuple index out of range"
    decreases |rows|
  {
    var init := rows[..|rows| - 1];
    if DataEntries(init).Raised? {
      ShortRowError(init);
    }
  }
}
