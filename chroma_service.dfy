/**
 * The vector store side of the backend (ChromaService): storing artifact
 * rows as documents with metadata and ids, in batches of 100, and querying
 * them back with missing parts of the answer filled with defaults. The
 * collection itself (embedding, persistence, similarity search) is not part
 * of this model: its `add` and `query` are supplied as functions.
 */
module ChromaService {
  import opened Values

  const BatchSize: nat := 100

  /** The three parallel lists of one `collection.add` call. */
  datatype Batch = Batch(documents: seq<Json>, metadatas: seq<Dict>, ids: seq<string>)

  /** The lists agree in length. */
  predicate Aligned(b: Batch) {
    |b.metadatas| == |b.documents| && |b.ids| == |b.documents|
  }

  // ---------------------------------------------------------------------------
  // Preparing the documents

  /**
   * The document, metadata and id of one chunk. A chunk that is not a dict,
   * or lacks `data_json`, `job_name`, `artifact_type_id` or `row_index`,
   * raises; a missing `file_name` is 'unknown'. The id is
   * `<job_name>_<artifact_type_id>_<row_index>`, with the job name of the call.
   */
  function ChunkEntry(c: Codec, jobName: string, chunk: Json): (r: Outcome<(Json, Dict, string)>)
    ensures r.Returned? <==> (chunk.JObj? && "data_json" in chunk.fields && "job_name" in chunk.fields
                             && "artifact_type_id" in chunk.fields && "row_index" in chunk.fields)
    ensures r.Returned? ==>
      var m := chunk.fields;
      && r.value.0 == m["data_json"]
      && r.value.1 == map["job_name" := m["job_name"], "artifact_type_id" := m["artifact_type_id"],
                          "row_index" := m["row_index"], "file_name" := Get(m, "file_name", JStr("unknown"))]
      && r.value.2 == jobName + "_" + Str(c, m["artifact_type_id"]) + "_" + Str(c, m["row_index"])
  {
    var document :- Subscript(chunk, "data_json");
    var chunkJob :- Subscript(chunk, "job_name");
    var artifactTypeId :- Subscript(chunk, "artifact_type_id");
    var rowIndex :- Subscript(chunk, "row_index");
    var fileName :- GetMethod(chunk, "file_name", JStr("unknown"));
    var metadata := map["job_name" := chunkJob, "artifact_type_id" := artifactTypeId, "row_index" := rowIndex, "file_name" := fileName];
    Returned((document, metadata, jobName + "_" + Str(c, artifactTypeId) + "_" + Str(c, rowIndex)))
  }

  /** The lists for all chunks, index-aligned with them, or the first failing chunk's exception. */
  function Prepared(c: Codec, jobName: string, chunks: seq<Json>): (r: Outcome<Batch>)
    ensures r.Returned? ==> Aligned(r.value) && |r.value.documents| == |chunks|
    ensures r.Returned? ==> forall i :: 0 <= i < |chunks| ==>
      ChunkEntry(c, jobName, chunks[i]) == Returned((r.value.documents[i], r.value.metadatas[i], r.value.ids[i]))
    ensures r.Returned? <==> forall i :: 0 <= i < |chunks| ==> ChunkEntry(c, jobName, chunks[i]).Returned?
    decreases |chunks|
  {
    if chunks == [] then Returned(Batch([], [], []))
    else
      var init := chunks[..|chunks| - 1];
      assert forall i :: 0 <= i < |init| ==> init[i] == chunks[i];
      var b :- Prepared(c, jobName, init);
      var e :- ChunkEntry(c, jobName, chunks[|chunks| - 1]);
      Returned(Batch(b.documents + [e.0], b.metadatas + [e.1], b.ids + [e.2]))
  }

  lemma {:induction false} FirstFailingChunkDecides(c: Codec, jobName: string, chunks: seq<Json>, k: nat)
    requires k <= |chunks| && Prepared(c, jobName, chunks[..k]).Raised?
    ensures Prepared(c, jobName, chunks) == Prepared(c, jobName, chunks[..k])
    decreases |chunks| - k
  {
    if k < |chunks| {
      var init := chunks[..|chunks| - 1];
      assert init[..k] == chunks[..k];
      FirstFailingChunkDecides(c, jobName, init, k);
    } else {
      assert chunks[..k] == chunks;
    }
  }

  // ---------------------------------------------------------------------------
  // Batching

  function Min(a: int, b: int): int {
    if a <= b then a else b
  }

  /** The slice `[lo, hi)` of all three lists. */
  function Slice(all: Batch, lo: nat, hi: nat): (r: Batch)
    requires Aligned(all) && lo <= hi <= |all.documents|
    ensures Aligned(r) && |r.documents| == hi - lo
  {
    Batch(all.documents[lo..hi], all.metadatas[lo..hi], all.ids[lo..hi])
  }

  /** The slice of at most 100 elements that starts at `start`. */
  function BatchAt(all: Batch, start: nat): (r: Batch)
    requires Aligned(all) && start < |all.documents|
    ensures Aligned(r) && 0 < |r.documents| <= BatchSize
  {
    Slice(all, start, Min(start + BatchSize, |all.documents|))
  }

  /**
   * The `collection.add` calls from batch start `start` on: each batch the
   * collection accepted, and whether all were; the first refused batch
   * (an exception) ends the run.
   */
  function AddFrom(add: Batch -> bool, all: Batch, start: nat): (bool, seq<Batch>)
    requires Aligned(all)
    decreases |all.documents| - start
  {
    if start >= |all.documents| then (true, [])
    else
      var batch := BatchAt(all, start);
      if add(batch) then
        var rest := AddFrom(add, all, start + BatchSize);
        (rest.0, [batch] + rest.1)
      else (false, [])
  }

  /** The three lists of a series of batches, concatenated. */
  function Joined(batches: seq<Batch>): Batch {
    if batches == [] then Batch([], [], [])
    else
      var rest := Joined(batches[1..]);
      Batch(batches[0].documents + rest.documents, batches[0].metadatas + rest.metadatas, batches[0].ids + rest.ids)
  }

  /** Batch `k` is the slice of at most 100 starting at `start + 100 * k`, and the collection accepted it. */
  lemma {:induction false} AddFromSlices(add: Batch -> bool, all: Batch, start: nat)
    requires Aligned(all)
    ensures forall k :: 0 <= k < |AddFrom(add, all, start).1| ==>
      && start + BatchSize * k < |all.documents|
      && AddFrom(add, all, start).1[k] == BatchAt(all, start + BatchSize * k)
      && add(AddFrom(add, all, start).1[k])
    decreases |all.documents| - start
  {
    if start < |all.documents| && add(BatchAt(all, start)) {
      AddFromSlices(add, all, start + BatchSize);
      var rest := AddFrom(add, all, start + BatchSize).1;
      var stored := AddFrom(add, all, start).1;
      assert stored == [BatchAt(all, start)] + rest;
      forall k | 0 <= k < |stored|
        ensures start + BatchSize * k < |all.documents| && stored[k] == BatchAt(all, start + BatchSize * k) && add(stored[k])
      {
        if k > 0 {
          assert stored[k] == rest[k - 1];
          assert start + BatchSize + BatchSize * (k - 1) == start + BatchSize * k;
        }
      }
    }
  }

  /**
   * The run succeeds exactly when the slices reach the end of the lists,
   * and fails exactly when it stops at a slice the collection refused.
   */
  lemma {:induction false} AddFromStops(add: Batch -> bool, all: Batch, start: nat)
    requires Aligned(all)
    ensures AddFrom(add, all, start).0 <==> start + BatchSize * |AddFrom(add, all, start).1| >= |all.documents|
    ensures !AddFrom(add, all, start).0 ==>
      var next := start + BatchSize * |AddFrom(add, all, start).1|;
      next < |all.documents| && !add(BatchAt(all, next))
    decreases |all.documents| - start
  {
    if start < |all.documents| && add(BatchAt(all, start)) {
      AddFromStops(add, all, start + BatchSize);
      var rest := AddFrom(add, all, start + BatchSize).1;
      assert |AddFrom(add, all, start).1| == 1 + |rest|;
      assert start + BatchSize + BatchSize * |rest| == start + BatchSize * (1 + |rest|);
    }
  }

  /** After a successful run the stored batches, joined together, are the lists from `start` on. */
  lemma {:induction false} AddFromJoined(add: Batch -> bool, all: Batch, start: nat)
    requires Aligned(all) && start <= |all.documents|
    requires AddFrom(add, all, start).0
    ensures Joined(AddFrom(add, all, start).1) == Slice(all, start, |all.documents|)
    decreases |all.documents| - start
  {
    var n := |all.documents|;
    if start < n {
      var end := Min(start + BatchSize, n);
      var batch := BatchAt(all, start);
      var rest := AddFrom(add, all, start + BatchSize).1;
      var stored := AddFrom(add, all, start).1;
      assert stored == [batch] + rest;
      assert stored[0] == batch && stored[1..] == rest;
      if end < n {
        AddFromJoined(add, all, start + BatchSize);
        JoinedSlices(all, start, end);
      } else {
        assert rest == [];
        assert Joined(rest) == Batch([], [], []);
        assert batch == Slice(all, start, n);
        assert batch.documents + [] == batch.documents;
        assert batch.metadatas + [] == batch.metadatas;
        assert batch.ids + [] == batch.ids;
      }
    }
  }

  /** Two adjacent slices, concatenated list by list, are one slice. */
  lemma JoinedSlices(all: Batch, lo: nat, mid: nat)
    requires Aligned(all) && lo <= mid <= |all.documents|
    ensures var a := Slice(all, lo, mid); var b := Slice(all, mid, |all.documents|);
      Batch(a.documents + b.documents, a.metadatas + b.metadatas, a.ids + b.ids) == Slice(all, lo, |all.documents|)
  {
    assert all.documents[lo..mid] + all.documents[mid..] == all.documents[lo..];
    assert all.metadatas[lo..mid] + all.metadatas[mid..] == all.metadatas[lo..];
    assert all.ids[lo..mid] + all.ids[mid..] == all.ids[lo..];
  }

  /** A successful run from the first slice stored the whole lists. */
  lemma AddFromWhole(add: Batch -> bool, all: Batch)
    requires Aligned(all) && AddFrom(add, all, 0).0
    ensures Joined(AddFrom(add, all, 0).1) == all
  {
    AddFromJoined(add, all, 0);
    SliceWhole(all);
  }

  lemma SliceWhole(all: Batch)
    requires Aligned(all)
    ensures Slice(all, 0, |all.documents|) == all
  {
    assert all.documents[0..|all.documents|] == all.documents;
    assert all.metadatas[0..|all.documents|] == all.metadatas;
    assert all.ids[0..|all.documents|] == all.ids;
  }

  /** Every stored batch holds 1 to 100 elements and was accepted. */
  lemma AddFromBatches(add: Batch -> bool, all: Batch)
    requires Aligned(all)
    ensures forall k :: 0 <= k < |AddFrom(add, all, 0).1| ==>
      0 < |AddFrom(add, all, 0).1[k].documents| <= BatchSize && add(AddFrom(add, all, 0).1[k])
  {
    var run := AddFrom(add, all, 0);
    AddFromSlices(add, all, 0);
    forall k | 0 <= k < |run.1|
      ensures 0 < |run.1[k].documents| <= BatchSize && add(run.1[k])
    {
      assert run.1[k] == BatchAt(all, BatchSize * k);
    }
  }

  /** embed_and_store_chunks as a function: success, and the batches the collection accepted. */
  function EmbedResult(c: Codec, add: Batch -> bool, jobName: string, chunks: seq<Json>): (bool, seq<Batch>) {
    if chunks == [] then (true, [])
    else
      match Prepared(c, jobName, chunks)
      case Raised(_) => (false, [])
      case Returned(all) => AddFrom(add, all, 0)
  }

  /** One more chunk: its entry is appended to the lists prepared so far. */
  lemma PreparedSnoc(c: Codec, jobName: string, chunks: seq<Json>, i: nat)
    requires i < |chunks|
    ensures Prepared(c, jobName, chunks[..i + 1]) ==
      match Prepared(c, jobName, chunks[..i])
      case Raised(e) => Raised(e)
      case Returned(b) =>
        match ChunkEntry(c, jobName, chunks[i])
        case Raised(e) => Raised(e)
        case Returned(v) => Returned(Batch(b.documents + [v.0], b.metadatas + [v.1], b.ids + [v.2]))
  {
    assert chunks[..i + 1][..i] == chunks[..i];
  }

  /** The first loop of embed_and_store_chunks: the three lists, chunk by chunk. */
  method PrepareChunks(c: Codec, jobName: string, chunks: seq<Json>) returns (r: Outcome<Batch>)
    ensures r == Prepared(c, jobName, chunks)
  {
    var documents: seq<Json> := [];
    var metadatas: seq<Dict> := [];
    var ids: seq<string> := [];
    for i := 0 to |chunks|
      invariant Prepared(c, jobName, chunks[..i]) == Returned(Batch(documents, metadatas, ids))
    {
      var entry := ChunkEntry(c, jobName, chunks[i]);
      PreparedSnoc(c, jobName, chunks, i);
      if entry.Raised? {
        FirstFailingChunkDecides(c, jobName, chunks, i + 1);
        return Raised(entry.error);
      }
      documents := documents + [entry.value.0];
      metadatas := metadatas + [entry.value.1];
      ids := ids + [entry.value.2];
    }
    assert chunks[..|chunks|] == chunks;
    r := Returned(Batch(documents, metadatas, ids));
  }

  /** The second loop of embed_and_store_chunks: `collection.add` on slices of 100. */
  method AddInBatches(add: Batch -> bool, all: Batch) returns (ok: bool, stored: seq<Batch>)
    requires Aligned(all)
    ensures ok == AddFrom(add, all, 0).0
    ensures stored == AddFrom(add, all, 0).1
  {
    stored := [];
    var i := 0;
    assert stored + AddFrom(add, all, 0).1 == AddFrom(add, all, 0).1;
    while i < |all.documents|
      invariant AddFrom(add, all, 0) == (AddFrom(add, all, i).0, stored + AddFrom(add, all, i).1)
      decreases |all.documents| - i
    {
      var batchEnd := Min(i + BatchSize, |all.documents|);
      var batch := Batch(all.documents[i..batchEnd], all.metadatas[i..batchEnd], all.ids[i..batchEnd]);
      assert batch == BatchAt(all, i);
      if !add(batch) {
        assert stored + [] == stored;
        return false, stored;
      }
      var rest := AddFrom(add, all, i + BatchSize).1;
      assert stored + ([batch] + rest) == (stored + [batch]) + rest;
      stored := stored + [batch];
      i := i + BatchSize;
    }
    assert stored + [] == stored;
    ok := true;
  }

  /** embed_and_store_chunks: nothing to do for no chunks; any exception gives False. */
  method EmbedAndStoreChunks(c: Codec, add: Batch -> bool, jobName: string, chunks: seq<Json>) returns (ok: bool, stored: seq<Batch>)
    ensures ok == EmbedResult(c, add, jobName, chunks).0
    ensures stored == EmbedResult(c, add, jobName, chunks).1
  {
    if chunks == [] {
      return true, [];
    }
    var prepared := PrepareChunks(c, jobName, chunks);
    if prepared.Raised? {
      return false, [];
    }
    ok, stored := AddInBatches(add, prepared.value);
  }

  /** With no chunks nothing is added and the call succeeds. */
  lemma NoChunksNoCalls(c: Codec, add: Batch -> bool, jobName: string)
    ensures EmbedResult(c, add, jobName, []) == (true, [])
  {
  }

  /** A chunk that cannot be prepared makes the call fail before any add. */
  lemma BadChunkAddsNothing(c: Codec, add: Batch -> bool, jobName: string, chunks: seq<Json>, i: nat)
    requires i < |chunks| && ChunkEntry(c, jobName, chunks[i]).Raised?
    ensures EmbedResult(c, add, jobName, chunks) == (false, [])
  {
  }

  /**
   * A successful call stored every slice in order, each of 1 to 100
   * elements, and together they are exactly the prepared lists, which are
   * index-aligned with the chunks; a failed call stopped at a batch the
   * collection refused.
   */
  lemma EmbedOutcome(c: Codec, add: Batch -> bool, jobName: string, chunks: seq<Json>, all: Batch)
    requires chunks != [] && Prepared(c, jobName, chunks) == Returned(all)
    ensures EmbedResult(c, add, jobName, chunks) == AddFrom(add, all, 0)
    ensures AddFrom(add, all, 0).0 ==> Joined(AddFrom(add, all, 0).1) == all
    ensures forall k :: 0 <= k < |AddFrom(add, all, 0).1| ==>
      0 < |AddFrom(add, all, 0).1[k].documents| <= BatchSize && add(AddFrom(add, all, 0).1[k])
    ensures !AddFrom(add, all, 0).0 ==>
      BatchSize * |AddFrom(add, all, 0).1| < |chunks| && !add(BatchAt(all, BatchSize * |AddFrom(add, all, 0).1|))
  {
    AddFromBatches(add, all);
    AddFromStops(add, all, 0);
    if AddFrom(add, all, 0).0 {
      AddFromWhole(add, all);
    }
  }

  // ---------------------------------------------------------------------------
  // Querying

  /** What `collection.query` returns for one query text: each part is a list per query text, or None. */
  datatype QueryResult = QueryResult(
    documents: Option<seq<seq<Json>>>,
    metadatas: Option<seq<seq<Json>>>,
    distances: Option<seq<seq<Json>>>,
    ids: Option<seq<seq<Json>>>)

  /** The filter: only for a truthy job name. */
  function WhereClause(jobName: Option<string>): (r: Option<Dict>)
    ensures r.Some? <==> jobName.Some? && jobName.value != ""
    ensures r.Some? ==> r.value == map["job_name" := JStr(jobName.value)]
  {
    if jobName.Some? && jobName.value != "" then Some(map["job_name" := JStr(jobName.value)]) else None
  }

  /** `results[part]` is truthy: present and non-empty. */
  predicate Present(part: Option<seq<seq<Json>>>) {
    part.Some? && part.value != []
  }

  /** Lines 113-115 of the source: the part's first list, or `[default] * n` when the part is falsy. */
  function FirstListOr(part: Option<seq<seq<Json>>>, n: nat, default: Json): seq<Json> {
    if Present(part) then part.value[0] else seq(n, _ => default)
  }

  /** Element `i` of a list, or the default past its end: `xs[i] if i < len(xs) else default`. */
  function ElementOr(xs: seq<Json>, i: nat, default: Json): Json {
    if i < |xs| then xs[i] else default
  }

  /**
   * The formatting of one query result: nothing without documents; otherwise
   * the metadata, distance and id lists (the defaults when a part is
   * falsy), and one entry per document reading them with a bounds guard.
   */
  function FormatResults(results: QueryResult): seq<Dict> {
    if !Present(results.documents) || results.documents.value[0] == [] then []
    else
      var docs := results.documents.value[0];
      var metadatas := FirstListOr(results.metadatas, |docs|, JObj(map[]));
      var distances := FirstListOr(results.distances, |docs|, JInt(0));
      var ids := FirstListOr(results.ids, |docs|, JStr(""));
      seq(|docs|, i requires 0 <= i < |docs| =>
        map["document" := docs[i],
            "metadata" := ElementOr(metadatas, i, JObj(map[])),
            "distance" := ElementOr(distances, i, JInt(0)),
            "id" := ElementOr(ids, i, JStr(""))])
  }

  /** query_chunks: the formatted result, or nothing when the query raises. */
  function QueryChunks(query: (string, int, Option<Dict>) -> Outcome<QueryResult>, queryText: string,
                       jobName: Option<string>, nResults: int): seq<Dict> {
    match query(queryText, nResults, WhereClause(jobName))
    case Raised(_) => []
    case Returned(results) => FormatResults(results)
  }

  /** A default list is as long as the documents and holds only its default. */
  lemma {:induction false} DefaultList(part: Option<seq<seq<Json>>>, n: nat, default: Json, i: nat)
    requires !Present(part) && i < n
    ensures ElementOr(FirstListOr(part, n, default), i, default) == default
  {
    var xs := FirstListOr(part, n, default);
    assert |xs| == n;
    assert xs[i] == default;
  }

  /**
   * The query result is empty when the query raises or the first document
   * list is missing or empty; otherwise it has one entry per document, in
   * order, with a missing metadata, distance or id replaced by {}, 0 and ''.
   */
  lemma QueryShape(query: (string, int, Option<Dict>) -> Outcome<QueryResult>, queryText: string,
                   jobName: Option<string>, nResults: int)
    ensures var answer := query(queryText, nResults, WhereClause(jobName));
      var r := QueryChunks(query, queryText, jobName, nResults);
      && (answer.Raised? ==> r == [])
      && (answer.Returned? && (!Present(answer.value.documents) || answer.value.documents.value[0] == []) ==> r == [])
      && (answer.Returned? && Present(answer.value.documents) ==>
            var docs := answer.value.documents.value[0];
            && |r| == |docs|
            && forall i :: 0 <= i < |docs| ==>
                 && r[i].Keys == {"document", "metadata", "distance", "id"}
                 && r[i]["document"] == docs[i]
                 && r[i]["metadata"] == (if Present(answer.value.metadatas) && i < |answer.value.metadatas.value[0]|
                                         then answer.value.metadatas.value[0][i] else JObj(map[]))
                 && r[i]["distance"] == (if Present(answer.value.distances) && i < |answer.value.distances.value[0]|
                                         then answer.value.distances.value[0][i] else JInt(0))
                 && r[i]["id"] == (if Present(answer.value.ids) && i < |answer.value.ids.value[0]|
                                   then answer.value.ids.value[0][i] else JStr("")))
  {
    match query(queryText, nResults, WhereClause(jobName))
    case Raised(_) =>
    case Returned(results) =>
      if Present(results.documents) && results.documents.value[0] != [] {
        var docs := results.documents.value[0];
        forall i | 0 <= i < |docs|
          ensures !Present(results.metadatas) ==>
                    ElementOr(FirstListOr(results.metadatas, |docs|, JObj(map[])), i, JObj(map[])) == JObj(map[])
          ensures !Present(results.distances) ==>
                    ElementOr(FirstListOr(results.distances, |docs|, JInt(0)), i, JInt(0)) == JInt(0)
          ensures !Present(results.ids) ==>
                    ElementOr(FirstListOr(results.ids, |docs|, JStr("")), i, JStr("")) == JStr("")
        {
          if !Present(results.metadatas) { DefaultList(results.metadatas, |docs|, JObj(map[]), i); }
          if !Present(results.distances) { DefaultList(results.distances, |docs|, JInt(0), i); }
          if !Present(results.ids) { DefaultList(results.ids, |docs|, JStr(""), i); }
        }
      }
  }

  /**
   * When every part is present and its first list covers the documents, no
   * default is used: entry i is exactly the i-th document, metadata,
   * distance and id.
   */
  lemma FullResultsUsed(results: QueryResult)
    requires Present(results.documents) && Present(results.metadatas) && Present(results.distances) && Present(results.ids)
    requires |results.documents.value[0]| <= |results.metadatas.value[0]|
    requires |results.documents.value[0]| <= |results.distances.value[0]|
    requires |results.documents.value[0]| <= |results.ids.value[0]|
    ensures var docs := results.documents.value[0];
      var r := FormatResults(results);
      && |r| == |docs|
      && forall i :: 0 <= i < |docs| ==>
           r[i] == map["document" := docs[i], "metadata" := results.metadatas.value[0][i],
                       "distance" := results.distances.value[0][i], "id" := results.ids.value[0][i]]
  {
  }
}
