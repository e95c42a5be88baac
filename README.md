# Agent orchestration backend of rag-agent, modelled in Dafny

This project models the backend core of a forensic-report assistant. An
operator asks a question about an ingested report. The agent loop then
runs up to fifteen request/response iterations against a streaming text
backend. Each reply is consumed token by token: a parser narrates the
reply's `thought` and `action` fields and scans it for a `finish` field.
Actions are dispatched to a small registry of tools, and their results
are fed back into the chat history. The finished turn is recorded in a
per-session window of the last three question/answer pairs.

The modules follow the source files:

| module | file | what it holds |
|---|---|---|
| `Values` | (shared) | JSON values, chat messages, the `Outcome` of a call that may raise, Python truthiness, and a `Codec` standing for `json.loads`, `json.dumps` and `str()` |
| `StreamUtils` | backend/utils/stream_utils.py | `parse_stream_token`: narration of thought and action, and the finish-field scan |
| `AgentStream` | backend/services/agent_service.py | `_process_ai_stream`: one reply fed to the parser token by token |
| `SessionMemory` | backend/services/session_manager.py | `SessionManager` as a class over a map of session contexts, and the three-loop window |
| `Agent` | backend/services/agent_service.py | `_setup_chat_history`, `_handle_tool_execution` and `process_agent_message`; the loop is a method proved against a function `Loop` |
| `Tools` | backend/tools/__init__.py | `TOOLS` and `execute_tool` |
| `ValidationSchemas` | backend/tools/validation_schemas.py | the five schemas as data, plus the validator they denote |
| `SharedUtils` | backend/tools/shared_utils.py | `build_error_response` and the default limits |
| `Sql` | (shared) | parameterised statements: literal pieces and `?` placeholders, the cursor as a function |
| `GrepSearchTool` | backend/tools/grep_search.py | `grep_search` |
| `ArtifactDataTool` | backend/tools/artifact_data.py | `artifact_data` |
| `ChromaService` | backend/services/chroma_service.py | `embed_and_store_chunks` and `query_chunks` |

Each imperative part of the source is a method with its loops, proved
equal to a specification function. The properties are lemmas about those
functions. The iteration loop of `process_agent_message` is `Agent.Run`,
a loop over any iteration body that numbers its iterations. Each loop-wide
property is proved once for any body that keeps the matching
per-iteration property. It is then applied to the real body,
`Agent.Body`.

Behaviour of the code worth noting:
- The thought is narrated as soon as the accumulated text decodes. It is not held back until an action appears.
- An action is narrated whatever its tool name, registered or not.
- The iteration cap is 15.
- The reminder is appended on iterations 4, 7, 10 and 13.
- `execute_tool` validates nothing.
- An unknown tool name gets a plain `not found` result. That result is fed back like any tool result, with no corrective message listing the valid tools.
- `grepSearch` has a schema but is not registered, so calling it gets `not found`.
- A reply with neither a finish field nor an action is sent as a `final_answer` event, but the loop goes on.
- On a finish, the recorded answer is the raw accumulated reply text, not the extracted answer.
- A reply of zero tokens raises Python's `UnboundLocalError`, because `result` is unbound. It does not produce a fallback answer. The exception ends the turn, and nothing is recorded.
- A decoded number, bool or null makes the parser raise, because `in` does not apply to it. A decoded list or string is searched with `in`, and raises only when it contains `thought` or `action`, at the subscript that follows. A newly seen action that is not a dict raises at `.get`. Only decode errors are caught.
- The terminator scan takes any quote after a backslash as escaped, even when that backslash is itself escaped, so a JSON answer ending in `\\` stays open (`StreamUtils.EscapedBackslashLeavesAnswerOpen`).

## Model

| member | source | states |
|---|---|---|
| StreamUtils.FindFrom | backend/utils/stream_utils.py:53-54 | the index found is an occurrence of the marker, with none before it; none is found exactly when it does not occur |
| StreamUtils.FindStable | backend/utils/stream_utils.py:53-54 | once the marker has been seen, its first occurrence does not move as tokens are appended to the finish buffer |
| StreamUtils.FirstTerminatorFrom | backend/utils/stream_utils.py:58-62 | the index found is a quote at index 0 or one not preceded by a backslash, with no such quote before it; none is found exactly when there is no such quote |
| StreamUtils.NarrateStructure | backend/utils/stream_utils.py:25-50 | the `try` block computes `Narrate`: a decode failure narrates nothing; otherwise the thought part and then the action part; any other exception propagates |
| StreamUtils.ScanFinishBuffer | backend/utils/stream_utils.py:53-75 | the terminator loop computes `ScanFinish`: its outputs, `is_complete` (exactly when a terminator was found) and `final_answer` (empty otherwise) |
| StreamUtils.ParseStreamToken | backend/utils/stream_utils.py:15-77 | the whole call computes `TokenStep`: the narration events followed by the finish events, the two grown buffers, the new streamed set, completion and answer |
| StreamUtils.Narrate | backend/utils/stream_utils.py:25-50 | definition of the `try` block; its properties are `NarrateShape`, `NarratedPair`, `UndecodedIsQuiet` and `WhenTokenRaises` |
| StreamUtils.ScanFinish | backend/utils/stream_utils.py:53-75 | definition of the finish scan; its properties are `AnswerLocation`, `EscapedQuotesSkipped`, `PartialAnswersGrow` and `EscapedBackslashLeavesAnswerOpen` |
| StreamUtils.TokenStep | backend/utils/stream_utils.py:15-77 | definition of one parser call; its properties are `TokenOutputOrder`, `WhenTokenRaises` and `AgentStream.TokenFinalAnswer` |
| StreamUtils.FinishOutputsNarrateNothing | backend/utils/stream_utils.py:64-75 | the finish scan yields only `final_answer` or `final_answer_partial` events, never an `agent_process` line |
| StreamUtils.NarrateThoughtShape | backend/utils/stream_utils.py:29-34 | the thought is narrated at most once: one thought line exactly when `thought` is newly added to the streamed set, nothing otherwise |
| StreamUtils.NarrateActionShape | backend/utils/stream_utils.py:37-47 | the action is narrated at most once: one action line exactly when `action` is newly added to the streamed set, nothing otherwise |
| StreamUtils.NarratedPair | backend/utils/stream_utils.py:28-47 | a thought part followed by an action part adds one line per newly streamed field, thought before action, and no spacer |
| StreamUtils.NarrateShape | backend/utils/stream_utils.py:25-50 | the structural part only grows the streamed set, adds at most `thought` and `action`, and yields one `agent_process` line per added name, thought first |
| StreamUtils.TokenOutputOrder | backend/utils/stream_utils.py:18-75 | the buffers are the inputs with the token appended; thought and action lines appear once each exactly when newly streamed; thought before action; all finish events come after them |
| StreamUtils.UndecodedIsQuiet | backend/utils/stream_utils.py:25-50 | when the accumulated text does not decode, the call raises nothing, narrates nothing and leaves the streamed set unchanged |
| StreamUtils.WhenTokenRaises | backend/utils/stream_utils.py:25-50 | a call raises only on decoded text; for a decoded dict it raises exactly when a not yet streamed action is not a dict |
| StreamUtils.AnswerLocation | backend/utils/stream_utils.py:53-70 | no marker means no finish output; the answer starts 11 characters after the first marker, stops just before a quote, holds no unescaped quote and does not end in a backslash; an open rest runs to the end of the buffer |
| StreamUtils.EscapedQuotesSkipped | backend/utils/stream_utils.py:58-65 | after the marker, a text whose quotes are all escaped and which does not end in a backslash is extracted whole up to its closing quote |
| StreamUtils.PartialAnswersGrow | backend/utils/stream_utils.py:53-75 | a partial answer is never revised: after more text, the open rest extends the old one, or the answer found starts with it |
| StreamUtils.EscapedBackslashLeavesAnswerOpen | backend/utils/stream_utils.py:58-62 | an answer ending in an escaped backslash and its closing quote is still open |
| AgentStream.ProcessAiStream | backend/services/agent_service.py:31-55 | the token loop computes `Stream`: every parser event is forwarded; it stops at the first completing token; an exception ends it; its final tuple holds the last result's completion and answer |
| AgentStream.RunStream | backend/services/agent_service.py:37-55 | definition of the token loop from a given parser state; its properties are `StreamNarratesOnce`, `StreamAccumulates` and `StreamFinalEvent` |
| AgentStream.Stream | backend/services/agent_service.py:31-55 | definition of one reply consumed from the initial state; its properties are `ReplyNarratesOnce`, `ReplyEnding` and `EmptyReplyRaises` |
| AgentStream.StreamNarratesOnce | backend/services/agent_service.py:37-54 | over any remaining tokens, thought and action are each narrated at most once, never when already streamed; no spacer; `action_streamed` holds exactly when an action line was narrated or had been |
| AgentStream.ReplyNarratesOnce | backend/services/agent_service.py:31-55 | one reply narrates thought and action at most once each and yields no spacer; `action_streamed` holds exactly when its action was narrated |
| AgentStream.TokenFinalAnswer | backend/utils/stream_utils.py:64-70 | a `final_answer` event is only ever the last output of a completing call; a completing call ends with it and its buffer holds a terminated finish field; otherwise the answer is empty |
| AgentStream.StreamAccumulates | backend/services/agent_service.py:37-55 | the accumulated text is a prefix of the tokens read; when complete it holds a terminated finish field whose answer is the final answer; otherwise every token was read and the answer is empty |
| AgentStream.StreamFinalEvent | backend/services/agent_service.py:37-55 | a `final_answer` event occurs only as the last event of a completed reply, and a completed reply always ends with one |
| AgentStream.ReplyEnding | backend/services/agent_service.py:31-55 | for a whole reply from the initial state: the text is a prefix of the tokens, all of them when not complete; a complete reply holds a terminated finish field with the final answer; a `final_answer` event occurs only as the last event of a complete reply, and a complete reply always ends with one |
| AgentStream.EmptyReplyRaises | backend/services/agent_service.py:55 | a reply without tokens raises the unbound-variable error and yields nothing |
| SessionMemory.Touch | backend/services/session_manager.py:18-25 | after get_session the id is present, with its old loops or none and the new timestamp; no other session changes |
| SessionMemory.Slide | backend/services/session_manager.py:39-41 | the new loop is last; under three loops it is appended; at three the oldest is dropped; the window stays within three |
| SessionMemory.AddLoop | backend/services/session_manager.py:28-41 | the session is refreshed and its window slid by the new loop; every other session is unchanged |
| SessionMemory.WindowHoldsLatest | backend/services/session_manager.py:39-41 | after any series of adds the window is the latest three of everything added, oldest first |
| SessionMemory.WindowForgetsOlder | backend/services/session_manager.py:39-41 | after three or more adds the window is exactly the last three added |
| SessionMemory.ContextMessages | backend/services/session_manager.py:50-58 | 2·k messages for k loops, alternating user `Previous question: …` and assistant `Previous analysis: …`, oldest first |
| SessionMemory.RenderContext | backend/services/session_manager.py:50-58 | the rendering loop builds exactly those messages |
| SessionMemory.SessionManager.constructor | backend/services/session_manager.py:14-16 | an empty table with window bound 3 |
| SessionMemory.SessionManager.GetSession | backend/services/session_manager.py:18-25 | returns the existing context or a new empty one for the id, with a refreshed timestamp, and keeps every context under its own id with at most three loops |
| SessionMemory.SessionManager.AddAgentLoop | backend/services/session_manager.py:28-41 | the table becomes `AddLoop` of the old one; the session's window holds at most three loops and ends with the new one |
| SessionMemory.SessionManager.GetContextForAi | backend/services/session_manager.py:44-60 | refreshes the session as get_session does and returns the rendering of its stored loops; a never-seen id gives no messages |
| SharedUtils.BuildErrorResponse | backend/tools/shared_utils.py:12-21 | the keys are `success`, `error`, `error_type` and the extras; `error_type` is the argument; `success` is false and `error` is `<type>: <message>` unless an extra overrides them; every extra appears |
| SharedUtils.PlainErrorResponse | backend/tools/shared_utils.py:12-21 | without extras the response is exactly the three standard fields, with `success` false |
| Sql.MarkList | backend/tools/artifact_data.py:15 | `','.join(['?'] * n)` holds exactly n placeholders, and is empty exactly when n is 0 |
| Sql.JoinKeepsPlaceholders | backend/tools/grep_search.py:55 | joining conditions with ` AND ` adds no placeholder |
| ArtifactDataTool.ArtifactQuery | backend/tools/artifact_data.py:13-35 | a list of ids binds `[job_name] + ids + [limit]`; one id binds `(job_name, id, limit)`; either way each placeholder has one parameter |
| ArtifactDataTool.DataEntry | backend/tools/artifact_data.py:41-46 | a row of three or more columns gives its first three as `row_index`, `data_json` and `file_name`; a shorter row raises the tuple index error |
| ArtifactDataTool.DataEntries | backend/tools/artifact_data.py:40-46 | one entry per row, in order, and it succeeds exactly when every row has three columns |
| ArtifactDataTool.ArtifactDataResult | backend/tools/artifact_data.py:5-57 | raises exactly when the input is not a dict, because the reads come before the `try`; otherwise it always answers |
| ArtifactDataTool.ArtifactData | backend/tools/artifact_data.py:5-57 | the row loop computes `ArtifactDataResult` |
| ArtifactDataTool.FirstRaiseDecides | backend/tools/artifact_data.py:41-46 | the first row that raises decides the outcome; later rows are never looked at |
| ArtifactDataTool.RequestParams | backend/tools/artifact_data.py:6-35 | the statement is well formed, binds the job name first and the limit last, with the limit 100 when absent, and has 2 + len(ids) or 3 parameters |
| ArtifactDataTool.SucceedsExactly | backend/tools/artifact_data.py:37-57 | `success` is true exactly when the statement ran and every row has three columns |
| ArtifactDataTool.SuccessShape | backend/tools/artifact_data.py:40-52 | success holds exactly `success`, `data` and `count`; one entry per row in order; `count` is the number of rows |
| ArtifactDataTool.FailureShape | backend/tools/artifact_data.py:53-57 | a database error gives `{"success": false, "error": <message>}`; a short row gives the same with the tuple index error |
| ArtifactDataTool.ShortRowError | backend/tools/artifact_data.py:41-46 | the only exception raised while shaping rows is the tuple index error |
| ValidationSchemas.FieldIssues | backend/tools/validation_schemas.py:13-43 | a field has no problem exactly when it is fine; each field problem and each extra key (where extras are forbidden) is among the reported problems |
| ValidationSchemas.Validate | backend/tools/validation_schemas.py:8-43 | definition of the validator the schemas denote; its properties are `FieldIssues`, `ValidateAccepts`, `ValidateValues` and `ValidateExactly` |
| ValidationSchemas.ValidateAccepts | backend/tools/validation_schemas.py:13-43 | a dict is accepted exactly when every field is fine and, where extras are forbidden, it has no other key |
| ValidationSchemas.ValidateValues | backend/tools/validation_schemas.py:19-43 | an accepted dict has exactly the schema's fields, each with the given value or its default |
| ValidationSchemas.ValidateExactly | backend/tools/validation_schemas.py:13-43 | acceptance exactly as above; every violation is reported, not only the first; the accepted values are the given ones or the defaults |
| ValidationSchemas.ReportListAcceptsAnything | backend/tools/validation_schemas.py:8-10 | viewReportList accepts every dict and keeps none of its keys |
| ValidationSchemas.ArtifactListAccepts | backend/tools/validation_schemas.py:13-16 | viewArtifactList accepts exactly a dict whose only key is a non-empty `job_name` |
| ValidationSchemas.ArtifactDataAccepts | backend/tools/validation_schemas.py:19-25 | accepts exactly: a non-empty `job_name`; an `artifact_type_id` that is an int or a list of ints; an optional int `limit` > 0; an optional int `offset` ≥ 0; no other key |
| ValidationSchemas.ArtifactDataDefaults | backend/tools/validation_schemas.py:23-24 | the accepted `limit` defaults to 100 and `offset` to 0 |
| ValidationSchemas.GrepSearchAccepts | backend/tools/validation_schemas.py:28-35 | accepts exactly: non-empty `pattern` and `job_name`; an optional `artifact_type_id` that is None, an int or a list of ints; an optional int `limit` > 0; an optional bool `case_sensitive`; no other key |
| ValidationSchemas.GrepSearchDefaults | backend/tools/validation_schemas.py:32-34 | the accepted `artifact_type_id` defaults to None, `limit` to 50 and `case_sensitive` to False |
| ValidationSchemas.SemanticSearchAccepts | backend/tools/validation_schemas.py:38-43 | accepts exactly: a non-empty `query`; an optional `job_name` that is None or a string; an optional int `n_results` > 0; no other key; the defaults are None and 10 |
| ValidationSchemas.NoMaximumLimit | backend/tools/validation_schemas.py:19-35 | any positive limit, however large, is accepted by viewArtifactData and grepSearch |
| ValidationSchemas.ToolSchemasTable | backend/tools/validation_schemas.py:47-53 | TOOL_SCHEMAS names exactly five tools, grepSearch among them; the declared defaults equal the shared constants 100, 50 and 10 |
| Tools.RegistryNames | backend/tools/__init__.py:6-11 | the registry holds exactly the four tools, and grepSearch, which has a schema, is not among them |
| Tools.ExecuteTool | backend/tools/__init__.py:13-18 | definition of the dispatcher; its properties are `UnknownNameInvokesNothing`, `GrepSearchIsNotFound`, `RegisteredNamesDispatch` and `NoSchemaCheck` |
| Tools.UnknownNameInvokesNothing | backend/tools/__init__.py:15-18 | an unregistered name gets `{"success": false, "error": "Tool '<name>' not found"}` whatever the handlers are, so none is invoked |
| Tools.GrepSearchIsNotFound | backend/tools/__init__.py:6-18 | calling grepSearch gets the not found response |
| Tools.RegisteredNamesDispatch | backend/tools/__init__.py:13-17 | each registered name calls its own handler with the input unchanged and returns its result unchanged |
| Tools.NoSchemaCheck | backend/tools/__init__.py:13-18 | an input its schema rejects still reaches the handler |
| GrepSearchTool.StripSound | backend/tools/grep_search.py:14 | the stripped pattern is the original minus whitespace at both ends, and it neither starts nor ends with whitespace |
| GrepSearchTool.Strip | backend/tools/grep_search.py:14 | definition of `str.strip()`; its properties are `StripSound` and `StripEmpty` |
| GrepSearchTool.ReadInput | backend/tools/grep_search.py:13-17 | definition of the input reads before the `try`; its properties are `StatementsWellFormed` (nothing runs when they raise) and `GrepSearch` |
| GrepSearchTool.StripEmpty | backend/tools/grep_search.py:14-20 | the stripped pattern is empty exactly when the original is all whitespace |
| GrepSearchTool.Lower | backend/tools/grep_search.py:51 | lowering keeps the length and maps each character on its own |
| GrepSearchTool.LowerIdempotent | backend/tools/grep_search.py:51 | lowering twice is lowering once, and no capital remains |
| GrepSearchTool.ReportQuery | backend/tools/grep_search.py:25 | the existence check binds exactly the job name to its one placeholder |
| GrepSearchTool.IdConditions | backend/tools/grep_search.py:33-43 | the id condition has one placeholder per id parameter |
| GrepSearchTool.PatternCondition | backend/tools/grep_search.py:46-51 | the pattern condition has one placeholder |
| GrepSearchTool.JobCondition | backend/tools/grep_search.py:30-31 | the job condition has one placeholder |
| GrepSearchTool.SearchQuery | backend/tools/grep_search.py:29-65 | the parameters are the job name, then the ids, then the LIKE pattern, then the limit |
| GrepSearchTool.SearchQueryWellFormed | backend/tools/grep_search.py:30-65 | the search statement has exactly one placeholder per parameter, and the limit is last |
| GrepSearchTool.IdShapes | backend/tools/grep_search.py:33-43 | None adds no condition and orders by file and row; a list adds one IN condition with len(list) placeholders, binds the ids and orders by file and row; one id adds an equality, binds it and orders by row only |
| GrepSearchTool.MatchEntry | backend/tools/grep_search.py:70-85 | a row of four or more columns gives a match; a shorter row raises |
| GrepSearchTool.Matches | backend/tools/grep_search.py:68-85 | one match per row, in order, and it succeeds exactly when every row has four columns |
| GrepSearchTool.FirstShortRowDecides | backend/tools/grep_search.py:68-85 | the first short row decides the exception; later rows are never looked at |
| GrepSearchTool.BuildSearch | backend/tools/grep_search.py:29-65 | the statement built by appending conditions and parameters is `SearchOf` the input |
| GrepSearchTool.CollectMatches | backend/tools/grep_search.py:68-85 | the row loop computes `Matches` |
| GrepSearchTool.RunCheckedSearch | backend/tools/grep_search.py:22-98 | the `try` block computes `CheckedSearch`, with the statements run in order |
| GrepSearchTool.CheckedSearch | backend/tools/grep_search.py:22-98 | definition of the `try` block; its properties are `UnknownReportStopsEarly`, `CheckedStatementsWellFormed` and `RunCheckedSearch` |
| GrepSearchTool.GrepSearchResult | backend/tools/grep_search.py:11-98 | definition of the whole tool; its properties are `EmptyPatternTouchesNoDatabase`, `StatementsWellFormed` and `GrepSearch` |
| GrepSearchTool.SearchErrorResponse | backend/tools/grep_search.py:96-98 | once the report is found, a failing search statement gives exactly the `database_error` response: the three standard keys, `success` false |
| GrepSearchTool.ShortRowResponse | backend/tools/grep_search.py:68-98 | a fetched row too short to index gives the `database_error` response with the row's exception, `success` false |
| GrepSearchTool.SuccessResponse | backend/tools/grep_search.py:87-94 | rows that all give matches yield exactly `success` true, `matches`, `count` equal to the number of matches and of rows, `pattern`, `job_name` and `artifact_type_id` |
| GrepSearchTool.CheckedSuccessEchoesPattern | backend/tools/grep_search.py:22-94 | a successful checked search carries the pattern it searched for |
| GrepSearchTool.SuccessEchoesStrippedPattern | backend/tools/grep_search.py:11-94 | a successful response came from a dict input with a string `pattern`, and echoes that pattern stripped |
| GrepSearchTool.GrepSearch | backend/tools/grep_search.py:11-98 | the whole tool computes `GrepSearchResult`, with the statements run in order |
| GrepSearchTool.EmptyPatternTouchesNoDatabase | backend/tools/grep_search.py:19-20 | an all-whitespace pattern gives the validation error and no statement runs |
| GrepSearchTool.UnknownReportStopsEarly | backend/tools/grep_search.py:25-27 | an unknown report gives `report_not_found` with `success` false, and only the existence check runs |
| GrepSearchTool.CheckedStatementsWellFormed | backend/tools/grep_search.py:22-65 | one or two statements run, all well formed: first the existence check, then the search, and the search only after the report was found, with the limit bound last |
| GrepSearchTool.StatementsWellFormed | backend/tools/grep_search.py:11-65 | at most two statements run, all well formed, and none when reading the input or the pattern check fails |
| GrepSearchTool.MatchesShape | backend/tools/grep_search.py:68-85 | each row gives one match with its index, file name and type id; decodable text is decoded; undecodable text is kept as it is, with `parse_error` set to True, and only then |
| GrepSearchTool.CaseHandling | backend/tools/grep_search.py:46-51 | a case-sensitive search uses `data_json LIKE %pattern%`; otherwise `LOWER(data_json) LIKE %lowered pattern%` |
| ChromaService.ChunkEntry | backend/services/chroma_service.py:50-66 | a chunk is prepared exactly when it is a dict with the four required keys; the document is its `data_json`; the metadata has four fields, with `file_name` defaulting to 'unknown'; the id is `<job_name>_<artifact_type_id>_<row_index>` |
| ChromaService.Prepared | backend/services/chroma_service.py:46-66 | the three lists have equal length and are index-aligned with the chunks; preparation succeeds exactly when every chunk can be prepared |
| ChromaService.FirstFailingChunkDecides | backend/services/chroma_service.py:50-66 | the first chunk that raises decides the outcome |
| ChromaService.PrepareChunks | backend/services/chroma_service.py:46-66 | the first loop computes `Prepared` |
| ChromaService.Slice | backend/services/chroma_service.py:72-74 | slicing the three lists keeps them aligned, with hi − lo elements |
| ChromaService.BatchAt | backend/services/chroma_service.py:70-74 | a batch holds from 1 to 100 elements and its lists are aligned |
| ChromaService.AddFromSlices | backend/services/chroma_service.py:69-75 | batch k is the slice starting at start + 100·k, and the collection accepted it |
| ChromaService.AddFrom | backend/services/chroma_service.py:69-80 | definition of the batch run; its properties are `AddFromSlices`, `AddFromStops`, `AddFromJoined`, `AddFromWhole` and `AddFromBatches` |
| ChromaService.AddFromStops | backend/services/chroma_service.py:69-80 | the run succeeds exactly when its slices reach the end; a failed run stopped at a slice the collection refused |
| ChromaService.AddFromJoined | backend/services/chroma_service.py:69-75 | after a successful run the stored batches, joined in order, are the lists from the start on |
| ChromaService.AddFromWhole | backend/services/chroma_service.py:69-75 | a successful run from the first slice stored the whole lists |
| ChromaService.AddFromBatches | backend/services/chroma_service.py:69-75 | every stored batch has 1 to 100 elements and was accepted |
| ChromaService.AddInBatches | backend/services/chroma_service.py:69-77 | the batch loop computes `AddFrom` from the first slice |
| ChromaService.EmbedAndStoreChunks | backend/services/chroma_service.py:39-80 | the method computes `EmbedResult`: success, and the batches handed to the collection |
| ChromaService.EmbedResult | backend/services/chroma_service.py:39-80 | definition of embed_and_store_chunks; its properties are `NoChunksNoCalls`, `BadChunkAddsNothing` and `EmbedOutcome` |
| ChromaService.NoChunksNoCalls | backend/services/chroma_service.py:42-43 | no chunks: True, and nothing is added |
| ChromaService.BadChunkAddsNothing | backend/services/chroma_service.py:50-80 | a chunk that cannot be prepared gives False before any add |
| ChromaService.EmbedOutcome | backend/services/chroma_service.py:39-80 | the result is the batch run; on success the batches partition the prepared lists in order; each has 1 to 100 elements; a failure stopped at a refused batch |
| ChromaService.WhereClause | backend/services/chroma_service.py:100 | a filter on `job_name` exactly when the job name is truthy |
| ChromaService.FormatResults | backend/services/chroma_service.py:109-125 | definition of the formatting as written: the default lists `[{}] * len(docs)`, `[0] * len(docs)` and `[''] * len(docs)` for falsy parts, then the `i < len(...)` guards; its properties are `QueryShape` and `FullResultsUsed` |
| ChromaService.QueryChunks | backend/services/chroma_service.py:96-129 | definition of query_chunks: the formatted result, or nothing when the query raises; its property is `QueryShape` |
| ChromaService.DefaultList | backend/services/chroma_service.py:113-122 | a default list built for a falsy part covers every document index and yields only its default |
| ChromaService.QueryShape | backend/services/chroma_service.py:96-129 | against a reference stated part by part: empty when the query raises or finds no documents; otherwise one entry per document, in order, each field taken from its part when the part is present and long enough, else {}, 0 or '' |
| ChromaService.FullResultsUsed | backend/services/chroma_service.py:109-125 | when all four parts are present and each first list covers the documents, entry i is exactly the i-th document, metadata, distance and id, with no default used |
| Agent.ReminderIterations | backend/services/agent_service.py:111 | within the cap the reminder is due on iterations 4, 7, 10 and 13 and no others |
| Agent.DueClosedForm | backend/services/agent_service.py:111 | of iterations 1 … n, (n − 1) / 3 append the reminder |
| Agent.InitialHistory | backend/services/agent_service.py:14-29 | [system prompt] + session context + [user prompt], so 2 + 2·k messages |
| Agent.NormalisationAddsJobOnly | backend/services/agent_service.py:65-72 | a string input is parsed, or becomes `{"query": s}`; a dict input keeps every key; `job_name` is added exactly when it is given and absent, and never replaced |
| Agent.ToolStepDelta | backend/services/agent_service.py:57-88 | the history grows by exactly two messages (the raw reply, then the `Tool result: ` message) and the result is recorded, exactly when the tool ran; otherwise both lists are unchanged |
| Agent.ToolStep | backend/services/agent_service.py:57-88 | definition of _handle_tool_execution's effect; its properties are `ToolStepDelta`, `MalformedActionIgnored`, `UnknownToolFedBack` and `ToolStepReminders` |
| Agent.MalformedActionIgnored | backend/services/agent_service.py:59-88 | a reply that does not decode, or lacks `action`, `name` or `input`, changes nothing |
| Agent.UnknownToolFedBack | backend/services/agent_service.py:75-86 | an unknown tool's not found response is fed back and recorded like any result |
| Agent.HandleToolExecution | backend/services/agent_service.py:57-88 | the method computes `ToolStep`, with each failure point leaving both lists unchanged |
| Agent.ToolStepReminders | backend/services/agent_service.py:76-86 | a tool step only appends to the history, and never a reminder |
| Agent.Settle | backend/services/agent_service.py:130-145 | settling a reply keeps the iteration number and the requests sent |
| Agent.SettleReply | backend/services/agent_service.py:130-145 | the branches after the stream compute `Settle`: break on completion; tool step on an action; otherwise a `final_answer` event, and go on |
| Agent.SettleReminders | backend/services/agent_service.py:130-138 | settling keeps the history sent, possibly followed by tool messages, and adds no reminder |
| Agent.Iteration | backend/services/agent_service.py:100-145 | an iteration counts itself and records the history it sends |
| Agent.RunIteration | backend/services/agent_service.py:101-145 | one pass of the loop body computes `Iteration` |
| Agent.RunLoop | backend/services/agent_service.py:96-153 | the while loop computes `Loop` from the initial history |
| Agent.Run | backend/services/agent_service.py:96-153 | definition of the while loop over any iteration body; its properties are `RunBounded`, `RunSpacers`, `RunHistoryGrows`, `RunReminders`, `RunFinishes` and `RunRepeats` |
| Agent.Loop | backend/services/agent_service.py:96-153 | definition of the loop over the real body; its properties are `LoopBounded`, `LoopSpacers`, `LoopHistoryGrows`, `LoopReminders` and `LoopFinishes` |
| Agent.AgentReply | backend/services/agent_service.py:90-157 | definition of a whole turn; its properties are `TurnRequests`, `TurnSpacers`, `TurnConclusion`, `ExhaustedTurnReminders` and `RepeatedPlainTurn` |
| Agent.Body | backend/services/agent_service.py:100-145 | the real loop body numbers its iterations and records its requests |
| Agent.Exhaust | backend/services/agent_service.py:147-152 | the answer ends with the truncation notice; it is the notice alone for an empty answer; otherwise the notice follows the answer |
| Agent.AgentService.constructor | backend/services/agent_service.py:11-12 | the service keeps the system prompt and the session table |
| Agent.AgentService.SetupChatHistory | backend/services/agent_service.py:14-29 | the history is `InitialHistory` of the session's stored loops; the session's timestamp is refreshed |
| Agent.AgentService.ProcessAgentMessage | backend/services/agent_service.py:90-157 | the events and error are those of `AgentReply`; the table is refreshed by the context read, and the recorded answer, if any, is added as a new loop |
| Agent.RunBounded | backend/services/agent_service.py:96-101 | over any iteration body, the loop stays within the cap and keeps one request per iteration; exhaustion happens only at the cap |
| Agent.LoopBounded | backend/services/agent_service.py:96-101 | at most 15 iterations run, one request each, keeping the earlier requests; the loop is exhausted only at 15 |
| Agent.TurnRequests | backend/services/agent_service.py:96-128 | a turn sends 1 to 15 requests, the first being the initial history, and exactly 15 when exhausted |
| Agent.IterationSpacers | backend/services/agent_service.py:104-108 | an iteration opens with the spacer exactly when it is not the first, keeps earlier events and yields no other spacer |
| Agent.RunSpacers | backend/services/agent_service.py:100-108 | over a body that spaces each iteration after the first, the event list keeps iteration − 1 spacers |
| Agent.LoopSpacers | backend/services/agent_service.py:100-108 | from a state with one spacer per earlier iteration after the first, the loop keeps that count and only extends the events |
| Agent.BodySpaces | backend/services/agent_service.py:104-108 | the real body spaces each iteration after the first |
| Agent.TurnSpacers | backend/services/agent_service.py:100-153 | a turn's events hold exactly one spacer per iteration after the first |
| Agent.IterationReminders | backend/services/agent_service.py:111-115 | the reminder is appended exactly when due, just before the request; the history never shrinks |
| Agent.ReminderCount | backend/services/agent_service.py:111-115 | one iteration adds one reminder when it is due and none otherwise |
| Agent.RunHistoryGrows | backend/services/agent_service.py:100-138 | over a body that keeps the history, the history only grows |
| Agent.LoopHistoryGrows | backend/services/agent_service.py:100-138 | over the loop, the history only grows |
| Agent.BodyKeepsHistory | backend/services/agent_service.py:111-138 | the real body never shortens the history |
| Agent.RunReminders | backend/services/agent_service.py:100-115 | over a body that reminds when due, the history gains one reminder per due iteration that ran |
| Agent.LoopReminders | backend/services/agent_service.py:100-115 | over the loop, the history gains one reminder for each of iterations 4, 7, 10 and 13 that ran |
| Agent.BodyReminds | backend/services/agent_service.py:111-115 | the real body adds a reminder exactly on due iterations |
| Agent.ExhaustedTurnReminders | backend/services/agent_service.py:100-153 | an exhausted turn has appended exactly four reminders |
| Agent.TerminatedNotEmpty | backend/services/agent_service.py:131-133 | a text that holds a terminated finish field is not empty |
| Agent.IterationBreaks | backend/services/agent_service.py:131-133 | an iteration that breaks leaves as its answer a non-empty text holding a terminated finish field, and its last event is that field's `final_answer` |
| Agent.RunFinishes | backend/services/agent_service.py:130-133 | over a body whose every break is concluded, a finished loop is concluded |
| Agent.LoopFinishes | backend/services/agent_service.py:130-133 | a finished loop ended on such an iteration |
| Agent.BodyBreaksConcluded | backend/services/agent_service.py:131-133 | every break of the real body is concluded |
| Agent.TurnConclusion | backend/services/agent_service.py:131-157 | an exception passes on and nothing is recorded; otherwise an answer is always recorded: on a finish, the loop's answer, which holds a terminated finish field; on exhaustion, the notice, alone or after the last answer, yielded and recorded |
| Agent.PlainAnswerContinues | backend/services/agent_service.py:140-145 | a reply with neither finish nor action yields `final_answer` with its text, becomes the answer, and the loop goes on with the history and tool results unchanged |
| Agent.RunRepeats | backend/services/agent_service.py:100-153 | a body that always goes on with the same answer exhausts the loop with that answer |
| Agent.RepeatedPlainAnswer | backend/services/agent_service.py:140-153 | a backend that always replies with the same plain text exhausts the turn, that text being the last answer |
| Agent.RepeatedPlainTurn | backend/services/agent_service.py:140-157 | such a turn raises nothing and records `Exhaust` of the repeated text: the truncation notice, after the text when it is not empty |

## Left out

- Asynchronous execution, suspension and cancellation. Both async generators are sequential loops that return the list of events they yield. Concurrent requests on one session are not modelled.
- The model backend: `Agent.Env.reply` is a function from the iteration number and the history sent to the reply's tokens. Network errors of the backend are not modelled.
- JSON and `str()`: `json.loads`, `json.dumps` and Python's `str()` of a non-string are the functions of a `Values.Codec`. `json.dumps` is taken never to raise.
- Dict key order: dicts are maps, so the key order of the serialised responses is not modelled.
- Clocks: `time.time()` readings are parameters of the methods that read them.
- Logging: all `logger` calls are left out.
- Aliasing: `get_session` returns the live context object, and `parse_stream_token` mutates the caller's set. In the model both return new values, which the caller adopts: the stored context and the returned streamed set.
- The three handlers semantic_search, artifact_list and report_list are not part of this model. They are supplied as functions of `Tools.Handlers`. The system prompt is a parameter.
- The database: the cursor is a function from a statement to its rows or an error message. Connections, commits, rollbacks and the SQLite engine are not modelled, and the same function answers both grep statements.
- Sql: statement text is a sequence of literal pieces and placeholders. The literal pieces keep the words of the source's statements, not their line breaks and indentation.
- ChromaService: the collection's `add` and `query` are functions. Embedding, persistence and similarity search are not modelled. `reset_collection` and `__init__` only call the vector store and are left out.
- ValidationSchemas.Validate: models strict typing. Pydantic's lax-mode coercions (a numeric string for an int, an int for a bool) are not modelled. Rejections are a set of issues rather than pydantic's error list.
- GrepSearchTool.Lower: maps only the ASCII capitals. Python's full Unicode lower-casing is not modelled.
- SharedUtils.BuildErrorResponse: requires that the extras do not name `error_type` or `message`, because Python rejects such a call with a TypeError before the body runs.
- Python's equality between `True` and `1` in dicts and lists is not modelled.
