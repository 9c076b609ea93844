# State-API head and pandas block accessor, modelled in Dafny

This project models two parts of Ray's code base and proves properties of the model.

**The state-API head module of the dashboard** (`dashboard/modules/state/state_head.py`):

- The registry of per-node stubs. There are two maps from node id to endpoint: raylet endpoints and agent endpoints. Membership-change events update them. `StateHeadModule.UpdateRayletStubs` and `StateHeadModule.UpdateAgentStubs` are methods on a class that owns a `StateDataSourceClient`, whose two maps they change. Each method is proved against the specification function `ApplyChange`.
- The translation of a list request's query string into `ListApiOptions`.
- The uniform reply envelope of the list routes, including the reshaping that `list_jobs` does.
- The log routes. `list_logs` resolves the node from an id or an ip. `get_logs` forwards the chunks of a log stream and degrades a fault raised mid-stream into a closing message.

**The pandas block accessor** (`python/ray/data/_internal/pandas_block.py`):

- `_zip` adds the right block's columns to a copy of the left block. It renames every clashing column `c` to the first free name among `c_1`, `c_2`, and so on. The outer loop is the method `Zip` and the inner search is the method `ChooseName`.
- The argument checks of `to_numpy`, `schema`, `sum` and `_apply_agg`, and the null handling of `sum` and `_apply_agg`.
- `slice` and `num_rows` as operations on sequences.

Modules:

- `Faults` (`faults.dfy`): Python's outcomes. A call either returns a value or raises an exception, and `str(e)` is the exception's text.
- `Text` (`text.dfy`): decimal spelling and parsing of integers (`int(s)` and `str(n)`), and the UTF-8 encoding behind `str.encode()`.
- `StateHead` (`state_head.dfy`): the head module.
- `PandasBlock` (`pandas_block.dfy`): the block accessor.

Collaborators the head module calls are parameters of the functions that use them. They are the state-API manager's list operations, the log manager's `ip_to_node_id`, `list_logs` and `stream_logs`, and the node directory `DataSource.node_id_to_ip`. A log stream is the sequence of chunks it yields plus the fault it raises after them, if any. What the HTTP response receives is a sequence of frames: data frames and one end-of-stream.

A block is a value holding its row count, its column labels and its columns. A column is a dtype plus one optional value per row. A label is either a string or a non-string label identified by its `str`. pandas' own sum and aggregation functions are parameters.

`DEFAULT_RPC_TIMEOUT` is 30 seconds. That value comes from `ray/experimental/state/common.py`, which is not part of this model.

Details the model takes from the code:

- `list_logs` and `get_logs` pass the `timeout` and `lines` query values on as text and do not convert them. Only the defaults are integers. See `QueryValue`.
- `get_logs` does not check the media type.
- The closing message is `Closing HTTP stream due to internal server error:\n`, followed by the fault's text.
- An empty `node_id` or `node_ip` counts as missing, following Python truthiness.
- When the raylet's node record lacks a field or has a non-numeric port, the event fails after the old entry has already been removed.

## Model

| member | source | states |
|---|---|---|
| `Text.ParseIntOfIntToString` | dashboard/modules/state/state_head.py:47-48 | `int()` reads back every integer that `str()` writes. |
| `Text.NatToStringInjective` | python/ray/data/_internal/pandas_block.py:161 | Different suffix numbers are spelled differently, so the names `c_1`, `c_2`, … are pairwise distinct. |
| `Text.Utf8Encode` | dashboard/modules/state/state_head.py:245 | `str(e).encode()` gives at least one byte per character. |
| `Text.Utf8EncodeAscii` | dashboard/modules/state/state_head.py:245 | ASCII text encodes to one byte per character, equal to its code. |
| `StateHead.PyInt` | dashboard/modules/state/state_head.py:47-48 | `int(v)` succeeds exactly when the value is present and is a decimal integer, and then returns that integer. A missing value raises TypeError; malformed text raises ValueError. |
| `StateHead.Zip` | dashboard/modules/state/state_head.py:52-54 | `zip` pairs the i-th key with the i-th value, in order, and stops at the shorter list. |
| `StateHead.OptionsFromReq` | dashboard/modules/state/state_head.py:45-55 | Succeeds exactly when `limit` and `timeout` parse as integers and the counts of `filter_keys` and `filter_values` are equal. A parse failure of `limit`, then of `timeout`, comes first; unequal counts raise AssertionError. On success the parsed values are carried over unchanged, and `filters` is the in-order pairing of keys and values, with the same length (empty when both are empty). |
| `StateHead.OptionsFromReqOfEncoding` | dashboard/modules/state/state_head.py:45-55 | A query that encodes any options (limit, timeout, all filter keys, then all filter values) parses back to exactly those options. |
| `StateHead.RayletEndpoint` | dashboard/modules/state/state_head.py:88-93 | The new raylet endpoint is (`nodeManagerAddress`, `int(nodeManagerPort)`). A missing field or a non-integer port fails. |
| `StateHead.AgentEndpoint` | dashboard/modules/state/state_head.py:102-108 | The new agent endpoint is (`node_id_to_ip[node_id]`, `int(ports[1])`). The ip is looked up first, and a node missing from the directory raises KeyError. |
| `StateHead.ApplyChange` | dashboard/modules/state/state_head.py:82-93 | The old entry is unregistered before the new one is registered. After an add or an overwrite, the id maps to exactly the new endpoint. After a removal, the old id is absent. If registration fails, the old entry is already gone and the failure is reported. Ids the event does not name keep their entries. |
| `StateHead.RayletOverwrite` | dashboard/modules/state/state_head.py:78-93 | Overwriting a registered id replaces only its endpoint; the registry's other entries and its size are unchanged. |
| `StateHead.RemovalIdempotent` | dashboard/modules/state/state_head.py:82-85 | After a removal the id is absent, and replaying the removal changes nothing. That removing an unregistered id is a no-op is an assumption about the client (see "Left out"). |
| `StateHead.RayletStubsAfter` | dashboard/modules/state/state_head.py:82-93 | A raylet event with no new entry leaves the stubs minus the old id. Otherwise the new id maps to the endpoint read from the node record, on top of the stubs minus the old id. If reading the record fails, the stubs are left minus the old id and the fault is reported. |
| `StateHead.AgentStubsAfter` | dashboard/modules/state/state_head.py:97-108 | The same for an agent event: the new id maps to (directory ip, `int(ports[1])`) on top of the stubs minus the old id. A missing ip, a short port list or a bad port leaves the stubs minus the old id and reports the fault. |
| `StateHead.StateDataSourceClient.UnregisterRayletClient` | dashboard/modules/state/state_head.py:85 | Removes the id from the raylet stubs; the agent stubs are unchanged. |
| `StateHead.StateDataSourceClient.RegisterRayletClient` | dashboard/modules/state/state_head.py:89-93 | Maps the id to the given endpoint in the raylet stubs; the agent stubs are unchanged. |
| `StateHead.StateDataSourceClient.UnregisterAgentClient` | dashboard/modules/state/state_head.py:99 | Removes the id from the agent stubs; the raylet stubs are unchanged. |
| `StateHead.StateDataSourceClient.RegisterAgentClient` | dashboard/modules/state/state_head.py:104-108 | Maps the id to the given endpoint in the agent stubs; the raylet stubs are unchanged. |
| `StateHead.StateHeadModule.UpdateRayletStubs` | dashboard/modules/state/state_head.py:67-93 | The raylet stubs become `ApplyChange` of the old stubs under the event, with the same outcome. The agent stubs are untouched. |
| `StateHead.StateHeadModule.UpdateAgentStubs` | dashboard/modules/state/state_head.py:95-108 | The agent stubs become `ApplyChange` of the old stubs under the event, using the node directory's ip. The raylet stubs are never touched, including when the ip lookup fails. |
| `StateHead.HandleListApi` | dashboard/modules/state/state_head.py:110-122 | When the collaborator returns, the reply is `success=True` with message `""`, and `result` and `partial_failure_warning` are passed through verbatim. DataSourceUnavailable gives `success=False` with the fault's text and a null result. Any other fault propagates, and so does a failure to translate the options. |
| `StateHead.OptionsFaultIsNotCaught` | dashboard/modules/state/state_head.py:113-122 | Option translation never raises DataSourceUnavailable, so a malformed request is never turned into a failure envelope. |
| `StateHead.ListJobs` | dashboard/modules/state/state_head.py:128-142 | An options fault propagates. A returned listing gives `success=True` with message `""`, the collaborator's warning, and a result with exactly its job ids, each mapped to its record as a dict. DataSourceUnavailable gives the failure envelope with the fault's text. Any other fault propagates. |
| `StateHead.AsDicts` | dashboard/modules/state/state_head.py:135-138 | The reshaped result has exactly the collaborator's job ids, and each value is that job's record as a dict. |
| `StateHead.ListJobsIsReshapedListApi` | dashboard/modules/state/state_head.py:128-142 | `list_jobs` gives the same envelope as the generic list route, with only the result reshaped by `AsDicts`. |
| `StateHead.ListLogs` | dashboard/modules/state/state_head.py:170-210 | With neither `node_id` nor `node_ip` the request fails. An ip that resolves to no node fails with a message naming that ip. A successful reply comes from listing the resolved node, with the request's timeout and glob. |
| `StateHead.LogGlob` | dashboard/modules/state/state_head.py:177 | The glob is the request's `glob` when given, `"*"` otherwise. |
| `StateHead.LogTimeout` | dashboard/modules/state/state_head.py:180 | The timeout is the request's `timeout` text when given, the number `DEFAULT_RPC_TIMEOUT` otherwise. |
| `StateHead.ListLogsResolvedIp` | dashboard/modules/state/state_head.py:193-210 | Without a node id, an ip that resolves to a node id lists that id's logs with the request's timeout and glob. The listing's result gives a success envelope, DataSourceUnavailable a failure envelope with its text, and any other fault propagates. |
| `StateHead.ListLogsIdWins` | dashboard/modules/state/state_head.py:177-210 | A given `node_id` wins: the ip lookup is not consulted. The listing is asked for that id with `glob` (default `"*"`) and `timeout` (default `DEFAULT_RPC_TIMEOUT`). Its result, a DataSourceUnavailable, or any other fault maps to a success envelope, a failure envelope, or propagation. |
| `StateHead.ListLogsWithoutNodeConsultsNothing` | dashboard/modules/state/state_head.py:183-191 | Without a node id or ip, the failure envelope is the same whatever the collaborators would do, so it comes before any lookup. |
| `StateHead.ListLogsUnresolvedIp` | dashboard/modules/state/state_head.py:193-201 | An unresolvable ip fails with `Cannot find matching node_id for a given node ip <ip>`, whatever the listing would answer. |
| `StateHead.GetLogOptionsOf` | dashboard/modules/state/state_head.py:219-230 | `timeout` and `lines` are the query's text when given, otherwise `DEFAULT_RPC_TIMEOUT` and 1000. The media type is the path's, `"file"` by default. `node_id`, `node_ip`, `filename`, `actor_id`, `task_id`, `pid` and `interval` are the query's values, `None` when absent. |
| `StateHead.StreamResponse.constructor` | dashboard/modules/state/state_head.py:232 | A new stream response is unprepared and empty. |
| `StateHead.StreamResponse.SetContentType` | dashboard/modules/state/state_head.py:233 | Sets the content type and changes nothing else. |
| `StateHead.StreamResponse.Prepare` | dashboard/modules/state/state_head.py:234 | Marks the response prepared and sends nothing. |
| `StateHead.StreamResponse.Write` | dashboard/modules/state/state_head.py:239-245 | Appends one data frame (a log chunk, the closing message or the fault's text) to what was sent, on a prepared response that has not ended. |
| `StateHead.StreamResponse.WriteEof` | dashboard/modules/state/state_head.py:240-246 | Appends the end of the stream (after a clean end or after the closing frames), on a prepared response that has not ended. |
| `StateHead.LogResponseFrames` | dashboard/modules/state/state_head.py:237-246 | The frames are the chunks in order. If the stream raised, they are followed by the closing message and the fault's UTF-8 text. Exactly one end-of-stream comes last, so the frame count is chunks + 1, or + 3 on a fault. |
| `StateHead.GetLogs` | dashboard/modules/state/state_head.py:212-247 | The response is a fresh `text/plain` stream that was prepared before any data. It receives exactly `LogResponseFrames` of the stream the collaborator gives for the request's options: every chunk in order, then the closing frames if the stream raised, then the end of the stream. |
| `StateHead.LogResponseBody` | dashboard/modules/state/state_head.py:237-247 | The body is the concatenation of the chunks. If the stream raised, the closing message and the UTF-8 text of the fault follow. There is exactly one end-of-stream, and it is the last frame. |
| `StateHead.FaultKeepsSentChunks` | dashboard/modules/state/state_head.py:242-247 | A fault after k chunks keeps those k chunks exactly as a clean end would. The closing message comes right after them, and the reply is two frames longer. |
| `PandasBlock.NumRows` | python/ray/data/_internal/pandas_block.py:144-145 | In a well-formed block, the row count is the length of every column. |
| `PandasBlock.SliceBound` | python/ray/data/_internal/pandas_block.py:99 | A bound inside the block is kept, and a negative one counts from the end. A bound past the end becomes the row count, and one before the start (after counting from the end) becomes 0. |
| `PandasBlock.Slice` | python/ray/data/_internal/pandas_block.py:98-102 | The slice keeps the labels and dtypes. Its i-th row is row `lo + i` of the block, and it has `hi - lo` rows (none if `hi < lo`), where `lo` and `hi` are the Python-normalised bounds. `copy` does not affect the contents. |
| `PandasBlock.SliceInside` | python/ray/data/_internal/pandas_block.py:98-102 | For `0 <= start <= end <= num_rows`, the slice has `end - start` rows, and every column is that column's values `start..end`. |
| `PandasBlock.SchemaOf` | python/ray/data/_internal/pandas_block.py:107-120 | Fails (ValueError) if and only if some column name is not a string. Otherwise `names` is the column-name list in order, and `types` holds the columns' dtypes. |
| `PandasBlock.ToNumpy` | python/ray/data/_internal/pandas_block.py:125-137 | Fails when no column is given (None or empty) and when the column is not among the block's columns. Otherwise it returns the values of a column with that name. |
| `PandasBlock.FirstIndex` | python/ray/data/_internal/pandas_block.py:137 | A label lookup finds the first column carrying that label. |
| `PandasBlock.ColumnAt` | python/ray/data/_internal/pandas_block.py:188 | `self._table[on]` finds the column named `on`. `None` looks up a column labelled `None`, and a missing column raises KeyError. |
| `PandasBlock.ApplyAgg` | python/ray/data/_internal/pandas_block.py:178-198 | An `on` that is neither None nor a string raises ValueError. An aggregation that returns gives its value. A failing aggregation gives None exactly when the fault is a TypeError and the column is object-typed and entirely null; in every other case the same fault is re-raised. |
| `PandasBlock.Sum` | python/ray/data/_internal/pandas_block.py:203-216 | An `on` that is neither None nor a string raises ValueError. The result is None exactly when the column is entirely null. Otherwise it is pandas' sum of the column under `ignore_nulls`, or that sum's fault. |
| `PandasBlock.SumOfAllNullColumn` | python/ray/data/_internal/pandas_block.py:210-215 | On an all-null column, `sum` is None for either value of `ignore_nulls`, and pandas' sum is never consulted. |
| `PandasBlock.CandidateInjective` | python/ray/data/_internal/pandas_block.py:159-162 | The names tried for one column (`c`, `c_1`, `c_2`, …) are pairwise distinct. |
| `PandasBlock.FreeNameKept` | python/ray/data/_internal/pandas_block.py:157-164 | A right-hand name that is not yet taken is kept, and it is then the only possible choice. |
| `PandasBlock.ChosenNameUnique` | python/ray/data/_internal/pandas_block.py:157-163 | The chosen name is determined by the taken names and the column's name, and it is not taken. |
| `PandasBlock.SetColumn` | python/ray/data/_internal/pandas_block.py:164 | Assigning a column under a new name appends both name and column. Assigning under an existing name keeps the names, puts the column at that name's (first) position and leaves every other column as it was. |
| `PandasBlock.ChooseName` | python/ray/data/_internal/pandas_block.py:155-163 | The inner loop stops, and it returns `c` when `c` is free. Otherwise it returns `c_i` for the least `i >= 1` that is not a current name. |
| `PandasBlock.Zip` | python/ray/data/_internal/pandas_block.py:150-165 | The result has left plus right columns. Every left column keeps its place and its name, and the right columns follow in order. Each added name is the one `ChooseName` picks against the names before it, including those added earlier in the same zip. If the left names are pairwise distinct, so are the result's. The accessor's own block is not changed. |

## Left out

- HTTP plumbing: the route table, `rest_response` JSON formatting (`convert_google_style`) and `is_minimal_module`. An aiohttp request is reduced to its query pairs and path parameters (`Request`). A streamed response is reduced to its content type, whether it is prepared, and the frames written to it (`StreamResponse`); the transport, headers and status are not modelled. A JSON reply is the `Reply` datatype. Its warning is `None` both when the collaborator's warning is null and when the failure reply carries no warning at all.
- The seven list routes `list_actors`, `list_nodes`, `list_placement_groups`, `list_workers`, `list_tasks`, `list_objects` and `list_runtime_envs`. Each one is `HandleListApi` applied to the matching state-API manager operation, so they are covered by that member.
- Asynchronous scheduling and the `DataSource.nodes`/`DataSource.agents` signal subscription. Each change event is one atomic method call, so concurrent readers and interleavings are not modelled.
- `run`, which only wires the collaborators. The model starts from the state after `run`: a head module that owns its client. An event arriving before `run` is not modelled.
- The internals of the state-API manager, the log manager and the data-source client. These are per-node fan-out, timeouts, how partial-failure warnings are built, `ip_to_node_id`, and the gRPC stubs. The collaborators are parameters, and the client's registry is two maps.
- `StateHead.OptionsFromReq`: `ListApiOptions` is a dataclass defined in `ray/experimental/state/common.py`, which is not part of this model. Any check or adjustment its construction makes is not modelled; the options are a plain record of the parsed values.
- Validation inside `GetLogOptions` construction, which lives in `ray/experimental/state/common.py`. That file is not part of this model.
- `StateHead.StateDataSourceClient.UnregisterRayletClient`, `StateHead.StateDataSourceClient.UnregisterAgentClient`: the client's code is not part of this model. Removing an id that is not registered is assumed to be a no-op, and registering an id is assumed to replace its entry.
- `StateHead.StreamResponse.Prepare`: requires an unprepared response. In aiohttp a second `prepare` returns the existing writer, but `get_logs` prepares once.
- `StateHead.StreamResponse.Write`: a write that fails because the client has disconnected is not modelled. The unbounded live tail of the `stream` media type is modelled as a finite sequence of chunks, optionally ending in a fault.
- `logger.exception` and all logging.
- `Text.Utf8Encode`: a Dafny `char` is a Unicode scalar value, so a string holding a lone surrogate, on which `str(e).encode()` raises, cannot be represented.
- `Text.ParseInt`: Python's `int()` also accepts surrounding whitespace, underscores between digits and non-ASCII decimal digits. The model accepts only an optional sign followed by ASCII digits.
- `Faults.ReprStr`: `repr` of a string does not escape quotes or control characters here. The wording of Python's own exception messages varies with the Python version and is given for one version.
- `PandasBlock.ColumnAt`, `PandasBlock.ToNumpy`, `PandasBlock.SetColumn`: with duplicate labels, pandas selects (and `r[name] = col` assigns) every matching column. The model reads and replaces only the first one. `_zip` never assigns under a taken name, so only the read side reaches the modelled routes. Non-string labels are equal when their `str` is equal.
- `PandasBlock.Zip`: a right block that repeats a label is modelled position by position. In pandas, `s[col_name]` selects every column with that label, and assigning that frame under a new name is refused. The model instead appends each column under its own chosen name.
- `PandasBlock.Zip`: the alignment of the added columns on the row index is pandas behaviour and is not modelled; columns are appended as they are. The sharing of column data by the shallow copy is not modelled either.
- pandas numerics: `count`, `min`, `max`, `mean` and `sum_of_squared_diffs_from_mean` are `ApplyAgg` over pandas' own reductions. Those reductions, and the NaN and `skipna` semantics of `col.sum`, are floating-point library behaviour and are parameters here.
- `random_shuffle` and `_sample`: randomness inside pandas.
- `size_bytes`, `to_arrow`, `to_pandas`, `sort_and_partition`, `combine`, `merge_sorted_blocks`, `aggregate_combined_blocks`, `builder`, `_empty_table` and `PandasBlockBuilder`. These delegate to Arrow or to pandas.
- `PandasRow` (numpy `.item()` conversion) and `lazy_import_pandas`.
- `python/ray/air/train/integrations/lightgbm/lightgbm_trainer.py`: a configuration wrapper over an external trainer, plus filesystem I/O.
