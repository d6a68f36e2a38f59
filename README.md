# tap-monday stream engine in Dafny

A model of the stream engine of the Singer tap for monday.com (`tap-monday`), with proofs about it.
The tap pulls boards, items, updates and the other entities of monday.com's GraphQL API. It emits
them as RECORD messages and keeps a resumable bookmark state. The model covers six parts.

- **The GraphQL query builder** (`get_graphql_query`), in `query.dfy`. A stream's JSON schema,
  its extra fields (dot-path to field list) and its excluded dot-paths become one selection set
  (section 2.4 of the GraphQL specification, "Selection Sets"). The selection is built as a tree
  of `Sel` values and printed with the source's padding and braces. `payloads.dfy` holds the
  queries each stream sends (`update_data_payload`), including the board items and column values
  root fields, which leave braces open and close them afterwards.
- **Response extraction and record normalisation**, in `records.dfy`:
  - `get_dot_path_value` and `parse_raw_records`;
  - `add_object_to_id` and each stream's `modify_object`;
  - the board items and column values `parse_raw_records`;
  - the assets `extract_assets`.
  JSON values and the Python operations applied to them are in `json.dfy`.
- **The bookmark manager**, in `bookmarks.dfy`:
  - the base `get_bookmark` and `write_bookmark`, a monotone max with `start_date` as default;
  - the min-read and propagate-write merge of boards, updates and board items over their
    children's composite keys;
  - the memoised read floor of board items, board activity logs and replies.
- **The sync loops**, in `sync.dfy`: `get_records`, `IncrementalStream.sync`, `FullTableStream.sync`
  and `Assets.sync`. A `Tap` object holds what the stream instances share during a run:
  - the bookmark state;
  - each instance's `data_payload`, `bookmark_value` and `cursor`;
  - the RECORD messages written so far.
  Child syncs recurse depth-first over the stream tree (`streams.dfy`).
- **Error classification**, in `exceptions.dfy` and `client.dfy`: `ERROR_CODE_EXCEPTION_MAPPING`,
  `raise_for_error` and `MondayRateLimitError`.
- **The client**, in `client.dfy`: header and argument defaulting, method validation, and the retry
  policy of the backoff decorator. The HTTP session is a finite script of replies; each attempt
  consumes one. A script with no reply left yields `Exhausted`. This stands in for the live
  server, and it also bounds every request loop.

`text.dfy` holds the Python string behaviour the tap relies on:
- the code-point order of `<`, `max` and `min`, used on ISO-8601 timestamps;
- `sorted(set(...))`, `split(".")`, `str(int)`, `int(str)`, `upper()` and `strip()`;
- the brace depth of a GraphQL text.

`query_examples.dfy` replays the three cases of tests/unittests/test_abstracts.py: the flat schema, the
nested object with extras and the excluded field.

Where the model departs from the code as written:

- **Updates.get_bookmark.** tap_monday/streams/updates.py:20 is indented by seven spaces, so the
  module does not compile as shown. The model follows the evident intent: the boards min-merge
  with an accumulator that starts at None instead of "".
- **The `is_selected` gate.** `FullTableStream.sync` (abstracts.py:370) and `Assets.sync`
  (assets.py:49) test `self.is_selected` without calling it. A bound method is always truthy,
  so every record is written. tests/unittests/test_abstracts.py:104-105 expects an unselected
  full-table stream to write nothing. The model follows the code.
- **The board items cursor** is read before it is ever assigned in the shown files. The model
  starts it at None. It is never reset between parent boards, so the model keeps a stale cursor
  from one board's response for the next board's query, as the code does.

## Model

Functions that define a source operation, such as `Records.ModifyObject`, `Records.ParseRawRecords`,
`Bookmarks.WriteAll`, `Bookmarks.MinRead`, `Client.Attempts` and `Sync.MaxOver`, are specified through
the lemmas and methods whose rows name them in the third column.

| member | source | states |
|---|---|---|
| Exceptions.KindOf | tap_monday/exceptions.py:79-125 | exactly the eleven statuses 400 to 503 of the table have a class. That class is never the base MondayError, it is registered under that status, and it is a backoff class exactly for 422, 429 and 500-503 |
| Exceptions.MessageOf | tap_monday/exceptions.py:79-125 | a default message exists exactly for the statuses of the table |
| Exceptions.Mapping | tap_monday/exceptions.py:79-125 | `ERROR_CODE_EXCEPTION_MAPPING.get(status)`: a row exists exactly for the mapped statuses, and it pairs that status's class with its message |
| Exceptions.MappingCoversKinds | tap_monday/exceptions.py:1-77 | every class except MondayError is registered, and looking up its status gives the class back |
| Exceptions.MappingInjective | tap_monday/exceptions.py:79-125 | distinct mapped statuses raise distinct classes |
| Exceptions.KindFor | tap_monday/client.py:45-46 | the table's class for a mapped status, MondayError for any other |
| Exceptions.RetryAfter | tap_monday/exceptions.py:45-55 | None without a response. A body that is not JSON raises. None when `errors` is missing or empty. A delay is only ever produced from a truthy `errors` list |
| Exceptions.RetryAfterFromErrors | tap_monday/exceptions.py:48-55 | a body whose first error has `extensions.retry_in_seconds = n` yields the delay n |
| Exceptions.RetryAfterFirstError | tap_monday/exceptions.py:50-55 | with a truthy `errors` list starting with a dict, the delay comes from the first error's extensions (`{}` when absent): none when `retry_in_seconds` is missing or null, otherwise `int()` of it, whose error is raised when it fails |
| Exceptions.RetryAfterMissing | tap_monday/exceptions.py:50-55 | a first error without `extensions.retry_in_seconds`, or with it null, gives no delay |
| Exceptions.RetryAfterFromText | tap_monday/exceptions.py:53-55 | a str `retry_in_seconds` that parses as an integer, such as "30", gives that delay |
| Exceptions.RateLimitMessage | tap_monday/exceptions.py:57-60 | the message starts with the given message, or with the default when that is None or empty. It ends with "(Retry after N seconds.)", or "(Retry after unknown delay.)" when there is no delay |
| Exceptions.RateLimitMessageNamesDelay | tap_monday/exceptions.py:57-60 | without a message, the full text is the default followed by the delay clause |
| Exceptions.RateLimitError | tap_monday/exceptions.py:39-61 | the constructor succeeds exactly when retry_after can be computed. The exception is then of the rate-limit kind, with that message and delay |
| Client.ErrorMessagePlain | tap_monday/client.py:40-44 | a dict body whose "errors" is missing or falsy gives "HTTP-error-code: S, Error: M". M is the body's "message", else the table's default message for S, else "Unknown Error" |
| Client.ErrorMessageFirst | tap_monday/client.py:32-39 | a dict body whose "errors" list starts with a dict gives "HTTP-error-code: S, Error: m, Error Extensions: c". m is that error's "message" and c the "code" of its "extensions" (`{}` when absent), each printed as None when missing |
| Client.RaiseWithErrors | tap_monday/client.py:32-39 | a body with `errors[0].message = m` and `errors[0].extensions.code = c` is reported as "HTTP-error-code: S, Error: m, Error Extensions: c" |
| Client.UnmappedStatus | tap_monday/client.py:40-46 | an unmapped failing status with no body raises MondayError with "HTTP-error-code: S, Error: Unknown Error" |
| Client.Raised | tap_monday/client.py:45-47 | a status whose class is not the rate-limit class raises that class (MondayError when unmapped) with exactly the built message and no delay. For 429 the message gains the retry clause and the exception carries the delay read from the body. A body whose delay cannot be read raises the error met while reading it |
| Client.RaiseForError | tap_monday/client.py:20-47 | nothing is raised exactly when the status is 200, 201 or 204 and the body (`{}` when not JSON) has no "errors" key. In every other case the exception is the one `Raised` builds from the message, or the error met while building the message |
| Client.ErrorsKeyRaises | tap_monday/client.py:31-39 | with status 200, 201 or 204, a body whose errors[0] has message m and extensions.code c raises MondayError "HTTP-error-code: S, Error: m, Error Extensions: c" with no delay |
| Client.MessageOrDefault | tap_monday/client.py:40-47 | a failing status other than 429, with a body without "errors", raises the table's class with the body's "message", else the default message, else "Unknown Error" |
| Client.RateLimitRaised | tap_monday/client.py:31-47 | status 429 with errors[0] carrying message m, code c and retry_in_seconds n raises the rate-limit class with "HTTP-error-code: 429, Error: m, Error Extensions: c (Retry after n seconds.)" and delay n |
| Client.Authenticate | tap_monday/client.py:82-99 | the headers are the defaults plus Authorization plus the caller's. Caller headers override, the token is used unless overridden, the defaults survive where not overridden, and params pass through unchanged |
| Client.BackoffKindsNotRetried | tap_monday/client.py:120-133 | the backoff classes for 422, 501 and 502 are not in the decorator's list and are not retried |
| Client.Classify | tap_monday/client.py:147-157 | a success carries the parsed body of an OK status. A transport failure is reported as that failure |
| Client.Outcomes | tap_monday/client.py:154-157 | one outcome per scripted reply, each the classification of that reply |
| Client.AttemptsBounded | tap_monday/client.py:120-133 | at most `max_tries` (5) session calls, and never more than the replies left |
| Client.AttemptsProgress | tap_monday/client.py:120-133 | the calls stay within the script, and a success costs at least one call |
| Client.NotRetried | tap_monday/client.py:120-133 | an error outside the retryable set fails after exactly one call |
| Client.SucceedsAt | tap_monday/client.py:120-133 | k-1 retryable failures and then a success give that success after exactly k calls |
| Client.RetryStep | tap_monday/client.py:120-133 | a retryable failure before the last attempt costs one call and moves on to the next reply |
| Client.GivesUpAfterMaxTries | tap_monday/client.py:120-133 | five retryable failures in a row raise the fifth, after exactly five calls |
| Client.Client.constructor | tap_monday/client.py:67-71 | a client with the given configuration and script, and no calls made yet |
| Client.Client.RequestOnce | tap_monday/client.py:134-157 | an unknown method raises ValueError without a call. Otherwise exactly one call is recorded, with the upper-cased method and no body for GET, and its outcome is the next scripted one |
| Client.Client.Send | tap_monday/client.py:120-157 | the result and number of calls are those of the retry policy on the script. Every call made carries the same request |
| Client.Client.MakeRequest | tap_monday/client.py:101-118 | as Send, on the defaulted params, headers and body, the resolved endpoint and the authenticated headers |
| Json.Get | tap_monday/client.py:32-38 | `d.get(k, default)` succeeds exactly on a dict and gives the value or the default |
| Json.Subscript | tap_monday/streams/abstracts.py:142-143 | `d[k]` succeeds exactly when d is a dict holding k. A dict without k is a KeyError |
| Json.First | tap_monday/client.py:37 | `v[0]` of a non-empty list is its first element; it succeeds only on a non-empty list or str |
| Json.Contains | tap_monday/client.py:31 | `k in d` on a dict is key membership; it succeeds only on a dict, list or str |
| Json.Set | tap_monday/streams/abstracts.py:143-145 | `d[k] = x` succeeds exactly on a dict and updates that one key |
| Json.ToInt | tap_monday/exceptions.py:55 | `int(v)` of an int is itself; of a str it succeeds exactly when the text parses |
| Json.Iterate | tap_monday/streams/abstracts.py:117 | iterating a list visits its items; iterating None raises |
| Text.Max | tap_monday/streams/abstracts.py:309 | `max` of two strings is one of them and at least both |
| Text.Min | tap_monday/streams/boards.py:32 | `min` of two strings is one of them and at most both |
| Text.SortedSet | tap_monday/streams/abstracts.py:234 | `sorted(set(xs))` is strictly increasing and has exactly the elements of xs |
| Text.SplitDot | tap_monday/streams/abstracts.py:174 | `split(".")` gives at least one part, and no part contains a dot |
| Text.JoinSplitDot | tap_monday/streams/abstracts.py:174 | joining the parts of a split with dots gives the path back |
| Text.SplitJoinPath | tap_monday/streams/abstracts.py:238 | the full path of a dot-free key splits into the parent path's parts followed by the key, or the key alone at the top level |
| Text.IntRoundTrip | tap_monday/exceptions.py:55 | `int(str(i)) == i` |
| Text.Upper | tap_monday/client.py:148 | `upper()` keeps the length and upper-cases each ASCII letter |
| Text.UpperIdle | tap_monday/client.py:148-149 | a text without lower-case letters, such as "POST", is its own upper case |
| Query.KeysOf | tap_monday/streams/abstracts.py:232 | the keys of an ordered dict, in order |
| Query.Put | tap_monday/streams/abstracts.py:224 | `branch[key] = child` never shrinks the dict |
| Query.PutFinds | tap_monday/streams/abstracts.py:224 | after `branch[key] = child` the key holds the child |
| Query.PutOthers | tap_monday/streams/abstracts.py:224 | `branch[key] = child` leaves every other key's position and value alone |
| Query.Insert | tap_monday/streams/abstracts.py:221-225 | after one `collect_extra_tree` step, the path leads to its field list |
| Query.InsertKeepsOthers | tap_monday/streams/abstracts.py:221-225 | one step leaves every other path's field list as it was |
| Query.ExtraTree | tap_monday/streams/abstracts.py:218-226 | a non-empty extra-field dict gives a non-empty tree |
| Query.ExtraTreeFindsFields | tap_monday/streams/abstracts.py:218-226 | every extra-field path leads, in the tree, to its own field list |
| Query.Keep | tap_monday/streams/abstracts.py:235 | the filter keeps exactly the elements that pass, in order, so sortedness is kept |
| Query.Keys | tap_monday/streams/abstracts.py:232-235 | the keys at one level are strictly sorted. They are exactly the schema and extras keys whose full dot-path is not excluded |
| Query.RenderKeys | tap_monday/streams/abstracts.py:237-275 | the names selected, in order, are the given keys minus the omitted ones |
| Query.RenderKey | tap_monday/streams/abstracts.py:237-274 | a key selects at most one field, with its own name. It selects nothing exactly when it is not an object or array of objects and its extras branch is non-empty without "_extras". A scalar key without extras is a bare name |
| Query.RenderKeyNested | tap_monday/streams/abstracts.py:243-258 | an object key selects `key { ... }` around the selection of its properties, with the key's extras branch and the key's full dot-path. An array of objects does the same over its items' properties |
| Query.RenderIgnoresFields | tap_monday/streams/abstracts.py:233 | the `_extras` list of a level is never one of its keys: the selection is the same whatever that list holds |
| Query.Leaves | tap_monday/streams/abstracts.py:266-268 | extra field names become bare fields, in the order given |
| Query.GraphQlQuery | tap_monday/streams/abstracts.py:277-287 | the query is "query {" + body + "}". The body is the printed selection of the schema and the extra-field tree, wrapped as `pad root { ... pad}` when there is a root field, where pad is indent * level spaces |
| Query.RenderKeysSorted | tap_monday/streams/abstracts.py:228-275 | the fields selected at a level are strictly sorted. They are exactly the schema and extras keys that are not excluded by full dot-path and not omitted |
| Query.ExcludedNeverSelected | tap_monday/streams/abstracts.py:235 | a key whose full dot-path is excluded is never selected |
| Query.PrintBalanced | tap_monday/streams/abstracts.py:249-275 | a printed brace-free selection has balanced braces |
| Query.QueryBalanced | tap_monday/streams/abstracts.py:277-287 | a root field that leaves n braces open, and never closes more than it opened, gives a query that n closing braces balance |
| Query.PrintBlank | tap_monday/streams/abstracts.py:269 | a printed selection is blank exactly when it holds only bare, blank names |
| Query.ExtrasOnlyKey | tap_monday/streams/abstracts.py:258-272 | a key only the extras name, with fields and no nested paths, selects `key { f1 f2 ... }` in the order given. It selects the bare key when every field name is blank |
| Query.ExtrasOnlyRender | tap_monday/streams/abstracts.py:258-272 | such a key selects its fields as leaves, or the bare key when they print blank |
| Query.RenderNoKeys | tap_monday/streams/abstracts.py:259-265 | extras with fields but no nested paths, on an empty schema, select nothing |
| QueryExamples.FlatSchemaQuery | tests/unittests/test_abstracts.py:164-175 | the flat schema with root "items" gives "query { items { id name }}" |
| QueryExamples.ExcludedFieldQuery | tests/unittests/test_abstracts.py:196-208 | excluding "extra" gives "query { items { id name }}" |
| QueryExamples.NestedExtrasQuery | tests/unittests/test_abstracts.py:177-194 | an object "details" with extras "details.extra1" and "details.extra2" gives "query { items { details { extra1 extra2 field1 field2 } id }}" |
| QueryExamples.QueryShape | tests/unittests/test_abstracts.py:232-233 | with indent 1 and level 1 a root field wraps the printed selection as " root { ... }" |
| Streams.CoreAttrs | tap_monday/streams/boards.py:8-21 | exactly the overriding classes carry fixed constants. Their incremental kinds have one replication key, and the full-table kinds none |
| Streams.WfTree | tap_monday/streams/abstracts.py:344-345 | a well-formed catalog tree has the shape the sync relies on: replication keys where needed, and no stream below itself |
| Payloads.QueryFor | tap_monday/streams/board_items.py:55-67 | board items without a cursor and without a parent id raise ValueError; with a cursor or a parent id they succeed. Column values succeed exactly with a parent id, and a missing id is a KeyError. Other streams send the builder's query on their root field |
| Payloads.BoardRootOpens | tap_monday/streams/board_items.py:20 | the board root field opens exactly two braces and never closes one |
| Payloads.CursorRootOpens | tap_monday/streams/board_items.py:21 | the cursor root field opens exactly one brace and never closes one |
| Payloads.ItemsRootOpens | tap_monday/streams/column_values.py:15 | the items root field opens exactly one brace and never closes one |
| Payloads.RootQueryBalanced | tap_monday/streams/abstracts.py:284-287 | the builder's query on a root field leaving n braces open, plus n closing braces, is balanced |
| Payloads.QueryForBalanced | tap_monday/streams/board_items.py:59-66 | every query a stream sends is balanced, given brace-free schema keys, extra fields, root field and interpolated id or cursor |
| Payloads.ColumnValuesBalanced | tap_monday/streams/column_values.py:22-23 | the column values query, with its one appended brace, is balanced |
| Payloads.BoardItemsBalanced | tap_monday/streams/board_items.py:59-66 | both board items queries, with one or two appended braces, are balanced |
| Payloads.SyntheticFieldsNotRequested | tap_monday/streams/board_items.py:27 | an excluded synthetic field, such as board_id or item_id, is never selected at the top level of the query |
| Records.DotPath | tap_monday/streams/abstracts.py:168-185 | a dotted path resolves to None or a list |
| Records.DotPathFinds | tap_monday/streams/abstracts.py:174-185 | at the end of a path, a dict gives `[dict]`, a list is returned as is, and a scalar gives None |
| Records.DotPathMissing | tap_monday/streams/abstracts.py:176-180 | a missing first segment, or a record that is not a dict, gives None |
| Records.GetDotPathValue | tap_monday/streams/abstracts.py:168-185 | the loop walking the path computes DotPath |
| Records.PageRecords | tap_monday/streams/abstracts.py:112-117 | a base stream yields the list at its data key, a dict there as one record, and nothing otherwise |
| Records.AddIdsUnchanged | tap_monday/streams/abstracts.py:137-147 | fields other than the `_id` names of the mapping are unchanged, and no field disappears |
| Records.AddOneTruthy | tap_monday/streams/abstracts.py:142-143 | a truthy nested object sets `<alias>_id` to its id |
| Records.AddOneFalsy | tap_monday/streams/abstracts.py:144-145 | a falsy one sets `<key>_id` to None: the key names the field, not the alias |
| Records.AddOneMissing | tap_monday/streams/abstracts.py:142 | a mapped key missing from the record is a KeyError |
| Records.DocsAliasAsymmetry | tap_monday/streams/docs.py:13-18 | for docs, an empty creator becomes `created_by_id`, while a present one becomes `creator_id`, the excluded name |
| Records.AddIdsFailed | tap_monday/streams/abstracts.py:141-145 | a failure part-way through the mapping is the failure of the whole |
| Records.AddObjectToId | tap_monday/streams/abstracts.py:137-147 | the in-place loop over the mapping computes AddIds |
| Records.ColumnValueCarriesBoard | tap_monday/streams/column_values.py:26-31 | a column value records its item's id and that item's board id, which board items took from the parent board |
| Records.PlatformApiLastUpdated | tap_monday/streams/platform_api.py:20-24 | `daily_analytics.last_updated` is copied to the top level; a record without it is a KeyError |
| Records.AssetIds | tap_monday/streams/assets.py:30-34 | an asset records its update's id and its uploader's id |
| Records.ModifyRecord | tap_monday/streams/abstracts.py:149-152 | the in-place `modify_object` of every class computes ModifyObject |
| Records.ModifyAllAppend | tap_monday/streams/abstracts.py:329-330 | modifying two runs of records in turn is modifying their concatenation |
| Records.ModifyAllPointwise | tap_monday/streams/abstracts.py:329-330 | a successful run is `modify_object` record by record, in order |
| Records.BoardItemsPages | tap_monday/streams/board_items.py:75-83 | without a cursor the items and new cursor come from `raw[0].boards[0].items_page`, with one from `raw[0].next_items_page`. An empty response gives no items and no cursor |
| Records.ColumnValuesPages | tap_monday/streams/column_values.py:33-35 | `raw[0].column_values` (None when absent) for a non-empty response, `[]` for an empty one |
| Records.RepliesAssetsCount | tap_monday/streams/assets.py:25-27 | well-shaped replies contribute exactly the sum of their asset counts |
| Records.AssetsCount | tap_monday/streams/assets.py:17-28 | the number of extracted assets is `len(assets)` plus each reply's count, with missing lists counting as empty |
| Records.AppendEach | tap_monday/streams/assets.py:23-24 | appending each item in turn appends the whole list |
| Records.ExtractAssets | tap_monday/streams/assets.py:17-28 | the looping `extract_assets` gives the top-level assets, then each reply's, in order |
| Bookmarks.Store | tap_monday/streams/abstracts.py:310-312 | singer's write sets the one entry and leaves every other entry alone |
| Bookmarks.GrowsTransitive | tap_monday/streams/abstracts.py:302-312 | "no bookmark regresses" composes over successive writes |
| Bookmarks.WriteOne | tap_monday/streams/abstracts.py:308-312 | the entry becomes the max of its stored value (or start_date) and the value. Nothing regresses. A None value is a TypeError |
| Bookmarks.BaseWrite | tap_monday/streams/abstracts.py:302-312 | with neither key nor replication keys the state is returned as is. Otherwise the written entry holds at least the value, nothing else changes, and nothing regresses |
| Bookmarks.ChildPairs | tap_monday/streams/boards.py:44-47 | every child entry uses the composite key |
| Bookmarks.ChildPairsMembers | tap_monday/streams/board_items.py:44-52 | a child's entry is among those merged exactly when the child is selected and, for board items, not full-table |
| Bookmarks.WriteAllEffect | tap_monday/streams/boards.py:38-49 | the propagate write sets each participating entry to max(old, value) and leaves all others unchanged. It never regresses and fails exactly when a None value meets an entry |
| Bookmarks.WriteAllFails | tap_monday/streams/boards.py:41-47 | the propagate write fails exactly when the value is None and there is an entry to write |
| Bookmarks.WriteSpecIsWriteAll | tap_monday/streams/abstracts.py:302-312 | every stream's `write_bookmark` is the propagate write over the entries it writes |
| Bookmarks.WriteSpecEffect | tap_monday/streams/abstracts.py:347 | after a successful `write_bookmark`, nothing has regressed and every written entry holds at least the value |
| Bookmarks.BoardItemsSkipsFullTable | tap_monday/streams/board_items.py:48-49 | board items never write the composite key of a child whose method upper-cases to FULL_TABLE |
| Bookmarks.ColumnValuesIsFullTable | tap_monday/streams/column_values.py:11 | column values is such a child |
| Bookmarks.MinFoldIsMin | tap_monday/streams/boards.py:27-34 | with non-empty stored values, the min-merge ends at the least of its start and the entries, and is one of them |
| Bookmarks.MinReadParticipants | tap_monday/streams/boards.py:26-30 | the min-merge reads the own entry (when selected) and each selected child's composite entry |
| Bookmarks.MinReadIsMin | tap_monday/streams/boards.py:23-36 | the read is the least participating entry, and one of them. With no participant it is "" for boards and None for updates |
| Bookmarks.MinReadSelected | tap_monday/streams/boards.py:26-36 | for a selected stream, the read is at most every participant and is one of them |
| Bookmarks.WriteThenRead | tap_monday/streams/boards.py:23-49 | after writing v, when v is at least every participating entry, the next read returns v |
| Bookmarks.ReadSpec | tap_monday/streams/board_items.py:29-36 | memoised kinds return a truthy memo unchanged, and otherwise look up and store. Other kinds leave the memo alone. Only boards and updates can return None |
| Bookmarks.MemoisedFloorIsFixed | tap_monday/streams/reply.py:17-24 | once a memoised read is truthy, every later read returns it, whatever the state has become |
| Sync.Emitted | tap_monday/streams/abstracts.py:338 | a stream's records are a sub-sequence of the output log |
| Sync.EmittedSkips | tap_monday/streams/abstracts.py:344-345 | records written for other streams leave a stream's own records unchanged |
| Sync.ChildInTree | tap_monday/streams/abstracts.py:344-345 | what a child's sync writes belongs to the parent's tree and never to the parent itself |
| Sync.Passing | tap_monday/streams/abstracts.py:335-336 | the records kept are records of the input whose replication value is a str at or after the floor |
| Sync.PassingAppend | tap_monday/streams/abstracts.py:329-336 | filtering two runs of records is filtering their concatenation |
| Sync.BoundAfterWrite | tap_monday/streams/abstracts.py:341-347 | records at or below the written value are at or below every entry holding at least that value |
| Sync.MaxOverIsMaximum | tap_monday/streams/abstracts.py:322-340 | `current_max_bookmark_date` after a run of records is at least the floor it starts from and at least every passing record's value, and it is the floor or one of those values |
| Sync.MaxOverAppend | tap_monday/streams/abstracts.py:329-340 | carrying the running max from one page to the next gives the max over the pages' records together |
| Sync.PassingStep | tap_monday/streams/abstracts.py:335-345 | one more record joins the written records exactly when it passes and the stream is selected, and the children are synced with it exactly when it passes |
| Sync.PassingRun | tap_monday/streams/abstracts.py:329-345 | the written records and child syncs of two runs are those of the runs together |
| Sync.LoggedTrans | tap_monday/streams/abstracts.py:329-345 | what two successive stretches of a sync write, fetch and spawn for a stream add up to the two stretches together |
| Sync.ChildStep | tap_monday/streams/abstracts.py:344-345 | after the sync of the i-th child the stream has spawned the first i+1 children with the record, in order, and written and fetched nothing of its own |
| Sync.PagesSoFarPush | tap_monday/streams/abstracts.py:107-117 | one more page keeps the records read the concatenation of the pages, and its `page` flag decides whether the loop goes on |
| Sync.PageSoFarStep | tap_monday/streams/abstracts.py:330-345 | one more record, handled as the loop body handles it, keeps the running max, the written records, the child syncs and the count those of the records so far |
| Sync.PagesRunStep | tap_monday/streams/abstracts.py:329-345 | one more page keeps the pages read, the modified records, the running max, the written records, the child syncs and the count those of the pages so far |
| Sync.FullRunStep | tap_monday/streams/abstracts.py:366-375 | one more full-table page keeps the pages read, the modified and written records, the child syncs and the count those of the pages so far |
| Sync.AtOrAfter | tap_monday/streams/abstracts.py:336 | `record_timestamp >= bookmark_date` compares two strs in Python order. A None floor or a non-str value is a TypeError |
| Sync.ParsePage | tap_monday/streams/abstracts.py:187-189 | only board items change the cursor. Streams without an override get `raw or []` |
| Sync.PageOf | tap_monday/streams/abstracts.py:112-114 | a page is read only from a dict response |
| Sync.SinglePage | tap_monday/streams/abstracts.py:108-117 | a response without a `page` key ends the loop after that request; a base stream's records are the list at its data key |
| Sync.EndpointKept | tap_monday/streams/abstracts.py:154-158 | a stream's url endpoint is never empty, so `make_request` keeps it: the class's endpoint when set, else base_url + "/" + path |
| Sync.Tap.constructor | tap_monday/streams/abstracts.py:44-52 | a run starts with the given state, empty memos, cursors and payloads, and no output |
| Sync.Tap.MinMerge | tap_monday/streams/boards.py:26-36 | the loop over the children computes the min-merge read |
| Sync.Tap.GetBookmark | tap_monday/streams/updates.py:16-30 | each stream's `get_bookmark`, with the new memo, is its read specification |
| Sync.Tap.WriteBookmark | tap_monday/streams/board_items.py:38-53 | each stream's `write_bookmark` applies its write specification. It fails exactly when that fails, leaving the state untouched |
| Sync.Tap.WriteMerged | tap_monday/streams/boards.py:38-49 | the override writes its own entry and then each participating child's, as the propagate write does |
| Sync.Tap.WriteChildren | tap_monday/streams/updates.py:38-41 | the loop over the children continues the propagate write from the own entry |
| Sync.Tap.UpdateDataPayload | tap_monday/streams/abstracts.py:160-166 | the stream's query is stored under "query" of its payload; a query that fails leaves every payload unchanged |
| Sync.Tap.UpdatePaginationKey | tap_monday/streams/board_items.py:85-91 | without a cursor it returns None and changes nothing. With one, the payload is rebuilt on the cursor root and the page number goes up by one |
| Sync.Tap.FetchPage | tap_monday/streams/abstracts.py:104-117 | one POST of the stream's payload, retried as the client retries. Its records and `page` flag are read from the response and logged as fetched by the stream, and only board items store the new cursor |
| Sync.Tap.ReadPage | tap_monday/streams/abstracts.py:112-114 | the page is read from the response with the cursor as it was, and logged as fetched by the stream. Only board items store the new cursor |
| Sync.Tap.SyncChildren | tap_monday/streams/abstracts.py:344-345 | every child is synced with the record, in order: the stream's spawn log gains exactly (child, record) for each child. The child syncs write only into the stream's tree, never for the stream itself, and no bookmark regresses. Without children nothing changes |
| Sync.Tap.IncrementalRecord | tap_monday/streams/abstracts.py:330-345 | the record is `modify_object` of the raw one. It passes exactly when its replication value is a str at or after the floor. It is written exactly when it passes and the stream is selected, and every child is synced with it exactly when it passes |
| Sync.Tap.FullTableRecord | tap_monday/streams/abstracts.py:366-375 | the record is `modify_object` of the raw one; it is written, and every child is synced with it. Without children the state and the calls are unchanged |
| Sync.Tap.IncrementalNext | tap_monday/streams/abstracts.py:330-345 | the new `current_max_bookmark_date` is max(current, value) when the record passes and current otherwise. The record is written and counted exactly when it passes and the stream is selected, and the children are synced with it exactly when it passes |
| Sync.Tap.IncrementalPage | tap_monday/streams/abstracts.py:329-345 | the page's records are modified in order. The running max is the max over the passing ones, the written records are the passing ones when selected, each passing record spawns the child syncs, and the count is the number written |
| Sync.Tap.IncrementalTurn | tap_monday/streams/abstracts.py:108-117 | the page handled is the one read from the client's reply to this request. Its records are modified; the running max, the written records, the child syncs and the count are those of its passing records, and the page is logged as fetched |
| Sync.Tap.IncrementalPages | tap_monday/streams/abstracts.py:104-117 | the request loop reads pages until one says no `page`. The records seen are the modified records of all pages; the written records are exactly the passing ones (when selected) and each passing record spawns the child syncs. The final max is the max over them starting from the floor, and it bounds them |
| Sync.Tap.IncrementalAdvance | tap_monday/streams/abstracts.py:107-117 | one turn of the request loop makes at least one call and keeps what the loop keeps about the pages so far |
| Sync.Tap.SyncIncremental | tap_monday/streams/abstracts.py:314-348 | the floor is read once from the state at the start. Exactly the modified records at or after it are written (when selected) and counted, and each spawns the child syncs. The bookmark written is the max over them starting from the floor. Afterwards every entry the stream writes is at least each of them, and no bookmark regresses |
| Sync.Tap.OpenIncremental | tap_monday/streams/abstracts.py:321-326 | the floor is the read specification on the state as found, and the payload update fails exactly when the stream's query cannot be built |
| Sync.Tap.IncrementalFrom | tap_monday/streams/abstracts.py:328-348 | for a given floor: the pages, then `write_bookmark` of the max over the passing records starting from the floor, with the guarantees above |
| Sync.Tap.FullTablePage | tap_monday/streams/abstracts.py:365-375 | every record of a page is modified, written and counted |
| Sync.Tap.FullTableTurn | tap_monday/streams/abstracts.py:365-375 | the page handled is the one read from the client's reply to this request. Every record of it is modified, written and counted, and spawns the child syncs |
| Sync.Tap.FullTableAdvance | tap_monday/streams/abstracts.py:107-117 | one turn of the full-table request loop makes at least one call and keeps what the loop keeps about the pages so far |
| Sync.Tap.FullTablePages | tap_monday/streams/abstracts.py:365-375 | the request loop reads pages until one says no `page`. Every modified record of every page is written and counted and spawns the child syncs. Without children the state is unchanged |
| Sync.Tap.SyncFullTable | tap_monday/streams/abstracts.py:353-377 | the payload is built first, and a run that succeeds had a buildable query. Every modified record of every page read is written and counted and spawns the child syncs. Without children the state is unchanged |
| Sync.Tap.SyncAssets | tap_monday/streams/assets.py:36-56 | no request is made. Exactly the extracted assets, modified with the update's id, are written and counted, and each spawns the child syncs |
| Sync.Tap.Sync | tap_monday/streams/abstracts.py:314-377 | a stream's sync writes only into its tree, counts exactly the records it writes for itself, and never regresses a bookmark |

## Left out

- HTTP, the `requests` session, metrics timers and counters, and logging: the session is a scripted sequence of replies.
- Client.Client.Send: the backoff wait, `time.sleep` and `wait_if_retry_after` are left out; only the attempt count and the retryable set are modelled.
- The float `request_timeout` from the configuration is floating point and is not modelled.
- The transformer is the identity, and `write_record` appends to an output log. Stream selection is a boolean per stream.
- The request body is kept as the payload dict rather than its `json.dumps` text.
- Json.PyStr: `str()` of a list or dict is a fixed placeholder; only scalars are rendered as Python does.
- Text.ParseInt: `int()` of a str does not strip surrounding whitespace or accept digit separators.
- Text.Upper: only ASCII letters are upper-cased.
- Json.Get: calling `.get` on a non-dict is Python's AttributeError; it is modelled as a TypeError.
- Json.Iterate: iterating over a dict (its keys) is reported as not modelled.
- Json.ToInt: JSON numbers are integers only, so `int()` truncating a float `retry_in_seconds` (tap_monday/exceptions.py:55) toward zero is not modelled.
- Exceptions.RetryAfter: a float `retry_in_seconds` cannot occur in the model, so its truncation to a whole number of seconds is not stated.
- `url_endpoint` is recomputed from the class's constants (`get_url_endpoint`) rather than stored back on the instance.
- Config-only stream classes (account, tags, folders, teams, users, audit_event_catalogue, board_columns, board_groups, board_views) and the `STREAMS` registry: they have no behaviour of their own. The docs constants appear only as an instance for `add_object_to_id`.
- `update_params` is never called by the engine.
- `update_pagination_key` is modelled, but `get_records` never calls it, so the `page` value of the response alone ends the request loop.
- The page-size-driven `get_records` in tests/unittests/test_abstracts.py:107-158 does not exist in the shown code and is not modelled.
- Sync.Tap.Sync: the records a stream writes are related to the replies of its own requests only through the ghost `seen`/`raws` results of the loops; which scripted replies belong to which stream across the child syncs is not stated.
- `write_schema`, discovery, catalog loading and the command line are outside the engine.
