# Segmented shortest-path retrieval

This is a Dafny model of `run_graph_query`, the HTTP handler of the Spanner
Graph Cloud Run service (`spanner_graph_run_DQ.py`). The handler works in four steps:

- It reads the two endpoint ids `start_node` and `end_node`.
- It asks the graph database for the length of the shortest path between them, within 100 hops.
- A path of at most 20 hops is fetched with one edge query.
- A longer path is walked in chunks of `min(20, remaining)` hops. Each chunk except the last first looks up a boundary node exactly 20 hops ahead, then fetches the edges to it. The last chunk fetches the edges to the end node.

The edge rows are appended in order. The query texts are concatenated into the `gql_query` string, which the handler logs.

Modules:

- `IntText` models Python's `int(text)` on a parameter (`Parse`) and `str(n)` as `.format` writes it (`Show`). It proves that they round-trip.
- `Chunking` defines the chunk sizes the loop takes (`ChunkPlan`) and proves their properties: sizes, sum, shape, count, uniqueness and the 47-hop example.
- `GraphStore` models the database as a value of three answer functions, one per query shape. It also holds the query datatype, the query texts, and walks of edges.
- `GraphQuery` holds the handler.
  - The pure specification `Respond` is built from `RespondTo`, `FetchPath` and `WalkPlan`. `WalkPlan` walks `ChunkPlan` chunk by chunk.
  - The imperative handler is `RunGraphQuery`. It checks its inputs, then calls `QueryPath`, `FetchEdges` and `FetchInChunks` (whose `while` loop runs over the remaining length) and `FetchChunk` (one pass of that loop).
  - Each method is proved to compute its specification. `WalkFromFollowsPlan` shows that the loop follows `ChunkPlan`.
- `GraphQueryProps` states what the handler promises, as lemmas about `Respond` and `RespondTo`.

Every store query the handler sends is recorded, in order, in the `issued` out-parameter. That record is what lets the lemmas say that nothing is sent before validation, and that nothing is sent after a boundary miss.

Some behaviours of the code that a reader might not expect, and how the model keeps them:

- The handler does not check that consecutive edges meet. `FoundIsPath` shows the result is a walk only when the store answers every edge query with a walk.
- The handler returns whatever rows the store gives. `FoundHasMeasuredLength` shows the count is the measured length `L` when every edge query bounded by `k` returns `k` rows.
- A missing boundary node gets its own 500 message, kept apart as `BoundaryNotFound`.
- A measured length that is negative but not 0 takes the single-query branch, as in the code.

## Model

| member | source | states |
|---|---|---|
| IntText.Parse | spanner_graph_run_DQ.py:38-39 | `Parse(s)` is `Some(int(s))` for ASCII text and `None` where `int` raises `ValueError`: an optional sign and a base-10 digit run (single underscores between digits) with C-`isspace` characters around it |
| IntText.Show | spanner_graph_run_DQ.py:47-55 | `str(n)` as `.format` substitutes it: a `-` for a negative value, then the decimal digits with no leading zero |
| IntText.ParseShow | spanner_graph_run_DQ.py:38-39 | reading back the decimal text `.format` writes gives the same integer: `Parse(Show(n)) == Some(n)` for every `n` |
| IntText.ParseIgnoresPadding | spanner_graph_run_DQ.py:38-39 | a leading whitespace character (space or controls 9 to 13) does not change what `int` reads |
| IntText.SeparatorIsNotPadding | spanner_graph_run_DQ.py:38-43 | a digit run led by the separator character 28 is refused (`None`, where `int()` raises `ValueError`), because `int()` skips only C's `isspace` characters |
| IntText.ParseDigitRun | spanner_graph_run_DQ.py:38-39 | an unsigned digit run parses to its value |
| IntText.ParseNegatedDigitRun | spanner_graph_run_DQ.py:38-39 | `-` followed by a digit run parses to the negated value |
| Chunking.ChunkPlan | spanner_graph_run_DQ.py:72-127 | the `chunk_size` values the loop takes, in order: `min(cap, remaining)` until nothing remains |
| Chunking.ChunkPlanSizes | spanner_graph_run_DQ.py:75-76 | every chunk the loop takes has between 1 and 20 hops |
| Chunking.ChunkPlanSum | spanner_graph_run_DQ.py:75-127 | the chunk sizes add up to the measured length, so the loop ends with nothing remaining |
| Chunking.ChunkPlanShape | spanner_graph_run_DQ.py:76-81 | every chunk but the last is exactly 20 hops; the last takes what is left |
| Chunking.ChunkPlanSingle | spanner_graph_run_DQ.py:71-81 | the plan is one chunk exactly when the length is at most 20 |
| Chunking.ChunkPlanCountBounds | spanner_graph_run_DQ.py:75-127 | with `k` chunks, `20(k-1) < L <= 20k` |
| Chunking.ChunkPlanCount | spanner_graph_run_DQ.py:75-127 | the loop runs `ceil(L / 20)` times |
| Chunking.ChunkPlanUnique | spanner_graph_run_DQ.py:75-127 | the plan is the only cut of `L` into chunks of 1 to 20 hops in which only the last may be short |
| Chunking.ChunkPlanTakesMin | spanner_graph_run_DQ.py:76-127 | each chunk is `min(20, L - hops already taken)` |
| Chunking.ChunkPlanOf47 | spanner_graph_run_DQ.py:75-127 | 47 hops are taken as 20, 20, 7 |
| GraphStore.QueryText | spanner_graph_run_DQ.py:47-140 | the text of each query shape as its template formats it: the length query (lines 47-55), the boundary query (lines 83-91), and the edge query (lines 104-113 and 131-140) |
| GraphStore.LogText | spanner_graph_run_DQ.py:70-131 | the `gql_query` string: the texts of the logged queries, one after another, as `gql_query +=` builds it per chunk (line 115) and as the single edge query sets it (line 131) |
| GraphStore.JoinAppend | spanner_graph_run_DQ.py:115 | concatenating the renderings of two lists gives the rendering of the joined list |
| GraphStore.LogTextAppend | spanner_graph_run_DQ.py:115 | appending queries to the log appends their texts to `gql_query` |
| GraphStore.JoinPaths | spanner_graph_run_DQ.py:117-125 | a walk to `mid` followed by a walk from `mid` is one walk |
| GraphQuery.FirstLength | spanner_graph_run_DQ.py:57-62 | the length read from the length query: the first row's value, or 0 when there is no row |
| GraphQuery.WalkPlan | spanner_graph_run_DQ.py:71-128 | the chunked walk over a list of chunk sizes: each chunk starts where the one before ended, the last one targets the end node, and the walk stops at the first chunk that faults or misses |
| GraphQuery.WalkFrom | spanner_graph_run_DQ.py:71-128 | the same walk driven by the remaining length, as the `while` loop drives it: `min(20, remaining)` hops per chunk, the last chunk being the one that covers the rest |
| GraphQuery.FetchPath | spanner_graph_run_DQ.py:69-150 | the edge fetch after the length is known: the chunked walk over `ChunkPlan` above 20 hops, else one edge query bounded by the length, with its answer and the queries sent |
| GraphQuery.RespondTo | spanner_graph_run_DQ.py:45-168 | the request for parsed endpoints: the length query, a fault as 500, no row or 0 as the no-path 200, else the edge fetch, with every query sent |
| GraphQuery.Respond | spanner_graph_run_DQ.py:24-168 | the whole request: a 400 with nothing sent when the input check fails, otherwise `RespondTo` on the parsed ids |
| GraphQuery.Response.Status | spanner_graph_run_DQ.py:35-168 | the HTTP status of each answer: 400 for either input rejection (lines 35, 43), 200 for no path (line 67) and for the edge list (line 163), 500 for a missing boundary node (line 102) and for a store failure (line 168) |
| GraphQuery.Present | spanner_graph_run_DQ.py:32 | a parameter passes `not arg` exactly when it is given and not the empty string |
| GraphQuery.ChunkTrace | spanner_graph_run_DQ.py:94-118 | the queries one completed chunk sends, in order: its boundary lookup (line 94) unless it is the last chunk, and then its edge query (line 118) |
| GraphQuery.WalkTrace | spanner_graph_run_DQ.py:78-128 | every query a walk sends, in order: those of each completed chunk, then those of the chunk that stopped it |
| GraphQuery.Stitch | spanner_graph_run_DQ.py:69-125 | `outputs` after the walk: the edge rows of every chunk, chunk after chunk, each in the order the store gave them |
| GraphQuery.QueryLog | spanner_graph_run_DQ.py:70-115 | the queries whose texts `gql_query +=` collects: one edge query per completed chunk, in order, from the chunk's start to its target within its hops |
| GraphQuery.StopResponse | spanner_graph_run_DQ.py:99-168 | the answer of a stopped walk: the missing-boundary 500 with the node and distance (lines 99-102), or the generic 500 with the store's message (lines 165-168) |
| GraphQuery.WalkResponse | spanner_graph_run_DQ.py:99-168 | the answer of a walk: the stitched rows and their logged queries when every chunk completed (`jsonify(outputs)`, line 163), otherwise the stop's error answer |
| GraphQuery.CheckInput | spanner_graph_run_DQ.py:29-43 | missing-parameter rejection exactly when a parameter is absent or empty; success exactly when both are present and both parse, with the parsed pair |
| GraphQuery.ChunkStep | spanner_graph_run_DQ.py:78-125 | one chunk either completes or stops the walk with a reason (never "completed") |
| GraphQuery.CopyRows | spanner_graph_run_DQ.py:119-125 | appending the rows one by one gives `outputs + rows` |
| GraphQuery.WalkFromFollowsPlan | spanner_graph_run_DQ.py:71-128 | the loop over the remaining length walks exactly the chunk sizes of `ChunkPlan` |
| GraphQuery.AppendChunk | spanner_graph_run_DQ.py:115-125 | one more completed chunk appends its queries to the trace, its rows to the output and its edge query to the log |
| GraphQuery.PrependTwice | spanner_graph_run_DQ.py:75-128 | moving one chunk from the rest of the walk to its completed part leaves the walk unchanged |
| GraphQuery.FetchChunk | spanner_graph_run_DQ.py:78-125 | one loop pass computes `ChunkStep`, and the queries it sent are that step's trace |
| GraphQuery.LoopStops | spanner_graph_run_DQ.py:93-102 | a chunk that stops ends the whole walk: its response, and a trace of the completed chunks followed by the failed chunk's queries |
| GraphQuery.LoopContinues | spanner_graph_run_DQ.py:104-128 | a chunk that completes starts at the current node with `min(20, remaining)` hops; the rest of the walk continues from its target |
| GraphQuery.LoopEnds | spanner_graph_run_DQ.py:75-163 | when nothing remains, the answer is the stitched rows and the logged queries |
| GraphQuery.FetchInChunks | spanner_graph_run_DQ.py:71-128 | the chunked branch answers and sends exactly what the walk over the remaining length does |
| GraphQuery.FetchEdges | spanner_graph_run_DQ.py:69-150 | the edge fetch answers and sends exactly what `FetchPath` says: chunked above 20 hops, one edge query otherwise |
| GraphQuery.QueryPath | spanner_graph_run_DQ.py:45-168 | after validation, the handler answers and sends exactly what `RespondTo` says |
| GraphQuery.RunGraphQuery | spanner_graph_run_DQ.py:24-168 | the whole handler answers and sends, in order, exactly what `Respond` says |
| GraphQueryProps.ChunkStepCompletes | spanner_graph_run_DQ.py:78-125 | a chunk completes exactly when the store answered its boundary lookup, if it is not the last, and its edge query; the last chunk targets the end node, any other the first boundary row |
| GraphQueryProps.ChunkStepMisses | spanner_graph_run_DQ.py:80-102 | a chunk misses its boundary exactly when it is not the last and the lookup returned no row |
| GraphQueryProps.WalkPlanLength | spanner_graph_run_DQ.py:75-128 | a walk completes exactly when it completed every planned chunk |
| GraphQueryProps.WalkPlanChunks | spanner_graph_run_DQ.py:75-128 | every completed chunk has its planned size, starts where the previous one ended (the first at the start node) and was answered as its position demands |
| GraphQueryProps.WalkPlanStop | spanner_graph_run_DQ.py:75-102 | a walk that stops, stops at the chunk after the completed ones, from the node they reached |
| GraphQueryProps.QueryLogIsEdgeQueries | spanner_graph_run_DQ.py:104-118 | the log of a chunk walk is its edge queries, in the order sent |
| GraphQueryProps.StitchIsPath | spanner_graph_run_DQ.py:117-125 | chained chunks whose rows are walks stitch into one walk from the start to the node reached |
| GraphQueryProps.ValidatesFirst | spanner_graph_run_DQ.py:29-59 | a 400 is answered exactly when validation fails, with nothing sent; a valid request sends the length query first |
| GraphQueryProps.NeverBadRequest | spanner_graph_run_DQ.py:45-168 | no answer after validation is a 400 |
| GraphQueryProps.NoPathExit | spanner_graph_run_DQ.py:57-67 | "no path" (200) is answered exactly when the length query yields no row or 0, after that query alone |
| GraphQueryProps.SingleEdgeQuery | spanner_graph_run_DQ.py:129-150 | a length of at most 20 sends exactly the length query and one edge query from start to end bounded by that length; its rows, in order, are the answer |
| GraphQueryProps.ShortPathIsOneChunk | spanner_graph_run_DQ.py:71-150 | for 1 to 20 hops, the single query answers as the one-chunk walk of the plan would |
| GraphQueryProps.ChunkedSuccess | spanner_graph_run_DQ.py:71-128 | a found long path is the stitched rows of `ceil(L/20)` chained chunks from start to end; the sizes are the plan, each is 1 to 20 and they sum to `L`; all but the last are 20 hops and looked up |
| GraphQueryProps.BoundaryMiss | spanner_graph_run_DQ.py:80-102 | a boundary miss (500) happens only above 20 hops, on a full chunk from the node reached; that lookup is the last query sent |
| GraphQueryProps.FoundIsPath | spanner_graph_run_DQ.py:117-150 | if the store's edge answers are walks, a found answer is a walk from start to end |
| GraphQueryProps.FoundHasMeasuredLength | spanner_graph_run_DQ.py:117-150 | if every edge query bounded by `k` returns `k` rows, a found answer has as many edges as the measured length |
| GraphQueryProps.StitchLength | spanner_graph_run_DQ.py:117-125 | when every chunk has as many rows as hops, the stitched rows number the sum of the chunks' hops |
| GraphQueryProps.LogIsEdgeQueries | spanner_graph_run_DQ.py:104-156 | the queries logged with a found answer, whose texts `gql_query` concatenates, are exactly the edge queries sent, in the order sent |
| GraphQueryProps.FortySevenWalk | spanner_graph_run_DQ.py:75-128 | the walk of 47 hops on a store that steps 20 nodes ahead completes in three chunks |
| GraphQueryProps.FortySevenSent | spanner_graph_run_DQ.py:93-125 | the rows, log and queries of those three chunks |
| GraphQueryProps.FortySevenHops | spanner_graph_run_DQ.py:45-163 | the whole answer and query sequence for that 47-hop request |
| GraphQueryProps.MissOnFirstLookup | spanner_graph_run_DQ.py:83-102 | with no boundary node anywhere, a 25-hop request ends after the first lookup with a 500 |

## Left out

- The Flask request and response. A parameter is an optional string. `jsonify` bodies and message texts are replaced by the `Response` datatype, which keeps each outcome's values (reason, node and distance, store message) and its status.
- The Cloud Logging calls. Of the success record, only its `query` field is kept, as `Found.queryLog`: the list of edge queries whose texts `gql_query` concatenates. `LogText` renders that list.
- Query text layout: each run of line breaks and indentation in a template is written as one space, and the runs at either end are dropped. Spaces inside a template line are kept as written.
- The Spanner client, its snapshots and the GQL semantics. The store is a parameter whose answers are arbitrary. The lemmas about walks and edge counts take what the store must satisfy as an explicit hypothesis.
- NULL columns and exceptions other than a failing store query. Columns are modelled as integers. A NULL `end_node` in a boundary row raises nothing: it leaves `intermediate_end_node` as `None`, so the handler answers the missing-boundary 500, the answer `BoundaryNotFound` models. A NULL `path_length` passes the `== 0` test and then makes `path_length > 20` raise `TypeError`, which the handler answers with the generic 500. The model has no such case.
- Python `int()` on text holding a non-ASCII character is not modelled: such text may use other digits, and Unicode whitespace is then skipped too. Neither is its limit on the number of digits it converts.
- The store's answers are deterministic per query: a query repeated within one request gets the same answer again. The handler opens a fresh snapshot per query and takes the first row of an unordered result, so its answers need not repeat. No lemma relies on a repeated query being answered alike.
- Spanner's 64-bit integer columns: node ids and lengths are unbounded integers.
- `spanner_graph_run.py` (the earlier single-query handler) and the module's start-up code are not part of this model.
