/**
 * The request handler `run_graph_query`: read the two endpoints, measure the
 * shortest path between them, and fetch its edges, in one query when the path
 * fits the engine's hop cap and chunk by chunk otherwise.
 *
 * `Respond` states what one request yields, walking `ChunkPlan` chunk by
 * chunk (`WalkPlan`); `RunGraphQuery` is the handler's own loop over the
 * remaining length, proved to yield exactly that.
 */
module GraphQuery {
  import opened Wrappers
  import opened Chunking
  import opened GraphStore
  import IntText

  datatype InputError =
    | MissingParameter   // a parameter absent or empty
    | NotAnInteger       // a parameter `int()` rejects

  /** What the handler answers, and on success the queries it logs; each outcome has its HTTP status. */
  datatype Response =
    | BadRequest(reason: InputError)
    | NoPath
    | BoundaryNotFound(from: NodeId, distance: nat)
    | UpstreamFailure(message: string)
    | Found(edges: seq<Edge>, queryLog: seq<StoreQuery>)
  {
    function Status(): int {
      match this
      case BadRequest(_) => 400
      case NoPath => 200
      case Found(_, _) => 200
      case _ => 500
    }
  }

  /** A request argument that Python's `not arg` lets through. */
  predicate Present(arg: Option<string>) {
    arg.Some? && arg.value != ""
  }

  /** The validation prefix: both endpoints present and integers. */
  function CheckInput(startArg: Option<string>, endArg: Option<string>): (r: Result<(NodeId, NodeId), InputError>)
    ensures r == Err(MissingParameter) <==> !Present(startArg) || !Present(endArg)
    ensures r.Ok? <==>
      Present(startArg) && Present(endArg) &&
      IntText.Parse(startArg.value).Some? && IntText.Parse(endArg.value).Some?
    ensures r.Ok? ==> r.value == (IntText.Parse(startArg.value).value, IntText.Parse(endArg.value).value)
  {
    if !Present(startArg) || !Present(endArg) then Err(MissingParameter)
    else
      match (IntText.Parse(startArg.value), IntText.Parse(endArg.value))
      case (Some(s), Some(e)) => Ok((s, e))
      case _ => Err(NotAnInteger)
  }

  /**
   * One chunk the walk completed: its edge query from `src` to `dst` within
   * `hops` hops, whether `dst` came from a boundary lookup, and the rows.
   */
  datatype Chunk = Chunk(src: NodeId, dst: NodeId, hops: nat, lookedUp: bool, rows: seq<Edge>)

  /** Why a walk ended. `pending` are the queries the interrupted chunk sent. */
  datatype Stop =
    | Completed
    | NoBoundary(from: NodeId, distance: nat)
    | Aborted(pending: seq<StoreQuery>, message: string)

  datatype Walk = Walk(chunks: seq<Chunk>, stop: Stop)

  function ChunkTrace(c: Chunk): seq<StoreQuery> {
    (if c.lookedUp then [BoundaryQuery(c.src, c.hops)] else []) + [EdgeQuery(c.src, c.dst, c.hops)]
  }

  /** The queries the completed chunks sent, in order. */
  function ChunksTrace(cs: seq<Chunk>): seq<StoreQuery> {
    if cs == [] then [] else ChunksTrace(cs[..|cs| - 1]) + ChunkTrace(cs[|cs| - 1])
  }

  /** The chunks' edge rows, in order. */
  function Stitch(cs: seq<Chunk>): seq<Edge> {
    if cs == [] then [] else Stitch(cs[..|cs| - 1]) + cs[|cs| - 1].rows
  }

  /** The chunks' edge queries, in order: the queries `gql_query` holds the texts of. */
  function QueryLog(cs: seq<Chunk>): seq<StoreQuery> {
    if cs == [] then []
    else
      var c := cs[|cs| - 1];
      QueryLog(cs[..|cs| - 1]) + [EdgeQuery(c.src, c.dst, c.hops)]
  }

  function StopTrace(s: Stop): seq<StoreQuery> {
    match s
    case Completed => []
    case NoBoundary(from, distance) => [BoundaryQuery(from, distance)]
    case Aborted(pending, _) => pending
  }

  /** Every query a walk sent, in order. */
  function WalkTrace(w: Walk): seq<StoreQuery> {
    ChunksTrace(w.chunks) + StopTrace(w.stop)
  }

  /** `w` after chunks `done` that went before it. */
  function Prepend(done: seq<Chunk>, w: Walk): Walk {
    Walk(done + w.chunks, w.stop)
  }

  /**
   * One chunk of `k` hops from `cur`. The last chunk targets `dst`; any other
   * first asks for a node exactly `k` hops away and targets the first one
   * returned.
   */
  function ChunkStep(store: Store, cur: NodeId, k: nat, last: bool, dst: NodeId): (r: Result<Chunk, Stop>)
    ensures r.Err? ==> !r.error.Completed?
  {
    if last then
      match store.edgeRows(cur, dst, k)
      case Fault(m) => Err(Aborted([EdgeQuery(cur, dst, k)], m))
      case Rows(rows) => Ok(Chunk(cur, dst, k, false, rows))
    else
      match store.boundaryRows(cur, k)
      case Fault(m) => Err(Aborted([BoundaryQuery(cur, k)], m))
      case Rows(ends) =>
        if ends == [] then Err(NoBoundary(cur, k))
        else
          match store.edgeRows(cur, ends[0], k)
          case Fault(m) => Err(Aborted([BoundaryQuery(cur, k), EdgeQuery(cur, ends[0], k)], m))
          case Rows(rows) => Ok(Chunk(cur, ends[0], k, true, rows))
  }

  /**
   * Walk the chunk sizes `sizes` from `cur` towards `dst`, each chunk
   * starting where the one before it ended, until one of them stops.
   */
  function WalkPlan(store: Store, cur: NodeId, sizes: seq<nat>, dst: NodeId): Walk
    decreases |sizes|
  {
    if sizes == [] then Walk([], Completed)
    else
      match ChunkStep(store, cur, sizes[0], |sizes| == 1, dst)
      case Err(stop) => Walk([], stop)
      case Ok(c) => Prepend([c], WalkPlan(store, c.dst, sizes[1..], dst))
  }

  /**
   * The same walk as the handler's loop drives it: by the length still to
   * cover, the chunk that covers all of it being the last.
   */
  function WalkFrom(store: Store, cur: NodeId, remaining: nat, dst: NodeId): Walk
    decreases remaining
  {
    if remaining == 0 then Walk([], Completed)
    else
      var size: nat := Min(MaxHops, remaining);
      match ChunkStep(store, cur, size, remaining <= MaxHops, dst)
      case Err(stop) => Walk([], stop)
      case Ok(c) => Prepend([c], WalkFrom(store, c.dst, remaining - size, dst))
  }

  /** The error answer for a walk that stopped early. */
  function StopResponse(stop: Stop): Response
    requires !stop.Completed?
  {
    match stop
    case NoBoundary(from, distance) => BoundaryNotFound(from, distance)
    case Aborted(_, m) => UpstreamFailure(m)
  }

  function WalkResponse(w: Walk): Response {
    if w.stop.Completed? then Found(Stitch(w.chunks), QueryLog(w.chunks)) else StopResponse(w.stop)
  }

  /** The length the handler reads from the length query's rows. */
  function FirstLength(rows: seq<int>): int {
    if rows == [] then 0 else rows[0]
  }

  /** A response together with every store query sent to produce it. */
  datatype Run = Run(resp: Response, issued: seq<StoreQuery>)

  /**
   * The edge fetch for a path of `total` hops from `s` to `e`: chunk by chunk
   * when it is longer than `MaxHops`, in one query otherwise. `issued` holds
   * the queries sent after the length query.
   */
  function FetchPath(store: Store, s: NodeId, e: NodeId, total: int): Run {
    if total > MaxHops then
      var w := WalkPlan(store, s, ChunkPlan(total, MaxHops), e);
      Run(WalkResponse(w), WalkTrace(w))
    else
      var q := EdgeQuery(s, e, total);
      match store.edgeRows(s, e, total)
      case Fault(m) => Run(UpstreamFailure(m), [q])
      case Rows(rows) => Run(Found(rows, [q]), [q])
  }

  /** The request for valid endpoints `s` and `e`: measure, then fetch. */
  function RespondTo(store: Store, s: NodeId, e: NodeId): Run {
    var lq := LengthQuery(s, e, LengthSearchCap);
    match store.lengthRows(s, e)
    case Fault(m) => Run(UpstreamFailure(m), [lq])
    case Rows(lengths) =>
      var total := FirstLength(lengths);
      if total == 0 then Run(NoPath, [lq])
      else
        var fetched := FetchPath(store, s, e, total);
        Run(fetched.resp, [lq] + fetched.issued)
  }

  /** What one request with arguments `startArg` and `endArg` yields. */
  function Respond(store: Store, startArg: Option<string>, endArg: Option<string>): Run {
    match CheckInput(startArg, endArg)
    case Err(reason) => Run(BadRequest(reason), [])
    case Ok(ids) => RespondTo(store, ids.0, ids.1)
  }

  /** Copy a query's rows, one by one, to the end of `outputs`. */
  method CopyRows(outputs: seq<Edge>, rows: seq<Edge>) returns (r: seq<Edge>)
    ensures r == outputs + rows
  {
    r := outputs;
    for i := 0 to |rows|
      invariant r == outputs + rows[..i]
    {
      r := r + [rows[i]];
    }
    assert rows[..|rows|] == rows;
  }

  /**
   * The handler's loop, driven by the length still to cover, walks exactly
   * the chunk sizes `ChunkPlan` lays out.
   */
  lemma {:induction false} WalkFromFollowsPlan(store: Store, cur: NodeId, remaining: nat, dst: NodeId)
    ensures WalkFrom(store, cur, remaining, dst) == WalkPlan(store, cur, ChunkPlan(remaining, MaxHops), dst)
    decreases remaining
  {
    if remaining > 0 {
      var size := Min(MaxHops, remaining);
      var plan := ChunkPlan(remaining, MaxHops);
      ChunkPlanSingle(remaining, MaxHops);
      assert plan[0] == size && plan[1..] == ChunkPlan(remaining - size, MaxHops);
      match ChunkStep(store, cur, size, remaining <= MaxHops, dst)
      case Err(_) =>
      case Ok(c) =>
        WalkFromFollowsPlan(store, c.dst, remaining - size, dst);
    }
  }

  /** What one more completed chunk adds to the trace, the edges and the log. */
  lemma AppendChunk(done: seq<Chunk>, c: Chunk)
    ensures ChunksTrace(done + [c]) == ChunksTrace(done) + ChunkTrace(c)
    ensures Stitch(done + [c]) == Stitch(done) + c.rows
    ensures QueryLog(done + [c]) == QueryLog(done) + [EdgeQuery(c.src, c.dst, c.hops)]
  {
    assert (done + [c])[..|done|] == done;
  }

  lemma PrependTwice(done: seq<Chunk>, c: Chunk, w: Walk)
    ensures Prepend(done, Prepend([c], w)) == Prepend(done + [c], w)
  {
    assert done + ([c] + w.chunks) == (done + [c]) + w.chunks;
  }

  /** The queries one chunk sent. */
  function StepTrace(r: Result<Chunk, Stop>): seq<StoreQuery> {
    match r
    case Ok(c) => ChunkTrace(c)
    case Err(stop) => StopTrace(stop)
  }

  /**
   * One pass of the handler's loop body: the boundary lookup unless `last`,
   * then the edge query.
   */
  method FetchChunk(store: Store, current: NodeId, chunkSize: nat, last: bool, e: NodeId)
    returns (step: Result<Chunk, Stop>, sent: seq<StoreQuery>)
    ensures step == ChunkStep(store, current, chunkSize, last, e)
    ensures sent == StepTrace(step)
  {
    sent := [];
    var intermediate: Option<NodeId> := None;
    if last {
      intermediate := Some(e);
    } else {
      sent := sent + [BoundaryQuery(current, chunkSize)];
      var ends := store.boundaryRows(current, chunkSize);
      if ends.Fault? {
        assert sent == [BoundaryQuery(current, chunkSize)];
        return Err(Aborted(sent, ends.message)), sent;
      }
      if |ends.rows| > 0 {
        intermediate := Some(ends.rows[0]);
      }
    }
    if intermediate.None? {
      return Err(NoBoundary(current, chunkSize)), [BoundaryQuery(current, chunkSize)];
    }
    var next := intermediate.value;
    sent := sent + [EdgeQuery(current, next, chunkSize)];
    var reply := store.edgeRows(current, next, chunkSize);
    if reply.Fault? {
      assert sent == if last then [EdgeQuery(current, e, chunkSize)]
        else [BoundaryQuery(current, chunkSize), EdgeQuery(current, next, chunkSize)];
      return Err(Aborted(sent, reply.message)), sent;
    }
    step := Ok(Chunk(current, next, chunkSize, !last, reply.rows));
  }

  /** A chunk that stops the walk ends the whole walk there. */
  lemma LoopStops(store: Store, current: NodeId, remaining: nat, e: NodeId,
                  done: seq<Chunk>, whole: Walk, step: Result<Chunk, Stop>)
    requires remaining > 0
    requires whole == Prepend(done, WalkFrom(store, current, remaining, e))
    requires step == ChunkStep(store, current, Min(MaxHops, remaining), remaining <= MaxHops, e)
    requires step.Err?
    ensures !step.error.Completed?
    ensures WalkResponse(whole) == StopResponse(step.error)
    ensures WalkTrace(whole) == ChunksTrace(done) + StepTrace(step)
  {
    assert whole == Walk(done + [], step.error);
    assert done + [] == done;
    assert StopTrace(step.error) == StepTrace(step);
  }

  /** A chunk that completes moves from the walk's rest to its done part. */
  lemma LoopContinues(store: Store, current: NodeId, remaining: nat, e: NodeId,
                      done: seq<Chunk>, whole: Walk, step: Result<Chunk, Stop>)
    requires remaining > 0
    requires whole == Prepend(done, WalkFrom(store, current, remaining, e))
    requires step == ChunkStep(store, current, Min(MaxHops, remaining), remaining <= MaxHops, e)
    requires step.Ok?
    ensures step.value.src == current && step.value.hops == Min(MaxHops, remaining)
    ensures whole == Prepend(done + [step.value], WalkFrom(store, step.value.dst, remaining - Min(MaxHops, remaining), e))
    ensures ChunksTrace(done + [step.value]) == ChunksTrace(done) + StepTrace(step)
    ensures Stitch(done + [step.value]) == Stitch(done) + step.value.rows
    ensures QueryLog(done + [step.value]) == QueryLog(done) + [EdgeQuery(current, step.value.dst, Min(MaxHops, remaining))]
  {
    var c := step.value;
    AppendChunk(done, c);
    PrependTwice(done, c, WalkFrom(store, c.dst, remaining - Min(MaxHops, remaining), e));
  }

  /** A walk that came to its end. */
  lemma LoopEnds(store: Store, current: NodeId, e: NodeId, done: seq<Chunk>, whole: Walk)
    requires whole == Prepend(done, WalkFrom(store, current, 0, e))
    ensures WalkResponse(whole) == Found(Stitch(done), QueryLog(done))
    ensures WalkTrace(whole) == ChunksTrace(done)
  {
    assert whole == Walk(done + [], Completed);
    assert done + [] == done;
    assert ChunksTrace(done) + [] == ChunksTrace(done);
  }

  /**
   * The chunked branch of `run_graph_query` (a path longer than `MaxHops`):
   * walk the remaining length from the start, `min(MaxHops, remaining)` hops
   * at a time. `issued` lists the store queries in the order they are sent.
   */
  method FetchInChunks(store: Store, s: NodeId, e: NodeId, pathLength: nat)
    returns (resp: Response, issued: seq<StoreQuery>)
    requires pathLength > MaxHops
    ensures var w := WalkFrom(store, s, pathLength, e);
      resp == WalkResponse(w) && issued == WalkTrace(w)
  {
    issued := [];
    var outputs: seq<Edge> := [];
    var gqlQuery: seq<StoreQuery> := [];
    var remaining: nat := pathLength;
    var current := s;
    ghost var done: seq<Chunk> := [];
    ghost var whole := WalkFrom(store, s, pathLength, e);
    while remaining > 0
      invariant whole == Prepend(done, WalkFrom(store, current, remaining, e))
      invariant issued == ChunksTrace(done)
      invariant outputs == Stitch(done)
      invariant gqlQuery == QueryLog(done)
      decreases remaining
    {
      var chunkSize: nat := Min(MaxHops, remaining);
      var step, sent := FetchChunk(store, current, chunkSize, remaining <= MaxHops, e);
      issued := issued + sent;
      if step.Err? {
        LoopStops(store, current, remaining, e, done, whole, step);
        return StopResponse(step.error), issued;
      }
      var next := step.value.dst;
      LoopContinues(store, current, remaining, e, done, whole, step);
      gqlQuery := gqlQuery + [EdgeQuery(current, next, chunkSize)];
      outputs := CopyRows(outputs, step.value.rows);
      done := done + [step.value];
      remaining := remaining - chunkSize;
      current := next;
    }
    LoopEnds(store, current, e, done, whole);
    return Found(outputs, gqlQuery), issued;
  }

  /** The edge fetch of `run_graph_query`, for a path length other than 0. */
  method FetchEdges(store: Store, s: NodeId, e: NodeId, pathLength: int)
    returns (resp: Response, issued: seq<StoreQuery>)
    ensures Run(resp, issued) == FetchPath(store, s, e, pathLength)
  {
    if pathLength > MaxHops {
      resp, issued := FetchInChunks(store, s, e, pathLength);
      WalkFromFollowsPlan(store, s, pathLength, e);
    } else {
      var gqlQuery := [EdgeQuery(s, e, pathLength)];
      issued := gqlQuery;
      var reply := store.edgeRows(s, e, pathLength);
      if reply.Fault? {
        return UpstreamFailure(reply.message), issued;
      }
      var outputs := CopyRows([], reply.rows);
      assert outputs == reply.rows;
      resp := Found(outputs, gqlQuery);
    }
  }

  /** The part of `run_graph_query` after the endpoints are read. */
  method QueryPath(store: Store, s: NodeId, e: NodeId)
    returns (resp: Response, issued: seq<StoreQuery>)
    ensures Run(resp, issued) == RespondTo(store, s, e)
  {
    issued := [LengthQuery(s, e, LengthSearchCap)];
    var lengthReply := store.lengthRows(s, e);
    if lengthReply.Fault? {
      return UpstreamFailure(lengthReply.message), issued;
    }
    var pathLength := 0;
    if |lengthReply.rows| > 0 {
      pathLength := lengthReply.rows[0];
    }
    if pathLength == 0 {
      return NoPath, issued;
    }
    var fetched;
    resp, fetched := FetchEdges(store, s, e, pathLength);
    issued := issued + fetched;
  }

  /**
   * `run_graph_query`. `issued` lists the store queries in the order they
   * are sent.
   */
  method RunGraphQuery(store: Store, startArg: Option<string>, endArg: Option<string>)
    returns (resp: Response, issued: seq<StoreQuery>)
    ensures Run(resp, issued) == Respond(store, startArg, endArg)
  {
    if !Present(startArg) || !Present(endArg) {
      return BadRequest(MissingParameter), [];
    }
    var startId := IntText.Parse(startArg.value);
    var endId := IntText.Parse(endArg.value);
    if startId.None? || endId.None? {
      return BadRequest(NotAnInteger), [];
    }
    resp, issued := QueryPath(store, startId.value, endId.value);
  }
}
