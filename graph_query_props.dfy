/**
 * What `run_graph_query` promises, stated on `Respond` (which the handler
 * method is proved to compute): validation comes before any query, the
 * no-path exit, the single query for short paths, the chunk walk for long
 * ones, and the early exit when no boundary node is found.
 */
module GraphQueryProps {
  import opened Wrappers
  import opened Chunking
  import opened GraphStore
  import opened GraphQuery

  /**
   * The store answered the queries chunk `c` stands for: the final chunk
   * targets `dst`, any other one the first node its boundary lookup
   * returned, and the rows are the answer to its edge query.
   */
  predicate Answered(store: Store, c: Chunk, last: bool, dst: NodeId) {
    c.lookedUp == !last &&
    (last ==> c.dst == dst) &&
    (!last ==>
      store.boundaryRows(c.src, c.hops).Rows? &&
      store.boundaryRows(c.src, c.hops).rows != [] &&
      store.boundaryRows(c.src, c.hops).rows[0] == c.dst) &&
    store.edgeRows(c.src, c.dst, c.hops) == Rows(c.rows)
  }

  /** Where a walk from `cur` stands after the chunks `cs`. */
  function Reached(cur: NodeId, cs: seq<Chunk>): NodeId {
    if cs == [] then cur else cs[|cs| - 1].dst
  }

  /** Each chunk starts where the one before it ended, the first at `cur`. */
  predicate Chained(cur: NodeId, cs: seq<Chunk>) {
    (cs != [] ==> cs[0].src == cur) &&
    forall i :: 0 < i < |cs| ==> cs[i].src == cs[i - 1].dst
  }

  /** The hop counts of the chunks, in order. */
  function HopCounts(cs: seq<Chunk>): (r: seq<nat>)
    ensures |r| == |cs| && forall i :: 0 <= i < |cs| ==> r[i] == cs[i].hops
  {
    if cs == [] then [] else HopCounts(cs[..|cs| - 1]) + [cs[|cs| - 1].hops]
  }

  /** A chunk completes exactly when the store answered its queries. */
  lemma ChunkStepCompletes(store: Store, cur: NodeId, k: nat, last: bool, dst: NodeId, c: Chunk)
    ensures ChunkStep(store, cur, k, last, dst) == Ok(c) <==>
      c.src == cur && c.hops == k && Answered(store, c, last, dst)
  {
  }

  /** A chunk misses its boundary exactly when the lookup returned no row. */
  lemma ChunkStepMisses(store: Store, cur: NodeId, k: nat, last: bool, dst: NodeId, from: NodeId, d: nat)
    ensures ChunkStep(store, cur, k, last, dst) == Err(NoBoundary(from, d)) <==>
      !last && store.boundaryRows(cur, k) == Rows([]) && from == cur && d == k
  {
  }

  /** How far a walk gets: all chunks exactly when it completes. */
  lemma {:induction false} WalkPlanLength(store: Store, cur: NodeId, sizes: seq<nat>, dst: NodeId)
    ensures var w := WalkPlan(store, cur, sizes, dst);
      |w.chunks| <= |sizes| && (w.stop.Completed? <==> |w.chunks| == |sizes|)
    decreases |sizes|
  {
    if sizes != [] {
      match ChunkStep(store, cur, sizes[0], |sizes| == 1, dst)
      case Err(_) =>
      case Ok(c) => WalkPlanLength(store, c.dst, sizes[1..], dst);
    }
  }

  /**
   * Every chunk of a walk takes its size from the plan at its position,
   * starts where the one before it ended (the first at `cur`), and was
   * answered by the store as its position demands.
   */
  lemma {:induction false} WalkPlanChunks(store: Store, cur: NodeId, sizes: seq<nat>, dst: NodeId)
    ensures var w := WalkPlan(store, cur, sizes, dst);
      |w.chunks| <= |sizes| && Chained(cur, w.chunks) &&
      forall i :: 0 <= i < |w.chunks| ==>
        w.chunks[i].hops == sizes[i] && Answered(store, w.chunks[i], i == |sizes| - 1, dst)
    decreases |sizes|
  {
    if sizes != [] {
      match ChunkStep(store, cur, sizes[0], |sizes| == 1, dst)
      case Err(_) =>
      case Ok(c) =>
        var rest := WalkPlan(store, c.dst, sizes[1..], dst);
        WalkPlanChunks(store, c.dst, sizes[1..], dst);
        var cs := [c] + rest.chunks;
        forall i | 0 < i < |cs|
          ensures cs[i] == rest.chunks[i - 1]
        {
        }
        assert Chained(cur, cs) by {
          if rest.chunks != [] {
            assert cs[1] == rest.chunks[0];
          }
        }
    }
  }

  /** A walk that stops early stops at the chunk after the ones it completed. */
  lemma {:induction false} WalkPlanStop(store: Store, cur: NodeId, sizes: seq<nat>, dst: NodeId)
    ensures var w := WalkPlan(store, cur, sizes, dst);
      !w.stop.Completed? ==>
        |w.chunks| < |sizes| &&
        ChunkStep(store, Reached(cur, w.chunks), sizes[|w.chunks|], |w.chunks| == |sizes| - 1, dst) == Err(w.stop)
    decreases |sizes|
  {
    if sizes != [] {
      match ChunkStep(store, cur, sizes[0], |sizes| == 1, dst)
      case Err(_) =>
      case Ok(c) =>
        var rest := WalkPlan(store, c.dst, sizes[1..], dst);
        WalkPlanStop(store, c.dst, sizes[1..], dst);
        if !rest.stop.Completed? {
          var cs := [c] + rest.chunks;
          assert Reached(cur, cs) == Reached(c.dst, rest.chunks);
          assert sizes[|cs|] == sizes[1..][|rest.chunks|];
        }
    }
  }

  /** The store yields, for every edge query it answers, a walk between its endpoints. */
  ghost predicate SoundEdges(store: Store) {
    forall a: NodeId, b: NodeId, k: int ::
      store.edgeRows(a, b, k).Rows? ==> IsPath(store.edgeRows(a, b, k).rows, a, b)
  }

  /** The edge queries among `qs`, in order. */
  function EdgeQueries(qs: seq<StoreQuery>): seq<StoreQuery> {
    if qs == [] then []
    else EdgeQueries(qs[..|qs| - 1]) + (if qs[|qs| - 1].EdgeQuery? then [qs[|qs| - 1]] else [])
  }

  lemma {:induction false} EdgeQueriesAppend(a: seq<StoreQuery>, b: seq<StoreQuery>)
    ensures EdgeQueries(a + b) == EdgeQueries(a) + EdgeQueries(b)
    decreases |b|
  {
    if b == [] {
      assert a + b == a;
    } else {
      var b' := b[..|b| - 1];
      assert (a + b)[..|a + b| - 1] == a + b';
      EdgeQueriesAppend(a, b');
    }
  }

  /** The log of a chunk walk holds exactly the edge queries it sent. */
  lemma {:induction false} QueryLogIsEdgeQueries(cs: seq<Chunk>)
    ensures QueryLog(cs) == EdgeQueries(ChunksTrace(cs))
    decreases |cs|
  {
    if cs != [] {
      var c := cs[|cs| - 1];
      QueryLogIsEdgeQueries(cs[..|cs| - 1]);
      EdgeQueriesAppend(ChunksTrace(cs[..|cs| - 1]), ChunkTrace(c));
      if c.lookedUp {
        EdgeQueriesAppend([BoundaryQuery(c.src, c.hops)], [EdgeQuery(c.src, c.dst, c.hops)]);
      }
    }
  }

  /** Chained chunks whose rows are walks stitch into one walk. */
  lemma {:induction false} StitchIsPath(cs: seq<Chunk>, cur: NodeId)
    requires Chained(cur, cs)
    requires forall i :: 0 <= i < |cs| ==> IsPath(cs[i].rows, cs[i].src, cs[i].dst)
    ensures IsPath(Stitch(cs), cur, Reached(cur, cs))
    decreases |cs|
  {
    if cs != [] {
      var front := cs[..|cs| - 1];
      var c := cs[|cs| - 1];
      assert forall i :: 0 <= i < |front| ==> front[i] == cs[i];
      StitchIsPath(front, cur);
      assert Reached(cur, front) == c.src by {
        if front != [] {
          assert front[|front| - 1] == cs[|cs| - 2];
        }
      }
      JoinPaths(Stitch(front), c.rows, cur, c.src, c.dst);
    }
  }

  /**
   * The request is rejected, with nothing sent to the store, exactly when its
   * arguments fail validation; a valid request starts with the length query.
   */
  lemma ValidatesFirst(store: Store, startArg: Option<string>, endArg: Option<string>)
    ensures var r := Respond(store, startArg, endArg);
      (r.resp.BadRequest? <==> CheckInput(startArg, endArg).Err?) &&
      (r.resp.BadRequest? ==>
        r.issued == [] && r.resp.Status() == 400 && r.resp.reason == CheckInput(startArg, endArg).error) &&
      (CheckInput(startArg, endArg).Ok? ==>
        var (s, e) := CheckInput(startArg, endArg).value;
        r == RespondTo(store, s, e) && |r.issued| > 0 && r.issued[0] == LengthQuery(s, e, LengthSearchCap))
  {
    if CheckInput(startArg, endArg).Ok? {
      var (s, e) := CheckInput(startArg, endArg).value;
      NeverBadRequest(store, s, e);
    }
  }

  /** Once the endpoints are valid, no answer is a 400. */
  lemma NeverBadRequest(store: Store, s: NodeId, e: NodeId)
    ensures !RespondTo(store, s, e).resp.BadRequest?
  {
    match store.lengthRows(s, e)
    case Fault(_) =>
    case Rows(lengths) =>
      var total := FirstLength(lengths);
      if total > MaxHops {
        var w := WalkPlan(store, s, ChunkPlan(total, MaxHops), e);
        assert !WalkResponse(w).BadRequest?;
      }
  }

  /**
   * "No path" (status 200) is answered exactly when the length query yields
   * no row or a length of 0, and then after that query alone.
   */
  lemma NoPathExit(store: Store, s: NodeId, e: NodeId)
    ensures var r := RespondTo(store, s, e);
      (r.resp.NoPath? <==>
        store.lengthRows(s, e).Rows? && FirstLength(store.lengthRows(s, e).rows) == 0) &&
      (r.resp.NoPath? ==> r.issued == [LengthQuery(s, e, LengthSearchCap)] && r.resp.Status() == 200)
  {
    match store.lengthRows(s, e)
    case Fault(_) =>
    case Rows(lengths) =>
      var total := FirstLength(lengths);
      if total > MaxHops {
        var w := WalkPlan(store, s, ChunkPlan(total, MaxHops), e);
        assert !WalkResponse(w).NoPath?;
      }
  }

  /**
   * A path of at most `MaxHops` hops is fetched with one edge query from `s`
   * to `e` bounded by its length, whose rows are the answer, in order.
   */
  lemma SingleEdgeQuery(store: Store, s: NodeId, e: NodeId)
    requires store.lengthRows(s, e).Rows?
    requires var total := FirstLength(store.lengthRows(s, e).rows); total != 0 && total <= MaxHops
    ensures var total := FirstLength(store.lengthRows(s, e).rows);
      var r := RespondTo(store, s, e);
      var q := EdgeQuery(s, e, total);
      r.issued == [LengthQuery(s, e, LengthSearchCap), q] &&
      (store.edgeRows(s, e, total).Rows? ==> r.resp == Found(store.edgeRows(s, e, total).rows, [q])) &&
      (store.edgeRows(s, e, total).Fault? ==> r.resp == UpstreamFailure(store.edgeRows(s, e, total).message))
  {
  }

  /** A path that fits one chunk fetches as the chunk walk over its plan would. */
  lemma ShortPathIsOneChunk(store: Store, s: NodeId, e: NodeId, total: nat)
    requires 0 < total <= MaxHops
    ensures var w := WalkPlan(store, s, ChunkPlan(total, MaxHops), e);
      FetchPath(store, s, e, total) == Run(WalkResponse(w), WalkTrace(w))
  {
    assert ChunkPlan(total, MaxHops) == [total];
    var w := WalkPlan(store, s, [total], e);
    assert [total][1..] == [];
    match store.edgeRows(s, e, total)
    case Fault(m) =>
      assert w == Walk([], Aborted([EdgeQuery(s, e, total)], m));
    case Rows(rows) =>
      var c := Chunk(s, e, total, false, rows);
      assert WalkPlan(store, e, [], e) == Walk([], Completed);
      assert [c] + [] == [c];
      assert w == Walk([c], Completed);
      assert Stitch([c]) == rows;
      assert QueryLog([c]) == [EdgeQuery(s, e, total)];
      assert ChunksTrace([c]) == ChunkTrace(c);
  }

  /** A successful chunk walk: the chunk walk of the plan over the measured length. */
  lemma ChunkedSuccess(store: Store, s: NodeId, e: NodeId)
    requires store.lengthRows(s, e).Rows?
    requires FirstLength(store.lengthRows(s, e).rows) > MaxHops
    requires RespondTo(store, s, e).resp.Found?
    ensures var total := FirstLength(store.lengthRows(s, e).rows);
      var r := RespondTo(store, s, e);
      var w := WalkPlan(store, s, ChunkPlan(total, MaxHops), e);
      var cs := w.chunks;
      r.resp.edges == Stitch(cs) &&
      r.issued == [LengthQuery(s, e, LengthSearchCap)] + ChunksTrace(cs) &&
      HopCounts(cs) == ChunkPlan(total, MaxHops) &&
      |cs| == (total + MaxHops - 1) / MaxHops &&
      Sum(HopCounts(cs)) == total &&
      Chained(s, cs) && cs[|cs| - 1].dst == e &&
      (forall i :: 0 <= i < |cs| ==> 1 <= cs[i].hops <= MaxHops) &&
      (forall i :: 0 <= i < |cs| - 1 ==> cs[i].hops == MaxHops && cs[i].lookedUp) &&
      !cs[|cs| - 1].lookedUp
  {
    var total := FirstLength(store.lengthRows(s, e).rows);
    var plan := ChunkPlan(total, MaxHops);
    var w := WalkPlan(store, s, plan, e);
    WalkPlanLength(store, s, plan, e);
    WalkPlanChunks(store, s, plan, e);
    ChunkPlanSizes(total, MaxHops);
    ChunkPlanSum(total, MaxHops);
    ChunkPlanShape(total, MaxHops);
    ChunkPlanCount(total, MaxHops);
    assert HopCounts(w.chunks) == plan;
  }

  /**
   * A boundary miss (status 500) happens only in the chunk walk, on a full
   * chunk of `MaxHops` hops whose lookup returned no row; that lookup is the
   * last query sent, after the chunks completed before it.
   */
  lemma BoundaryMiss(store: Store, s: NodeId, e: NodeId)
    requires RespondTo(store, s, e).resp.BoundaryNotFound?
    ensures store.lengthRows(s, e).Rows?
    ensures var total := FirstLength(store.lengthRows(s, e).rows);
      var r := RespondTo(store, s, e);
      var w := WalkPlan(store, s, ChunkPlan(total, MaxHops), e);
      total > MaxHops &&
      r.resp.distance == MaxHops && r.resp.from == Reached(s, w.chunks) &&
      store.boundaryRows(r.resp.from, MaxHops) == Rows([]) &&
      r.issued == [LengthQuery(s, e, LengthSearchCap)] + ChunksTrace(w.chunks) + [BoundaryQuery(r.resp.from, MaxHops)] &&
      r.resp.Status() == 500
  {
    var total := FirstLength(store.lengthRows(s, e).rows);
    var plan := ChunkPlan(total, MaxHops);
    var w := WalkPlan(store, s, plan, e);
    WalkPlanStop(store, s, plan, e);
    var j := |w.chunks|;
    var from, d := w.stop.from, w.stop.distance;
    ChunkStepMisses(store, Reached(s, w.chunks), plan[j], j == |plan| - 1, e, from, d);
    ChunkPlanShape(total, MaxHops);
  }

  /**
   * When the store answers edge queries with walks, a found answer is a walk
   * from `s` to `e`. The handler itself does not check this.
   */
  lemma FoundIsPath(store: Store, s: NodeId, e: NodeId)
    requires SoundEdges(store)
    requires RespondTo(store, s, e).resp.Found?
    ensures IsPath(RespondTo(store, s, e).resp.edges, s, e)
  {
    var total := FirstLength(store.lengthRows(s, e).rows);
    if total > MaxHops {
      var plan := ChunkPlan(total, MaxHops);
      var w := WalkPlan(store, s, plan, e);
      ChunkedSuccess(store, s, e);
      WalkPlanChunks(store, s, plan, e);
      StitchIsPath(w.chunks, s);
    }
  }

  /** The store answers every edge query bounded by `k` with exactly `k` edges. */
  ghost predicate FullEdges(store: Store) {
    forall a: NodeId, b: NodeId, k: int ::
      store.edgeRows(a, b, k).Rows? ==> |store.edgeRows(a, b, k).rows| == k
  }

  lemma {:induction false} SumAppend(p: seq<nat>, x: nat)
    ensures Sum(p + [x]) == Sum(p) + x
    decreases |p|
  {
    if p == [] {
      assert [] + [x] == [x];
    } else {
      assert (p + [x])[1..] == p[1..] + [x];
      SumAppend(p[1..], x);
    }
  }

  /** Chunks whose rows number their hops stitch into as many edges as all their hops. */
  lemma {:induction false} StitchLength(cs: seq<Chunk>)
    requires forall i :: 0 <= i < |cs| ==> |cs[i].rows| == cs[i].hops
    ensures |Stitch(cs)| == Sum(HopCounts(cs))
    decreases |cs|
  {
    if cs != [] {
      var front := cs[..|cs| - 1];
      assert forall i :: 0 <= i < |front| ==> front[i] == cs[i];
      StitchLength(front);
      SumAppend(HopCounts(front), cs[|cs| - 1].hops);
    }
  }

  /**
   * When the store answers each edge query with as many edges as its bound,
   * a found answer has exactly as many edges as the measured length.
   */
  lemma FoundHasMeasuredLength(store: Store, s: NodeId, e: NodeId)
    requires FullEdges(store)
    requires RespondTo(store, s, e).resp.Found?
    ensures |RespondTo(store, s, e).resp.edges| == FirstLength(store.lengthRows(s, e).rows)
  {
    var total := FirstLength(store.lengthRows(s, e).rows);
    if total > MaxHops {
      var plan := ChunkPlan(total, MaxHops);
      var w := WalkPlan(store, s, plan, e);
      ChunkedSuccess(store, s, e);
      WalkPlanChunks(store, s, plan, e);
      StitchLength(w.chunks);
    }
  }

  /**
   * The logged query text of a found answer is the text of every edge
   * query sent, in the order sent.
   */
  lemma LogIsEdgeQueries(store: Store, s: NodeId, e: NodeId)
    requires RespondTo(store, s, e).resp.Found?
    ensures var r := RespondTo(store, s, e);
      r.resp.queryLog == EdgeQueries(r.issued)
  {
    var r := RespondTo(store, s, e);
    var lq := LengthQuery(s, e, LengthSearchCap);
    var total := FirstLength(store.lengthRows(s, e).rows);
    if total > MaxHops {
      var w := WalkPlan(store, s, ChunkPlan(total, MaxHops), e);
      assert w.stop.Completed?;
      assert r.issued == [lq] + ChunksTrace(w.chunks) + [];
      assert [lq] + ChunksTrace(w.chunks) + [] == [lq] + ChunksTrace(w.chunks);
      QueryLogIsEdgeQueries(w.chunks);
      EdgeQueriesAppend([lq], ChunksTrace(w.chunks));
    } else {
      EdgeQueriesAppend([lq], [EdgeQuery(s, e, total)]);
    }
  }

  /**
   * A store in which every boundary lookup steps `k` node numbers ahead and
   * every edge query is answered with one edge.
   */
  function SteppingStore(length: int): Store {
    Store(
      (a: NodeId, b: NodeId) => Rows([length]),
      (a: NodeId, k: int) => Rows([a + k]),
      (a: NodeId, b: NodeId, k: int) => Rows([Edge(a, 0, b)]))
  }

  /** The chunks of the worked case below. */
  const FortySevenChunks: seq<Chunk> := [
    Chunk(0, 20, 20, true, [Edge(0, 0, 20)]),
    Chunk(20, 40, 20, true, [Edge(20, 0, 40)]),
    Chunk(40, 47, 7, false, [Edge(40, 0, 47)])]

  lemma FortySevenWalk()
    ensures WalkPlan(SteppingStore(47), 0, ChunkPlan(47, MaxHops), 47) == Walk(FortySevenChunks, Completed)
  {
    var store := SteppingStore(47);
    var cs := FortySevenChunks;
    ChunkPlanOf47();
    assert WalkPlan(store, 40, [7], 47) == Walk([cs[2]], Completed);
    assert WalkPlan(store, 20, [20, 7], 47) == Walk([cs[1], cs[2]], Completed);
  }

  lemma FortySevenSent()
    ensures Stitch(FortySevenChunks) == [Edge(0, 0, 20), Edge(20, 0, 40), Edge(40, 0, 47)]
    ensures QueryLog(FortySevenChunks) == [EdgeQuery(0, 20, 20), EdgeQuery(20, 40, 20), EdgeQuery(40, 47, 7)]
    ensures ChunksTrace(FortySevenChunks) == [BoundaryQuery(0, 20), EdgeQuery(0, 20, 20),
      BoundaryQuery(20, 20), EdgeQuery(20, 40, 20), EdgeQuery(40, 47, 7)]
  {
    var cs := FortySevenChunks;
    AppendChunk([], cs[0]);
    assert [] + [cs[0]] == cs[..1];
    AppendChunk(cs[..1], cs[1]);
    assert cs[..1] + [cs[1]] == cs[..2];
    AppendChunk(cs[..2], cs[2]);
    assert cs[..2] + [cs[2]] == cs;
  }

  /**
   * The worked case: a 47-hop path from node 0 to node 47 is fetched in
   * chunks of 20, 20 and 7 hops, each boundary lookup followed by its edge
   * query.
   */
  lemma FortySevenHops()
    ensures RespondTo(SteppingStore(47), 0, 47) == Run(
      Found([Edge(0, 0, 20), Edge(20, 0, 40), Edge(40, 0, 47)],
            [EdgeQuery(0, 20, 20), EdgeQuery(20, 40, 20), EdgeQuery(40, 47, 7)]),
      [LengthQuery(0, 47, LengthSearchCap),
       BoundaryQuery(0, 20), EdgeQuery(0, 20, 20),
       BoundaryQuery(20, 20), EdgeQuery(20, 40, 20),
       EdgeQuery(40, 47, 7)])
  {
    FortySevenWalk();
    FortySevenSent();
  }

  /** A store that measures 25 hops and finds no boundary node anywhere. */
  function BoundlessStore(): Store {
    Store(
      (a: NodeId, b: NodeId) => Rows([25]),
      (a: NodeId, k: int) => Rows([]),
      (a: NodeId, b: NodeId, k: int) => Rows([]))
  }

  /** The first lookup misses: 500, after the length query and that lookup alone. */
  lemma MissOnFirstLookup()
    ensures RespondTo(BoundlessStore(), 1, 2) ==
      Run(BoundaryNotFound(1, 20), [LengthQuery(1, 2, LengthSearchCap), BoundaryQuery(1, 20)])
  {
    assert ChunkPlan(5, MaxHops) == [5];
    assert ChunkPlan(25, MaxHops) == [20, 5];
  }
}
