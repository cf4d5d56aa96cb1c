/**
 * The graph database as the handler sees it: three read-only query shapes,
 * each answered with rows or with a fault (the exception a failed
 * `execute_sql` raises). The answers are parameters of the model: whatever
 * the database does, the handler's behaviour is stated for every answer.
 */
module GraphStore {
  import IntText

  type NodeId = int

  /** One traversed edge occurrence, as a row of an edge query returns it. */
  datatype Edge = Edge(startNodeId: NodeId, segmentId: int, endNodeId: NodeId)

  /** The hop cap of the query that measures the whole path. */
  const LengthSearchCap: nat := 100

  /** A query the handler sends, with the values substituted into its text. */
  datatype StoreQuery =
    | LengthQuery(src: NodeId, dst: NodeId, cap: nat)
    | BoundaryQuery(src: NodeId, hops: int)
    | EdgeQuery(src: NodeId, dst: NodeId, maxHops: int)

  /** The rows of one query, in the order the store yields them, or a fault. */
  datatype Reply<T> = Rows(rows: seq<T>) | Fault(message: string)

  /**
   * `lengthRows(s, e)`: the `path_length` column of the shortest path from
   * `s` to `e` within `LengthSearchCap` hops (no row: no path).
   * `boundaryRows(s, k)`: the `end_node` column of the nodes a shortest walk
   * of exactly `k` hops from `s` reaches.
   * `edgeRows(s, e, k)`: the edges of a shortest path from `s` to `e` of at
   * most `k` hops, first hop first.
   */
  datatype Store = Store(
    lengthRows: (NodeId, NodeId) -> Reply<int>,
    boundaryRows: (NodeId, int) -> Reply<NodeId>,
    edgeRows: (NodeId, NodeId, int) -> Reply<Edge>)

  /** The fixed pieces the three query templates share. */
  const Header: string := "Graph INVENTARIO2 MATCH "
  const FromNode: string := "( (src:NODO {NODEID: "
  const Hops: string := "})-[s:SEGMENTO | REVERSE_SEGMENTO]->{1, "
  const ToNode: string := "}(dest:NODO {NODEID: "

  /**
   * The text of `q` as the handler formats it, with each run of line breaks
   * and indentation in its template written as one space and the runs at
   * either end dropped.
   */
  function QueryText(q: StoreQuery): string {
    match q
    case LengthQuery(src, dst, cap) =>
      Header + "ANY SHORTEST " + FromNode + IntText.Show(src) + Hops + IntText.Show(cap) +
      ToNode + IntText.Show(dst) + "}) ) LET path_length = COUNT(s) RETURN  path_length"
    case BoundaryQuery(src, hops) =>
      Header + "ANY SHORTEST " + FromNode + IntText.Show(src) + Hops + IntText.Show(hops) +
      "}(dest:NODO)) LET path_length = COUNT(s) FILTER path_length = " + IntText.Show(hops) +
      " RETURN path_length,dest.NODEID as end_node"
    case EdgeQuery(src, dst, maxHops) =>
      Header + "p = ANY SHORTEST " + FromNode + IntText.Show(src) + Hops + IntText.Show(maxHops) +
      ToNode + IntText.Show(dst) +
      "}) ) LET es = EDGES(p) FOR element in es RETURN element.STARTNODEID, element.SEGMENTID, element.ENDNODEID"
  }

  /** The renderings of `xs`, one after another. */
  function Join<T>(xs: seq<T>, render: T -> string): string {
    if xs == [] then "" else Join(xs[..|xs| - 1], render) + render(xs[|xs| - 1])
  }

  lemma {:induction false} JoinAppend<T>(a: seq<T>, b: seq<T>, render: T -> string)
    ensures Join(a + b, render) == Join(a, render) + Join(b, render)
    decreases |b|
  {
    if b == [] {
      assert a + b == a;
    } else {
      var b' := b[..|b| - 1];
      assert (a + b)[..|a + b| - 1] == a + b';
      JoinAppend(a, b', render);
    }
  }

  /** The texts of `log`, one after another: what `gql_query +=` builds. */
  function LogText(log: seq<StoreQuery>): string {
    Join(log, QueryText)
  }

  /** Appending queries to the log appends their texts to its text. */
  lemma LogTextAppend(a: seq<StoreQuery>, b: seq<StoreQuery>)
    ensures LogText(a + b) == LogText(a) + LogText(b)
  {
    JoinAppend(a, b, QueryText);
  }

  /** Consecutive edges meet: each one ends where the next one starts. */
  predicate Contiguous(es: seq<Edge>) {
    forall i :: 0 < i < |es| ==> es[i - 1].endNodeId == es[i].startNodeId
  }

  /** `es` is a walk from `src` to `dst` (the empty walk stays at `src`). */
  predicate IsPath(es: seq<Edge>, src: NodeId, dst: NodeId) {
    Contiguous(es) &&
    (es == [] ==> src == dst) &&
    (es != [] ==> es[0].startNodeId == src && es[|es| - 1].endNodeId == dst)
  }

  /** Two walks that meet at `mid` join into one walk. */
  lemma JoinPaths(a: seq<Edge>, b: seq<Edge>, src: NodeId, mid: NodeId, dst: NodeId)
    requires IsPath(a, src, mid) && IsPath(b, mid, dst)
    ensures IsPath(a + b, src, dst)
  {
    var ab := a + b;
    forall i | 0 < i < |ab|
      ensures ab[i - 1].endNodeId == ab[i].startNodeId
    {
      if i < |a| {
        assert ab[i - 1] == a[i - 1] && ab[i] == a[i];
      } else if i == |a| {
        assert ab[i] == b[0];
      } else {
        assert ab[i - 1] == b[i - 1 - |a|] && ab[i] == b[i - |a|];
      }
    }
  }
}
