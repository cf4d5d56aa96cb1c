/**
 * How a path longer than the engine's per-query hop cap is cut into chunks.
 * The handler walks the path from its known start and takes, at every step,
 * `min(cap, remaining)` hops; `ChunkPlan` is the list of sizes that walk takes.
 */
module Chunking {

  /** The most hops one shortest-path query may traverse. */
  const MaxHops: nat := 20

  function Min(a: int, b: int): int {
    if a < b then a else b
  }

  function ChunkPlan(total: nat, cap: nat): seq<nat>
    requires cap > 0
    decreases total
  {
    if total == 0 then []
    else
      var size: nat := Min(cap, total);
      [size] + ChunkPlan(total - size, cap)
  }

  function Sum(s: seq<nat>): nat {
    if s == [] then 0 else s[0] + Sum(s[1..])
  }

  /** Every chunk has at least one hop and at most the cap. */
  lemma {:induction false} ChunkPlanSizes(total: nat, cap: nat)
    requires cap > 0
    ensures forall i :: 0 <= i < |ChunkPlan(total, cap)| ==> 1 <= ChunkPlan(total, cap)[i] <= cap
    decreases total
  {
    if total > 0 {
      ChunkPlanSizes(total - Min(cap, total), cap);
    }
  }

  /** The chunks cover the whole path: their sizes add up to its length. */
  lemma {:induction false} ChunkPlanSum(total: nat, cap: nat)
    requires cap > 0
    ensures Sum(ChunkPlan(total, cap)) == total
    decreases total
  {
    if total > 0 {
      ChunkPlanSum(total - Min(cap, total), cap);
    }
  }

  /** Every chunk but the last is a full cap; the last one takes what is left. */
  lemma {:induction false} ChunkPlanShape(total: nat, cap: nat)
    requires cap > 0
    ensures var p := ChunkPlan(total, cap);
      (forall i :: 0 <= i < |p| - 1 ==> p[i] == cap) &&
      (total > 0 ==> |p| > 0 && p[|p| - 1] == total - cap * (|p| - 1))
    decreases total
  {
    if total > cap {
      ChunkPlanShape(total - cap, cap);
      var rest := ChunkPlan(total - cap, cap);
      assert ChunkPlan(total, cap) == [cap] + rest;
      assert cap * (|rest| + 1 - 1) == cap * (|rest| - 1) + cap;
    }
  }

  /** A single chunk exactly when the path fits under the cap. */
  lemma ChunkPlanSingle(total: nat, cap: nat)
    requires cap > 0 && total > 0
    ensures |ChunkPlan(total, cap)| == 1 <==> total <= cap
  {
    if total > cap {
      assert ChunkPlan(total - cap, cap) != [];
    }
  }

  /** The number of chunks, as `(k - 1) * cap < total <= k * cap`. */
  lemma {:induction false} ChunkPlanCountBounds(total: nat, cap: nat)
    requires cap > 0
    ensures var k := |ChunkPlan(total, cap)|;
      cap * k >= total && (total > 0 ==> cap * (k - 1) < total)
    decreases total
  {
    if total > cap {
      ChunkPlanCountBounds(total - cap, cap);
      var k := |ChunkPlan(total - cap, cap)|;
      assert |ChunkPlan(total, cap)| == k + 1;
      assert cap * (k + 1) == cap * k + cap;
      assert cap * (k + 1 - 1) == cap * (k - 1) + cap;
    }
  }

  lemma MultiplyMonotone(d: nat, a: nat, b: nat)
    requires a <= b
    ensures d * a <= d * b
  {
  }

  lemma DivisionByBounds(x: nat, d: nat, q: nat)
    requires d > 0 && d * q <= x < d * (q + 1)
    ensures x / d == q
  {
    var r := x / d;
    assert x == d * r + x % d;
    if r < q {
      MultiplyMonotone(d, r + 1, q);
      assert false;
    } else if r > q {
      MultiplyMonotone(d, q + 1, r);
      assert false;
    }
  }

  /** The number of chunks is `ceil(total / cap)`. */
  lemma ChunkPlanCount(total: nat, cap: nat)
    requires cap > 0
    ensures |ChunkPlan(total, cap)| == (total + cap - 1) / cap
  {
    ChunkPlanCountBounds(total, cap);
    var k := |ChunkPlan(total, cap)|;
    if total == 0 {
      DivisionByBounds(cap - 1, cap, 0);
    } else {
      assert cap * k == cap * (k - 1) + cap;
      DivisionByBounds(total + cap - 1, cap, k);
    }
  }

  /**
   * The plan is the only way to cut `total` into chunks of at most `cap`
   * hops, none empty, in which only the last may be shorter than `cap`.
   */
  lemma {:induction false} ChunkPlanUnique(total: nat, cap: nat, p: seq<nat>)
    requires cap > 0
    requires forall i :: 0 <= i < |p| ==> 1 <= p[i] <= cap
    requires forall i :: 0 <= i < |p| - 1 ==> p[i] == cap
    requires Sum(p) == total
    ensures p == ChunkPlan(total, cap)
    decreases total
  {
    if p != [] {
      var rest := p[1..];
      assert forall i :: 0 <= i < |rest| ==> rest[i] == p[i + 1];
      if rest != [] {
        assert p[0] == cap;
        assert Sum(rest) >= rest[0];
      }
      assert p[0] == Min(cap, total);
      ChunkPlanUnique(total - p[0], cap, rest);
    }
  }

  /** Sizes taken so far and the current chunk: each is `min(cap, what is left)`. */
  lemma {:induction false} ChunkPlanTakesMin(total: nat, cap: nat, i: nat)
    requires cap > 0 && i < |ChunkPlan(total, cap)|
    ensures Sum(ChunkPlan(total, cap)[..i]) <= total
    ensures ChunkPlan(total, cap)[i] == Min(cap, total - Sum(ChunkPlan(total, cap)[..i]))
    decreases total
  {
    var p := ChunkPlan(total, cap);
    var size := Min(cap, total);
    if i == 0 {
      assert p[..0] == [];
    } else {
      ChunkPlanTakesMin(total - size, cap, i - 1);
      assert p[..i] == [size] + ChunkPlan(total - size, cap)[..i - 1];
      assert p[i] == ChunkPlan(total - size, cap)[i - 1];
    }
  }

  /** The worked case: 47 hops under a cap of 20 are walked as 20, 20 and 7. */
  lemma ChunkPlanOf47()
    ensures ChunkPlan(47, MaxHops) == [20, 20, 7]
  {
    assert ChunkPlan(7, 20) == [7];
    assert ChunkPlan(27, 20) == [20, 7];
  }
}
