/**
  Isotonic calibration by pooling adjacent violators (src/models/calibration.py),
  over real numbers.  Pooling keeps a stack of blocks; what it computes is the
  least-squares fit among all nondecreasing sequences.
*/
module Calibration {
  import opened Wrappers

  // ---------- rows ----------

  function Clip(p: real): (r: real)
    ensures 0.0 <= r <= 1.0
    ensures 0.0 <= p <= 1.0 ==> r == p
    ensures p < 0.0 ==> r == 0.0
    ensures p > 1.0 ==> r == 1.0
  {
    if p < 0.0 then 0.0 else if p > 1.0 then 1.0 else p
  }

  function Label(count: real): real {
    if count > 0.0 then 1.0 else 0.0
  }

  predicate Before(p: seq<real>, i: nat, j: nat)
    requires i < |p| && j < |p|
  {
    p[i] < p[j] || (p[i] == p[j] && i < j)
  }

  /** Inserts row i behind every row that does not exceed it. */
  function InsertRow(p: seq<real>, order: seq<nat>, i: nat): (r: seq<nat>)
    requires i < |p| && forall k :: 0 <= k < |order| ==> order[k] < |p|
    ensures |r| == |order| + 1
    ensures forall k :: 0 <= k < |r| ==> r[k] == i || r[k] in order
    ensures i in r && forall j :: j in order ==> j in r
  {
    if order == [] || p[order[|order| - 1]] <= p[i] then order + [i]
    else
      var last := order[|order| - 1];
      assert forall j :: j in order ==> j in order[..|order| - 1] || j == last;
      InsertRow(p, order[..|order| - 1], i) + [last]
  }

  /** The stable sorting permutation of the first n rows. */
  function StableOrder(p: seq<real>, n: nat): (r: seq<nat>)
    requires n <= |p|
    ensures |r| == n && forall k :: 0 <= k < n ==> r[k] < n
    ensures forall i :: 0 <= i < n ==> i in r
  {
    if n == 0 then [] else InsertRow(p, StableOrder(p, n - 1), n - 1)
  }

  predicate Ordered(p: seq<real>, order: seq<nat>) {
    && (forall k :: 0 <= k < |order| ==> order[k] < |p|)
    && (forall a, b :: 0 <= a < b < |order| ==> Before(p, order[a], order[b]))
  }

  lemma AppendOrdered(p: seq<real>, order: seq<nat>, i: nat)
    requires i < |p| && Ordered(p, order)
    requires order != [] ==> Before(p, order[|order| - 1], i)
    ensures Ordered(p, order + [i])
  {
    var r, n := order + [i], |order|;
    forall a, b | 0 <= a < b < |r| ensures Before(p, r[a], r[b]) {
      if b < n {
        assert Before(p, order[a], order[b]);
      } else if a < n - 1 {
        assert Before(p, order[a], order[n - 1]);
      }
    }
  }

  lemma PrefixOrdered(p: seq<real>, order: seq<nat>)
    requires Ordered(p, order) && order != []
    ensures Ordered(p, order[..|order| - 1])
  {
    var n := |order| - 1;
    forall a, b | 0 <= a < b < n ensures Before(p, order[..n][a], order[..n][b]) {
      assert Before(p, order[a], order[b]);
    }
  }

  /** Where the inserted row order ends. */
  lemma InsertLast(p: seq<real>, order: seq<nat>, i: nat)
    requires i < |p| && Ordered(p, order)
    ensures var r := InsertRow(p, order, i);
            r != [] && r[|r| - 1]
                       == if order == [] || p[order[|order| - 1]] <= p[i] then i else order[|order| - 1]
  {
  }

  lemma {:induction false} InsertOrdered(p: seq<real>, order: seq<nat>, i: nat)
    requires i < |p| && Ordered(p, order) && forall k :: 0 <= k < |order| ==> order[k] < i
    ensures Ordered(p, InsertRow(p, order, i))
  {
    if order == [] || p[order[|order| - 1]] <= p[i] {
      AppendOrdered(p, order, i);
    } else {
      var n := |order| - 1;
      PrefixOrdered(p, order);
      InsertOrdered(p, order[..n], i);
      InsertLast(p, order[..n], i);
      if n > 0 {
        assert Before(p, order[n - 1], order[n]);
      }
      AppendOrdered(p, InsertRow(p, order[..n], i), order[n]);
    }
  }

  /** The order is the stable sort: by probability, ties by position. */
  lemma {:induction false} OrderIsStable(p: seq<real>, n: nat)
    requires n <= |p|
    ensures Ordered(p, StableOrder(p, n))
  {
    if n == 0 {
    } else {
      var order := StableOrder(p, n - 1);
      OrderIsStable(p, n - 1);
      InsertOrdered(p, order, n - 1);
      assert StableOrder(p, n) == InsertRow(p, order, n - 1);
    }
  }

  function Permuted(v: seq<real>, order: seq<nat>): (r: seq<real>)
    requires forall k :: 0 <= k < |order| ==> order[k] < |v|
  {
    seq(|order|, i requires 0 <= i < |order| => v[order[i]])
  }

  predicate Nondecreasing(z: seq<real>) {
    forall i, j :: 0 <= i < j < |z| ==> z[i] <= z[j]
  }

  // ---------- blocks ----------

  datatype Block = Block(upper: real, sum: real, weight: real)
  {
    function Mean(): real
      requires weight > 0.0
    {
      sum / weight
    }
  }

  function Sum(y: seq<real>, a: nat, b: nat): real
    requires a <= b <= |y|
  {
    if a == b then 0.0 else Sum(y, a, b - 1) + y[b - 1]
  }

  lemma {:induction false} SumSplit(y: seq<real>, a: nat, b: nat, c: nat)
    requires a <= b <= c <= |y|
    ensures Sum(y, a, c) == Sum(y, a, b) + Sum(y, b, c)
    decreases c - b
  {
    if b == c {
    } else {
      SumSplit(y, a, b, c - 1);
    }
  }

  lemma {:induction false} SumBounds(y: seq<real>, a: nat, b: nat)
    requires a <= b <= |y| && forall i :: 0 <= i < |y| ==> 0.0 <= y[i] <= 1.0
    ensures 0.0 <= Sum(y, a, b) <= (b - a) as real
    decreases b - a
  {
    if a == b {
    } else {
      SumBounds(y, a, b - 1);
    }
  }

  /** n times m, as repeated addition. */
  function Scaled(m: real, n: nat): real {
    if n == 0 then 0.0 else Scaled(m, n - 1) + m
  }

  lemma {:induction false} ScaledIs(m: real, n: nat)
    ensures Scaled(m, n) == m * n as real
  {
    if n == 0 {
    } else {
      ScaledIs(m, n - 1);
      Distribute(m, (n - 1) as real, 1.0);
    }
  }

  lemma {:induction false} ScaledAdds(m: real, n: nat, k: nat)
    ensures Scaled(m, n + k) == Scaled(m, n) + Scaled(m, k)
    decreases k
  {
    if k == 0 {
    } else {
      ScaledAdds(m, n, k - 1);
    }
  }

  lemma {:induction false} ScaledRises(m: real, m': real, n: nat)
    requires m <= m'
    ensures Scaled(m, n) <= Scaled(m', n)
  {
    if n == 0 {
    } else {
      ScaledRises(m, m', n - 1);
    }
  }

  /** No prefix of rows [a, b) has a mean below m. */
  ghost predicate Heavy(y: seq<real>, a: nat, b: nat, m: real)
    requires a <= b <= |y|
  {
    forall c :: a <= c <= b ==> Sum(y, a, c) >= Scaled(m, c - a)
  }

  /** A block over rows [a, b): its sum, weight and upper end, and the prefix property. */
  ghost predicate Covers(x: seq<real>, y: seq<real>, block: Block, a: nat, b: nat)
    requires |x| == |y|
  {
    && a < b <= |y|
    && block.upper == x[b - 1]
    && block.sum == Sum(y, a, b)
    && block.weight == (b - a) as real
    && Heavy(y, a, b, block.Mean())
  }

  /** Blocks cover the first n rows, each ending where the next begins. */
  ghost predicate Tiles(x: seq<real>, y: seq<real>, blocks: seq<Block>, cuts: seq<nat>, n: nat)
    requires |x| == |y|
  {
    && |cuts| == |blocks| + 1
    && cuts[0] == 0 && cuts[|blocks|] == n
    && (forall j :: 0 <= j < |blocks| ==> Covers(x, y, blocks[j], cuts[j], cuts[j + 1]))
  }

  ghost predicate MeansRise(blocks: seq<Block>, n: nat)
    requires n <= |blocks|
  {
    && (forall j :: 0 <= j < n ==> blocks[j].weight > 0.0)
    && (forall j :: 0 <= j < n - 1 ==> blocks[j].Mean() <= blocks[j + 1].Mean())
  }

  lemma SingleBlock(x: seq<real>, y: seq<real>, a: nat)
    requires |x| == |y| && a < |y|
    ensures Covers(x, y, Block(x[a], y[a], 1.0), a, a + 1)
  {
    var m := Block(x[a], y[a], 1.0).Mean();
    assert m == y[a];
    assert Sum(y, a, a + 1) == Sum(y, a, a) + y[a];
  }

  lemma Distribute(m: real, u: real, v: real)
    ensures m * (u + v) == m * u + m * v
    ensures m * (u - v) == m * u - m * v
  {
  }

  lemma MulMono(m: real, m': real, w: real)
    requires m <= m' && w >= 0.0
    ensures m * w <= m' * w
  {
  }

  lemma MulCancel(m: real, m': real, w: real)
    requires m * w <= m' * w && w > 0.0
    ensures m <= m'
  {
  }

  /** A weighted mean lies between the means it combines. */
  lemma WeightedBetween(m1: real, m2: real, m: real, w1: real, w2: real, w: real)
    requires w == w1 + w2 && w1 > 0.0 && w2 > 0.0 && m2 <= m1
    requires m1 * w1 + m2 * w2 == m * w
    ensures m2 <= m <= m1
  {
    Distribute(m2, w1, w2);
    Distribute(m1, w1, w2);
    MulMono(m2, m1, w1);
    MulMono(m2, m1, w2);
    assert m2 * w == m2 * w1 + m2 * w2;
    assert m1 * w == m1 * w1 + m1 * w2;
    MulCancel(m2, m, w);
    MulCancel(m, m1, w);
  }

  lemma QuotientTimes(s: real, w: real)
    requires w > 0.0
    ensures (s / w) * w == s
  {
  }

  /** The mean of two pooled blocks lies between theirs. */
  lemma PooledMean(s1: real, w1: real, s2: real, w2: real)
    requires w1 > 0.0 && w2 > 0.0 && s1 / w1 > s2 / w2
    ensures w1 + w2 > 0.0
    ensures s2 / w2 <= (s1 + s2) / (w1 + w2) <= s1 / w1
  {
    QuotientTimes(s1, w1);
    QuotientTimes(s2, w2);
    QuotientTimes(s1 + s2, w1 + w2);
    WeightedBetween(s1 / w1, s2 / w2, (s1 + s2) / (w1 + w2), w1, w2, w1 + w2);
  }

  function Pooled(left: Block, right: Block): Block {
    Block(right.upper, left.sum + right.sum, left.weight + right.weight)
  }

  /** What a block's sum is in terms of its mean. */
  lemma {:induction false} MeanTimes(sum: real, weight: real, length: nat)
    requires weight == length as real && length > 0
    ensures sum == Scaled(sum / weight, length)
  {
    QuotientTimes(sum, weight);
    ScaledIs(sum / weight, length);
  }

  /** Prefixes that end inside the right one of two pooled blocks. */
  lemma {:induction false} RightPrefix(y: seq<real>, a: nat, b: nat, c: nat, m2: real, m: real, d: nat)
    requires a < b <= d <= c <= |y| && m2 <= m && Heavy(y, b, c, m2)
    requires Sum(y, b, c) == Scaled(m2, c - b)
    requires Sum(y, a, c) == Scaled(m, c - a)
    ensures Sum(y, a, d) >= Scaled(m, d - a)
  {
    SumSplit(y, a, b, c);
    SumSplit(y, a, b, d);
    ScaledAdds(m, d - a, c - d);
    ScaledAdds(m2, d - b, c - d);
    ScaledRises(m2, m, c - d);
  }

  /** Pooling two adjacent violators covers both, and keeps the prefix property. */
  lemma {:induction false} PooledCovers(x: seq<real>, y: seq<real>, left: Block, right: Block, a: nat, b: nat, c: nat)
    requires |x| == |y| && Covers(x, y, left, a, b) && Covers(x, y, right, b, c)
    requires left.Mean() > right.Mean()
    ensures Covers(x, y, Pooled(left, right), a, c)
  {
    var sum, weight := left.sum + right.sum, left.weight + right.weight;
    PooledMean(left.sum, left.weight, right.sum, right.weight);
    SumSplit(y, a, b, c);
    MeanTimes(right.sum, right.weight, c - b);
    MeanTimes(sum, weight, c - a);
    forall d | a <= d <= c ensures Sum(y, a, d) >= Scaled(sum / weight, d - a) {
      if d <= b {
        ScaledRises(sum / weight, left.Mean(), d - a);
      } else {
        RightPrefix(y, a, b, c, right.Mean(), sum / weight, d);
      }
    }
  }

  /** Replacing the last two blocks by one. */
  lemma PooledTiles(x: seq<real>, y: seq<real>, blocks: seq<Block>, cuts: seq<nat>, n: nat)
    requires |x| == |y| && Tiles(x, y, blocks, cuts, n) && |blocks| >= 2
    requires blocks[|blocks| - 2].weight > 0.0 && blocks[|blocks| - 1].weight > 0.0
    requires blocks[|blocks| - 2].Mean() > blocks[|blocks| - 1].Mean()
    ensures var k := |blocks| - 2;
            Tiles(x, y, blocks[..k] + [Pooled(blocks[k], blocks[k + 1])], cuts[..k + 1] + [n], n)
  {
    var k := |blocks| - 2;
    PooledCovers(x, y, blocks[k], blocks[k + 1], cuts[k], cuts[k + 1], cuts[k + 2]);
    var blocks', cuts' := blocks[..k] + [Pooled(blocks[k], blocks[k + 1])], cuts[..k + 1] + [n];
    forall j | 0 <= j < |blocks'| ensures Covers(x, y, blocks'[j], cuts'[j], cuts'[j + 1]) {
      if j < k {
        assert Covers(x, y, blocks[j], cuts[j], cuts[j + 1]);
      }
    }
  }

  lemma PushedTiles(x: seq<real>, y: seq<real>, blocks: seq<Block>, cuts: seq<nat>, i: nat)
    requires |x| == |y| && i < |y| && Tiles(x, y, blocks, cuts, i)
    ensures Tiles(x, y, blocks + [Block(x[i], y[i], 1.0)], cuts + [i + 1], i + 1)
  {
    SingleBlock(x, y, i);
    var blocks', cuts' := blocks + [Block(x[i], y[i], 1.0)], cuts + [i + 1];
    forall j | 0 <= j < |blocks'| ensures Covers(x, y, blocks'[j], cuts'[j], cuts'[j + 1]) {
      if j < |blocks| {
        assert Covers(x, y, blocks[j], cuts[j], cuts[j + 1]);
      }
    }
  }

  /**
    The pooling loop: push each row as a block, then merge while the last two
    blocks violate the order.
  */
  method Pool(x: seq<real>, y: seq<real>) returns (blocks: seq<Block>, ghost cuts: seq<nat>, merges: nat)
    requires |x| == |y|
    ensures Tiles(x, y, blocks, cuts, |y|) && MeansRise(blocks, |blocks|)
    ensures merges + |blocks| == |y|
  {
    blocks, cuts, merges := [], [0], 0;
    var i := 0;
    while i < |y|
      invariant i <= |y|
      invariant Tiles(x, y, blocks, cuts, i) && MeansRise(blocks, |blocks|)
      invariant merges + |blocks| == i
    {
      PushedTiles(x, y, blocks, cuts, i);
      blocks, cuts := blocks + [Block(x[i], y[i], 1.0)], cuts + [i + 1];
      i := i + 1;
      while |blocks| >= 2
        invariant |blocks| >= 1
        invariant Tiles(x, y, blocks, cuts, i) && MeansRise(blocks, |blocks| - 1)
        invariant |blocks| == 1 ==> MeansRise(blocks, |blocks|)
        invariant merges + |blocks| == i
        decreases |blocks|
      {
        var k := |blocks| - 2;
        var left, right := blocks[k], blocks[k + 1];
        assert Covers(x, y, left, cuts[k], cuts[k + 1]) && Covers(x, y, right, cuts[k + 1], cuts[k + 2]);
        if left.Mean() <= right.Mean() {
          break;
        }
        PooledTiles(x, y, blocks, cuts, i);
        blocks, cuts := blocks[..k] + [Pooled(left, right)], cuts[..k + 1] + [i];
        merges := merges + 1;
        assert Covers(x, y, blocks[k], cuts[k], cuts[k + 1]);
      }
      assert Covers(x, y, blocks[|blocks| - 1], cuts[|blocks| - 1], cuts[|blocks|]);
    }
  }

  // ---------- the fitted step sequence ----------

  function Means(blocks: seq<Block>): (r: seq<real>)
    requires forall j :: 0 <= j < |blocks| ==> blocks[j].weight > 0.0
    ensures |r| == |blocks| && forall j :: 0 <= j < |r| ==> r[j] == blocks[j].Mean()
  {
    seq(|blocks|, j requires 0 <= j < |blocks| => blocks[j].Mean())
  }

  function Uppers(blocks: seq<Block>): (r: seq<real>)
    ensures |r| == |blocks| && forall j :: 0 <= j < |r| ==> r[j] == blocks[j].upper
  {
    seq(|blocks|, j requires 0 <= j < |blocks| => blocks[j].upper)
  }

  predicate Cuts(cuts: seq<nat>, m: nat) {
    |cuts| == m + 1 && cuts[0] == 0 && forall j :: 0 <= j < m ==> cuts[j] < cuts[j + 1]
  }

  lemma {:induction false} CutsRise(cuts: seq<nat>, m: nat, i: nat, j: nat)
    requires Cuts(cuts, m) && i <= j <= m
    ensures cuts[i] <= cuts[j] && (i < j ==> cuts[i] < cuts[j])
    decreases j - i
  {
    if i == j {
    } else {
      CutsRise(cuts, m, i, j - 1);
    }
  }

  /** The block that row i falls into. */
  function BlockOf(cuts: seq<nat>, m: nat, i: nat): (j: nat)
    requires Cuts(cuts, m) && i < cuts[m]
    ensures j < m && cuts[j] <= i < cuts[j + 1]
  {
    if m == 1 || cuts[m - 1] <= i then m - 1 else BlockOf(cuts[..m], m - 1, i)
  }

  /** The step sequence: every row gets its block's value. */
  function Steps(values: seq<real>, cuts: seq<nat>): (g: seq<real>)
    requires Cuts(cuts, |values|)
    ensures |g| == cuts[|values|]
    ensures forall i :: 0 <= i < |g| ==> g[i] == values[BlockOf(cuts, |values|, i)]
  {
    seq(cuts[|values|], i requires 0 <= i < cuts[|values|] => values[BlockOf(cuts, |values|, i)])
  }

  function Times(a: real, b: real): (r: real)
    ensures a > 0.0 && b > 0.0 ==> r > 0.0
    ensures a == 0.0 || b == 0.0 ==> r == 0.0
  {
    a * b
  }

  function Squared(d: real): (r: real)
    ensures r >= 0.0 && (r == 0.0 ==> d == 0.0)
  {
    if d < 0.0 then Times(-d, -d) else Times(d, d)
  }

  function SquaredErrors(z: seq<real>, g: seq<real>): (r: seq<real>)
    requires |z| == |g|
    ensures |r| == |z| && forall i :: 0 <= i < |z| ==> r[i] == Squared(z[i] - g[i])
  {
    seq(|z|, i requires 0 <= i < |z| => Squared(z[i] - g[i]))
  }

  /** Squared distance between two sequences over rows [a, b). */
  function Distance(z: seq<real>, g: seq<real>, a: nat, b: nat): real
    requires a <= b <= |z| == |g|
  {
    Sum(SquaredErrors(z, g), a, b)
  }

  lemma {:induction false} NonnegativeSum(v: seq<real>, n: nat)
    requires n <= |v| && forall i :: 0 <= i < |v| ==> v[i] >= 0.0
    ensures Sum(v, 0, n) >= 0.0
    ensures Sum(v, 0, n) == 0.0 ==> forall i :: 0 <= i < n ==> v[i] == 0.0
  {
    if n == 0 {
    } else {
      NonnegativeSum(v, n - 1);
    }
  }

  lemma DistanceZero(z: seq<real>, g: seq<real>)
    requires |z| == |g|
    ensures Distance(z, g, 0, |z|) >= 0.0
    ensures Distance(z, g, 0, |z|) == 0.0 ==> z == g
  {
    NonnegativeSum(SquaredErrors(z, g), |z|);
    if Distance(z, g, 0, |z|) == 0.0 {
      forall i | 0 <= i < |z| ensures z[i] == g[i] {
        assert SquaredErrors(z, g)[i] == 0.0;
      }
    }
  }

  lemma PartsArithmetic(u0: real, u1: real, deficit: real, step: real)
    requires u0 <= u1 && deficit <= 0.0
    ensures Times(u0, deficit) + Times(u1, step) >= Times(u1, deficit + step)
  {
    assert (u0 - u1) * deficit >= 0.0;
    assert u1 * (deficit + step) == u1 * deficit + u1 * step;
    assert u0 * deficit - u1 * deficit == (u0 - u1) * deficit;
  }

  /** Summation by parts: u rises, and the partial sums of d from row a are never positive. */
  lemma {:induction false} SumByParts(
    u: seq<real>, d: seq<real>, deficits: seq<real>, products: seq<real>, a: nat, c: nat)
    requires a < c <= |u| == |d| == |products| && |deficits| == |u| + 1
    requires Nondecreasing(u) && deficits[a] == 0.0
    requires forall i :: a <= i < c ==> deficits[i + 1] == deficits[i] + d[i] && deficits[i] <= 0.0
    requires forall i :: a <= i < c ==> products[i] == Times(u[i], d[i])
    ensures Sum(products, a, c) >= Times(u[c - 1], deficits[c])
    decreases c
  {
    if c == a + 1 {
      assert Sum(products, a, a) == 0.0;
    } else {
      SumByParts(u, d, deficits, products, a, c - 1);
      PartsArithmetic(u[c - 2], u[c - 1], deficits[c - 1], d[c - 1]);
    }
  }

  /** How far the labels of rows [a, c) fall short of the mean m. */
  function Deficit(y: seq<real>, m: real, a: nat, c: nat): real
    requires a <= c <= |y|
  {
    Scaled(m, c - a) - Sum(y, a, c)
  }

  lemma {:induction false} DeficitStep(y: seq<real>, m: real, a: nat, c: nat)
    requires a < c <= |y|
    ensures Deficit(y, m, a, c) == Deficit(y, m, a, c - 1) + (m - y[c - 1])
  {
  }

  function Deficits(y: seq<real>, m: real, a: nat): (r: seq<real>)
    requires a <= |y|
    ensures |r| == |y| + 1 && forall c :: a <= c <= |y| ==> r[c] == Deficit(y, m, a, c)
  {
    seq(|y| + 1, c requires 0 <= c <= |y| => if a <= c then Deficit(y, m, a, c) else 0.0)
  }

  function Shifted(z: seq<real>, m: real): (r: seq<real>)
    ensures |r| == |z| && forall i :: 0 <= i < |z| ==> r[i] == z[i] - m
  {
    seq(|z|, i requires 0 <= i < |z| => z[i] - m)
  }

  function Shortfalls(y: seq<real>, m: real): (r: seq<real>)
    ensures |r| == |y| && forall i :: 0 <= i < |y| ==> r[i] == m - y[i]
  {
    seq(|y|, i requires 0 <= i < |y| => m - y[i])
  }

  /** What moving row i from the mean to z costs to first order. */
  function Pulls(z: seq<real>, y: seq<real>, m: real): (r: seq<real>)
    requires |z| == |y|
    ensures |r| == |z| && forall i :: 0 <= i < |z| ==> r[i] == Times(z[i] - m, m - y[i])
  {
    seq(|z|, i requires 0 <= i < |z| => Times(z[i] - m, m - y[i]))
  }

  lemma {:induction false} DeficitsBehave(y: seq<real>, m: real, a: nat, b: nat)
    requires a < b <= |y| && Heavy(y, a, b, m) && Sum(y, a, b) == Scaled(m, b - a)
    ensures var r := Deficits(y, m, a);
            && r[a] == 0.0 && r[b] == 0.0
            && forall i :: a <= i < b ==> r[i + 1] == r[i] + Shortfalls(y, m)[i] && r[i] <= 0.0
  {
    var r := Deficits(y, m, a);
    forall i | a <= i < b ensures r[i + 1] == r[i] + Shortfalls(y, m)[i] && r[i] <= 0.0 {
      DeficitStep(y, m, a, i + 1);
      DeficitLow(y, m, a, b, i);
    }
  }

  lemma {:induction false} DeficitLow(y: seq<real>, m: real, a: nat, b: nat, c: nat)
    requires a <= c <= b <= |y| && Heavy(y, a, b, m)
    ensures Deficit(y, m, a, c) <= 0.0
  {
    assert Sum(y, a, c) >= Scaled(m, c - a);
  }

  /** Over one block the first-order cost is never negative. */
  lemma {:induction false} PullBound(z: seq<real>, y: seq<real>, m: real, a: nat, b: nat)
    requires a < b <= |y| == |z| && Nondecreasing(z) && Heavy(y, a, b, m)
    requires Sum(y, a, b) == Scaled(m, b - a)
    ensures Sum(Pulls(z, y, m), a, b) >= 0.0
  {
    DeficitsBehave(y, m, a, b);
    PartsOfBlock(z, y, m, Deficits(y, m, a), a, b);
  }

  lemma {:induction false} PartsOfBlock(
    z: seq<real>, y: seq<real>, m: real, deficits: seq<real>, a: nat, b: nat)
    requires a < b <= |y| == |z| && Nondecreasing(z) && |deficits| == |y| + 1
    requires deficits[a] == 0.0 && deficits[b] == 0.0
    requires forall i :: a <= i < b ==>
               deficits[i + 1] == deficits[i] + Shortfalls(y, m)[i] && deficits[i] <= 0.0
    ensures Sum(Pulls(z, y, m), a, b) >= 0.0
  {
    SumByParts(Shifted(z, m), Shortfalls(y, m), deficits, Pulls(z, y, m), a, b);
    assert Times(z[b - 1] - m, deficits[b]) == 0.0;
  }

  lemma SquareExpands(z: real, m: real, truth: real)
    ensures Squared(z - truth) == Squared(m - truth) + Squared(z - m) + 2.0 * Times(z - m, m - truth)
  {
    SquareOfSum(z - m, m - truth);
    assert z - truth == (z - m) + (m - truth);
  }

  lemma SquareOfSum(u: real, v: real)
    ensures Squared(u + v) == Squared(u) + Squared(v) + 2.0 * Times(u, v)
  {
  }

  lemma {:induction false} SumsExpand(
    v: seq<real>, v1: seq<real>, v2: seq<real>, v3: seq<real>, a: nat, b: nat)
    requires a <= b <= |v| == |v1| == |v2| == |v3|
    requires forall i :: a <= i < b ==> v[i] == v1[i] + v2[i] + 2.0 * v3[i]
    ensures Sum(v, a, b) == Sum(v1, a, b) + Sum(v2, a, b) + 2.0 * Sum(v3, a, b)
    decreases b
  {
    if a == b {
    } else {
      SumsExpand(v, v1, v2, v3, a, b - 1);
    }
  }

  /** On one block no nondecreasing sequence does better than the block's mean. */
  lemma {:induction false} BlockOptimal(z: seq<real>, g: seq<real>, y: seq<real>, m: real, a: nat, b: nat)
    requires a < b <= |y| == |z| == |g| && forall i :: a <= i < b ==> g[i] == m
    requires Nondecreasing(z) && Heavy(y, a, b, m) && Sum(y, a, b) == Scaled(m, b - a)
    ensures Distance(z, y, a, b) >= Distance(g, y, a, b) + Distance(z, g, a, b)
  {
    PullBound(z, y, m, a, b);
    ErrorsExpand(z, g, y, m, a, b);
    var v, v1, v2, v3 := SquaredErrors(z, y), SquaredErrors(g, y), SquaredErrors(z, g), Pulls(z, y, m);
    SumsExpand(v, v1, v2, v3, a, b);
  }

  lemma ErrorsExpand(z: seq<real>, g: seq<real>, y: seq<real>, m: real, a: nat, b: nat)
    requires a <= b <= |y| == |z| == |g| && forall i :: a <= i < b ==> g[i] == m
    ensures forall i :: a <= i < b ==>
              SquaredErrors(z, y)[i]
              == SquaredErrors(g, y)[i] + SquaredErrors(z, g)[i] + 2.0 * Pulls(z, y, m)[i]
  {
    forall i | a <= i < b
      ensures SquaredErrors(z, y)[i]
           == SquaredErrors(g, y)[i] + SquaredErrors(z, g)[i] + 2.0 * Pulls(z, y, m)[i]
    {
      SquareExpands(z[i], m, y[i]);
    }
  }

  /** Rows, labels and a fitted calibrator. */
  ghost predicate Fits(x: seq<real>, y: seq<real>, blocks: seq<Block>, cuts: seq<nat>) {
    && |x| == |y| > 0
    && Nondecreasing(x)
    && Tiles(x, y, blocks, cuts, |y|)
    && MeansRise(blocks, |blocks|)
  }

  lemma FitsCuts(x: seq<real>, y: seq<real>, blocks: seq<Block>, cuts: seq<nat>)
    requires Fits(x, y, blocks, cuts)
    ensures Cuts(cuts, |blocks|)
  {
    forall j | 0 <= j < |blocks| ensures cuts[j] < cuts[j + 1] {
      assert Covers(x, y, blocks[j], cuts[j], cuts[j + 1]);
    }
  }

  lemma {:induction false} RiseTogether(blocks: seq<Block>, i: nat, j: nat)
    requires MeansRise(blocks, |blocks|) && i <= j < |blocks|
    ensures blocks[i].Mean() <= blocks[j].Mean()
    decreases j - i
  {
    if i == j {
    } else {
      RiseTogether(blocks, i, j - 1);
    }
  }

  lemma MeansNondecreasing(blocks: seq<Block>)
    requires MeansRise(blocks, |blocks|)
    ensures Nondecreasing(Means(blocks))
  {
    forall i, j | 0 <= i < j < |blocks| ensures blocks[i].Mean() <= blocks[j].Mean() {
      RiseTogether(blocks, i, j);
    }
  }

  lemma BlockOrder(cuts: seq<nat>, m: nat, i: nat, i': nat)
    requires Cuts(cuts, m) && i <= i' < cuts[m]
    ensures BlockOf(cuts, m, i) <= BlockOf(cuts, m, i')
  {
    var j, j' := BlockOf(cuts, m, i), BlockOf(cuts, m, i');
    if j' < j {
      CutsRise(cuts, m, j' + 1, j);
    }
  }

  lemma {:induction false} StepsNondecreasing(values: seq<real>, cuts: seq<nat>)
    requires Cuts(cuts, |values|) && Nondecreasing(values)
    ensures Nondecreasing(Steps(values, cuts))
  {
    var g := Steps(values, cuts);
    forall i, i' | 0 <= i < i' < |g| ensures g[i] <= g[i'] {
      BlockOrder(cuts, |values|, i, i');
    }
  }

  lemma BlockUnique(cuts: seq<nat>, m: nat, i: nat, j: nat)
    requires Cuts(cuts, m) && j < m && cuts[j] <= i < cuts[j + 1]
    ensures i < cuts[m] && BlockOf(cuts, m, i) == j
  {
    CutsRise(cuts, m, j + 1, m);
    var j' := BlockOf(cuts, m, i);
    if j' < j {
      CutsRise(cuts, m, j' + 1, j);
    } else if j < j' {
      CutsRise(cuts, m, j + 1, j');
    }
  }

  /** One block's share of the optimality claim. */
  lemma {:induction false} BlockShare(
    x: seq<real>, y: seq<real>, blocks: seq<Block>, cuts: seq<nat>, z: seq<real>, g: seq<real>, j: nat)
    requires Fits(x, y, blocks, cuts) && Cuts(cuts, |blocks|) && j < |blocks|
    requires g == Steps(Means(blocks), cuts) && |z| == |y| && Nondecreasing(z)
    requires cuts[j] < cuts[j + 1] <= |y|
    ensures Distance(z, y, cuts[j], cuts[j + 1])
         >= Distance(g, y, cuts[j], cuts[j + 1]) + Distance(z, g, cuts[j], cuts[j + 1])
  {
    BlockFacts(x, y, blocks, cuts, j);
    StepsOnBlock(blocks, cuts, j);
    BlockOptimal(z, g, y, blocks[j].Mean(), cuts[j], cuts[j + 1]);
  }

  lemma {:induction false} BlockFacts(x: seq<real>, y: seq<real>, blocks: seq<Block>, cuts: seq<nat>, j: nat)
    requires Fits(x, y, blocks, cuts) && j < |blocks|
    ensures cuts[j] < cuts[j + 1] <= |y| && Heavy(y, cuts[j], cuts[j + 1], blocks[j].Mean())
    ensures Sum(y, cuts[j], cuts[j + 1]) == Scaled(blocks[j].Mean(), cuts[j + 1] - cuts[j])
  {
    assert Covers(x, y, blocks[j], cuts[j], cuts[j + 1]);
    MeanTimes(blocks[j].sum, blocks[j].weight, cuts[j + 1] - cuts[j]);
  }

  lemma {:induction false} StepsOnBlock(blocks: seq<Block>, cuts: seq<nat>, j: nat)
    requires MeansRise(blocks, |blocks|) && Cuts(cuts, |blocks|) && j < |blocks|
    requires cuts[j + 1] <= cuts[|blocks|]
    ensures forall i :: cuts[j] <= i < cuts[j + 1] ==> Steps(Means(blocks), cuts)[i] == blocks[j].Mean()
  {
    forall i | cuts[j] <= i < cuts[j + 1] ensures Steps(Means(blocks), cuts)[i] == blocks[j].Mean() {
      BlockUnique(cuts, |blocks|, i, j);
    }
  }

  lemma {:induction false} PrefixOptimal(
    x: seq<real>, y: seq<real>, blocks: seq<Block>, cuts: seq<nat>, z: seq<real>, g: seq<real>, k: nat)
    requires Fits(x, y, blocks, cuts) && Cuts(cuts, |blocks|)
    requires g == Steps(Means(blocks), cuts) && |z| == |y| && Nondecreasing(z)
    requires k <= |blocks| && cuts[k] <= |y|
    ensures Distance(z, y, 0, cuts[k]) >= Distance(g, y, 0, cuts[k]) + Distance(z, g, 0, cuts[k])
    decreases k
  {
    if k == 0 {
    } else {
      var a, b := cuts[k - 1], cuts[k];
      BlockShare(x, y, blocks, cuts, z, g, k - 1);
      PrefixOptimal(x, y, blocks, cuts, z, g, k - 1);
      SumSplit(SquaredErrors(z, y), 0, a, b);
      SumSplit(SquaredErrors(g, y), 0, a, b);
      SumSplit(SquaredErrors(z, g), 0, a, b);
    }
  }

  /**
    Pooling adjacent violators is isotonic least squares: the fitted steps rise,
    no nondecreasing sequence is closer to the labels, and every other one is
    strictly further away.
  */
  lemma PoolingIsOptimal(x: seq<real>, y: seq<real>, blocks: seq<Block>, cuts: seq<nat>, z: seq<real>)
    requires Fits(x, y, blocks, cuts) && Cuts(cuts, |blocks|) && |z| == |y| && Nondecreasing(z)
    ensures var g := Steps(Means(blocks), cuts);
            && |g| == |y| && Nondecreasing(g)
            && Distance(g, y, 0, |y|) <= Distance(z, y, 0, |y|)
            && (Distance(g, y, 0, |y|) == Distance(z, y, 0, |y|) ==> z == g)
  {
    var g := Steps(Means(blocks), cuts);
    MeansNondecreasing(blocks);
    StepsNondecreasing(Means(blocks), cuts);
    PrefixOptimal(x, y, blocks, cuts, z, g, |blocks|);
    DistanceZero(z, g);
  }

  // ---------- structure ----------

  function WeightOf(blocks: seq<Block>): real {
    if blocks == [] then 0.0 else WeightOf(blocks[..|blocks| - 1]) + blocks[|blocks| - 1].weight
  }

  function SumOf(blocks: seq<Block>): real {
    if blocks == [] then 0.0 else SumOf(blocks[..|blocks| - 1]) + blocks[|blocks| - 1].sum
  }

  /** Pooling moves weight and labels between blocks and loses none. */
  lemma {:induction false} Conserved(x: seq<real>, y: seq<real>, blocks: seq<Block>, cuts: seq<nat>, n: nat)
    requires |x| == |y| && Tiles(x, y, blocks, cuts, n) && n <= |y|
    ensures WeightOf(blocks) == n as real && SumOf(blocks) == Sum(y, 0, n)
    decreases |blocks|
  {
    if blocks == [] {
    } else {
      var m := |blocks| - 1;
      assert Covers(x, y, blocks[m], cuts[m], cuts[m + 1]);
      forall j | 0 <= j < m ensures Covers(x, y, blocks[..m][j], cuts[..m + 1][j], cuts[..m + 1][j + 1]) {
        assert Covers(x, y, blocks[j], cuts[j], cuts[j + 1]);
      }
      Conserved(x, y, blocks[..m], cuts[..m + 1], cuts[m]);
      SumSplit(y, 0, cuts[m], n);
    }
  }

  predicate InUnit(z: seq<real>) {
    forall i :: 0 <= i < |z| ==> 0.0 <= z[i] <= 1.0
  }

  lemma MeanInUnit(y: seq<real>, block: Block, a: nat, b: nat)
    requires InUnit(y) && a < b <= |y| && block.sum == Sum(y, a, b) && block.weight == (b - a) as real
    ensures 0.0 <= block.Mean() <= 1.0
  {
    SumBounds(y, a, b);
    var m, w := block.Mean(), block.weight;
    assert m * w == block.sum;
    MulCancel(0.0, m, w);
    MulCancel(m, 1.0, w);
  }

  /** A calibrator that can be used and stored. */
  predicate Calibrated(thresholds: seq<real>, values: seq<real>) {
    && |thresholds| == |values| > 0
    && InUnit(thresholds) && Nondecreasing(thresholds)
    && InUnit(values) && Nondecreasing(values)
  }

  lemma FitIsCalibrated(x: seq<real>, y: seq<real>, blocks: seq<Block>, cuts: seq<nat>)
    requires Fits(x, y, blocks, cuts) && InUnit(x) && InUnit(y)
    ensures Calibrated(Uppers(blocks), Means(blocks))
  {
    FitsCuts(x, y, blocks, cuts);
    MeansNondecreasing(blocks);
    forall j | 0 <= j < |blocks|
      ensures 0.0 <= blocks[j].Mean() <= 1.0 && 0.0 <= blocks[j].upper <= 1.0
    {
      assert Covers(x, y, blocks[j], cuts[j], cuts[j + 1]);
      MeanInUnit(y, blocks[j], cuts[j], cuts[j + 1]);
    }
    forall i, j | 0 <= i < j < |blocks| ensures blocks[i].upper <= blocks[j].upper {
      assert Covers(x, y, blocks[i], cuts[i], cuts[i + 1]) && Covers(x, y, blocks[j], cuts[j], cuts[j + 1]);
      CutsRise(cuts, |blocks|, i + 1, j + 1);
    }
  }

  // ---------- prediction ----------

  /** The left insertion point of v in a sorted sequence. */
  function SearchLeft(sorted: seq<real>, v: real): (i: nat)
    ensures i <= |sorted|
    ensures i < |sorted| ==> v <= sorted[i]
    ensures forall j :: 0 <= j < i ==> sorted[j] < v
  {
    if sorted == [] || v <= sorted[0] then 0 else 1 + SearchLeft(sorted[1..], v)
  }

  function Predict(thresholds: seq<real>, values: seq<real>, raw: real): real
    requires |thresholds| == |values| > 0
  {
    var i := SearchLeft(thresholds, Clip(raw));
    values[if i < |values| - 1 then i else |values| - 1]
  }

  /** A prediction is the value of the first threshold that reaches the clipped input, or the last value. */
  lemma PredictOutcome(thresholds: seq<real>, values: seq<real>, raw: real)
    requires |thresholds| == |values| > 0
    ensures var p := if raw <= 0.0 then 0.0 else if raw >= 1.0 then 1.0 else raw;
            exists i :: 0 <= i < |values| && Predict(thresholds, values, raw) == values[i]
                        && (forall j :: 0 <= j < i ==> thresholds[j] < p)
                        && (i < |values| - 1 ==> p <= thresholds[i])
  {
    var i := SearchLeft(thresholds, Clip(raw));
    assert Predict(thresholds, values, raw) == values[if i < |values| - 1 then i else |values| - 1];
  }

  /** Prediction is monotone and stays in the unit interval. */
  lemma {:induction false} PredictMonotone(thresholds: seq<real>, values: seq<real>, p: real, q: real)
    requires Calibrated(thresholds, values) && p <= q
    ensures 0.0 <= Predict(thresholds, values, p) <= Predict(thresholds, values, q) <= 1.0
  {
    var i, j := SearchLeft(thresholds, Clip(p)), SearchLeft(thresholds, Clip(q));
    if j < i {
      assert false;
    }
  }

  /** Rows of equal probability are never split between blocks of different value. */
  predicate TiesTogether(x: seq<real>, blocks: seq<Block>, cuts: seq<nat>)
    requires Cuts(cuts, |blocks|) && forall j :: 0 <= j < |blocks| ==> blocks[j].weight > 0.0
  {
    forall j :: 0 < j < |blocks| && cuts[j] < |x| ==>
      blocks[j - 1].upper < x[cuts[j]] || blocks[j - 1].Mean() == blocks[j].Mean()
  }

  /** A training row is predicted by the first block whose end reaches it. */
  lemma {:induction false} PredictedBlock(
    x: seq<real>, y: seq<real>, blocks: seq<Block>, cuts: seq<nat>, i: nat) returns (k: nat)
    requires Fits(x, y, blocks, cuts) && InUnit(x) && Cuts(cuts, |blocks|) && i < |x|
    ensures k <= BlockOf(cuts, |blocks|, i) && x[i] <= blocks[k].upper
    ensures Predict(Uppers(blocks), Means(blocks), x[i]) == blocks[k].Mean()
  {
    k := SearchLeft(Uppers(blocks), x[i]);
    var j := BlockOf(cuts, |blocks|, i);
    assert Covers(x, y, blocks[j], cuts[j], cuts[j + 1]);
    assert x[i] <= Uppers(blocks)[j];
  }

  lemma UpperRow(x: seq<real>, y: seq<real>, blocks: seq<Block>, cuts: seq<nat>, j: nat)
    requires Fits(x, y, blocks, cuts) && j < |blocks|
    ensures 0 < cuts[j + 1] <= |x| && blocks[j].upper == x[cuts[j + 1] - 1]
  {
    FitsCuts(x, y, blocks, cuts);
    assert Covers(x, y, blocks[j], cuts[j], cuts[j + 1]);
    CutsRise(cuts, |blocks|, j + 1, |blocks|);
  }

  /** Between the block that predicts a row and the row's own block all values agree. */
  lemma {:induction false} SameValue(
    x: seq<real>, y: seq<real>, blocks: seq<Block>, cuts: seq<nat>, i: nat, k: nat, j: nat)
    requires Fits(x, y, blocks, cuts) && Cuts(cuts, |blocks|) && TiesTogether(x, blocks, cuts)
    requires i < |x| && k <= j < |blocks| && cuts[j] <= i && x[i] <= blocks[k].upper
    ensures blocks[k].Mean() == blocks[j].Mean()
    decreases j - k
  {
    if k == j {
    } else {
      CutsRise(cuts, |blocks|, k + 1, j);
      UpperRow(x, y, blocks, cuts, k);
      UpperRow(x, y, blocks, cuts, k + 1);
      assert blocks[k].Mean() == blocks[k + 1].Mean();
      SameValue(x, y, blocks, cuts, i, k + 1, j);
    }
  }

  /** At a tie the first row of the later block is predicted by an earlier one. */
  lemma {:induction false} TiePredicts(
    x: seq<real>, y: seq<real>, blocks: seq<Block>, cuts: seq<nat>, j: nat)
    requires Fits(x, y, blocks, cuts) && InUnit(x) && Cuts(cuts, |blocks|)
    requires 0 < j < |blocks| && cuts[j] < |x|
    requires Predict(Uppers(blocks), Means(blocks), x[cuts[j]]) == blocks[j].Mean()
    ensures blocks[j - 1].upper < x[cuts[j]] || blocks[j - 1].Mean() == blocks[j].Mean()
  {
    if x[cuts[j]] <= blocks[j - 1].upper {
      assert Clip(x[cuts[j]]) == x[cuts[j]];
      var k := SearchLeft(Uppers(blocks), x[cuts[j]]);
      assert x[cuts[j]] <= Uppers(blocks)[j - 1];
      assert k <= j - 1;
      RiseTogether(blocks, k, j - 1);
      RiseTogether(blocks, j - 1, j);
    }
  }

  /** Every training row is predicted by its fitted step. */
  predicate PredictsSteps(x: seq<real>, blocks: seq<Block>, cuts: seq<nat>)
    requires blocks != [] && Cuts(cuts, |blocks|) && forall j :: 0 <= j < |blocks| ==> blocks[j].weight > 0.0
  {
    forall i :: 0 <= i < |x| && i < cuts[|blocks|] ==>
      Predict(Uppers(blocks), Means(blocks), x[i]) == Steps(Means(blocks), cuts)[i]
  }

  lemma {:induction false} TogetherPredicts(
    x: seq<real>, y: seq<real>, blocks: seq<Block>, cuts: seq<nat>)
    requires Fits(x, y, blocks, cuts) && InUnit(x) && Cuts(cuts, |blocks|) && blocks != []
    requires TiesTogether(x, blocks, cuts)
    ensures PredictsSteps(x, blocks, cuts)
  {
    var g := Steps(Means(blocks), cuts);
    forall i | 0 <= i < |x| ensures Predict(Uppers(blocks), Means(blocks), x[i]) == g[i] {
      var k := PredictedBlock(x, y, blocks, cuts, i);
      SameValue(x, y, blocks, cuts, i, k, BlockOf(cuts, |blocks|, i));
    }
  }

  lemma {:induction false} PredictedTogether(
    x: seq<real>, y: seq<real>, blocks: seq<Block>, cuts: seq<nat>)
    requires Fits(x, y, blocks, cuts) && InUnit(x) && Cuts(cuts, |blocks|) && blocks != []
    requires PredictsSteps(x, blocks, cuts)
    ensures TiesTogether(x, blocks, cuts)
  {
    forall j | 0 < j < |blocks| && cuts[j] < |x|
      ensures blocks[j - 1].upper < x[cuts[j]] || blocks[j - 1].Mean() == blocks[j].Mean()
    {
      BlockUnique(cuts, |blocks|, cuts[j], j);
      TiePredicts(x, y, blocks, cuts, j);
    }
  }

  /**
    Predicting the training rows gives back the fitted steps exactly when no
    tie is split between blocks of different value.
  */
  lemma {:induction false} PredictsTraining(
    x: seq<real>, y: seq<real>, blocks: seq<Block>, cuts: seq<nat>)
    requires Fits(x, y, blocks, cuts) && InUnit(x) && Cuts(cuts, |blocks|)
    ensures blocks != [] && cuts[|blocks|] == |x|
    ensures PredictsSteps(x, blocks, cuts) <==> TiesTogether(x, blocks, cuts)
  {
    if TiesTogether(x, blocks, cuts) {
      TogetherPredicts(x, y, blocks, cuts);
    }
    if PredictsSteps(x, blocks, cuts) {
      PredictedTogether(x, y, blocks, cuts);
    }
  }

  // ---------- the condition on the rows alone ----------

  function MeanOf(y: seq<real>, a: nat, b: nat): real
    requires a < b <= |y|
  {
    Sum(y, a, b) / (b - a) as real
  }

  /** Every stretch of labels that ends at c has a smaller mean than every stretch that begins there. */
  ghost predicate Kink(y: seq<real>, c: nat) {
    forall s, t :: 0 <= s < c < t <= |y| ==> MeanOf(y, s, c) < MeanOf(y, c, t)
  }

  /** No kink of the labels separates two rows of equal probability. */
  ghost predicate TiesSmooth(x: seq<real>, y: seq<real>) {
    forall c :: 0 < c < |x| && x[c - 1] == x[c] ==> !Kink(y, c)
  }

  lemma {:induction false} MeanAtLeast(y: seq<real>, a: nat, b: nat, m: real)
    requires a < b <= |y| && Sum(y, a, b) >= Scaled(m, b - a)
    ensures MeanOf(y, a, b) >= m
  {
    var n := (b - a) as real;
    ScaledIs(m, b - a);
    QuotientTimes(Sum(y, a, b), n);
    MulCancel(m, Sum(y, a, b) / n, n);
  }

  lemma {:induction false} MeanAtMost(y: seq<real>, a: nat, b: nat, m: real)
    requires a < b <= |y| && Sum(y, a, b) <= Scaled(m, b - a)
    ensures MeanOf(y, a, b) <= m
  {
    var n := (b - a) as real;
    ScaledIs(m, b - a);
    QuotientTimes(Sum(y, a, b), n);
    MulCancel(Sum(y, a, b) / n, m, n);
  }

  /** From the start of a block on, no mean falls below the block's. */
  lemma {:induction false} MeansAfter(
    x: seq<real>, y: seq<real>, blocks: seq<Block>, cuts: seq<nat>, j: nat, t: nat)
    requires Fits(x, y, blocks, cuts) && j < |blocks| && cuts[j] <= t <= |y|
    ensures Sum(y, cuts[j], t) >= Scaled(blocks[j].Mean(), t - cuts[j])
    decreases |blocks| - j
  {
    BlockFacts(x, y, blocks, cuts, j);
    if t <= cuts[j + 1] {
    } else {
      MeansAfter(x, y, blocks, cuts, j + 1, t);
      SumSplit(y, cuts[j], cuts[j + 1], t);
      ScaledAdds(blocks[j].Mean(), cuts[j + 1] - cuts[j], t - cuts[j + 1]);
      RiseTogether(blocks, j, j + 1);
      ScaledRises(blocks[j].Mean(), blocks[j + 1].Mean(), t - cuts[j + 1]);
    }
  }

  /** Up to the end of a block, no mean exceeds the block's. */
  lemma {:induction false} MeansBefore(
    x: seq<real>, y: seq<real>, blocks: seq<Block>, cuts: seq<nat>, j: nat, s: nat)
    requires Fits(x, y, blocks, cuts) && j < |blocks| && s <= cuts[j + 1]
    ensures cuts[j + 1] <= |y| && Sum(y, s, cuts[j + 1]) <= Scaled(blocks[j].Mean(), cuts[j + 1] - s)
    decreases j
  {
    BlockFacts(x, y, blocks, cuts, j);
    if cuts[j] <= s {
      SumSplit(y, cuts[j], s, cuts[j + 1]);
      ScaledAdds(blocks[j].Mean(), s - cuts[j], cuts[j + 1] - s);
    } else {
      MeansBefore(x, y, blocks, cuts, j - 1, s);
      SumSplit(y, s, cuts[j], cuts[j + 1]);
      ScaledAdds(blocks[j].Mean(), cuts[j] - s, cuts[j + 1] - cuts[j]);
      RiseTogether(blocks, j - 1, j);
      ScaledRises(blocks[j - 1].Mean(), blocks[j].Mean(), cuts[j] - s);
    }
  }

  /** Where the fitted value rises, the labels have a kink. */
  lemma {:induction false} RiseIsKink(x: seq<real>, y: seq<real>, blocks: seq<Block>, cuts: seq<nat>, j: nat)
    requires Fits(x, y, blocks, cuts) && 0 < j < |blocks| && blocks[j - 1].Mean() < blocks[j].Mean()
    ensures Kink(y, cuts[j])
  {
    forall s, t | 0 <= s < cuts[j] < t <= |y| ensures MeanOf(y, s, cuts[j]) < MeanOf(y, cuts[j], t) {
      MeansBefore(x, y, blocks, cuts, j - 1, s);
      MeanAtMost(y, s, cuts[j], blocks[j - 1].Mean());
      MeansAfter(x, y, blocks, cuts, j, t);
      MeanAtLeast(y, cuts[j], t, blocks[j].Mean());
    }
  }

  /** Inside a block the labels have no kink. */
  lemma {:induction false} InsideIsSmooth(
    x: seq<real>, y: seq<real>, blocks: seq<Block>, cuts: seq<nat>, j: nat, c: nat)
    requires Fits(x, y, blocks, cuts) && j < |blocks| && cuts[j] < c < cuts[j + 1]
    ensures !Kink(y, c)
  {
    BlockFacts(x, y, blocks, cuts, j);
    MeansAfter(x, y, blocks, cuts, j, c);
    MeanAtLeast(y, cuts[j], c, blocks[j].Mean());
    MeansBefore(x, y, blocks, cuts, j, c);
    MeanAtMost(y, c, cuts[j + 1], blocks[j].Mean());
    assert MeanOf(y, cuts[j], c) >= MeanOf(y, c, cuts[j + 1]);
  }

  /** Between two blocks of one value the labels have no kink. */
  lemma {:induction false} LevelIsSmooth(x: seq<real>, y: seq<real>, blocks: seq<Block>, cuts: seq<nat>, j: nat)
    requires Fits(x, y, blocks, cuts) && 0 < j < |blocks| && blocks[j - 1].Mean() == blocks[j].Mean()
    ensures !Kink(y, cuts[j])
  {
    BlockFacts(x, y, blocks, cuts, j - 1);
    BlockFacts(x, y, blocks, cuts, j);
    MeanAtLeast(y, cuts[j - 1], cuts[j], blocks[j].Mean());
    MeanAtMost(y, cuts[j], cuts[j + 1], blocks[j].Mean());
    assert MeanOf(y, cuts[j - 1], cuts[j]) >= MeanOf(y, cuts[j], cuts[j + 1]);
  }

  /** The labels have a kink at c exactly when the fitted value rises there. */
  lemma {:induction false} KinkIsRise(x: seq<real>, y: seq<real>, blocks: seq<Block>, cuts: seq<nat>, c: nat)
    requires Fits(x, y, blocks, cuts) && Cuts(cuts, |blocks|) && 0 < c < |y|
    ensures var j := BlockOf(cuts, |blocks|, c);
            Kink(y, c) <==> 0 < j && cuts[j] == c && blocks[j - 1].Mean() < blocks[j].Mean()
  {
    var j := BlockOf(cuts, |blocks|, c);
    if cuts[j] < c {
      InsideIsSmooth(x, y, blocks, cuts, j, c);
    } else if blocks[j - 1].Mean() < blocks[j].Mean() {
      RiseIsKink(x, y, blocks, cuts, j);
    } else {
      RiseTogether(blocks, j - 1, j);
      LevelIsSmooth(x, y, blocks, cuts, j);
    }
  }

  /** A row that ties with the one before it and begins no higher block is at no kink. */
  lemma {:induction false} TogetherAt(
    x: seq<real>, y: seq<real>, blocks: seq<Block>, cuts: seq<nat>, c: nat)
    requires Fits(x, y, blocks, cuts) && Cuts(cuts, |blocks|) && TiesTogether(x, blocks, cuts)
    requires 0 < c < |x| && x[c - 1] == x[c]
    ensures !Kink(y, c)
  {
    KinkIsRise(x, y, blocks, cuts, c);
    var j := BlockOf(cuts, |blocks|, c);
    if 0 < j && cuts[j] == c {
      UpperRow(x, y, blocks, cuts, j - 1);
    }
  }

  /** A tie that is split between blocks of different value stands at a kink. */
  lemma {:induction false} SplitAt(
    x: seq<real>, y: seq<real>, blocks: seq<Block>, cuts: seq<nat>, j: nat)
    requires Fits(x, y, blocks, cuts) && 0 < j < |blocks| && cuts[j] < |x|
    requires blocks[j - 1].upper >= x[cuts[j]] && blocks[j - 1].Mean() != blocks[j].Mean()
    ensures 0 < cuts[j] && x[cuts[j] - 1] == x[cuts[j]] && Kink(y, cuts[j])
  {
    UpperRow(x, y, blocks, cuts, j - 1);
    RiseTogether(blocks, j - 1, j);
    RiseIsKink(x, y, blocks, cuts, j);
  }

  lemma {:induction false} TogetherIsSmooth(x: seq<real>, y: seq<real>, blocks: seq<Block>, cuts: seq<nat>)
    requires Fits(x, y, blocks, cuts) && Cuts(cuts, |blocks|)
    ensures TiesTogether(x, blocks, cuts) <==> TiesSmooth(x, y)
  {
    if TiesTogether(x, blocks, cuts) {
      forall c | 0 < c < |x| && x[c - 1] == x[c] ensures !Kink(y, c) {
        TogetherAt(x, y, blocks, cuts, c);
      }
    } else {
      var j :| 0 < j < |blocks| && cuts[j] < |x|
            && !(blocks[j - 1].upper < x[cuts[j]] || blocks[j - 1].Mean() == blocks[j].Mean());
      SplitAt(x, y, blocks, cuts, j);
    }
  }

  /**
    Exactly when a fitted calibrator predicts its own training rows, as a
    condition on the sorted rows: no two rows of equal probability stand on
    either side of a kink of the labels.
  */
  lemma {:induction false} PredictsExactly(x: seq<real>, y: seq<real>, blocks: seq<Block>, cuts: seq<nat>)
    requires Fits(x, y, blocks, cuts) && InUnit(x) && Cuts(cuts, |blocks|)
    ensures blocks != [] && cuts[|blocks|] == |x|
    ensures PredictsSteps(x, blocks, cuts) <==> TiesSmooth(x, y)
  {
    PredictsTraining(x, y, blocks, cuts);
    TogetherIsSmooth(x, y, blocks, cuts);
  }

  lemma {:induction false} MeanBelowLast(y: seq<real>, s: nat, c: nat)
    requires Nondecreasing(y) && s <= c <= |y| && c > 0
    ensures Sum(y, s, c) <= Scaled(y[c - 1], c - s)
    decreases c - s
  {
    if s + 1 >= c {
      if s < c {
        assert Sum(y, s, c) == Sum(y, s, s) + y[s];
        assert Scaled(y[c - 1], 1) == Scaled(y[c - 1], 0) + y[c - 1];
      }
    } else {
      MeanBelowLast(y, s, c - 1);
      ScaledRises(y[c - 2], y[c - 1], c - 1 - s);
    }
  }

  lemma {:induction false} MeanAboveFirst(y: seq<real>, c: nat, t: nat)
    requires Nondecreasing(y) && c < t <= |y|
    ensures Sum(y, c, t) >= Scaled(y[c], t - c)
    decreases t - c
  {
    if t == c + 1 {
      assert Sum(y, c, t) == Sum(y, c, c) + y[c];
      assert Scaled(y[c], 1) == Scaled(y[c], 0) + y[c];
    } else {
      MeanAboveFirst(y, c, t - 1);
    }
  }

  /** Where labels that never fall rise, they have a kink. */
  lemma {:induction false} RisingKink(y: seq<real>, c: nat)
    requires Nondecreasing(y) && 0 < c < |y| && y[c - 1] < y[c]
    ensures Kink(y, c)
  {
    forall s, t | 0 <= s < c < t <= |y| ensures MeanOf(y, s, c) < MeanOf(y, c, t) {
      MeanBelowLast(y, s, c);
      MeanAtMost(y, s, c, y[c - 1]);
      MeanAboveFirst(y, c, t);
      MeanAtLeast(y, c, t, y[c]);
    }
  }

  /** Labels that rise at a tie of equal probabilities: no fit predicts its own steps. */
  lemma {:induction false} RisingTie(x: seq<real>, y: seq<real>, blocks: seq<Block>, cuts: seq<nat>, i: nat)
    requires Fits(x, y, blocks, cuts) && InUnit(x) && Cuts(cuts, |blocks|) && Nondecreasing(y)
    requires i + 1 < |x| && x[i] == x[i + 1] && y[i] < y[i + 1]
    ensures blocks != [] && !PredictsSteps(x, blocks, cuts)
  {
    RisingKink(y, i + 1);
    PredictsExactly(x, y, blocks, cuts);
    assert x[i + 1 - 1] == x[i + 1];
  }

  /** Two rows of probability one half, one labelled 0 and one labelled 1, are fitted and not predicted. */
  lemma TieIsSplit() returns (blocks: seq<Block>, cuts: seq<nat>)
    ensures Fits([0.5, 0.5], [0.0, 1.0], blocks, cuts) && Cuts(cuts, |blocks|) && blocks != []
    ensures !PredictsSteps([0.5, 0.5], blocks, cuts)
  {
    var x, y := [0.5, 0.5], [0.0, 1.0];
    blocks, cuts := [Block(0.5, 0.0, 1.0), Block(0.5, 1.0, 1.0)], [0, 1, 2];
    SingleBlock(x, y, 0);
    SingleBlock(x, y, 1);
    RisingTie(x, y, blocks, cuts, 0);
  }

  // ---------- serialization ----------

  datatype Malformed = NotAligned | NotFitted | UnsupportedMethod | InvalidArtifact | VersionMismatch

  /** A stored calibrator; None where the field is missing or not a list. */
  datatype Payload = Payload(
    version: Option<string>, method_: Option<string>, thresholds: Option<seq<real>>, values: Option<seq<real>>)

  const METHOD := "validation_isotonic_pav_v1"

  /** The version string computed from a calibrator's contents. */
  type Stamp = (seq<real>, seq<real>) -> string

  datatype Restored = Restored(thresholds: seq<real>, values: seq<real>)

  function ToDict(stamp: Stamp, thresholds: seq<real>, values: seq<real>): Payload {
    Payload(Some(stamp(thresholds, values)), Some(METHOD), Some(thresholds), Some(values))
  }

  function FromDict(stamp: Stamp, payload: Payload): Result<Restored, Malformed> {
    if payload.method_ != Some(METHOD) then Err(UnsupportedMethod)
    else if payload.thresholds.None? || payload.values.None? || payload.thresholds.value == [] then
      Err(InvalidArtifact)
    else
      var thresholds, values := payload.thresholds.value, payload.values.value;
      if |thresholds| != |values| then Err(InvalidArtifact)
      else if || !InUnit(thresholds) || !Nondecreasing(thresholds)
              || !InUnit(values) || !Nondecreasing(values)
      then Err(InvalidArtifact)
      else if payload.version.Some? && payload.version.value != stamp(thresholds, values) then Err(VersionMismatch)
      else Ok(Restored(thresholds, values))
  }

  /**
    Restoring what was stored gives back the same calibrator, and nothing but a
    usable calibrator is ever restored: for contents under their own version,
    acceptance means exactly that they are usable.
  */
  lemma RoundTrip(stamp: Stamp, thresholds: seq<real>, values: seq<real>)
    ensures FromDict(stamp, ToDict(stamp, thresholds, values))
         == (if Calibrated(thresholds, values) then Ok(Restored(thresholds, values)) else Err(InvalidArtifact))
  {
  }

  lemma RestoredIsCalibrated(stamp: Stamp, payload: Payload)
    ensures FromDict(stamp, payload).Ok? ==>
              var r := FromDict(stamp, payload).value;
              && Calibrated(r.thresholds, r.values)
              && payload.thresholds == Some(r.thresholds) && payload.values == Some(r.values)
  {
  }

  /** What is restored and what is refused, for which reason. */
  lemma RestoreOutcome(stamp: Stamp, payload: Payload)
    ensures var usable := && payload.thresholds.Some? && payload.values.Some?
                          && Calibrated(payload.thresholds.value, payload.values.value);
            FromDict(stamp, payload)
            == if payload.method_ != Some("validation_isotonic_pav_v1") then Err(UnsupportedMethod)
               else if !usable then Err(InvalidArtifact)
               else if && payload.version.Some?
                       && payload.version.value != stamp(payload.thresholds.value, payload.values.value)
               then Err(VersionMismatch)
               else Ok(Restored(payload.thresholds.value, payload.values.value))
  {
  }

  // ---------- the calibrator ----------

  /** The sorted training rows of a fit. */
  function SortedRows(raw: seq<real>): seq<real> {
    var p := seq(|raw|, i requires 0 <= i < |raw| => Clip(raw[i]));
    Permuted(p, StableOrder(p, |p|))
  }

  function SortedLabels(counts: seq<real>, raw: seq<real>): seq<real>
    requires |counts| == |raw|
  {
    var p := seq(|raw|, i requires 0 <= i < |raw| => Clip(raw[i]));
    var truth := seq(|counts|, i requires 0 <= i < |counts| => Label(counts[i]));
    Permuted(truth, StableOrder(p, |p|))
  }

  lemma RowsAreSorted(counts: seq<real>, raw: seq<real>)
    requires |counts| == |raw|
    ensures var x, y := SortedRows(raw), SortedLabels(counts, raw);
            |x| == |y| == |raw| && Nondecreasing(x) && InUnit(x) && InUnit(y)
  {
    var p := seq(|raw|, i requires 0 <= i < |raw| => Clip(raw[i]));
    OrderIsStable(p, |p|);
    var order := StableOrder(p, |p|);
    forall i, j | 0 <= i < j < |order| ensures p[order[i]] <= p[order[j]] {
      assert Before(p, order[i], order[j]);
    }
  }

  /**
    The rows in the order of a fit: every row once, by probability, ties as they
    came; probabilities outside the unit interval count as its ends; the label is
    one for a positive count and zero for any other.
  */
  ghost predicate Arranged(
    counts: seq<real>, raw: seq<real>, order: seq<nat>, x: seq<real>, y: seq<real>)
  {
    && |counts| == |raw| == |order| == |x| == |y|
    && (forall i :: 0 <= i < |raw| ==> i in order)
    && (forall k :: 0 <= k < |order| ==>
          && order[k] < |raw|
          && x[k] == (if raw[order[k]] < 0.0 then 0.0 else if raw[order[k]] > 1.0 then 1.0 else raw[order[k]])
          && y[k] == (if counts[order[k]] > 0.0 then 1.0 else 0.0))
    && (forall j, k :: 0 <= j < k < |order| ==> x[j] < x[k] || (x[j] == x[k] && order[j] < order[k]))
  }

  lemma RowsArranged(counts: seq<real>, raw: seq<real>) returns (order: seq<nat>)
    requires |counts| == |raw|
    ensures Arranged(counts, raw, order, SortedRows(raw), SortedLabels(counts, raw))
  {
    var p := seq(|raw|, i requires 0 <= i < |raw| => Clip(raw[i]));
    order := StableOrder(p, |p|);
    OrderIsStable(p, |p|);
    forall j, k | 0 <= j < k < |order| ensures Before(p, order[j], order[k]) {
    }
  }

  /** The rows with a positive count. */
  ghost function Positives(counts: seq<real>): set<nat> {
    set i: nat | 0 <= i < |counts| && counts[i] > 0.0
  }

  /** The rows with a positive count among the first k of the order. */
  ghost function PositivesUpTo(counts: seq<real>, order: seq<nat>, k: nat): set<nat>
    requires k <= |order| && forall j :: 0 <= j < |order| ==> order[j] < |counts|
  {
    set j | 0 <= j < k && counts[order[j]] > 0.0 :: order[j]
  }

  lemma {:induction false} LabelsCountUpTo(
    counts: seq<real>, raw: seq<real>, order: seq<nat>, x: seq<real>, y: seq<real>, k: nat)
    requires Arranged(counts, raw, order, x, y) && k <= |y|
    ensures Sum(y, 0, k) == |PositivesUpTo(counts, order, k)| as real
  {
    if k == 0 {
      assert PositivesUpTo(counts, order, 0) == {};
    } else {
      LabelsCountUpTo(counts, raw, order, x, y, k - 1);
      var before, now, last := PositivesUpTo(counts, order, k - 1), PositivesUpTo(counts, order, k), order[k - 1];
      assert last !in before by {
        assert forall j :: 0 <= j < k - 1 ==> order[j] != last;
      }
      assert now == if counts[last] > 0.0 then before + {last} else before;
    }
  }

  /** The labels add up to the number of rows with a positive count. */
  lemma LabelsCount(counts: seq<real>, raw: seq<real>, order: seq<nat>, x: seq<real>, y: seq<real>)
    requires Arranged(counts, raw, order, x, y)
    ensures Sum(y, 0, |y|) == |Positives(counts)| as real
  {
    LabelsCountUpTo(counts, raw, order, x, y, |y|);
    forall i | i in Positives(counts) ensures i in PositivesUpTo(counts, order, |order|) {
      assert i in order;
      var j :| 0 <= j < |order| && order[j] == i;
    }
    assert PositivesUpTo(counts, order, |order|) == Positives(counts);
  }

  /** The total of value times weight. */
  function Mass(blocks: seq<Block>): real
    requires forall j :: 0 <= j < |blocks| ==> blocks[j].weight > 0.0
  {
    if blocks == [] then 0.0
    else Mass(blocks[..|blocks| - 1]) + blocks[|blocks| - 1].Mean() * blocks[|blocks| - 1].weight
  }

  lemma {:induction false} MassIsSum(blocks: seq<Block>)
    requires forall j :: 0 <= j < |blocks| ==> blocks[j].weight > 0.0
    ensures Mass(blocks) == SumOf(blocks)
  {
    if blocks == [] {
    } else {
      MassIsSum(blocks[..|blocks| - 1]);
      QuotientTimes(blocks[|blocks| - 1].sum, blocks[|blocks| - 1].weight);
    }
  }

  /** z is not a nondecreasing sequence closer to the labels than g. */
  predicate NoCloser(g: seq<real>, y: seq<real>, z: seq<real>)
    requires |g| == |y|
  {
    |z| == |y| && Nondecreasing(z) ==> Distance(g, y, 0, |y|) <= Distance(z, y, 0, |y|)
  }

  /** No nondecreasing sequence is closer to the labels. */
  ghost predicate LeastSquares(g: seq<real>, y: seq<real>) {
    |g| == |y| && Nondecreasing(g) && forall z :: NoCloser(g, y, z)
  }

  /** Each threshold is the probability of the last row of its step. */
  ghost predicate EndRows(thresholds: seq<real>, x: seq<real>, cuts: seq<nat>) {
    && |cuts| == |thresholds| + 1
    && forall j :: 0 <= j < |thresholds| ==> 0 < cuts[j + 1] <= |x| && thresholds[j] == x[cuts[j + 1] - 1]
  }

  lemma FitEndRows(x: seq<real>, y: seq<real>, blocks: seq<Block>, cuts: seq<nat>)
    requires Fits(x, y, blocks, cuts)
    ensures EndRows(Uppers(blocks), x, cuts)
  {
    forall j | 0 <= j < |blocks|
      ensures 0 < cuts[j + 1] <= |x| && blocks[j].upper == x[cuts[j + 1] - 1]
    {
      assert Covers(x, y, blocks[j], cuts[j], cuts[j + 1]);
    }
  }

  lemma StepsAreCloser(
    x: seq<real>, y: seq<real>, blocks: seq<Block>, cuts: seq<nat>, g: seq<real>, z: seq<real>)
    requires Fits(x, y, blocks, cuts) && Cuts(cuts, |blocks|) && g == Steps(Means(blocks), cuts)
    requires |z| == |y| && Nondecreasing(z)
    ensures |g| == |y| && Nondecreasing(g) && Distance(g, y, 0, |y|) <= Distance(z, y, 0, |y|)
  {
    PoolingIsOptimal(x, y, blocks, cuts, z);
  }

  lemma FitIsLeastSquares(x: seq<real>, y: seq<real>, blocks: seq<Block>, cuts: seq<nat>, g: seq<real>)
    requires Fits(x, y, blocks, cuts) && Cuts(cuts, |blocks|) && g == Steps(Means(blocks), cuts)
    ensures LeastSquares(g, y)
  {
    StepsAreCloser(x, y, blocks, cuts, g, seq(|y|, _ => 0.0));
    forall z ensures NoCloser(g, y, z) {
      if |z| == |y| && Nondecreasing(z) {
        StepsAreCloser(x, y, blocks, cuts, g, z);
      }
    }
  }

  /**
    Thresholds and values of a fit to arranged rows: each threshold is the last
    probability of its step, the steps are the nondecreasing sequence of least
    squared error to the labels, and value times weight over the blocks adds up to
    the number of positive rows.
  */
  ghost predicate Explains(
    counts: seq<real>, x: seq<real>, y: seq<real>, blocks: seq<Block>, cuts: seq<nat>, thresholds: seq<real>,
    values: seq<real>)
  {
    && Fits(x, y, blocks, cuts) && Cuts(cuts, |blocks|)
    && thresholds == Uppers(blocks) && values == Means(blocks) && Calibrated(thresholds, values)
    && EndRows(thresholds, x, cuts) && LeastSquares(Steps(values, cuts), y)
    && Mass(blocks) == |Positives(counts)| as real
  }

  /**
    What a fit stores, in terms of its input: the least-squares steps of the
    arranged labels, whose weighted values add up to the number of positive rows.
  */
  lemma FitOfRows(counts: seq<real>, raw: seq<real>, x: seq<real>, y: seq<real>, blocks: seq<Block>, cuts: seq<nat>)
    returns (order: seq<nat>)
    requires |counts| == |raw| && x == SortedRows(raw) && y == SortedLabels(counts, raw)
    requires Fits(x, y, blocks, cuts)
    ensures Arranged(counts, raw, order, x, y)
    ensures Explains(counts, x, y, blocks, cuts, Uppers(blocks), Means(blocks))
  {
    FitsCuts(x, y, blocks, cuts);
    order := RowsArranged(counts, raw);
    FitIsLeastSquares(x, y, blocks, cuts, Steps(Means(blocks), cuts));
    FitEndRows(x, y, blocks, cuts);
    FitMass(counts, raw, order, x, y, blocks, cuts);
    RowsAreSorted(counts, raw);
    FitIsCalibrated(x, y, blocks, cuts);
  }

  lemma FitMass(
    counts: seq<real>, raw: seq<real>, order: seq<nat>, x: seq<real>, y: seq<real>, blocks: seq<Block>, cuts: seq<nat>)
    requires Arranged(counts, raw, order, x, y) && Fits(x, y, blocks, cuts) && Cuts(cuts, |blocks|)
    ensures Mass(blocks) == |Positives(counts)| as real
  {
    MassIsSum(blocks);
    Conserved(x, y, blocks, cuts, |y|);
    LabelsCount(counts, raw, order, x, y);
  }

  class IsotonicProbabilityCalibrator {
    var thresholds: seq<real>
    var values: seq<real>

    constructor (thresholds: seq<real>, values: seq<real>)
      ensures this.thresholds == thresholds && this.values == values
    {
      this.thresholds, this.values := thresholds, values;
    }

    /**
      Fits by pooling the sorted rows; refuses unaligned or too few rows and then
      keeps its state.  `order`, `x` and `y` are the rows as they were arranged.
    */
    method Fit(counts: seq<real>, raw: seq<real>)
      returns (result: Result<nat, Malformed>, ghost blocks: seq<Block>, ghost cuts: seq<nat>,
               ghost order: seq<nat>, ghost x: seq<real>, ghost y: seq<real>)
      modifies this
      ensures result.Err? <==> |counts| != |raw| || |counts| < 2
      ensures result.Err? ==> thresholds == old(thresholds) && values == old(values)
      ensures result.Ok? ==>
                && Arranged(counts, raw, order, x, y)
                && x == SortedRows(raw) && y == SortedLabels(counts, raw)
                && Explains(counts, x, y, blocks, cuts, thresholds, values)
                && result.value + |blocks| == |counts|
    {
      blocks, cuts, order, x, y := [], [], [], [], [];
      if |counts| != |raw| || |counts| < 2 {
        return Err(NotAligned), [], [], [], [], [];
      }
      var rows, labels := SortedRows(raw), SortedLabels(counts, raw);
      RowsAreSorted(counts, raw);
      x, y := rows, labels;
      var pooled, edges, merges := Pool(rows, labels);
      blocks, cuts := pooled, edges;
      order := FitOfRows(counts, raw, x, y, pooled, cuts);
      thresholds, values := Uppers(pooled), Means(pooled);
      result := Ok(merges);
    }

    /** Predicts row by row. */
    method PredictRows(raw: seq<real>) returns (result: Result<seq<real>, Malformed>)
      ensures result.Err? <==> thresholds == [] || |thresholds| != |values|
      ensures result.Ok? ==>
                && |result.value| == |raw|
                && forall i :: 0 <= i < |raw| ==> result.value[i] == Predict(thresholds, values, raw[i])
    {
      if thresholds == [] || |thresholds| != |values| {
        return Err(NotFitted);
      }
      var t, v := thresholds, values;
      result := Ok(seq(|raw|, i requires 0 <= i < |raw| => Predict(t, v, raw[i])));
    }

    method Store(stamp: Stamp) returns (payload: Payload)
      ensures payload == ToDict(stamp, thresholds, values)
      ensures Calibrated(thresholds, values) ==>
                FromDict(stamp, payload) == Ok(Restored(thresholds, values))
    {
      payload := ToDict(stamp, thresholds, values);
      RoundTrip(stamp, thresholds, values);
    }
  }
}
