/** For an associative operator, the fold over the thread tree of a regular squad is the fold in index order. */
module SequentialFold {
  import opened ModArith
  import opened Values
  import Tree = SquadTree
  import opened TreeShape
  import opened Protocol
  import opened TreeFold
  import opened PattonSquad

  /** x(a) op x(a + 1) op ... op x(b - 1), bracketed from the left. */
  ghost function Sum(red: Reduction, a: nat, b: nat): Value
    requires a < b
    decreases b
  {
    if b == a + 1 then red.x(a) else red.op(Sum(red, a, b - 1), red.x(b - 1))
  }

  ghost predicate Associative(op: (Value, Value) -> Value) {
    forall x, y, z :: op(op(x, y), z) == op(x, op(y, z))
  }

  lemma {:induction false} SumSplit(red: Reduction, a: nat, m: nat, b: nat)
    requires Associative(red.op) && a < m < b
    ensures red.op(Sum(red, a, m), Sum(red, m, b)) == Sum(red, a, b)
    decreases b
  {
    if b != m + 1 {
      SumSplit(red, a, m, b - 1);
    }
  }

  lemma {:induction false} FoldRestConcat(tp: Topology, red: Reduction, c: nat, i: nat, acc: Value,
      p: seq<nat>, q: seq<nat>)
    requires WellFormed(tp) && i < tp.n && c <= tp.n && Above(tp, i, p + q)
    ensures Above(tp, i, p) && Above(tp, i, q)
    ensures FoldRest(tp, red, c, i, acc, p + q) == FoldRest(tp, red, c, i, FoldRest(tp, red, c, i, acc, p), q)
    decreases |p|
  {
    forall a | 0 <= a < |p| ensures i < p[a] < tp.n {
      assert (p + q)[a] == p[a];
    }
    forall a | 0 <= a < |q| ensures i < q[a] < tp.n {
      assert (p + q)[|p| + a] == q[a];
    }
    if p == [] {
      assert p + q == q;
    } else {
      var acc' := if p[0] < c then red.op(acc, Fold(tp, red, c, p[0])) else acc;
      assert (p + q)[1..] == p[1..] + q && (p + q)[0] == p[0];
      FoldRestConcat(tp, red, c, i, acc', p[1..], q);
    }
  }

  // ----- the range below a thread -----

  lemma RoomForBlock(t: nat, a: nat, s: nat, u: nat)
    requires u > 0 && s % u == 0 && t % u == 0 && a % u == 0 && t < a < t + s
    ensures a + u <= t + s
  {
    ModShift(t, s, u);
    ModShift(t + s, a, u);
    MultipleAtLeast(t + s - a, u);
  }

  /** A grid point of depth k + 1 inside a block of depth k has the stride of depth k + 1. */
  lemma GridStride(n: nat, k: nat, t: nat, a: nat)
    requires Regular(n) && a < n && ChildAt(n, t, a, k)
    ensures Tree.NumSubthreads(n, a) == Tree.Stride(n, k + 1)
    ensures k > 0 ==> a + Tree.Stride(n, k + 1) <= t + Tree.Stride(n, k)
  {
    var m := StrideOfThread(n, a);
    var s, u := Tree.Stride(n, k), Tree.Stride(n, k + 1);
    if m <= k {
      StrideDivides(n, m, k);
      DividesTrans(a, Tree.Stride(n, m), s);
    }
    StrideMonotone(n, k + 1, m);
    if k > 0 {
      OnLevelDeeper(n, k, t);
      ModShift(a, t, s);
      ModSmall(a - t, s);
      assert DividesAt(n, k);
      RoomForBlock(t, a, s, u);
    }
  }

  /** Where a block of depth `k` that starts at `t` ends, among the first `c` threads. */
  function BlockEnd(n: nat, c: nat, k: nat, t: nat): (b: nat)
    requires n >= 1 && t < c
    ensures t < b <= c
  {
    Tree.Min(t + Tree.Stride(n, k), c)
  }

  /** `tp` is the tree of `n` threads, as far as the upward walks go. */
  ghost predicate SquadWalks(tp: Topology, n: nat) {
    tp.n == n && WellFormed(tp) && forall t, c {:trigger UpWalk(n, t, c)} :: tp.up(t, c) == UpWalk(n, t, c)
  }

  lemma BlockWalkAbove(tp: Topology, n: nat, c: nat, k: nat, t: nat)
    requires n >= 1 && tp.n == n && t < c <= n
    ensures Above(tp, t, Tree.UpTargets(t, Tree.Stride(n, k), BlockEnd(n, c, k, t)))
  {
    var walk := Tree.UpTargets(t, Tree.Stride(n, k), BlockEnd(n, c, k, t));
    Tree.UpIncreasing(t, Tree.Stride(n, k), BlockEnd(n, c, k, t));
    IncreasingLength(walk, n);
    forall a | 0 <= a < |walk| ensures t < walk[a] < n {
      assert walk[a] in walk;
    }
  }

  lemma NextBlock(n: nat, c: nat, k: nat, t: nat, a: nat)
    requires Regular(n) && t < c <= n && OnLevel(n, k, t)
    requires t < a < BlockEnd(n, c, k, t) && OnLevel(n, k + 1, a)
    ensures Tree.NumSubthreads(n, a) == Tree.Stride(n, k + 1)
    ensures OnLevel(n, k + 1, a + Tree.Stride(n, k + 1))
    ensures BlockEnd(n, c, k + 1, a) == Tree.Min(a + Tree.Stride(n, k + 1), BlockEnd(n, c, k, t))
  {
    GridStride(n, k, t, a);
    ModSelf(Tree.Stride(n, k + 1));
    ModShift(a, Tree.Stride(n, k + 1), Tree.Stride(n, k + 1));
  }

  /** The contributions of the blocks of depth k + 1 from `a` on, folded into those from `t` up to `a`. */
  lemma {:induction false} GridFold(tp: Topology, n: nat, red: Reduction, c: nat, k: nat, t: nat, a: nat)
    requires Regular(n) && SquadWalks(tp, n) && Associative(red.op) && t < c <= n && t < a
    requires OnLevel(n, k, t) && OnLevel(n, k + 1, a)
    requires Above(tp, t, Tree.Multiples(a, BlockEnd(n, c, k, t), Tree.Stride(n, k + 1)))
    ensures var last := BlockEnd(n, c, k, t);
      FoldRest(tp, red, c, t, Sum(red, t, Tree.Min(a, last)), Tree.Multiples(a, last, Tree.Stride(n, k + 1)))
        == Sum(red, t, last)
    decreases n - t, 1, n + n - a
  {
    hide Tree.Stride, OnLevel, WellFormed, Fold;
    var u, last := Tree.Stride(n, k + 1), BlockEnd(n, c, k, t);
    if a < last {
      NextBlock(n, c, k, t, a);
      LevelFold(tp, n, red, c, k + 1, a);
      SumSplit(red, t, a, Tree.Min(a + u, last));
      assert Tree.Multiples(a, last, u)[1..] == Tree.Multiples(a + u, last, u);
      GridFold(tp, n, red, c, k, t, a + u);
    }
  }

  lemma NoMultiples(a: nat, last: int, u: nat)
    requires u >= 1 && last <= a
    ensures Tree.Multiples(a, last, u) == []
  {
  }

  /** The walk of a block: first the block of the next depth at its start, then the starts of the others. */
  lemma BlockWalkParts(n: nat, c: nat, k: nat, t: nat) returns (inner: seq<nat>, grid: seq<nat>)
    requires n >= 1 && t < c
    ensures Tree.UpTargets(t, Tree.Stride(n, k), BlockEnd(n, c, k, t))
      == if Tree.Stride(n, k) == 1 then [] else inner + grid
    ensures inner == Tree.UpTargets(t, Tree.Stride(n, k + 1), BlockEnd(n, c, k + 1, t))
    ensures grid == Tree.Multiples(t + Tree.Stride(n, k + 1), BlockEnd(n, c, k, t), Tree.Stride(n, k + 1))
  {
    hide Tree.UpTargets, Tree.Multiples, Tree.NextSubstride;
    var u, last := Tree.Stride(n, k + 1), BlockEnd(n, c, k, t);
    Tree.UpWalkParts(t, Tree.Stride(n, k), last);
    if Tree.Stride(n, k) == 1 {
      NoMultiples(t + u, last, u);
    }
    inner, grid := Tree.UpTargets(t, u, BlockEnd(n, c, k + 1, t)), Tree.Multiples(t + u, last, u);
    assert Tree.Stride(n, k) > 1 ==> Tree.Min(t + u, last) == BlockEnd(n, c, k + 1, t);
  }

  lemma GridStart(n: nat, k: nat, t: nat)
    requires Regular(n) && OnLevel(n, k, t)
    ensures OnLevel(n, k + 1, t) && OnLevel(n, k + 1, t + Tree.Stride(n, k + 1))
  {
    OnLevelDeeper(n, k, t);
    ModSelf(Tree.Stride(n, k + 1));
    ModShift(t, Tree.Stride(n, k + 1), Tree.Stride(n, k + 1));
  }

  /** Folding one walk after the other. */
  lemma FoldInTwo(tp: Topology, red: Reduction, c: nat, t: nat,
      walk: seq<nat>, inner: seq<nat>, grid: seq<nat>, mid: Value)
    requires WellFormed(tp) && t < tp.n && c <= tp.n && Above(tp, t, walk) && walk == inner + grid
    requires Above(tp, t, inner) ==> FoldRest(tp, red, c, t, red.x(t), inner) == mid
    ensures Above(tp, t, grid)
    ensures FoldRest(tp, red, c, t, red.x(t), walk) == FoldRest(tp, red, c, t, mid, grid)
  {
    FoldRestConcat(tp, red, c, t, red.x(t), inner, grid);
  }

  lemma LeafFold(tp: Topology, n: nat, red: Reduction, c: nat, k: nat, t: nat)
    requires n >= 1 && WellFormed(tp) && t < c <= tp.n && Tree.Stride(n, k) == 1
    ensures FoldRest(tp, red, c, t, red.x(t), []) == Sum(red, t, BlockEnd(n, c, k, t))
  {
    hide WellFormed, Fold, Tree.Stride;
  }

  lemma SmallerStride(n: nat, k: nat)
    requires n >= 1 && Tree.Stride(n, k) > 1
    ensures Tree.Stride(n, k + 1) < Tree.Stride(n, k)
  {
  }

  /** Thread `t` folds its block of depth `k` from the inside out. */
  lemma {:induction false} BlockFold(tp: Topology, n: nat, red: Reduction, c: nat, k: nat, t: nat)
    requires Regular(n) && SquadWalks(tp, n) && Associative(red.op) && t < c <= n && OnLevel(n, k, t)
    ensures Above(tp, t, Tree.UpTargets(t, Tree.Stride(n, k), BlockEnd(n, c, k, t)))
    ensures FoldRest(tp, red, c, t, red.x(t), Tree.UpTargets(t, Tree.Stride(n, k), BlockEnd(n, c, k, t)))
      == Sum(red, t, BlockEnd(n, c, k, t))
    decreases n - t, 2, Tree.Stride(n, k)
  {
    hide Tree.Stride, OnLevel, Sum, WellFormed, Fold, FoldRest, Tree.UpTargets, Tree.Multiples;
    BlockWalkAbove(tp, n, c, k, t);
    var walk := Tree.UpTargets(t, Tree.Stride(n, k), BlockEnd(n, c, k, t));
    var inner, grid := BlockWalkParts(n, c, k, t);
    if Tree.Stride(n, k) == 1 {
      LeafFold(tp, n, red, c, k, t);
    } else {
      SmallerStride(n, k);
      GridStart(n, k, t);
      BlockFold(tp, n, red, c, k + 1, t);
      FoldInTwo(tp, red, c, t, walk, inner, grid, Sum(red, t, BlockEnd(n, c, k + 1, t)));
      GridFold(tp, n, red, c, k, t, t + Tree.Stride(n, k + 1));
    }
  }

  lemma FoldIsBlockFold(tp: Topology, n: nat, red: Reduction, c: nat, k: nat, i: nat)
    requires Regular(n) && SquadWalks(tp, n) && i < c <= n && Tree.NumSubthreads(n, i) == Tree.Stride(n, k)
    requires Above(tp, i, Tree.UpTargets(i, Tree.Stride(n, k), BlockEnd(n, c, k, i)))
    ensures Fold(tp, red, c, i)
      == FoldRest(tp, red, c, i, red.x(i), Tree.UpTargets(i, Tree.Stride(n, k), BlockEnd(n, c, k, i)))
  {
    hide WellFormed, Tree.NumSubthreads, Tree.Stride, Tree.UpTargets, FoldRest;
    assert tp.up(i, c) == UpWalk(n, i, c);
  }

  lemma {:induction false} LevelFold(tp: Topology, n: nat, red: Reduction, c: nat, k: nat, i: nat)
    requires Regular(n) && SquadWalks(tp, n) && Associative(red.op) && i < c <= n
    requires OnLevel(n, k, i) && Tree.NumSubthreads(n, i) == Tree.Stride(n, k)
    ensures Fold(tp, red, c, i) == Sum(red, i, BlockEnd(n, c, k, i))
    decreases n - i, 3, 0
  {
    hide Tree.Stride, OnLevel, Sum, WellFormed, Tree.NumSubthreads;
    BlockFold(tp, n, red, c, k, i);
    FoldIsBlockFold(tp, n, red, c, k, i);
  }

  lemma RootLevel(n: nat)
    requires n >= 1
    ensures Tree.NumSubthreads(n, 0) == n == Tree.Stride(n, 0) && OnLevel(n, 0, 0)
  {
  }

  /** Thread `i` ends up with the contributions of threads [i, min(i + numSubthreads, c)), in index order. */
  lemma ThreadFold(n: nat, red: Reduction, c: nat, i: nat)
    requires Regular(n) && Associative(red.op) && i < c <= n
    ensures WellFormed(Squad(n))
    ensures Fold(Squad(n), red, c, i) == Sum(red, i, Tree.Min(i + Tree.NumSubthreads(n, i), c))
  {
    hide Tree.NumSubthreads, Tree.Stride, Sum, Fold, WellFormed;
    SquadWellFormed(n);
    RootLevel(n);
    if i == 0 {
      LevelFold(Squad(n), n, red, c, 0, 0);
    } else {
      var k := StrideOfThread(n, i);
      LevelFold(Squad(n), n, red, c, k, i);
    }
  }

  /** The fold over the whole tree is the fold of all contributions in index order. */
  lemma RootFold(n: nat, red: Reduction, c: nat)
    requires Regular(n) && Associative(red.op) && 0 < c <= n
    ensures WellFormed(Squad(n)) && Fold(Squad(n), red, c, 0) == Sum(red, 0, c)
  {
    ThreadFold(n, red, c, 0);
  }
}
