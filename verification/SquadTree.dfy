/**
The implicit thread tree of a squad: one stride per thread, built by `init` and walked
downwards by `to_subthreads` and upwards by `from_subthreads` (src/thread_squad.cpp).

The functions here are what the methods of `ThreadTree` are proved against.
*/
module SquadTree {
  import opened Sequences
  import opened ModArith

  const TREE_BREADTH: nat := 8

  function Min(a: int, b: int): int {
    if a <= b then a else b
  }

  function NextSubstride(stride: nat): (substride: nat)
    requires stride >= 1
    ensures 1 <= substride <= stride
    ensures stride > 1 ==> substride < stride
    ensures TREE_BREADTH * substride >= stride
  {
    (stride + (TREE_BREADTH - 1)) / TREE_BREADTH
  }

  /** The stride of the blocks at depth `k` of the tree of `n` threads: n, ceil(n/8), ... */
  function Stride(n: nat, k: nat): (s: nat)
    requires n >= 1
    ensures 1 <= s <= n
  {
    if k == 0 then n else NextSubstride(Stride(n, k - 1))
  }

  /** The start of the block of stride `u` in which `t` lies, counting blocks from `first`. */
  function BlockStart(first: nat, u: nat, t: nat): (b: nat)
    requires u >= 1 && first <= t
    ensures first <= b <= t < b + u
    ensures (b - first) % u == 0
  {
    DivModUnique(t - first - (t - first) % u, (t - first) / u, u, 0);
    t - (t - first) % u
  }

  /** The value `init(first, _, stride)` leaves in `numSubthreads_` of thread `t`. */
  function NumSub(first: nat, stride: nat, t: nat): (s: nat)
    requires first <= t < first + stride
    ensures 1 <= s <= stride
    decreases stride
  {
    if t == first then stride
    else
      var u := NextSubstride(stride);
      NumSub(BlockStart(first, u, t), u, t)
  }

  /** `numSubthreads_` of thread `t` in a squad of `n` threads. */
  function NumSubthreads(n: nat, t: nat): (s: nat)
    requires t < n
    ensures 1 <= s <= n
  {
    NumSub(0, n, t)
  }

  /** The values a, a + u, a + 2u, ... below `last`. */
  function Multiples(a: nat, last: int, u: nat): (r: seq<nat>)
    requires u >= 1
    decreases last - a
  {
    if a >= last then [] else [a] + Multiples(a + u, last, u)
  }

  /** Targets of the downward walk of thread `t`, in visiting order. */
  function DownTargets(t: nat, stride: nat, last: int): seq<nat>
    requires stride >= 1
    decreases stride
  {
    if stride == 1 then []
    else
      var u := NextSubstride(stride);
      Multiples(t + u, last, u) + DownTargets(t, u, Min(t + u, last))
  }

  /** Targets of the upward walk of thread `t`, in visiting order. */
  function UpTargets(t: nat, stride: nat, last: int): seq<nat>
    requires stride >= 1
    decreases stride
  {
    var u := NextSubstride(stride);
    (if stride == 1 then [] else UpTargets(t, u, Min(t + u, last))) + Multiples(t + u, last, u)
  }

  /** The walks of thread `t` of a squad of `n` threads, restricted to threads below `concurrency`. */
  function Down(n: nat, t: nat, concurrency: nat): seq<nat>
    requires t < n
  {
    DownTargets(t, NumSubthreads(n, t), Min(t + NumSubthreads(n, t), concurrency))
  }

  function Up(n: nat, t: nat, concurrency: nat): seq<nat>
    requires t < n
  {
    UpTargets(t, NumSubthreads(n, t), Min(t + NumSubthreads(n, t), concurrency))
  }

  /** The upward walk is that of the first sub-block, if there is one, and then the multiples of its stride. */
  lemma UpWalkParts(t: nat, stride: nat, last: int)
    requires stride >= 1
    ensures var u := NextSubstride(stride);
      UpTargets(t, stride, last)
        == (if stride == 1 then [] else UpTargets(t, u, Min(t + u, last))) + Multiples(t + u, last, u)
  {
  }

  /** Independent description of a walk: `i` lies on the grid of some level, inside that level's range. */
  ghost predicate IsTarget(t: nat, stride: nat, last: int, i: nat)
    requires stride >= 1
    decreases stride
  {
    stride > 1 &&
    var u := NextSubstride(stride);
    (t + u <= i < last && (i - t) % u == 0) || IsTarget(t, u, Min(t + u, last), i)
  }

  /** Thread `t` visits thread `i` in a walk over all `n` threads. */
  ghost predicate Visits(n: nat, t: nat, i: nat)
    requires t < n
  {
    IsTarget(t, NumSubthreads(n, t), Min(t + NumSubthreads(n, t), n), i)
  }

  ghost predicate StrictlyIncreasing(s: seq<nat>) {
    forall a, b :: 0 <= a < b < |s| ==> s[a] < s[b]
  }

  // ----- the walks agree -----

  lemma {:induction false} MultiplesMembers(a: nat, last: int, u: nat, i: nat)
    requires u >= 1
    ensures i in Multiples(a, last, u) <==> a <= i < last && (i - a) % u == 0
    decreases last - a
  {
    if a < last {
      MultiplesMembers(a + u, last, u, i);
      if a <= i {
        ModSelf(u);
        ModShift(i - a, u, u);
        if (i - a) % u == 0 && i != a {
          MultipleAtLeast(i - a, u);
        }
      }
      if i == a {
        ModSmall(0, u);
      }
    }
  }

  lemma MultiplesRange(a: nat, last: int, u: nat)
    requires u >= 1
    ensures forall x :: x in Multiples(a, last, u) ==> a <= x < last
  {
    forall x | x in Multiples(a, last, u) ensures a <= x < last {
      MultiplesMembers(a, last, u, x);
    }
  }

  lemma IncreasingConcat(p: seq<nat>, q: seq<nat>, m: int)
    requires StrictlyIncreasing(p) && StrictlyIncreasing(q)
    requires forall x :: x in p ==> x < m
    requires forall x :: x in q ==> m <= x
    ensures StrictlyIncreasing(p + q)
  {
    forall a, b | 0 <= a < b < |p + q| ensures (p + q)[a] < (p + q)[b] {
      if a < |p| {
        assert p[a] in p;
      }
      if b >= |p| {
        assert q[b - |p|] in q;
      }
    }
  }

  lemma {:induction false} MultiplesIncreasing(a: nat, last: int, u: nat)
    requires u >= 1
    ensures StrictlyIncreasing(Multiples(a, last, u))
    decreases last - a
  {
    if a < last {
      MultiplesIncreasing(a + u, last, u);
      MultiplesRange(a + u, last, u);
      IncreasingConcat([a], Multiples(a + u, last, u), a + 1);
    }
  }

  lemma ConcatRange(p: seq<nat>, q: seq<nat>, lo: int, hi: int)
    requires forall x :: x in p ==> lo < x < hi
    requires forall x :: x in q ==> lo < x < hi
    ensures forall x :: x in p + q ==> lo < x < hi
  {
  }

  /** The upward walk visits threads in strictly increasing index order, all within the thread's range. */
  lemma {:induction false} UpIncreasing(t: nat, stride: nat, last: int)
    requires stride >= 1 && last <= t + stride
    ensures StrictlyIncreasing(UpTargets(t, stride, last))
    ensures forall x :: x in UpTargets(t, stride, last) ==> t < x < last
    decreases stride
  {
    var u := NextSubstride(stride);
    var grid := Multiples(t + u, last, u);
    MultiplesIncreasing(t + u, last, u);
    MultiplesRange(t + u, last, u);
    if stride > 1 {
      var inner := UpTargets(t, u, Min(t + u, last));
      UpIncreasing(t, u, Min(t + u, last));
      IncreasingConcat(inner, grid, t + u);
      ConcatRange(inner, grid, t, last);
      assert UpTargets(t, stride, last) == inner + grid;
    } else {
      assert UpTargets(t, stride, last) == grid;
    }
  }

  lemma GridMembers(t: nat, u: nat, last: int, i: nat)
    requires u >= 1
    ensures i in Multiples(t + u, last, u) <==> t + u <= i < last && (i - t) % u == 0
  {
    MultiplesMembers(t + u, last, u, i);
    ModSelf(u);
    ModShift(i - t, u, u);
  }

  lemma {:induction false} UpMembers(t: nat, stride: nat, last: int, i: nat)
    requires stride >= 1 && last <= t + stride
    ensures i in UpTargets(t, stride, last) <==> IsTarget(t, stride, last, i)
    decreases stride
  {
    var u := NextSubstride(stride);
    var grid := Multiples(t + u, last, u);
    GridMembers(t, u, last, i);
    if stride > 1 {
      var inner := UpTargets(t, u, Min(t + u, last));
      UpMembers(t, u, Min(t + u, last), i);
      assert UpTargets(t, stride, last) == inner + grid;
      assert i in inner + grid <==> i in inner || i in grid;
    } else {
      assert UpTargets(t, stride, last) == [] + grid;
      assert i !in grid;
    }
  }

  lemma {:induction false} DownMembers(t: nat, stride: nat, last: int, i: nat)
    requires stride >= 1
    ensures i in DownTargets(t, stride, last) <==> IsTarget(t, stride, last, i)
    decreases stride
  {
    if stride > 1 {
      var u := NextSubstride(stride);
      DownMembers(t, u, Min(t + u, last), i);
      GridMembers(t, u, last, i);
    }
  }

  lemma DistinctConcat(p: seq<nat>, q: seq<nat>, m: int)
    requires Distinct(p) && Distinct(q)
    requires forall x :: x in p ==> m <= x
    requires forall x :: x in q ==> x < m
    ensures Distinct(p + q)
  {
    forall a, b | 0 <= a < b < |p + q| ensures (p + q)[a] != (p + q)[b] {
      if a < |p| {
        assert p[a] in p;
      }
      if b >= |p| {
        assert q[b - |p|] in q;
      }
    }
  }

  lemma {:induction false} DownDistinct(t: nat, stride: nat, last: int)
    requires stride >= 1
    ensures Distinct(DownTargets(t, stride, last))
    ensures forall x :: x in DownTargets(t, stride, last) ==> x < last
    decreases stride
  {
    if stride > 1 {
      var u := NextSubstride(stride);
      DownDistinct(t, u, Min(t + u, last));
      MultiplesIncreasing(t + u, last, u);
      MultiplesRange(t + u, last, u);
      DistinctConcat(Multiples(t + u, last, u), DownTargets(t, u, Min(t + u, last)), t + u);
    }
  }

  lemma {:induction false} WalkLengths(t: nat, stride: nat, last: int)
    requires stride >= 1 && last <= t + stride
    ensures |UpTargets(t, stride, last)| == |DownTargets(t, stride, last)|
    decreases stride
  {
    if stride > 1 {
      var u := NextSubstride(stride);
      WalkLengths(t, u, Min(t + u, last));
    }
  }

  /**
  For every thread and concurrency, the downward loop and the upward recursion visit the same targets,
  each exactly once, all in (t, min(t + stride, c)); the upward recursion does so in index order.
  */
  lemma WalkTargets(n: nat, t: nat, c: nat)
    requires t < n
    ensures StrictlyIncreasing(Up(n, t, c))
    ensures forall x :: x in Up(n, t, c) ==> t < x < Min(t + NumSubthreads(n, t), c)
    ensures Distinct(Down(n, t, c))
    ensures |Down(n, t, c)| == |Up(n, t, c)|
    ensures forall x :: x in Down(n, t, c) <==> x in Up(n, t, c)
  {
    hide UpTargets, DownTargets, IsTarget, NumSubthreads, StrictlyIncreasing, Distinct;
    var s := NumSubthreads(n, t);
    var last := Min(t + s, c);
    UpIncreasing(t, s, last);
    DownDistinct(t, s, last);
    WalkLengths(t, s, last);
    forall x: nat ensures x in Down(n, t, c) <==> x in Up(n, t, c) {
      UpMembers(t, s, last, x);
      DownMembers(t, s, last, x);
    }
  }

  // ----- the order of the downward walk -----

  /** Some block of the tree inside that of stride `stride` starts at `t`, contains `x` and ends before or at `y`. */
  ghost predicate Separated(t: nat, stride: nat, x: nat, y: nat)
    requires stride >= 1
    decreases stride
  {
    stride > 1 &&
    var u := NextSubstride(stride);
    x < t + u <= y || Separated(t, u, x, y)
  }

  lemma {:induction false} SeparatedInside(t: nat, stride: nat, x: nat, y: nat)
    requires stride >= 1 && Separated(t, stride, x, y)
    ensures x < t + stride && x < y
    decreases stride
  {
    var u := NextSubstride(stride);
    if !(x < t + u <= y) {
      SeparatedInside(t, u, x, y);
    }
  }

  /**
  A thread visits outer levels first: the later one of two targets is in a block at the thread that does not reach the
  earlier one, or there is no block between them and the later one has the greater index.
  */
  lemma {:induction false} DownOrder(t: nat, stride: nat, last: int, a: nat, b: nat)
    requires stride >= 1 && a < b < |DownTargets(t, stride, last)|
    ensures var x, y := DownTargets(t, stride, last)[a], DownTargets(t, stride, last)[b];
      if x < y then !Separated(t, stride, x, y) else Separated(t, stride, y, x)
    decreases stride
  {
    var u := NextSubstride(stride);
    var grid, inner := Multiples(t + u, last, u), DownTargets(t, u, Min(t + u, last));
    var walk := DownTargets(t, stride, last);
    assert walk == grid + inner;
    MultiplesRange(t + u, last, u);
    DownDistinct(t, u, Min(t + u, last));
    var x, y := walk[a], walk[b];
    if a < |grid| {
      assert x in grid;
      if b < |grid| {
        MultiplesIncreasing(t + u, last, u);
        if Separated(t, u, x, y) {
          SeparatedInside(t, u, x, y);
        }
      } else {
        assert y == inner[b - |grid|];
        assert y in inner;
      }
    } else {
      assert x == inner[a - |grid|] && y == inner[b - |grid|];
      assert x in inner && y in inner;
      DownOrder(t, u, Min(t + u, last), a - |grid|, b - |grid|);
    }
  }

  // ----- limiting the concurrency -----

  lemma {:induction false} IsTargetRange(t: nat, stride: nat, last: int, i: nat)
    requires stride >= 1 && IsTarget(t, stride, last, i)
    ensures t < i < last
    decreases stride
  {
    var u := NextSubstride(stride);
    if IsTarget(t, u, Min(t + u, last), i) {
      IsTargetRange(t, u, Min(t + u, last), i);
    }
  }

  lemma {:induction false} IsTargetClipped(t: nat, stride: nat, last: int, last': int, i: nat)
    requires stride >= 1 && last' <= last
    ensures IsTarget(t, stride, last', i) <==> IsTarget(t, stride, last, i) && i < last'
    decreases stride
  {
    if stride > 1 {
      var u := NextSubstride(stride);
      IsTargetClipped(t, u, Min(t + u, last), Min(t + u, last'), i);
      if IsTarget(t, u, Min(t + u, last), i) {
        IsTargetRange(t, u, Min(t + u, last), i);
      }
    }
  }

  lemma UpTargetsLimited(t: nat, stride: nat, n: nat, c: nat, i: nat)
    requires stride >= 1 && c <= n
    ensures i in UpTargets(t, stride, Min(t + stride, c))
      <==> IsTarget(t, stride, Min(t + stride, n), i) && i < c
  {
    var all, some := Min(t + stride, n), Min(t + stride, c);
    UpMembers(t, stride, some, i);
    IsTargetClipped(t, stride, all, some, i);
    if IsTarget(t, stride, all, i) {
      IsTargetRange(t, stride, all, i);
    }
  }

  /** A walk limited to `c` threads visits exactly the targets below `c` of the walk over all threads. */
  lemma UpLimited(n: nat, t: nat, c: nat, i: nat)
    requires t < n && c <= n
    ensures i in Up(n, t, c) <==> Visits(n, t, i) && i < c
  {
    var s := NumSubthreads(n, t);
    UpTargetsLimited(t, s, n, c, i);
    assert Up(n, t, c) == UpTargets(t, s, Min(t + s, c));
    assert Visits(n, t, i) <==> IsTarget(t, s, Min(t + s, n), i);
  }
}
