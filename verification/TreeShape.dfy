/** What the stride tree looks like: who controls whom, when that is unique, and how deep it is. */
module TreeShape {
  import opened ModArith
  import opened SquadTree
  import opened ThreadTree

  /** The strides below depth 1 divide each other at depth `k`. */
  ghost predicate DividesAt(n: nat, k: nat)
    requires n >= 1
  {
    Stride(n, k) % Stride(n, k + 1) == 0
  }

  ghost predicate Regular(n: nat) {
    n >= 1 && forall k: nat :: k >= 1 ==> DividesAt(n, k)
  }

  /** The start of the innermost block that contains `i` but does not start at `i`. */
  function BlockController(first: nat, stride: nat, i: nat): (t: nat)
    requires first < i < first + stride
    ensures first <= t < i
    decreases stride
  {
    var u := NextSubstride(stride);
    var b := BlockStart(first, u, i);
    if b == i then first else BlockController(b, u, i)
  }

  function Controller(n: nat, i: nat): (t: nat)
    requires 0 < i < n
    ensures t < i
  {
    BlockController(0, n, i)
  }

  // ----- at least one controller -----

  /** Where a thread's walk reaches: `i` is a target of the walk that starts with stride `s`, limited to `lim`. */
  ghost predicate Reaches(t: nat, s: nat, lim: nat, i: nat)
    requires s >= 1
  {
    IsTarget(t, s, Min(t + s, lim), i)
  }

  lemma ReachesFromOuter(t: nat, stride: nat, lim: nat, i: nat)
    requires stride > 1 && Reaches(t, NextSubstride(stride), lim, i)
    ensures Reaches(t, stride, lim, i)
  {
    var u := NextSubstride(stride);
    assert Min(t + u, Min(t + stride, lim)) == Min(t + u, lim);
  }

  lemma {:induction false} BlockControllerVisits(first: nat, stride: nat, i: nat, lim: nat)
    requires first < i < first + stride && i < lim
    ensures var t := BlockController(first, stride, i);
      t < first + stride && Reaches(t, NumSub(first, stride, t), lim, i)
    decreases stride
  {
    var u := NextSubstride(stride);
    var b := BlockStart(first, u, i);
    if b == i {
      MultipleAtLeast(i - first, u);
    } else {
      BlockControllerVisits(b, u, i, lim);
      var t := BlockController(b, u, i);
      if t == first {
        ReachesFromOuter(first, stride, lim, i);
      } else {
        NumSubInBlock(first, stride, b, t);
      }
    }
  }

  /** Every thread except thread 0 is visited by at least one thread, of smaller index. */
  lemma EveryThreadHasController(n: nat, i: nat)
    requires 0 < i < n
    ensures Visits(n, Controller(n, i), i)
  {
    BlockControllerVisits(0, n, i, n);
  }

  // ----- regular n: exactly one controller -----

  lemma {:induction false} StrideDivides(n: nat, k: nat, m: nat)
    requires Regular(n) && 1 <= k <= m
    ensures Stride(n, k) % Stride(n, m) == 0
    decreases m
  {
    if k == m {
      ModSelf(Stride(n, k));
    } else {
      StrideDivides(n, k, m - 1);
      assert DividesAt(n, m - 1);
      DividesTrans(Stride(n, k), Stride(n, m - 1), Stride(n, m));
    }
  }

  /** `t` can start a block of depth `k`. */
  ghost predicate OnLevel(n: nat, k: nat, t: nat)
    requires n >= 1
  {
    if k == 0 then t == 0 else t % Stride(n, k) == 0
  }

  lemma OnLevelDeeper(n: nat, k: nat, t: nat)
    requires Regular(n) && OnLevel(n, k, t)
    ensures OnLevel(n, k + 1, t)
  {
    if k == 0 {
      ModSmall(0, Stride(n, 1));
    } else {
      assert DividesAt(n, k);
      DividesTrans(t, Stride(n, k), Stride(n, k + 1));
    }
  }

  /** The block of depth `k + 1` around `t` starts on the grid of depth `k + 1`. */
  lemma BlockOnLevel(n: nat, k: nat, first: nat, t: nat)
    requires Regular(n) && OnLevel(n, k, first) && first <= t
    ensures BlockStart(first, Stride(n, k + 1), t) == t - t % Stride(n, k + 1)
    ensures OnLevel(n, k + 1, BlockStart(first, Stride(n, k + 1), t))
  {
    var u := Stride(n, k + 1);
    OnLevelDeeper(n, k, first);
    ModShift(t, first, u);
    var b := BlockStart(first, u, t);
    ModShift(b, first, u);
  }

  /** In a regular squad, the stride of a block's inner thread is the first one below that divides its index. */
  lemma {:induction false} NumSubDivides(n: nat, first: nat, k: nat, t: nat) returns (m: nat)
    requires Regular(n) && OnLevel(n, k, first) && first <= t < first + Stride(n, k)
    ensures m >= k && NumSub(first, Stride(n, k), t) == Stride(n, m) && OnLevel(n, m, t)
    ensures t == first ==> m == k
    ensures t != first ==> m > k
    ensures forall j :: k < j < m ==> t % Stride(n, j) != 0
    decreases Stride(n, k)
  {
    if t == first {
      m := k;
    } else {
      var u := Stride(n, k + 1);
      var b := BlockStart(first, u, t);
      BlockOnLevel(n, k, first, t);
      m := NumSubDivides(n, b, k + 1, t);
    }
  }

  lemma {:induction false} StrideMonotone(n: nat, k: nat, j: nat)
    requires n >= 1
    ensures k <= j ==> Stride(n, j) <= Stride(n, k)
    decreases j
  {
    if k < j {
      StrideMonotone(n, k, j - 1);
    }
  }

  /** For regular n, thread t > 0 has as stride the largest block stride that divides t. */
  lemma StrideOfThread(n: nat, t: nat) returns (m: nat)
    requires Regular(n) && 0 < t < n
    ensures m >= 1 && NumSubthreads(n, t) == Stride(n, m) && t % Stride(n, m) == 0
    ensures forall j :: 1 <= j && t % Stride(n, j) == 0 ==> Stride(n, j) <= NumSubthreads(n, t)
  {
    m := NumSubDivides(n, 0, 0, t);
    forall j: nat | 1 <= j && t % Stride(n, j) == 0 ensures Stride(n, j) <= NumSubthreads(n, t) {
      StrideMonotone(n, m, j);
    }
  }

  /** `i` is an inner grid point of depth `m + 1` of the block of depth `m` that starts at `t`. */
  ghost predicate ChildAt(n: nat, t: nat, i: nat, m: nat)
    requires n >= 1
  {
    OnLevel(n, m, t) && t < i < t + Stride(n, m) && i % Stride(n, m + 1) == 0
  }

  lemma {:induction false} TargetLevel(n: nat, t: nat, k: nat, last: int, i: nat) returns (m: nat)
    requires Regular(n) && OnLevel(n, k, t)
    requires last <= t + Stride(n, k) && IsTarget(t, Stride(n, k), last, i)
    ensures m >= k && ChildAt(n, t, i, m)
    decreases Stride(n, k)
  {
    var u := Stride(n, k + 1);
    OnLevelDeeper(n, k, t);
    if t + u <= i < last && (i - t) % u == 0 {
      ModShift(i, t, u);
      m := k;
    } else {
      m := TargetLevel(n, t, k + 1, Min(t + u, last), i);
    }
  }

  lemma ChildLevelUnique(n: nat, t1: nat, m1: nat, t2: nat, m2: nat, i: nat)
    requires Regular(n) && ChildAt(n, t1, i, m1) && ChildAt(n, t2, i, m2)
    ensures m1 <= m2
  {
    if m2 < m1 {
      var s := Stride(n, m1);
      StrideDivides(n, m2 + 1, m1);
      DividesTrans(i, Stride(n, m2 + 1), s);
      ModShift(i, t1, s);
      ModSmall(i - t1, s);
    }
  }

  lemma VisitLevel(n: nat, t: nat, i: nat) returns (m: nat)
    requires Regular(n) && t < n && Visits(n, t, i)
    ensures ChildAt(n, t, i, m)
  {
    var k := NumSubDivides(n, 0, 0, t);
    m := TargetLevel(n, t, k, Min(t + NumSubthreads(n, t), n), i);
  }

  lemma ControllerAtLevel(n: nat, t: nat, i: nat, m: nat)
    requires n >= 1 && ChildAt(n, t, i, m)
    ensures t == if m == 0 then 0 else i - i % Stride(n, m)
  {
    if m > 0 {
      var s := Stride(n, m);
      ModShift(i, t, s);
      ModSmall(i - t, s);
    }
  }

  lemma ControllerUnique(n: nat, t1: nat, t2: nat, i: nat)
    requires Regular(n) && t1 < n && t2 < n && Visits(n, t1, i) && Visits(n, t2, i)
    ensures t1 == t2
  {
    var m1 := VisitLevel(n, t1, i);
    var m2 := VisitLevel(n, t2, i);
    ChildLevelUnique(n, t1, m1, t2, m2, i);
    ChildLevelUnique(n, t2, m2, t1, m1, i);
    ControllerAtLevel(n, t1, i, m1);
    ControllerAtLevel(n, t2, i, m1);
  }

  // ----- irregular n: some thread has two controllers -----

  /** Thread 0 visits the start of the second block of every depth. */
  lemma {:induction false} ZeroVisitsStride(n: nat, j: nat, k: nat)
    requires n >= 1 && j < k && Stride(n, k) > 1
    ensures IsTarget(0, Stride(n, j), Stride(n, j), Stride(n, k))
    decreases k - j
  {
    var u := Stride(n, j + 1);
    StrideMonotone(n, j + 1, k);
    if j + 1 == k {
      ModSelf(u);
    } else {
      ZeroVisitsStride(n, j + 1, k);
    }
  }

  lemma {:induction false} NumSubFirstBlock(n: nat, k: nat, t: nat)
    requires n >= 1 && 0 < t < Stride(n, k)
    ensures NumSub(0, n, t) == NumSub(0, Stride(n, k), t)
    decreases k
  {
    if k > 0 {
      StrideMonotone(n, k - 1, k);
      NumSubFirstBlock(n, k - 1, t);
      ModSmall(0, Stride(n, k));
      NumSubInBlock(0, Stride(n, k - 1), 0, t);
    }
  }

  /** The unclipped block [q, q + u) reaches past its parent's end `b`: one of its threads visits `b`. */
  lemma BlockOvershoots(b: nat, u: nat, q: nat, n: nat) returns (t: nat)
    requires b > 1 && u == NextSubstride(b) && b % u != 0 && q == BlockStart(0, u, b) && b < n
    ensures 0 < q <= t < b
    ensures IsTarget(t, NumSub(0, b, t), Min(t + NumSub(0, b, t), n), b)
  {
    if q == 0 {
      ModSmall(b, u);
    }
    if q == b {
      ModShift(b, q, u);
      ModSmall(0, u);
    }
    t := BlockController(q, u, b);
    BlockControllerVisits(q, u, b, n);
    NumSubInBlock(0, b, q, t);
  }

  /**
  If depth `k + 1` does not divide depth `k`, the last block of depth `k + 1` is clipped when the tree is built
  but not when it is walked: some thread t > 0 visits thread Stride(n, k), and so does thread 0.
  */
  lemma VisitedTwice(n: nat, k: nat) returns (t: nat)
    requires n >= 1 && k >= 1 && !DividesAt(n, k)
    ensures 0 < BlockStart(0, Stride(n, k + 1), Stride(n, k)) <= t < Stride(n, k) < n
    ensures Visits(n, t, Stride(n, k)) && Visits(n, 0, Stride(n, k))
  {
    var b := Stride(n, k);
    assert b > 1;
    ZeroVisitsStride(n, 0, k);
    IsTargetRange(0, n, n, b);
    t := BlockOvershoots(b, Stride(n, k + 1), BlockStart(0, Stride(n, k + 1), b), n);
    NumSubFirstBlock(n, k, t);
  }

  /** From the first target below `b` on, a walk does not visit `b`. */
  predicate LargerFirst(walk: seq<nat>, b: nat) {
    walk == [] || ((walk[0] < b ==> b !in walk) && LargerFirst(walk[1..], b))
  }

  lemma {:induction false} SmallWalk(walk: seq<nat>, b: nat)
    requires forall x :: x in walk ==> x < b
    ensures LargerFirst(walk, b)
  {
    if walk != [] {
      assert forall x :: x in walk[1..] ==> x in walk;
      SmallWalk(walk[1..], b);
    }
  }

  lemma {:induction false} LargerBefore(p: seq<nat>, q: seq<nat>, b: nat)
    requires LargerFirst(q, b) && forall x :: x in p ==> b <= x
    ensures LargerFirst(p + q, b)
    decreases |p|
  {
    if p == [] {
      assert p + q == q;
    } else {
      assert forall x :: x in p[1..] ==> x in p;
      assert p[0] in p && (p + q)[0] == p[0];
      LargerBefore(p[1..], q, b);
      assert (p + q)[1..] == p[1..] + q;
    }
  }

  /** The walk of thread 0 visits the start of the second block of a depth before all threads of the first block. */
  lemma {:induction false} ZeroVisitsLargerFirst(n: nat, j: nat, k: nat)
    requires n >= 1 && j < k
    ensures LargerFirst(DownTargets(0, Stride(n, j), Stride(n, j)), Stride(n, k))
    decreases k - j
  {
    if Stride(n, j) > 1 {
      var u, b := Stride(n, j + 1), Stride(n, k);
      StrideMonotone(n, j + 1, k);
      if j + 1 == k {
        DownDistinct(0, u, u);
        SmallWalk(DownTargets(0, u, u), b);
      } else {
        ZeroVisitsLargerFirst(n, j + 1, k);
      }
      MultiplesRange(u, Stride(n, j), u);
      LargerBefore(Multiples(u, Stride(n, j), u), DownTargets(0, u, u), b);
    }
  }

  /** Each thread has exactly one controller iff the strides divide each other. */
  lemma UniqueControllerIffRegular(n: nat)
    requires n >= 1
    ensures Regular(n) <==>
      forall t1, t2, i :: 0 <= t1 < n && 0 <= t2 < n && 0 < i < n && Visits(n, t1, i) && Visits(n, t2, i) ==> t1 == t2
  {
    if Regular(n) {
      forall t1, t2, i | 0 <= t1 < n && 0 <= t2 < n && 0 < i < n && Visits(n, t1, i) && Visits(n, t2, i)
        ensures t1 == t2
      {
        ControllerUnique(n, t1, t2, i);
      }
    } else {
      var k: nat :| k >= 1 && !DividesAt(n, k);
      var t := VisitedTwice(n, k);
      assert Visits(n, t, Stride(n, k)) && Visits(n, 0, Stride(n, k));
    }
  }

  lemma {:induction false} StrideOne(n: nat, k: nat, j: nat)
    requires n >= 1 && k <= j && Stride(n, k) == 1
    ensures Stride(n, j) == 1
    decreases j
  {
    if k < j {
      StrideOne(n, k, j - 1);
    }
  }

  lemma SmallSquadsAreRegular(n: nat)
    requires 1 <= n <= 64
    ensures Regular(n)
  {
    assert Stride(n, 1) <= 8;
    assert Stride(n, 2) == 1;
    forall k: nat | k >= 1 ensures DividesAt(n, k) {
      StrideOne(n, 2, k + 1);
    }
  }

  /** Up to 512 threads, a squad is regular if and only if its second stride divides its first one. */
  lemma RegularUpTo512(n: nat, first: nat, second: nat)
    requires 1 <= n <= 512 && first == (n + 7) / 8 && second == (first + 7) / 8
    ensures Regular(n) <==> first % second == 0
  {
    assert Stride(n, 1) == first <= 64;
    assert Stride(n, 2) == second <= 8;
    assert Stride(n, 3) == 1;
    assert DividesAt(n, 1) <==> first % second == 0;
    if DividesAt(n, 1) {
      forall k: nat | k >= 1 ensures DividesAt(n, k) {
        if k >= 2 {
          StrideOne(n, 3, k + 1);
        }
      }
    }
  }

  lemma SomeLargerSquadsAreRegular(n: nat)
    requires n == 80 || n == 96 || n == 128 || n == 256
    ensures Regular(n)
  {
    var first := (n + 7) / 8;
    var second := (first + 7) / 8;
    assert first % second == 0;
    RegularUpTo512(n, first, second);
  }

  /** The smallest irregular squad: threads 0 and 8 of 65 both visit thread 9. */
  lemma SixtyFiveIsIrregular(n: nat)
    requires n == 65
    ensures !Regular(n) && Visits(n, 0, 9) && Visits(n, 8, 9)
  {
    assert Stride(n, 0) == 65;
    assert Stride(n, 1) == 9;
    assert Stride(n, 2) == 2;
    assert !DividesAt(n, 1);
    var t := VisitedTwice(n, 1);
    assert t == 8;
  }

  // ----- bounds -----

  function Pow8(k: nat): (p: nat)
    ensures p >= 1
  {
    if k == 0 then 1 else 8 * Pow8(k - 1)
  }

  lemma CeilStep(n: nat, s: nat, u: nat, p: nat)
    requires s >= 1 && u == NextSubstride(s) && (s - 1) * p < n <= s * p
    ensures (u - 1) * (8 * p) < n <= u * (8 * p)
  {
    MulMonotone(8 * (u - 1), s - 1, p);
    MulMonotone(s, 8 * u, p);
    assert (8 * (u - 1)) * p == (u - 1) * (8 * p);
    assert (8 * u) * p == u * (8 * p);
  }

  /** Stride(n, k) is n / 8^k rounded up. */
  lemma {:induction false} StrideIsCeil(n: nat, k: nat)
    requires n >= 1
    ensures (Stride(n, k) - 1) * Pow8(k) < n <= Stride(n, k) * Pow8(k)
    decreases k
  {
    if k > 0 {
      StrideIsCeil(n, k - 1);
      CeilStep(n, Stride(n, k - 1), Stride(n, k), Pow8(k - 1));
    }
  }

  /** `depth` is the least number of levels that covers n threads. */
  ghost predicate IsDepth(n: nat, depth: nat) {
    Pow8(depth) >= n && forall k :: 0 <= k < depth ==> Pow8(k) < n
  }

  lemma DepthStride(n: nat, depth: nat)
    requires n >= 1 && IsDepth(n, depth)
    ensures Stride(n, depth) == 1
    ensures forall k :: 0 <= k < depth ==> Stride(n, k) > 1
  {
    StrideIsCeil(n, depth);
    if Stride(n, depth) >= 2 {
      MulMonotone(1, Stride(n, depth) - 1, Pow8(depth));
    }
    forall k | 0 <= k < depth ensures Stride(n, k) > 1 {
      StrideIsCeil(n, k);
    }
  }

  lemma {:induction false} MultiplesCount(a: nat, last: int, u: nat, m: nat)
    requires u >= 1 && last <= a + m * u
    ensures |Multiples(a, last, u)| <= m
    decreases m
  {
    if a < last {
      assert m != 0;
      assert m * u == (m - 1) * u + u;
      MultiplesCount(a + u, last, u, m - 1);
    }
  }

  /** On one level a thread visits at most seven others. */
  lemma TargetsPerLevel(t: nat, stride: nat, last: int)
    requires stride >= 1 && last <= t + stride
    ensures |Multiples(t + NextSubstride(stride), last, NextSubstride(stride))| <= 7
  {
    MultiplesCount(t + NextSubstride(stride), last, NextSubstride(stride), 7);
  }

  lemma {:induction false} TargetsBelow(n: nat, depth: nat, k: nat, t: nat, last: int)
    requires n >= 1 && IsDepth(n, depth) && k <= depth && last <= t + Stride(n, k)
    ensures |DownTargets(t, Stride(n, k), last)| <= 7 * (depth - k)
    decreases depth - k
  {
    DepthStride(n, depth);
    if k < depth {
      TargetsPerLevel(t, Stride(n, k), last);
      TargetsBelow(n, depth, k + 1, t, Min(t + Stride(n, k + 1), last));
    }
  }

  /** The depth of the outermost block that starts at `t`, inside the block of depth `k` that starts at `first`. */
  ghost function LevelIn(n: nat, first: nat, k: nat, t: nat): (m: nat)
    requires n >= 1 && first <= t < first + Stride(n, k)
    ensures m >= k && NumSub(first, Stride(n, k), t) == Stride(n, m)
    ensures t != first ==> m > k
    decreases Stride(n, k)
  {
    if t == first then k else LevelIn(n, BlockStart(first, Stride(n, k + 1), t), k + 1, t)
  }

  lemma {:induction false} LevelBound(n: nat, depth: nat, first: nat, k: nat, t: nat)
    requires n >= 1 && IsDepth(n, depth) && k <= depth && first <= t < first + Stride(n, k)
    ensures LevelIn(n, first, k, t) <= depth
    decreases depth - k
  {
    DepthStride(n, depth);
    if t != first {
      LevelBound(n, depth, BlockStart(first, Stride(n, k + 1), t), k + 1, t);
    }
  }

  /** In a squad of at most 8^depth threads, a thread visits at most 7 * depth others. */
  lemma TargetsInAll(n: nat, depth: nat, t: nat, c: nat)
    requires t < n && IsDepth(n, depth)
    ensures |Down(n, t, c)| <= 7 * depth
  {
    LevelBound(n, depth, 0, 0, t);
    TargetsBelow(n, depth, LevelIn(n, 0, 0, t), t, Min(t + NumSubthreads(n, t), c));
  }

  lemma {:induction false} ControllerLevel(n: nat, first: nat, k: nat, i: nat)
    requires n >= 1 && first < i < first + Stride(n, k)
    ensures var t := BlockController(first, Stride(n, k), i);
      t < first + Stride(n, k) && LevelIn(n, first, k, t) < LevelIn(n, first, k, i)
    decreases Stride(n, k)
  {
    var u := Stride(n, k + 1);
    var b := BlockStart(first, u, i);
    if b != i {
      ControllerLevel(n, b, k + 1, i);
      var t := BlockController(b, u, i);
      if t != first {
        ModShift(t - b, b - first, u);
        ModSmall(t - b, u);
        assert BlockStart(first, u, t) == b;
      }
    }
  }

  /** Number of controllers between thread `i` and thread 0. */
  ghost function ChainLength(n: nat, i: nat): nat
    requires i < n
  {
    if i == 0 then 0 else 1 + ChainLength(n, Controller(n, i))
  }

  lemma {:induction false} ChainBelowLevel(n: nat, i: nat)
    requires i < n
    ensures ChainLength(n, i) <= LevelIn(n, 0, 0, i)
    decreases i
  {
    if i > 0 {
      ControllerLevel(n, 0, 0, i);
      ChainBelowLevel(n, Controller(n, i));
    }
  }

  /** Every chain of controllers is at most `depth` long. */
  lemma ChainBound(n: nat, depth: nat, i: nat)
    requires i < n && IsDepth(n, depth)
    ensures ChainLength(n, i) <= depth
  {
    ChainBelowLevel(n, i);
    LevelBound(n, depth, 0, 0, i);
  }
}
