/** The value a reduction over the thread tree computes, for any operator. */
module TreeFold {
  import opened Values
  import opened Protocol

  /** All of `rest` are threads of the squad with a greater index than `i`. */
  ghost predicate Above(tp: Topology, i: nat, rest: seq<nat>) {
    |rest| <= tp.n && forall a :: 0 <= a < |rest| ==> i < rest[a] < tp.n
  }

  lemma WalkAbove(tp: Topology, i: nat, lim: nat)
    requires WellFormed(tp) && i < tp.n && lim <= tp.n
    ensures Above(tp, i, tp.up(i, lim))
  {
    var walk := tp.up(i, lim);
    assert IsWalk(tp, i, lim, walk);
    forall a | 0 <= a < |walk| ensures i < walk[a] < tp.n {
      assert walk[a] in walk;
    }
  }

  /**
  The contribution of thread `i`, with the folds of the threads below `c` that it controls
  combined in from the right, in the order of the upward walk.
  */
  ghost function Fold(tp: Topology, red: Reduction, c: nat, i: nat): Value
    requires WellFormed(tp) && i < tp.n && c <= tp.n
    decreases tp.n - i, tp.n + 1
  {
    WalkAbove(tp, i, c);
    FoldRest(tp, red, c, i, red.x(i), tp.up(i, c))
  }

  /** Continues the fold of thread `i` from the accumulator `acc` over the targets it has yet to visit. */
  ghost function FoldRest(tp: Topology, red: Reduction, c: nat, i: nat, acc: Value, rest: seq<nat>): Value
    requires WellFormed(tp) && i < tp.n && c <= tp.n && Above(tp, i, rest)
    decreases tp.n - i, |rest|
  {
    if rest == [] then acc
    else
      var acc' := if rest[0] < c then red.op(acc, Fold(tp, red, c, rest[0])) else acc;
      FoldRest(tp, red, c, i, acc', rest[1..])
  }

  lemma {:induction false} BelowAbove(tp: Topology, i: nat, rest: seq<nat>, lim: nat)
    requires Above(tp, i, rest)
    ensures Above(tp, i, Below(rest, lim)) && |Below(rest, lim)| <= |rest|
    decreases |rest|
  {
    if rest != [] {
      BelowAbove(tp, i, rest[1..], lim);
    }
  }

  /** Targets that did not take part in the task do not change the result. */
  lemma {:induction false} FoldRestBelow(tp: Topology, red: Reduction, c: nat, i: nat, acc: Value, rest: seq<nat>)
    requires WellFormed(tp) && i < tp.n && c <= tp.n && Above(tp, i, rest) && Above(tp, i, Below(rest, c))
    ensures FoldRest(tp, red, c, i, acc, rest) == FoldRest(tp, red, c, i, acc, Below(rest, c))
    decreases |rest|
  {
    if rest != [] {
      BelowAbove(tp, i, rest[1..], c);
      var acc' := if rest[0] < c then red.op(acc, Fold(tp, red, c, rest[0])) else acc;
      FoldRestBelow(tp, red, c, i, acc', rest[1..]);
      if rest[0] < c {
        assert Below(rest, c)[1..] == Below(rest[1..], c);
      }
    }
  }

  /** Waiting for threads that did not take part does not change what is merged. */
  lemma FoldFullWalk(tp: Topology, red: Reduction, c: nat, i: nat)
    requires WellFormed(tp) && i < tp.n && c <= tp.n
    ensures Above(tp, i, tp.up(i, tp.n))
    ensures FoldRest(tp, red, c, i, red.x(i), tp.up(i, tp.n)) == Fold(tp, red, c, i)
  {
    WalkAbove(tp, i, tp.n);
    BelowAbove(tp, i, tp.up(i, tp.n), c);
    FoldRestBelow(tp, red, c, i, red.x(i), tp.up(i, tp.n));
  }
}
