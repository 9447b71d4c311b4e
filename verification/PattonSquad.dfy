/**
The state machine of `Protocol` on the tree that `init` builds for a regular number of threads: the tree meets what
the protocol needs of it, and with an associative operator the tree fold is the fold in index order.
*/
module PattonSquad {
  import Tree = SquadTree
  import opened TreeShape
  import opened Protocol

  function UpWalk(n: nat, t: nat, lim: nat): seq<nat> {
    if t < n then Tree.Up(n, t, lim) else []
  }

  function DownWalk(n: nat, t: nat, lim: nat): seq<nat> {
    if t < n then Tree.Down(n, t, lim) else []
  }

  function ControllerOrRoot(n: nat, i: nat): nat {
    if 0 < i < n then Controller(n, i) else 0
  }

  /** Who controls whom, and the walks, in a squad of `n` threads. */
  ghost function Squad(n: nat): (tp: Topology)
    requires n >= 1
  {
    Topology(n, i => ControllerOrRoot(n, i), (t, lim) => UpWalk(n, t, lim), (t, lim) => DownWalk(n, t, lim))
  }

  // ----- the tree is well formed -----

  /** Strictly increasing numbers below `m` are at most `m` many. */
  lemma {:induction false} IncreasingLength(s: seq<nat>, m: nat)
    requires Tree.StrictlyIncreasing(s) && forall x :: x in s ==> x < m
    ensures |s| <= m
    decreases m
  {
    if s != [] {
      var last := s[|s| - 1];
      assert last in s;
      var front := s[..|s| - 1];
      forall x | x in front ensures x < last {
        var a :| 0 <= a < |front| && front[a] == x;
        assert s[a] < s[|s| - 1];
      }
      IncreasingLength(front, last);
    }
  }

  lemma HasMember(s: seq<nat>)
    requires s != []
    ensures s[0] in s
  {
  }

  lemma TailMembers(s: seq<nat>, x: nat)
    requires s != [] && Tree.StrictlyIncreasing(s)
    ensures x in s[1..] <==> x in s && x != s[0]
  {
    if x in s && x != s[0] {
      var a :| 0 <= a < |s| && s[a] == x;
      assert s[1..][a - 1] == x;
    }
  }

  /** A strictly increasing sequence is determined by its members. */
  lemma {:induction false} IncreasingUnique(p: seq<nat>, q: seq<nat>)
    requires Tree.StrictlyIncreasing(p) && Tree.StrictlyIncreasing(q)
    requires forall x :: x in p <==> x in q
    ensures p == q
    decreases |p|
  {
    if p == [] {
      if q != [] {
        HasMember(q);
      }
    } else {
      assert p[0] in p;
      assert q != [] && q[0] in q;
      assert p[0] == q[0];
      forall x ensures x in p[1..] <==> x in q[1..] {
        TailMembers(p, x);
        TailMembers(q, x);
      }
      IncreasingUnique(p[1..], q[1..]);
      assert p == [p[0]] + p[1..] && q == [q[0]] + q[1..];
    }
  }

  lemma {:induction false} BelowMembers(s: seq<nat>, lim: nat)
    requires Tree.StrictlyIncreasing(s)
    ensures Tree.StrictlyIncreasing(Below(s, lim))
    ensures forall x :: x in Below(s, lim) <==> x in s && x < lim
    decreases |s|
  {
    if s != [] {
      BelowMembers(s[1..], lim);
      assert s == [s[0]] + s[1..];
      forall x | x in s[1..] ensures s[0] < x {
        var a :| 0 <= a < |s| - 1 && s[1..][a] == x;
        assert s[0] < s[a + 1];
      }
      var rest := Below(s[1..], lim);
      if s[0] < lim {
        Tree.IncreasingConcat([s[0]], rest, s[0] + 1);
      }
    }
  }

  /** The threads that `t` visits in a walk limited to `lim` are exactly those below `lim` whose controller it is. */
  lemma WalkIsChildren(n: nat, t: nat, lim: nat, i: nat)
    requires Regular(n) && t < n && lim <= n
    ensures i in Tree.Up(n, t, lim) <==> 0 < i < lim && Controller(n, i) == t
  {
    Tree.UpLimited(n, t, lim, i);
    if Tree.Visits(n, t, i) {
      Tree.IsTargetRange(t, Tree.NumSubthreads(n, t), Tree.Min(t + Tree.NumSubthreads(n, t), n), i);
    }
    if 0 < i < n {
      EveryThreadHasController(n, i);
      if Tree.Visits(n, t, i) {
        ControllerUnique(n, t, Controller(n, i), i);
      }
    }
  }

  lemma WalksAreWalks(n: nat, t: nat, lim: nat)
    requires Regular(n) && t < n && lim <= n
    ensures IsWalk(Squad(n), t, lim, Tree.Up(n, t, lim)) && IsWalk(Squad(n), t, lim, Tree.Down(n, t, lim))
  {
    Tree.WalkTargets(n, t, lim);
    IncreasingLength(Tree.Up(n, t, lim), n);
    forall i: nat ensures i in Tree.Up(n, t, lim) <==> 0 < i < lim && Squad(n).parent(i) == t {
      WalkIsChildren(n, t, lim, i);
    }
  }

  lemma LimitedWalk(n: nat, t: nat, lim: nat)
    requires Regular(n) && t < n && lim <= n
    ensures Tree.Up(n, t, lim) == Below(Tree.Up(n, t, n), lim)
  {
    Tree.WalkTargets(n, t, lim);
    Tree.WalkTargets(n, t, n);
    BelowMembers(Tree.Up(n, t, n), lim);
    forall i: nat ensures i in Tree.Up(n, t, lim) <==> i in Below(Tree.Up(n, t, n), lim) {
      WalkIsChildren(n, t, lim, i);
      WalkIsChildren(n, t, n, i);
    }
    IncreasingUnique(Tree.Up(n, t, lim), Below(Tree.Up(n, t, n), lim));
  }

  /** The tree of every regular squad is one the protocol works on. */
  lemma SquadWellFormed(n: nat)
    requires Regular(n)
    ensures WellFormed(Squad(n))
  {
    var tp := Squad(n);
    forall t: nat, lim: nat | t < tp.n && lim <= tp.n
      ensures IsWalk(tp, t, lim, tp.up(t, lim)) && IsWalk(tp, t, lim, tp.down(t, lim))
      ensures tp.up(t, lim) == Below(tp.up(t, tp.n), lim)
    {
      WalksAreWalks(n, t, lim);
      LimitedWalk(n, t, lim);
    }
  }

  lemma WellFormedVisits(n: nat, t: nat, i: nat)
    requires n >= 1 && WellFormed(Squad(n)) && t < n && 0 < i < n && Tree.Visits(n, t, i)
    ensures t == Squad(n).parent(i)
  {
    assert IsWalk(Squad(n), t, n, Squad(n).up(t, n));
    Tree.UpLimited(n, t, n, i);
    assert i in Squad(n).up(t, n);
  }

  /** The protocol's demands on the tree are met for the regular squad sizes and for no others. */
  lemma WellFormedIffRegular(n: nat)
    requires n >= 1
    ensures WellFormed(Squad(n)) <==> Regular(n)
  {
    if Regular(n) {
      SquadWellFormed(n);
    }
    if WellFormed(Squad(n)) {
      forall t1, t2, i | 0 <= t1 < n && 0 <= t2 < n && 0 < i < n && Tree.Visits(n, t1, i) && Tree.Visits(n, t2, i)
        ensures t1 == t2
      {
        WellFormedVisits(n, t1, i);
        WellFormedVisits(n, t2, i);
      }
      UniqueControllerIffRegular(n);
    }
  }
}
