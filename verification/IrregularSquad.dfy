/**
Why an irregular squad cannot work: two threads visit the same thread b, thread 0 and a thread in (0, b). Thread 0
forks b before any thread in (0, b) can have started, so b has an OS thread handle by then. It keeps it, as no other
thread that visits b gets past forking it. So that thread never passes a run, and neither does thread 0.
*/
module IrregularSquad {
  import Tree = SquadTree
  import opened TreeShape
  import opened Protocol
  import opened StepFrames
  import opened PassOrder
  import opened PattonSquad

  // ----- who visits whom -----

  lemma VisitsAhead(n: nat, t: nat, i: nat)
    requires t < n && Tree.Visits(n, t, i)
    ensures t < i < n
  {
    Tree.IsTargetRange(t, Tree.NumSubthreads(n, t), Tree.Min(t + Tree.NumSubthreads(n, t), n), i);
  }

  lemma DownVisits(n: nat, t: nat, i: nat)
    requires n >= 1 && t < n
    ensures i in Squad(n).down(t, n) <==> Tree.Visits(n, t, i)
  {
    Tree.DownMembers(t, Tree.NumSubthreads(n, t), Tree.Min(t + Tree.NumSubthreads(n, t), n), i);
    assert Squad(n).down(t, n) == Tree.Down(n, t, n);
  }

  lemma UpVisits(n: nat, t: nat, i: nat)
    requires n >= 1 && t < n
    ensures i in Squad(n).up(t, n) <==> Tree.Visits(n, t, i)
  {
    Tree.UpLimited(n, t, n, i);
    if Tree.Visits(n, t, i) {
      VisitsAhead(n, t, i);
    }
    assert Squad(n).up(t, n) == Tree.Up(n, t, n);
  }

  /** All targets of a walk are threads that thread `t` visits. */
  ghost predicate AllVisited(n: nat, t: nat, walk: seq<nat>)
    requires t < n
  {
    forall i :: i in walk ==> Tree.Visits(n, t, i)
  }

  lemma DownAllVisited(n: nat, t: nat)
    requires n >= 1 && t < n
    ensures AllVisited(n, t, Squad(n).down(t, n))
  {
    forall i | i in Squad(n).down(t, n) ensures Tree.Visits(n, t, i) {
      DownVisits(n, t, i);
    }
  }

  /** Thread 0 visits `b`, and before any smaller thread; a thread between them visits `b` as well. */
  ghost predicate VisitedByBoth(n: nat, t: nat, b: nat) {
    && 0 < t < b < n
    && Tree.Visits(n, 0, b) && Tree.Visits(n, t, b)
    && LargerFirst(Squad(n).down(0, n), b)
  }

  lemma IrregularVisits(n: nat) returns (t: nat, b: nat)
    requires n >= 1 && !Regular(n)
    ensures VisitedByBoth(n, t, b)
  {
    var k: nat :| k >= 1 && !DividesAt(n, k);
    b := Tree.Stride(n, k);
    t := VisitedTwice(n, k);
    ZeroVisitsLargerFirst(n, 0, k);
    assert Squad(n).down(0, n) == Tree.DownTargets(0, n, n);
  }

  // ----- the invariant -----

  /** Thread 0 is done with forking thread `b`. */
  predicate ForkedFirst(s: State, b: nat)
    requires |s.th| > 0
  {
    !s.th[0].pc.Unborn? && b !in ForkRest(s.th[0].pc)
  }

  /** The thread visits only what the tree says; if it is in (0, b) and visits `b`, it never gets past forking it. */
  ghost predicate ThreadBlocked(n: nat, b: nat, forked: bool, t: nat, me: Thread)
    requires t < n
  {
    && AllVisited(n, t, ForkRest(me.pc))
    && (me.pc.Join? ==> AllVisited(n, t, me.pc.rest))
    && (0 < t < b && !me.pc.Unborn? ==> forked)
    && (0 < t < b && Tree.Visits(n, t, b) ==> me.pass == 0 && (me.pc.Unborn? || b in ForkRest(me.pc)))
  }

  ghost predicate Blocked(n: nat, b: nat, s: State) {
    && 0 < b < n == |s.th|
    && LargerFirst(ForkRest(s.th[0].pc), b)
    && (s.th[0].pc.Unborn? || s.th[0].hasHandle)
    && (ForkedFirst(s, b) ==> s.th[b].hasHandle)
    && forall t {:trigger s.th[t]} :: 0 <= t < n ==> ThreadBlocked(n, b, ForkedFirst(s, b), t, s.th[t])
  }

  /** As long as a thread that visits `b` is stuck, so is thread 0. */
  lemma ZeroWaits(n: nat, t: nat, b: nat, s: State)
    requires VisitedByBoth(n, t, b) && InOrder(Squad(n), s) && Blocked(n, b, s)
    ensures s.th[0].pass == 0 && !CallerHasAwaited(s)
  {
    assert ThreadBlocked(n, b, ForkedFirst(s, b), t, s.th[t]);
    if s.th[0].pass > 0 {
      AllPassed(n, s, t);
    }
  }

  // ----- every step keeps it -----

  /** A thread that joins others is not one that is stuck at `b`, so `b` is not joined. */
  lemma JoinerIsElsewhere(n: nat, b: nat, s: State, t: nat)
    requires Blocked(n, b, s) && InOrder(Squad(n), s) && s.th[0].pass == 0
    requires t < n && s.th[t].pc.Join? && s.th[t].pc.rest != []
    ensures s.th[t].pc.rest[0] != b && s.th[t].pc.rest[0] != 0
  {
    assert ThreadInOrder(s, s.th[t]) && ThreadBlocked(n, b, ForkedFirst(s, b), t, s.th[t]);
    VisitsAhead(n, t, s.th[t].pc.rest[0]);
  }

  /** Walks stay inside the tree. */
  lemma FrameKeepsWalks(n: nat, b: nat, s: State, t: nat, s': State)
    requires Blocked(n, b, s) && Frame(Squad(n), s, t, s')
    ensures s'.th[t].pc.Join? ==> AllVisited(n, t, s'.th[t].pc.rest)
  {
    assert ThreadBlocked(n, b, ForkedFirst(s, b), t, s.th[t]);
    if s'.th[t].pc.Join? && s.th[t].pc.JoinStart? {
      forall i | i in Squad(n).up(t, n) ensures Tree.Visits(n, t, i) {
        UpVisits(n, t, i);
      }
    }
  }

  lemma FrameKeepsBlocked(n: nat, b: nat, s: State, t: nat, s': State)
    requires Blocked(n, b, s) && InOrder(Squad(n), s) && s.th[0].pass == 0
    requires Frame(Squad(n), s, t, s') && !s.th[t].pc.ForkSpawn?
    ensures Blocked(n, b, s')
  {
    if s.th[t].pc.Join? && s.th[t].pc.rest != [] {
      JoinerIsElsewhere(n, b, s, t);
    }
    FrameKeepsWalks(n, b, s, t, s');
    forall u | 0 <= u < n ensures ThreadBlocked(n, b, ForkedFirst(s', b), u, s'.th[u]) {
      assert ThreadBlocked(n, b, ForkedFirst(s, b), u, s.th[u]);
    }
  }

  /** Only when thread 0 has forked `b` does a thread in (0, b) start; then `b` cannot be forked again. */
  lemma SpawnsAhead(n: nat, b: nat, s: State, t: nat, j: nat)
    requires Blocked(n, b, s) && t < n && s.th[t].pc.ForkSpawn?
    requires s.th[t].pc.rest != [] && j == s.th[t].pc.rest[0] && j < n && !s.th[j].hasHandle
    ensures t < j
    ensures 0 < j < b ==> ForkedFirst(s, b)
    ensures t > 0 ==> j != b || t >= b
  {
    assert ThreadBlocked(n, b, ForkedFirst(s, b), t, s.th[t]);
    VisitsAhead(n, t, j);
  }

  lemma TailOfWalk(n: nat, t: nat, walk: seq<nat>, b: nat)
    requires t < n && walk != []
    ensures AllVisited(n, t, walk) ==> AllVisited(n, t, walk[1..])
    ensures LargerFirst(walk, b) ==> LargerFirst(walk[1..], b)
    ensures b in walk <==> b == walk[0] || b in walk[1..]
  {
    assert walk == [walk[0]] + walk[1..];
  }

  /** Thread `t` has forked the first target of its walk. */
  ghost predicate Spawns(n: nat, s: State, t: nat, j: nat, s': State) {
    && n >= 1 && t < n == |s.th| && j < n
    && s.th[t].pc.ForkSpawn? && Addresses(s.th[t].pc.rest, j) && !s.th[j].hasHandle
    && s' == Set2(s, t, s.th[t].(pc := ForkReset(s.th[t].pc.rest[1..])), j,
         s.th[j].(hasHandle := true, forks := s.th[j].forks + 1, pc := ForkReset(Squad(n).down(j, n))))
  }

  lemma SpawnKeepsBlocked(n: nat, b: nat, s: State, t: nat, j: nat, s': State)
    requires Blocked(n, b, s) && Spawns(n, s, t, j, s')
    ensures Blocked(n, b, s')
  {
    hide Tree.Visits, LargerFirst, AllVisited;
    SpawnsAhead(n, b, s, t, j);
    DownVisits(n, j, b);
    DownAllVisited(n, j);
    TailOfWalk(n, t, s.th[t].pc.rest, b);
    forall u | 0 <= u < n ensures ThreadBlocked(n, b, ForkedFirst(s', b), u, s'.th[u]) {
      assert ThreadBlocked(n, b, ForkedFirst(s, b), u, s.th[u]);
    }
  }

  lemma SignalKeepsBlocked(n: nat, b: nat, s: State, t: nat)
    requires Blocked(n, b, s) && WorkerEnabled(s, t) && WorkerSafe(Squad(n), s, t) && s.th[t].pc.SetProcessed?
    ensures Blocked(n, b, WorkerStep(Squad(n), s, t))
  {
    SignalParts(Squad(n), s, t);
    hide WorkerSafe, WorkerStep;
    var s' := WorkerStep(Squad(n), s, t);
    forall u | 0 <= u < n ensures ThreadBlocked(n, b, ForkedFirst(s', b), u, s'.th[u]) {
      assert ThreadBlocked(n, b, ForkedFirst(s, b), u, s.th[u]);
    }
  }

  lemma WorkerKeepsBlocked(n: nat, b: nat, s: State, t: nat)
    requires n >= 1 && Blocked(n, b, s) && InOrder(Squad(n), s) && s.th[0].pass == 0
    requires WorkerEnabled(s, t) && WorkerSafe(Squad(n), s, t)
    ensures Blocked(n, b, WorkerStep(Squad(n), s, t))
  {
    assert n == |s.th|;
    hide Blocked, InOrder, WorkerSafe, WorkerStep;
    if s.th[t].pc.ForkSpawn? {
      SpawnParts(Squad(n), s, t);
      SpawnKeepsBlocked(n, b, s, t, s.th[t].pc.rest[0], WorkerStep(Squad(n), s, t));
    } else if s.th[t].pc.SetProcessed? {
      SignalKeepsBlocked(n, b, s, t);
    } else {
      StepFrame(Squad(n), s, t, WorkerStep(Squad(n), s, t));
      FrameKeepsBlocked(n, b, s, t, WorkerStep(Squad(n), s, t));
    }
  }

  lemma MainForkKeepsBlocked(n: nat, t: nat, b: nat, s: State)
    requires VisitedByBoth(n, t, b) && Blocked(n, b, s) && MainEnabled(s) && MainSafe(s) && s.main == MainFork
    ensures Blocked(n, b, MainStep(Squad(n), s))
  {
    var s' := MainStep(Squad(n), s);
    DownVisits(n, 0, b);
    DownAllVisited(n, 0);
    forall u | 0 <= u < n ensures ThreadBlocked(n, b, ForkedFirst(s', b), u, s'.th[u]) {
      assert ThreadBlocked(n, b, ForkedFirst(s, b), u, s.th[u]);
    }
  }

  lemma MainKeepsBlocked(n: nat, t: nat, b: nat, s: State)
    requires VisitedByBoth(n, t, b) && Blocked(n, b, s) && !CallerHasAwaited(s) && InOrder(Squad(n), s)
    requires MainEnabled(s) && MainSafe(s)
    ensures Blocked(n, b, MainStep(Squad(n), s))
  {
    if s.main == MainFork {
      MainForkKeepsBlocked(n, t, b, s);
    } else {
      var s' := MainStep(Squad(n), s);
      forall u | 0 <= u < n ensures ThreadBlocked(n, b, ForkedFirst(s', b), u, s'.th[u]) {
        assert ThreadBlocked(n, b, ForkedFirst(s, b), u, s.th[u]);
      }
    }
  }

  lemma BeginKeepsBlocked(n: nat, b: nat, s: State, task: Task, s': State)
    requires Blocked(n, b, s) && Begins(Squad(n), s, task, s')
    ensures Blocked(n, b, s')
  {
    forall u | 0 <= u < n ensures ThreadBlocked(n, b, ForkedFirst(s', b), u, s'.th[u]) {
      assert ThreadBlocked(n, b, ForkedFirst(s, b), u, s.th[u]);
    }
  }

  lemma NextKeepsBlocked(n: nat, t: nat, b: nat, s: State, s': State)
    requires VisitedByBoth(n, t, b) && Blocked(n, b, s) && InOrder(Squad(n), s) && Next(Squad(n), s, s')
    ensures Blocked(n, b, s')
  {
    ZeroWaits(n, t, b, s);
    hide InOrder, Blocked, VisitedByBoth, WorkerStep, MainStep, Begins, WorkerEnabled, WorkerSafe, MainEnabled,
      MainSafe;
    var tp := Squad(n);
    if Steps(tp, s, s') {
      var a :| Enabled(s, a) && Safe(tp, s, a) && s' == Step(tp, s, a);
      match a
      case Caller => MainKeepsBlocked(n, t, b, s);
      case Worker(u) => WorkerKeepsBlocked(n, b, s, u);
    } else {
      var task :| Begins(tp, s, task, s');
      BeginKeepsBlocked(n, b, s, task, s');
    }
  }

  lemma {:induction false} ExecutionKeepsBlocked(n: nat, t: nat, b: nat, states: seq<State>, k: nat)
    requires VisitedByBoth(n, t, b) && IsExecution(Squad(n), states) && k < |states|
    ensures Blocked(n, b, states[k])
    decreases k
  {
    if k > 0 {
      ExecutionKeepsBlocked(n, t, b, states, k - 1);
      ExecutionKeepsOrder(Squad(n), states, k - 1);
      assert Next(Squad(n), states[k - 1], states[k - 1 + 1]);
      NextKeepsBlocked(n, t, b, states[k - 1], states[k]);
    }
  }

  /**
  In an irregular squad some thread that is visited twice has a visitor that, whatever happens, is never done with
  forking it and never passes a run, unless an assertion is violated.
  */
  lemma SomeThreadIsStuck(n: nat, s: State) returns (t: nat, b: nat)
    requires n >= 1 && !Regular(n) && Reachable(Squad(n), s)
    ensures 0 < t < b < n == |s.th| && Tree.Visits(n, 0, b) && Tree.Visits(n, t, b)
    ensures s.th[t].pass == 0 && (s.th[t].pc.Unborn? || b in ForkRest(s.th[t].pc))
  {
    var states :| IsExecution(Squad(n), states) && states[|states| - 1] == s;
    t, b := IrregularVisits(n);
    ExecutionKeepsBlocked(n, t, b, states, |states| - 1);
    assert ThreadBlocked(n, b, ForkedFirst(s, b), t, s.th[t]);
  }
}
