/** What holds of the passes of the threads in any tree, the irregular ones included: safe steps are all it takes. */
module PassOrder {
  import Tree = SquadTree
  import opened TreeShape
  import opened Protocol
  import opened ProtocolInvariant
  import opened StepFrames
  import opened PattonSquad

  // ----- a thread has passed a run only after the threads it waits for -----

  /** Thread `me` has found that its target `i` has completed a run. */
  predicate Awaited(me: Thread, i: nat) {
    me.pass > 0 ||
    match me.pc
    case AwaitSub(rest) => i !in rest
    case Merge(rest) => i !in rest || rest[0] == i
    case ResetAvailable | SetProcessed => true
    case _ => false
  }

  ghost predicate HasAwaited(tp: Topology, s: State, t: nat, i: nat)
    requires t < |s.th|
  {
    i in tp.up(t, tp.n) && Awaited(s.th[t], i)
  }

  /** The caller of `run` has found that thread 0 has completed a run. */
  predicate CallerHasAwaited(s: State) {
    s.runs > 0 && (s.main == MainJoin || s.main == Release || s.main == Idle || s.main == Destroyed)
  }

  /** The current run, or the last one, requests joining. */
  predicate Ending(s: State) {
    s.runs > 0 && s.cur.joinRequested
  }

  /** The thread has been told to leave, has left, or has even been started again. */
  predicate ToldToLeave(me: Thread) {
    me.joinRequested || Leaves(me.pc) || (!me.hasHandle && !me.pc.Unborn?) || (Forks(me.pc) && me.pass > 0)
  }

  predicate ThreadInOrder(s: State, me: Thread) {
    && (me.processed || Leaves(me.pc) ==> me.pass > 0)
    && (me.pc.Unborn? ==> me.pass == 0)
    && (ToldToLeave(me) ==> Ending(s))
  }

  ghost predicate CallerInOrder(s: State) {
    && (s.task.Some? ==> s.runs > 0 && s.task.value == s.cur)
    && (Ending(s) ==> s.main != Idle)
    && (s.main == MainJoin ==> Ending(s))
  }

  ghost predicate InOrder(tp: Topology, s: State) {
    && |s.th| == tp.n
    && CallerInOrder(s)
    && (forall t :: 0 <= t < tp.n ==> ThreadInOrder(s, s.th[t]))
    && (forall t, i {:trigger HasAwaited(tp, s, t, i)} ::
          0 <= t < tp.n && 0 <= i < tp.n && HasAwaited(tp, s, t, i) ==> s.th[i].pass > 0)
    && (CallerHasAwaited(s) && tp.n > 0 ==> s.th[0].pass > 0)
  }

  /** No thread loses a pass, and what a thread has found out was already so. */
  lemma KeepsOrder(tp: Topology, s: State, s': State)
    requires InOrder(tp, s) && |s'.th| == tp.n && CallerInOrder(s')
    requires forall i :: 0 <= i < tp.n ==> s'.th[i].pass >= s.th[i].pass && ThreadInOrder(s', s'.th[i])
    requires forall t, i :: 0 <= t < tp.n && 0 <= i < tp.n && HasAwaited(tp, s', t, i) ==>
      HasAwaited(tp, s, t, i) || s.th[i].pass > 0
    requires CallerHasAwaited(s') && tp.n > 0 ==> CallerHasAwaited(s) || s.th[0].pass > 0
    ensures InOrder(tp, s')
  {
    hide ThreadInOrder, CallerInOrder, CallerHasAwaited;
    forall t, i | 0 <= t < tp.n && 0 <= i < tp.n && HasAwaited(tp, s', t, i) ensures s'.th[i].pass > 0 {
      assert HasAwaited(tp, s, t, i) || s.th[i].pass > 0;
    }
  }

  /** A first pass starts to wait for all targets of the walk, and what it then finds is `processed`. */
  lemma MoveAwaits(tp: Topology, s: State, t: nat, s': State, i: nat)
    requires Frame(tp, s, t, s') && WorkerEnabled(s, t) && i in tp.up(t, tp.n) && i < |s.th|
    requires Awaited(s'.th[t], i) && ThreadInOrder(s, s.th[i])
    ensures Awaited(s.th[t], i) || s.th[i].pass > 0
  {
    hide Signals, ToldToLeave;
    if s.th[t].pass == 0 {
      assert NumThreadsForTask(tp, s, t) == tp.n;
    }
  }

  lemma SameAwaits(me: Thread, me': Thread, i: nat)
    requires me'.pc == me.pc && me'.pass == me.pass
    ensures Awaited(me', i) == Awaited(me, i)
  {
  }

  lemma FrameKeepsThread(tp: Topology, s: State, t: nat, s': State, i: nat)
    requires InOrder(tp, s) && Frame(tp, s, t, s') && !s.th[t].pc.ForkSpawn? && i < |s.th|
    ensures ThreadInOrder(s', s'.th[i])
  {
    hide WorkerWrites, NumThreadsForTask, HasAwaited;
    assert ThreadInOrder(s, s.th[i]) && ThreadInOrder(s, s.th[t]);
  }

  lemma FrameKeepsOrder(tp: Topology, s: State, t: nat, s': State)
    requires InOrder(tp, s) && Frame(tp, s, t, s') && WorkerEnabled(s, t) && !s.th[t].pc.ForkSpawn?
    ensures InOrder(tp, s')
  {
    hide Moves, WorkerEnabled, Signals, ThreadInOrder, Awaited;
    forall i | 0 <= i < tp.n ensures ThreadInOrder(s', s'.th[i]) {
      FrameKeepsThread(tp, s, t, s', i);
    }
    forall u, i | 0 <= u < tp.n && 0 <= i < tp.n && HasAwaited(tp, s', u, i)
      ensures HasAwaited(tp, s, u, i) || s.th[i].pass > 0
    {
      if u == t {
        MoveAwaits(tp, s, t, s', i);
      } else {
        assert s'.th[u].pc == s.th[u].pc && s'.th[u].pass == s.th[u].pass;
        SameAwaits(s.th[u], s'.th[u], i);
      }
    }
    KeepsOrder(tp, s, s');
  }

  lemma SpawnKeepsOrder(tp: Topology, s: State, t: nat)
    requires InOrder(tp, s) && WorkerEnabled(s, t) && WorkerSafe(tp, s, t) && s.th[t].pc.ForkSpawn?
    ensures InOrder(tp, WorkerStep(tp, s, t))
  {
    SpawnParts(tp, s, t);
    hide WorkerEnabled, WorkerSafe, WorkerStep;
    KeepsOrder(tp, s, WorkerStep(tp, s, t));
  }

  lemma SignalKeepsOrder(tp: Topology, s: State, t: nat)
    requires InOrder(tp, s) && WorkerEnabled(s, t) && WorkerSafe(tp, s, t) && s.th[t].pc.SetProcessed?
    ensures InOrder(tp, WorkerStep(tp, s, t))
  {
    SignalParts(tp, s, t);
    hide WorkerSafe, WorkerStep;
    KeepsOrder(tp, s, WorkerStep(tp, s, t));
  }

  lemma WorkerKeepsOrder(tp: Topology, s: State, t: nat)
    requires InOrder(tp, s) && WorkerEnabled(s, t) && WorkerSafe(tp, s, t)
    ensures InOrder(tp, WorkerStep(tp, s, t))
  {
    hide InOrder, WorkerSafe, WorkerStep;
    if s.th[t].pc.ForkSpawn? {
      SpawnKeepsOrder(tp, s, t);
    } else if s.th[t].pc.SetProcessed? {
      SignalKeepsOrder(tp, s, t);
    } else {
      StepFrame(tp, s, t, WorkerStep(tp, s, t));
      FrameKeepsOrder(tp, s, t, WorkerStep(tp, s, t));
    }
  }

  lemma MainKeepsOrder(tp: Topology, s: State)
    requires InOrder(tp, s) && MainEnabled(s) && MainSafe(s)
    ensures InOrder(tp, MainStep(tp, s))
  {
    KeepsOrder(tp, s, MainStep(tp, s));
  }

  lemma BeginKeepsOrder(tp: Topology, s: State, task: Task, s': State)
    requires InOrder(tp, s) && Begins(tp, s, task, s')
    ensures InOrder(tp, s')
  {
    KeepsOrder(tp, s, s');
  }

  lemma NextKeepsOrder(tp: Topology, s: State, s': State)
    requires InOrder(tp, s) && Next(tp, s, s')
    ensures InOrder(tp, s')
  {
    hide InOrder, WorkerStep, MainStep, Begins, WorkerEnabled, WorkerSafe, MainEnabled, MainSafe;
    if Steps(tp, s, s') {
      var a :| Enabled(s, a) && Safe(tp, s, a) && s' == Step(tp, s, a);
      match a
      case Caller => MainKeepsOrder(tp, s);
      case Worker(t) => WorkerKeepsOrder(tp, s, t);
    } else {
      var task :| Begins(tp, s, task, s');
      BeginKeepsOrder(tp, s, task, s');
    }
  }

  lemma {:induction false} ExecutionKeepsOrder(tp: Topology, states: seq<State>, k: nat)
    requires IsExecution(tp, states) && k < |states|
    ensures InOrder(tp, states[k])
    decreases k
  {
    if k > 0 {
      ExecutionKeepsOrder(tp, states, k - 1);
      assert Next(tp, states[k - 1], states[k]);
      NextKeepsOrder(tp, states[k - 1], states[k]);
    }
  }

  /**
  A thread that forks the threads it visits has all threads of the squad in its walk, as the source asserts: it is in
  its first pass, or joining is requested. This holds in any tree, even for a thread that is started a second time.
  */
  lemma ForksWholeSquad(tp: Topology, s: State, t: nat)
    requires Reachable(tp, s) && t < tp.n
    ensures t < |s.th| && (Forks(s.th[t].pc) ==> NumThreadsForTask(tp, s, t) == tp.n)
  {
    var states :| IsExecution(tp, states) && states[|states| - 1] == s;
    ExecutionKeepsOrder(tp, states, |states| - 1);
    assert ThreadInOrder(s, s.th[t]);
  }

  // ----- squads of n threads -----

  lemma ControllerAwaits(n: nat, i: nat)
    requires 0 < i < n
    ensures i in Squad(n).up(Controller(n, i), n)
  {
    EveryThreadHasController(n, i);
    Tree.UpLimited(n, Controller(n, i), n, i);
    assert Squad(n).up(Controller(n, i), n) == Tree.Up(n, Controller(n, i), n);
  }

  /** Once thread 0 has passed a run, every thread has: each is awaited by a thread of smaller index. */
  lemma {:induction false} AllPassed(n: nat, s: State, i: nat)
    requires n >= 1 && InOrder(Squad(n), s) && s.th[0].pass > 0 && i < n
    ensures s.th[i].pass > 0
    decreases i
  {
    if i > 0 {
      AllPassed(n, s, Controller(n, i));
      ControllerAwaits(n, i);
      assert HasAwaited(Squad(n), s, Controller(n, i), i);
    }
  }

  /** When `run` has returned, every thread of the squad has passed a run, for any n. */
  lemma ReturnedHavePassed(n: nat, s: State, i: nat)
    requires n >= 1 && Reachable(Squad(n), s) && s.runs > 0 && !Running(s.main) && i < n
    ensures |s.th| == n && s.th[i].pass > 0
  {
    var states :| IsExecution(Squad(n), states) && states[|states| - 1] == s;
    ExecutionKeepsOrder(Squad(n), states, |states| - 1);
    AllPassed(n, s, i);
  }
}
