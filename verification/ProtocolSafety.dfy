/** What the squad guarantees in every reachable state: results, barriers, flags, and lifetimes of tasks and threads. */
module ProtocolSafety {
  import opened Wrappers
  import opened Protocol
  import opened TreeFold
  import opened ProtocolInvariant
  import opened StepFrames
  import opened ProtocolSteps
  import opened ProtocolRuns

  // ----- what a run leaves behind -----

  /** `run` has returned: the task pointer is withdrawn. */
  ghost predicate Returned(tp: Topology, s: State) {
    WellFormed(tp) && Reachable(tp, s) && s.runs > 0 && !Running(s.main)
  }

  /**
  When `run` returns, the threads below `concurrency` have executed the task exactly once, no other thread has,
  and every thread of the squad is quiescent, in the first run as in later ones.
  */
  lemma ExactlyOnce(tp: Topology, s: State, i: nat)
    requires Returned(tp, s) && i < tp.n
    ensures |s.th| == tp.n && s.cur.concurrency <= tp.n
    ensures s.th[i].executed == (if i < s.cur.concurrency then 1 else 0)
    ensures !s.th[i].available && s.th[i].processed
    ensures s.th[i].pc == if s.cur.joinRequested then Exited else TaskWait
  {
    ReachableInv(tp, s);
    ContractAt(tp, s, i);
    if i < RunLimit(tp, s.runs, s.cur) {
      Finished(tp, s, i);
      if s.main == Destroyed {
        AllExited(tp, s, i);
      }
    }
  }

  /** The value of a `transform_reduce` is in thread 0's slot, and all other slots have been merged away. */
  lemma ReducedValue(tp: Topology, s: State, i: nat)
    requires Returned(tp, s) && i < tp.n && s.cur.kind.TransformReduce? && s.cur.concurrency > 0
    ensures |s.th| == tp.n && s.cur.concurrency <= tp.n
    ensures s.th[i].value == if i == 0 then Some(Fold(tp, s.cur.kind.red, s.cur.concurrency, 0)) else None
  {
    ExactlyOnce(tp, s, i);
    ReachableInv(tp, s);
    ContractAt(tp, s, i);
    if 0 < i < RunLimit(tp, s.runs, s.cur) {
      Finished(tp, s, tp.parent(i));
      ContractAt(tp, s, tp.parent(i));
    }
  }

  /** A participant that is about to signal its completion has merged what the threads below it have left. */
  lemma CompletedValue(tp: Topology, s: State, t: nat)
    requires WellFormed(tp) && Reachable(tp, s) && s.runs > 0
    requires s.cur.kind.TransformReduce? && t < s.cur.concurrency && t < |s.th|
    requires s.th[t].pc.ResetAvailable? || s.th[t].pc.SetProcessed?
    ensures |s.th| == tp.n && s.cur.concurrency <= tp.n
    ensures s.th[t].value == Some(Fold(tp, s.cur.kind.red, s.cur.concurrency, t))
  {
    hide HistoryOk, DataOk, HandshakeOk, BystanderOk, SyncOk, HandleOk, CountersOk, MainOk, MainLink, LinkOf, Merging,
      Fold, FoldRest;
    ReachableInv(tp, s);
    ContractAt(tp, s, t);
  }

  /** All participants got the same results from their synchronisation calls; thread 0 applied each transform once. */
  lemma SynchronisedResults(tp: Topology, s: State, i: nat)
    requires Returned(tp, s) && i < tp.n && s.cur.concurrency > 0
    ensures |s.th| == tp.n && s.cur.concurrency <= tp.n
    ensures s.th[i].log == if i < s.cur.concurrency then Results(tp, s.cur, |s.cur.rounds|) else []
    ensures s.th[i].transforms == if i == 0 then TransformLog(s.cur, |s.cur.rounds|) else []
  {
    ExactlyOnce(tp, s, i);
    ReachableInv(tp, s);
    ContractAt(tp, s, i);
  }

  /** The log of transforms lists the rounds with a transform, each once and in order. */
  lemma {:induction false} TransformLogMembers(task: Task, k: nat, r: nat)
    requires k <= |task.rounds|
    ensures r in TransformLog(task, k) <==> r < k && task.rounds[r].ReduceTransform?
    ensures forall a, b :: 0 <= a < b < |TransformLog(task, k)| ==> TransformLog(task, k)[a] < TransformLog(task, k)[b]
    decreases k
  {
    if k > 0 {
      var log := TransformLog(task, k - 1);
      TransformLogMembers(task, k - 1, r);
      forall a | 0 <= a < |log| ensures log[a] < k - 1 {
        assert log[a] in log;
        TransformLogMembers(task, k - 1, log[a]);
      }
    }
  }

  /** The outcome of a task depends on the task and the tree alone, for any operator, whatever the schedule. */
  lemma ScheduleIndependent(tp: Topology, s1: State, s2: State, i: nat)
    requires Returned(tp, s1) && Returned(tp, s2) && s1.cur == s2.cur && s1.cur.concurrency > 0 && i < tp.n
    ensures |s1.th| == |s2.th| == tp.n
    ensures s1.th[i].log == s2.th[i].log
    ensures s1.cur.kind.TransformReduce? ==> s1.th[i].value == s2.th[i].value
  {
    SynchronisedResults(tp, s1, i);
    SynchronisedResults(tp, s2, i);
    if s1.cur.kind.TransformReduce? {
      ReducedValue(tp, s1, i);
      ReducedValue(tp, s2, i);
    }
  }

  lemma {:induction false} ResultAt(tp: Topology, task: Task, k: nat, r: nat)
    requires WellFormed(tp) && 0 < task.concurrency <= tp.n && r < k <= |task.rounds|
    ensures Results(tp, task, k)[r] == ResultOf(tp, task, r)
    decreases k
  {
    if r < k - 1 {
      ResultAt(tp, task, k - 1, r);
    }
  }

  /** A participant never returns anything but the common result from a synchronisation call, at any time in a run. */
  lemma ResultsSoFar(tp: Topology, s: State, i: nat, r: nat)
    requires WellFormed(tp) && Reachable(tp, s) && s.runs > 0 && s.cur.concurrency > 0
    requires i < |s.th| && r < |s.th[i].log|
    ensures s.cur.concurrency <= tp.n
    ensures r < |s.cur.rounds| && s.th[i].log[r] == ResultOf(tp, s.cur, r)
  {
    ReachableInv(tp, s);
    ContractAt(tp, s, i);
    ResultAt(tp, s.cur, |s.th[i].log|, r);
  }

  // ----- who sleeps -----

  lemma SleeperIsNotEnabled(tp: Topology, s: State, i: nat)
    requires Inv(tp, s) && s.runs > 1 && !s.cur.joinRequested && s.cur.concurrency <= i < tp.n
    ensures 0 < s.cur.concurrency && !WorkerEnabled(s, i)
  {
    ContractAt(tp, s, i);
  }

  lemma SleeperIsNotAddressed(tp: Topology, s: State, t: nat, i: nat)
    requires Inv(tp, s) && s.runs > 1 && !s.cur.joinRequested && s.cur.concurrency <= i < tp.n && t < tp.n
    ensures !Addresses(RestOf(s.th[t].pc), i)
  {
    PlaceAt(tp, s, t);
  }

  /** In a later run that does not request joining, no step touches a thread that takes no part. */
  lemma StepLeavesSleepers(tp: Topology, s: State, a: Actor, i: nat)
    requires Inv(tp, s) && s.runs > 1 && !s.cur.joinRequested && s.cur.concurrency <= i < tp.n
    requires Enabled(s, a) && Safe(tp, s, a)
    ensures |Step(tp, s, a).th| == |s.th| == tp.n && Step(tp, s, a).th[i] == s.th[i]
  {
    SleeperIsNotEnabled(tp, s, i);
    match a
    case Caller =>
    case Worker(t) =>
      SleeperIsNotAddressed(tp, s, t, i);
      StepElsewhere(tp, s, t, i);
  }

  // ----- the barrier -----

  /** Thread `t` has been let past the waiting point of its synchronisation call number `r`. */
  ghost predicate Left(s: State, t: nat, r: nat)
    requires t < |s.th|
  {
    Passed(s.th[t], s.runs, |s.cur.rounds|) > r
  }

  /** Thread `t` has entered its synchronisation call number `r` and reported in, for all the threads below it. */
  ghost predicate Arrived(s: State, t: nat, r: nat)
    requires t < |s.th|
  {
    if t == 0 then Left(s, t, r) else Raised(s.th[t], s.runs, |s.cur.rounds|) > r
  }

  lemma {:induction false} RootLeft(tp: Topology, s: State, t: nat, r: nat)
    requires Inv(tp, s) && s.runs > 0 && t < s.cur.concurrency && Left(s, t, r)
    ensures Left(s, 0, r)
    decreases t
  {
    if t > 0 {
      ContractAt(tp, s, t);
      RootLeft(tp, s, tp.parent(t), r);
    }
  }

  lemma {:induction false} AllArrived(tp: Topology, s: State, i: nat, r: nat)
    requires Inv(tp, s) && s.runs > 0 && i < s.cur.concurrency && Left(s, 0, r)
    ensures Arrived(s, i, r)
    decreases i
  {
    if i > 0 {
      ContractAt(tp, s, i);
      AllArrived(tp, s, tp.parent(i), r);
    }
  }

  /** No thread leaves its r-th synchronisation before all participants have entered theirs. */
  lemma BarrierSafety(tp: Topology, s: State, t: nat, i: nat, r: nat)
    requires WellFormed(tp) && Reachable(tp, s) && s.runs > 0
    requires t < s.cur.concurrency <= tp.n && i < s.cur.concurrency
    requires |s.th| == tp.n && Left(s, t, r)
    ensures Arrived(s, i, r)
  {
    ReachableInv(tp, s);
    RootLeft(tp, s, t, r);
    AllArrived(tp, s, i, r);
  }

  lemma LogIsBase(tp: Topology, s: State, i: nat)
    requires Inv(tp, s) && s.runs > 0 && i < s.cur.concurrency <= tp.n
    ensures i < |s.th| && |s.th[i].log| == Base(s.th[i], s.runs, |s.cur.rounds|)
  {
    hide SyncOk, HandleOk, CountersOk, HandshakeOk, BystanderOk, DataOk, ValueOk, LinkOf, MainLink, MainOk;
    ContractAt(tp, s, i);
  }

  /** The same in terms of what the calls have returned: when one has, every participant is at least waiting in it. */
  lemma BarrierByLogs(tp: Topology, s: State, t: nat, i: nat, r: nat)
    requires WellFormed(tp) && Reachable(tp, s) && s.runs > 0
    requires t < s.cur.concurrency <= tp.n && i < s.cur.concurrency
    requires |s.th| == tp.n && |s.th[t].log| > r
    ensures var pc := s.th[i].pc;
      |s.th[i].log| > r || ((pc.AwaitBroadcast? || pc.Unpublish? || Broadcasts(pc)) && pc.round == r)
  {
    hide Inv, PlaceOk;
    ReachableInv(tp, s);
    LogIsBase(tp, s, t);
    LogIsBase(tp, s, i);
    BarrierSafety(tp, s, t, i, r);
  }

  lemma WaitsForIt(tp: Topology, s: State, t: nat, j: nat)
    requires Inv(tp, s) && s.runs > 0 && t < tp.n && Kid(tp, t, j) && j < s.cur.concurrency
    requires s.th[t].pc.CollectData? || Broadcasts(s.th[t].pc)
    requires s.th[t].pc.rest != [] && j == s.th[t].pc.rest[0]
    ensures s.th[j].pc == AwaitBroadcast(s.th[t].pc.round)
  {
    ContractAt(tp, s, j);
  }

  /**
  However far ahead other threads are: when a thread reads or writes a controlled thread's synchronisation data in
  round `r`, that thread is in round `r` too, waiting, with its own data published.
  */
  lemma NothingStale(tp: Topology, s: State, t: nat)
    requires WellFormed(tp) && Reachable(tp, s) && s.runs > 0 && t < |s.th|
    requires (s.th[t].pc.CollectData? || Broadcasts(s.th[t].pc)) && s.th[t].pc.rest != []
    ensures var j := s.th[t].pc.rest[0];
      && j < |s.th|
      && s.th[j].pc == AwaitBroadcast(s.th[t].pc.round)
      && s.th[t].pc.round < |s.cur.rounds|
      && s.th[j].published == !s.cur.rounds[s.th[t].pc.round].Barrier?
  {
    ReachableInv(tp, s);
    PlaceAt(tp, s, t);
    var j := s.th[t].pc.rest[0];
    WaitsForIt(tp, s, t, j);
    ContractAt(tp, s, j);
  }

  /** A thread that sees `broadcasting` holds the result of the round it is waiting in. */
  lemma FreshResult(tp: Topology, s: State, t: nat)
    requires WellFormed(tp) && Reachable(tp, s) && s.runs > 0 && t < |s.th|
    requires s.th[t].pc.AwaitBroadcast? && s.th[t].broadcasting
    ensures 0 < s.cur.concurrency <= tp.n && s.th[t].pc.round < |s.cur.rounds|
    ensures HasResult(tp, s.cur, s.th[t].pc.round, s.th[t])
  {
    ReachableInv(tp, s);
    ContractAt(tp, s, t);
  }

  // ----- who may write a flag -----

  /** The next step of `a` stores to flag `f` of thread `i`. */
  predicate Writes(s: State, a: Actor, f: Flag, i: nat) {
    match a
    case Caller =>
      i == 0 && ((s.main == MainReset && f == Processed) || (s.main == MainNotify && f == Available))
    case Worker(t) => t < |s.th| && WorkerWrites(s.th[t].pc, t, f, i)
  }

  /** The controller of thread `i`: the caller of `run` for thread 0. */
  function ControllerOf(tp: Topology, i: nat): Actor {
    if i == 0 then Caller else Worker(tp.parent(i))
  }

  /** What may have happened to thread `i` when thread `t` has stepped. */
  ghost predicate Touched(s: State, t: nat, f: Flag, i: nat, s': State)
    requires t < |s.th| && i < |s.th|
  {
    && |s'.th| == |s.th|
    && (FlagOf(s'.th[i], f) != FlagOf(s.th[i], f) ==> WorkerWrites(s.th[t].pc, t, f, i))
    && (SameHandle(s.th[i], s'.th[i]) || ForksOrJoins(s.th[t].pc, i))
  }

  lemma FrameTouches(tp: Topology, s: State, t: nat, f: Flag, i: nat, s': State)
    requires Frame(tp, s, t, s') && i < |s.th|
    ensures Touched(s, t, f, i, s')
  {
    hide WorkerWrites, Moves, Calm;
    assert Keeps(s, t, i, s'.th[i]);
  }

  lemma SpawnTouches(tp: Topology, s: State, t: nat, f: Flag, i: nat)
    requires WorkerEnabled(s, t) && WorkerSafe(tp, s, t) && s.th[t].pc.ForkSpawn? && i < |s.th|
    ensures Touched(s, t, f, i, WorkerStep(tp, s, t))
  {
    SpawnParts(tp, s, t);
    hide WorkerStep, WorkerSafe, WorkerEnabled;
  }

  lemma SignalTouches(tp: Topology, s: State, t: nat, f: Flag, i: nat)
    requires WorkerEnabled(s, t) && WorkerSafe(tp, s, t) && s.th[t].pc.SetProcessed? && i < |s.th|
    ensures Touched(s, t, f, i, WorkerStep(tp, s, t))
  {
    SignalParts(tp, s, t);
    hide WorkerStep, WorkerSafe;
  }

  lemma WorkerTouches(tp: Topology, s: State, t: nat, f: Flag, i: nat)
    requires WorkerEnabled(s, t) && WorkerSafe(tp, s, t) && i < |s.th|
    ensures Touched(s, t, f, i, WorkerStep(tp, s, t))
  {
    hide WorkerStep, WorkerSafe, Frame, Touched;
    if s.th[t].pc.ForkSpawn? {
      SpawnTouches(tp, s, t, f, i);
    } else if s.th[t].pc.SetProcessed? {
      SignalTouches(tp, s, t, f, i);
    } else {
      StepFrame(tp, s, t, WorkerStep(tp, s, t));
      FrameTouches(tp, s, t, f, i, WorkerStep(tp, s, t));
    }
  }

  lemma CallerTouches(tp: Topology, s: State, f: Flag, i: nat)
    requires MainEnabled(s) && MainSafe(s) && i < |s.th|
    ensures var s' := MainStep(tp, s);
      && |s'.th| == |s.th|
      && (FlagOf(s'.th[i], f) != FlagOf(s.th[i], f) ==> Writes(s, Caller, f, i))
      && (s'.th[i].forks != s.th[i].forks || s'.th[i].joins != s.th[i].joins ==> i == 0 && Running(s.main))
  {
  }

  /** In every reachable state, a flag only changes when an actor steps that is named as its writer. */
  lemma FlagsChangeByWriting(tp: Topology, s: State, a: Actor, f: Flag, i: nat)
    requires WellFormed(tp) && Reachable(tp, s) && Enabled(s, a) && Safe(tp, s, a) && i < tp.n
    ensures |Step(tp, s, a).th| == |s.th| == tp.n
    ensures FlagOf(Step(tp, s, a).th[i], f) != FlagOf(s.th[i], f) ==> Writes(s, a, f, i)
  {
    hide WorkerStep, MainStep, WorkerWrites, FlagOf;
    ReachableInv(tp, s);
    match a
    case Caller => CallerTouches(tp, s, f, i);
    case Worker(t) => WorkerTouches(tp, s, t, f, i);
  }

  lemma WriterIsOwnerOrController(tp: Topology, s: State, a: Actor, f: Flag, i: nat)
    requires Inv(tp, s) && s.runs > 0 && i < tp.n && Writes(s, a, f, i)
    ensures a == Worker(i) || a == ControllerOf(tp, i)
  {
    if a.Worker? && a.t != i {
      PlaceAt(tp, s, a.t);
    }
  }

  lemma OwnerOrController(tp: Topology, s: State, f: Flag, i: nat)
    requires Inv(tp, s) && s.runs > 0 && i < tp.n
    ensures !(Writes(s, Worker(i), f, i) && Writes(s, ControllerOf(tp, i), f, i))
  {
    ContractAt(tp, s, i);
    if i > 0 && Writes(s, ControllerOf(tp, i), f, i) {
      PlaceAt(tp, s, tp.parent(i));
      if Broadcasts(s.th[tp.parent(i)].pc) {
        WaitsForIt(tp, s, tp.parent(i), i);
      }
    }
  }

  /** In every reachable state each flag has at most one writer: its thread or that thread's controller. */
  lemma SingleWriter(tp: Topology, s: State, a: Actor, b: Actor, f: Flag, i: nat)
    requires WellFormed(tp) && Reachable(tp, s) && s.runs > 0 && i < tp.n
    requires Writes(s, a, f, i) && Writes(s, b, f, i)
    ensures a == b && (a == Worker(i) || a == ControllerOf(tp, i))
  {
    ReachableInv(tp, s);
    WriterIsOwnerOrController(tp, s, a, f, i);
    WriterIsOwnerOrController(tp, s, b, f, i);
    OwnerOrController(tp, s, f, i);
  }

  /** The next step of `a` sets the flag that it writes; if it writes one without setting it, it resets it. */
  predicate Raises(s: State, a: Actor) {
    match a
    case Caller => s.main == MainNotify
    case Worker(t) =>
      t < |s.th| &&
      var pc := s.th[t].pc;
      pc.ForkNotify? || pc.NotifySet? || pc.SetCollecting? || pc.BroadcastSet? || pc.SetProcessed?
  }

  lemma OwnWriteTakesEffect(tp: Topology, s: State, t: nat, f: Flag)
    requires WorkerEnabled(s, t) && WorkerSafe(tp, s, t) && WorkerWrites(s.th[t].pc, t, f, t)
    requires RestOf(s.th[t].pc) == []
    ensures |WorkerStep(tp, s, t).th| == |s.th|
    ensures FlagOf(WorkerStep(tp, s, t).th[t], f) == Raises(s, Worker(t))
  {
    hide ForkStep, NotifyStep, TaskStep, CollectStep, BroadcastStep, AwaitStep, JoinStep;
  }

  lemma NotifyTakesEffect(tp: Topology, s: State, t: nat, f: Flag, i: nat)
    requires WorkerEnabled(s, t) && WorkerSafe(tp, s, t) && WorkerWrites(s.th[t].pc, t, f, i) && i < |s.th|
    requires var pc := s.th[t].pc; pc.ForkReset? || pc.ForkNotify? || pc.NotifyReset? || pc.NotifySet?
    ensures |WorkerStep(tp, s, t).th| == |s.th|
    ensures FlagOf(WorkerStep(tp, s, t).th[i], f) == Raises(s, Worker(t))
  {
    AddressedExists(tp, s, t);
    hide TaskStep, CollectStep, MeetStep, BroadcastStep, AwaitStep, SignalStep, JoinStep, WorkerEnabled, WorkerSafe,
      NumThreadsForTask;
  }

  lemma BroadcastTakesEffect(tp: Topology, s: State, t: nat, f: Flag, i: nat)
    requires WorkerEnabled(s, t) && WorkerSafe(tp, s, t) && WorkerWrites(s.th[t].pc, t, f, i) && i < |s.th|
    requires s.th[t].pc.BroadcastReset? || s.th[t].pc.BroadcastSet?
    ensures |WorkerStep(tp, s, t).th| == |s.th|
    ensures FlagOf(WorkerStep(tp, s, t).th[i], f) == Raises(s, Worker(t))
  {
    AddressedExists(tp, s, t);
    hide ForkStep, NotifyStep, TaskStep, CollectStep, MeetStep, AwaitStep, SignalStep, JoinStep, WorkerEnabled,
      WorkerSafe, NumThreadsForTask;
  }

  lemma RaisedWasClear(tp: Topology, s: State, t: nat, f: Flag, i: nat)
    requires WorkerEnabled(s, t) && WorkerSafe(tp, s, t) && WorkerWrites(s.th[t].pc, t, f, i) && i < |s.th|
    requires Raises(s, Worker(t))
    ensures !FlagOf(s.th[i], f)
  {
    hide NumThreadsForTask;
  }

  /** A write to a flag sets it or resets it as the source says, and a flag is only set when it is clear. */
  lemma WritesTakeEffect(tp: Topology, s: State, a: Actor, f: Flag, i: nat)
    requires WellFormed(tp) && Reachable(tp, s) && Enabled(s, a) && Writes(s, a, f, i) && i < tp.n
    ensures Safe(tp, s, a) && |Step(tp, s, a).th| == |s.th| == tp.n
    ensures FlagOf(Step(tp, s, a).th[i], f) == Raises(s, a)
    ensures Raises(s, a) ==> !FlagOf(s.th[i], f)
  {
    hide WorkerStep, WorkerSafe, WellFormed;
    NoFailure(tp, s, a);
    ReachableInv(tp, s);
    if a.Worker? {
      var t, pc := a.t, s.th[a.t].pc;
      if Raises(s, a) {
        RaisedWasClear(tp, s, t, f, i);
      }
      if pc.BroadcastReset? || pc.BroadcastSet? {
        BroadcastTakesEffect(tp, s, t, f, i);
      } else if pc.ForkReset? || pc.ForkNotify? || pc.NotifyReset? || pc.NotifySet? {
        NotifyTakesEffect(tp, s, t, f, i);
      } else {
        OwnWriteTakesEffect(tp, s, t, f);
      }
    }
  }

  // ----- lifetimes -----

  /** `task_` is only read while it points to the task of the run in progress. */
  lemma TaskWindow(tp: Topology, s: State, t: nat)
    requires WellFormed(tp) && Reachable(tp, s) && WorkerEnabled(s, t) && ReadsTask(s, t)
    ensures Running(s.main) && s.task == Some(s.cur)
  {
    ReachableInv(tp, s);
    TaskStored(tp, s, t);
  }

  /** A thread is forked at most once and joined at most once, only after it was forked and has ended. */
  lemma ForkedOnceJoinedOnce(tp: Topology, s: State, i: nat)
    requires WellFormed(tp) && Reachable(tp, s) && i < tp.n
    ensures i < |s.th|
    ensures s.th[i].joins <= s.th[i].forks <= 1
    ensures s.th[i].hasHandle <==> s.th[i].forks == 1 && s.th[i].joins == 0
    ensures s.th[i].joins == 1 ==> s.th[i].pc.Exited?
    ensures s.th[i].forks == 0 <==> s.th[i].pc.Unborn?
  {
    ReachableInv(tp, s);
    if s.runs > 0 {
      ContractAt(tp, s, i);
    }
  }

  /** When the squad is gone, every thread it ever forked has been joined. */
  lemma DestroyedSquadIsJoined(tp: Topology, s: State, i: nat)
    requires WellFormed(tp) && Reachable(tp, s) && s.main == Destroyed && i < tp.n
    ensures i < |s.th| && s.th[i].joins == s.th[i].forks && !s.th[i].hasHandle
    ensures s.runs > 0 ==> s.th[i].joins == 1
  {
    ReachableInv(tp, s);
    if s.runs > 0 {
      ContractAt(tp, s, i);
      AllExited(tp, s, i);
      if i > 0 {
        AllExited(tp, s, tp.parent(i));
      }
    }
  }

  /** `task_` points to the task of the run exactly while a run is in progress. */
  lemma StoredWhileRunning(tp: Topology, s: State)
    requires WellFormed(tp) && Reachable(tp, s)
    ensures s.task == if Running(s.main) then Some(s.cur) else None
  {
    ReachableInv(tp, s);
  }

  /** The next step of a thread that does not read through `task_` is the same whatever `task_` holds. */
  lemma OthersIgnoreTask(tp: Topology, s: State, t: nat, s1: State)
    requires WorkerEnabled(s, t) && WorkerSafe(tp, s, t) && !ReadsTask(s, t) && s1 == s.(task := s1.task)
    ensures WorkerEnabled(s1, t) && WorkerSafe(tp, s1, t)
    ensures WorkerStep(tp, s1, t) == WorkerStep(tp, s, t).(task := s1.task)
  {
  }

  /**
  A thread's data is accessible to its controller exactly between publishing and withdrawing it, in the waiting part
  of a synchronisation that passes on data.
  */
  lemma PublishedWindow(tp: Topology, s: State, i: nat)
    requires WellFormed(tp) && Reachable(tp, s) && i < tp.n
    ensures |s.th| == tp.n
    ensures var pc := s.th[i].pc;
      s.th[i].published <==>
        && (pc.ResetBroadcasting? || pc.SetCollecting? || pc.AwaitBroadcast? || pc.Unpublish?)
        && pc.round < |s.cur.rounds| && !s.cur.rounds[pc.round].Barrier?
  {
    ReachableInv(tp, s);
    if s.runs > 0 {
      ContractAt(tp, s, i);
    }
  }

  lemma StillStored(tp: Topology, s: State, t: nat)
    requires Inv(tp, s) && s.runs > 0 && t < tp.n && (s.th[t].pc.Join? || s.th[t].pc.ForkSpawn?)
    ensures s.task == Some(s.cur)
  {
    if !Running(s.main) {
      ContractAt(tp, s, t);
      if t < RunLimit(tp, s.runs, s.cur) {
        Finished(tp, s, t);
      }
      if s.main == Destroyed {
        AllExited(tp, s, t);
      }
    }
  }

  /** Only a thread's controller forks or joins it, and only before `release_task`. */
  lemma ForkJoinByController(tp: Topology, s: State, a: Actor, i: nat)
    requires WellFormed(tp) && Reachable(tp, s) && Enabled(s, a) && Safe(tp, s, a) && i < tp.n
    ensures |Step(tp, s, a).th| == |s.th| == tp.n
    ensures Step(tp, s, a).th[i].forks != s.th[i].forks || Step(tp, s, a).th[i].joins != s.th[i].joins ==>
      a == ControllerOf(tp, i) && s.task == Some(s.cur)
  {
    hide WorkerStep, MainStep;
    ReachableInv(tp, s);
    match a
    case Caller => CallerTouches(tp, s, Available, i);
    case Worker(t) =>
      WorkerTouches(tp, s, t, Available, i);
      if s.runs > 0 && ForksOrJoins(s.th[t].pc, i) {
        PlaceAt(tp, s, t);
        StillStored(tp, s, t);
      }
  }
}
