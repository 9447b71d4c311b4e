/** What callers of a squad with a regular number of threads get (include/patton/thread_squad.hpp). */
module SquadGuarantees {
  import opened Wrappers
  import opened Values
  import Tree = SquadTree
  import opened TreeShape
  import opened Protocol
  import opened ProtocolInvariant
  import opened ProtocolRuns
  import opened ProtocolProgress
  import opened ProtocolSafety
  import opened StepFrames
  import opened SquadSetup
  import opened PattonSquad
  import opened SequentialFold

  /** No step of a run of any task trips an assertion, and no thread is ever needed that cannot go on. */
  lemma NeverFailsNorBlocks(n: nat, s: State, a: Actor) returns (b: Actor)
    requires Regular(n) && Reachable(Squad(n), s)
    ensures Enabled(s, a) ==> Safe(Squad(n), s, a)
    ensures Running(s.main) ==> Enabled(s, b) && Safe(Squad(n), s, b)
  {
    SquadWellFormed(n);
    if Enabled(s, a) {
      NoFailure(Squad(n), s, a);
    }
    b := Caller;
    if Running(s.main) {
      ReachableInv(Squad(n), s);
      b := SomeoneCanStep(Squad(n), s);
    }
  }

  /** Whatever the schedule, `run` returns. */
  lemma RunReturns(n: nat, states: seq<State>)
    requires Regular(n) && IsSchedule(Squad(n), states) && Reachable(Squad(n), states[0])
    ensures |states| <= Measure(Squad(n), states[0]) + 1
    ensures Stuck(Squad(n), states[|states| - 1]) ==> !Running(states[|states| - 1].main)
  {
    SquadWellFormed(n);
    EveryRunReturns(Squad(n), states);
  }

  /** init op x(0) op ... op x(c - 1), bracketed from the left. */
  ghost function SumFrom(red: Reduction, init: Value, c: nat): Value {
    if c == 0 then init else red.op(SumFrom(red, init, c - 1), red.x(c - 1))
  }

  lemma {:induction false} SumFromSum(red: Reduction, init: Value, c: nat)
    requires Associative(red.op) && c > 0
    ensures SumFrom(red, init, c) == red.op(init, Sum(red, 0, c))
    decreases c
  {
    if c > 1 {
      SumFromSum(red, init, c - 1);
    } else {
      assert SumFrom(red, init, 0) == init;
    }
  }

  /** What `transform_reduce` hands to its caller in the state in which `run` has returned; `None` is a failure. */
  function TransformReduceResult(red: Reduction, concurrency: nat, init: Value, s: State): Option<Value>
    requires |s.th| > 0
  {
    if concurrency != 0 then
      match s.th[0].value
      case None => None
      case Some(v) => Some(red.op(init, v))
    else Some(init)
  }

  // ----- a call, from its start to its return -----

  lemma NextReachable(tp: Topology, s: State, s': State)
    requires Reachable(tp, s) && Next(tp, s, s')
    ensures Reachable(tp, s')
  {
    var states :| IsExecution(tp, states) && states[|states| - 1] == s;
    Extended(tp, states, s');
    assert (states + [s'])[|states + [s']| - 1] == s';
  }

  lemma {:induction false} ScheduleKeepsTask(tp: Topology, states: seq<State>, k: nat)
    requires IsSchedule(tp, states) && Reachable(tp, states[0]) && k < |states|
    ensures Reachable(tp, states[k])
    ensures states[k].cur == states[0].cur && states[k].runs == states[0].runs && |states[k].th| == |states[0].th|
    decreases k
  {
    hide Reachable, Enabled, Safe, Step;
    if k > 0 {
      ScheduleKeepsTask(tp, states, k - 1);
      var s, s' := states[k - 1], states[k - 1 + 1];
      assert Steps(tp, s, s');
      var a :| Enabled(s, a) && Safe(tp, s, a) && s' == Step(tp, s, a);
      StepKeepsTask(tp, s, a);
      NextReachable(tp, s, s');
    }
  }

  /** A call of `run`: the squad is idle, the task is stored, and the threads step until none can. */
  ghost predicate IsCall(tp: Topology, s: State, task: Task, states: seq<State>) {
    && Reachable(tp, s) && |s.th| > 0 && HaveWork(s, task)
    && IsSchedule(tp, states) && Begins(tp, s, task, states[0])
    && Stuck(tp, states[|states| - 1])
  }

  /** A schedule can be continued until nobody can take a step. */
  lemma {:induction false} RunOn(tp: Topology, states: seq<State>) returns (longer: seq<State>)
    requires IsSchedule(tp, states) && Inv(tp, states[|states| - 1])
    ensures IsSchedule(tp, longer) && longer[0] == states[0] && Stuck(tp, longer[|longer| - 1])
    decreases Measure(tp, states[|states| - 1])
  {
    hide Inv, Measure, Steps;
    var last := states[|states| - 1];
    if Stuck(tp, last) {
      longer := states;
    } else {
      var s' :| Steps(tp, last, s');
      StepFalls(tp, last, s');
      var more := states + [s'];
      forall k | 0 <= k < |more| - 1 ensures Steps(tp, more[k], more[k + 1]) {
        if k < |states| - 1 {
          assert Steps(tp, states[k], states[k + 1]);
        }
      }
      longer := RunOn(tp, more);
    }
  }

  /** In every history of a regular squad that is idle, any task with work to do can be called. */
  lemma CallExists(n: nat, s: State, task: Task) returns (states: seq<State>)
    requires Regular(n) && Reachable(Squad(n), s) && s.main == Idle && task.concurrency <= n
    requires |s.th| > 0 ==> HaveWork(s, task)
    ensures IsCall(Squad(n), s, task, states)
  {
    var tp := Squad(n);
    SquadWellFormed(n);
    ReachableInv(tp, s);
    var s' := s.(main := MainReset, task := Some(task), cur := task, runs := s.runs + 1,
                 th := seq(|s.th|, i requires 0 <= i < |s.th| => Renew(s.th[i])));
    assert Begins(tp, s, task, s');
    hide Reachable, Begins, HaveWork, Inv, Stuck, Steps;
    NextReachable(tp, s, s');
    ReachableInv(tp, s');
    states := RunOn(tp, [s']);
  }

  /** Every call ends in a state in which `run` has returned from this very task. */
  lemma CallReturns(n: nat, s: State, task: Task, states: seq<State>)
    requires Regular(n) && IsCall(Squad(n), s, task, states)
    ensures |states| > 0
    ensures var last := states[|states| - 1];
      Returned(Squad(n), last) && last.cur == task && last.runs == s.runs + 1 && |last.th| == n
  {
    hide Reachable;
    var tp := Squad(n);
    SquadWellFormed(n);
    NextReachable(tp, s, states[0]);
    ScheduleKeepsTask(tp, states, |states| - 1);
    EveryRunReturns(tp, states);
    ExactlyOnce(tp, states[|states| - 1], 0);
  }

  lemma SquadSize(tp: Topology, s: State)
    requires Inv(tp, s)
    ensures |s.th| == tp.n
  {
  }

  lemma {:induction false} SleeperStays(tp: Topology, states: seq<State>, k: nat, i: nat)
    requires WellFormed(tp) && IsSchedule(tp, states) && Reachable(tp, states[0]) && k < |states|
    requires states[0].runs > 1 && !states[0].cur.joinRequested && states[0].cur.concurrency <= i < tp.n
    ensures |states[k].th| == |states[0].th| == tp.n && states[k].th[i] == states[0].th[i]
    decreases k
  {
    hide Reachable, Enabled, Safe, Step, Inv, WellFormed;
    ReachableInv(tp, states[0]);
    SquadSize(tp, states[0]);
    if k > 0 {
      SleeperStays(tp, states, k - 1, i);
      ScheduleKeepsTask(tp, states, k - 1);
      var s, s' := states[k - 1], states[k - 1 + 1];
      assert Steps(tp, s, s');
      var a :| Enabled(s, a) && Safe(tp, s, a) && s' == Step(tp, s, a);
      ReachableInv(tp, s);
      StepLeavesSleepers(tp, s, a, i);
    }
  }

  /**
  A call that is not the first one and does not request joining leaves the threads from `concurrency` on asleep: it
  changes nothing about them, except that the call starts with their records of the task cleared.
  */
  lemma OthersStayAsleep(n: nat, s: State, task: Task, states: seq<State>, i: nat)
    requires Regular(n) && IsCall(Squad(n), s, task, states) && s.runs > 0 && !task.joinRequested
    requires task.concurrency <= i < n
    ensures |states| > 0 && |states[|states| - 1].th| == |s.th| == n
    ensures states[|states| - 1].th[i] == s.th[i].(value := None, executed := 0, log := [], transforms := [])
  {
    hide Reachable, WellFormed, Inv, Stuck, Steps;
    var tp := Squad(n);
    SquadWellFormed(n);
    NextReachable(tp, s, states[0]);
    ReachableInv(tp, states[0]);
    SquadSize(tp, states[0]);
    CallReturns(n, s, task, states);
    SleeperStays(tp, states, |states| - 1, i);
  }

  /**
  `transform_reduce`, called in any history of a regular squad, returns init op x(0) op ... op x(c - 1) in index
  order, under every schedule; for c == 0 it returns init without running anything.
  */
  lemma TransformReduceInOrder(n: nat, s: State, task: Task, states: seq<State>, init: Value)
    requires Regular(n) && task.kind.TransformReduce? && Associative(task.kind.red.op)
    requires |states| > 0 && |states[|states| - 1].th| > 0
    requires task.concurrency != 0 ==> IsCall(Squad(n), s, task, states)
    ensures TransformReduceResult(task.kind.red, task.concurrency, init, states[|states| - 1])
      == Some(SumFrom(task.kind.red, init, task.concurrency))
  {
    hide IsCall;
    var red, c := task.kind.red, task.concurrency;
    if c != 0 {
      CallReturns(n, s, task, states);
      ReducedValue(Squad(n), states[|states| - 1], 0);
      RootFold(n, red, c);
      SumFromSum(red, init, c);
    }
  }

  /** `transform_reduce_first`, which demands c > 0, returns x(0) op ... op x(c - 1) in index order. */
  lemma TransformReduceFirstInOrder(n: nat, s: State, task: Task, states: seq<State>)
    requires Regular(n) && task.kind.TransformReduce? && Associative(task.kind.red.op) && task.concurrency > 0
    requires IsCall(Squad(n), s, task, states)
    ensures var last := states[|states| - 1];
      |last.th| > 0 && last.th[0].value == Some(Sum(task.kind.red, 0, task.concurrency))
  {
    hide IsCall;
    CallReturns(n, s, task, states);
    ReducedValue(Squad(n), states[|states| - 1], 0);
    RootFold(n, task.kind.red, task.concurrency);
  }

  /** What the r-th synchronisation call of a task returns, in terms of the contributions in index order. */
  ghost function InOrder(task: Task, r: nat): Option<Value>
    requires r < |task.rounds| && task.concurrency > 0
  {
    match task.rounds[r]
    case Barrier => None
    case Reduce(red) => Some(Sum(red, 0, task.concurrency))
    case ReduceTransform(red, fin) => Some(fin(Sum(red, 0, task.concurrency)))
  }

  /** `reduce` and `reduce_transform` return the index-ordered fold on every participant, at any time in a run. */
  lemma ReduceInOrder(n: nat, s: State, i: nat, r: nat)
    requires Regular(n) && Reachable(Squad(n), s) && s.runs > 0 && s.cur.concurrency > 0
    requires i < |s.th| && r < |s.th[i].log|
    requires r < |s.cur.rounds| && !s.cur.rounds[r].Barrier? ==> Associative(s.cur.rounds[r].red.op)
    ensures r < |s.cur.rounds| && s.th[i].log[r] == InOrder(s.cur, r)
  {
    SquadWellFormed(n);
    ResultsSoFar(Squad(n), s, i, r);
    if !s.cur.rounds[r].Barrier? {
      RootFold(n, s.cur.rounds[r].red, s.cur.concurrency);
    }
  }

  /**
  When a call returns, every participant has got from each of its synchronisation calls the fold of all contributions
  in index order, in whatever history and under whatever schedule; the other threads have made no such calls.
  */
  lemma ReduceCallInOrder(n: nat, s: State, task: Task, states: seq<State>, i: nat)
    requires Regular(n) && IsCall(Squad(n), s, task, states) && i < n && task.concurrency > 0
    requires forall r :: 0 <= r < |task.rounds| && !task.rounds[r].Barrier? ==> Associative(task.rounds[r].red.op)
    ensures |states| > 0 && |states[|states| - 1].th| == n
    ensures var log := states[|states| - 1].th[i].log;
      && |log| == (if i < task.concurrency then |task.rounds| else 0)
      && forall r :: 0 <= r < |log| ==> log[r] == InOrder(task, r)
  {
    hide IsCall, Reachable, Associative;
    CallReturns(n, s, task, states);
    var last := states[|states| - 1];
    SynchronisedResults(Squad(n), last, i);
    forall r | 0 <= r < |last.th[i].log| ensures last.th[i].log[r] == InOrder(task, r) {
      ReduceInOrder(n, last, i, r);
    }
  }

  /**
  Whenever a participant of a `transform_reduce` is about to signal its completion, its slot holds the contributions
  of all participants in its range [t, min(t + stride, c)), in index order.
  */
  lemma CompletedInOrder(n: nat, s: State, t: nat)
    requires Regular(n) && Reachable(Squad(n), s) && s.runs > 0
    requires s.cur.kind.TransformReduce? && Associative(s.cur.kind.red.op)
    requires t < s.cur.concurrency && t < |s.th| && (s.th[t].pc.ResetAvailable? || s.th[t].pc.SetProcessed?)
    ensures t < |s.th| == n
    ensures s.th[t].value
      == Some(Sum(s.cur.kind.red, t, Tree.Min(t + Tree.NumSubthreads(n, t), s.cur.concurrency)))
  {
    SquadWellFormed(n);
    CompletedValue(Squad(n), s, t);
    ThreadFold(n, s.cur.kind.red, s.cur.concurrency, t);
  }
}
