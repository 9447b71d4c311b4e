/** A run in progress can always take a step, and only finitely many: every run returns. */
module ProtocolProgress {
  import opened Sequences
  import opened Wrappers
  import opened Protocol
  import opened ProtocolInvariant
  import opened ProtocolLinks
  import opened StepFrames
  import opened ProtocolSteps
  import opened ProtocolRuns

  // ----- deadlock freedom -----

  /** Thread `t` still has something to do in the current run, and has been told so. */
  ghost predicate Live(tp: Topology, s: State, t: nat) {
    && Inv(tp, s) && s.runs > 0 && t < tp.n
    && t < RunLimit(tp, s.runs, s.cur)
    && LinkTo(tp, s, t).view >= 3
    && !s.th[t].pc.Exited?
    && !(s.th[t].pc.TaskWait? && s.th[t].ran == s.runs)
  }

  predicate BeforeTask(pc: PC) {
    pc.Unborn? || pc.ForkReset? || pc.ForkNotify? || pc.ForkSpawn? || pc.TaskWait?
    || pc.NotifyReset? || pc.NotifySet? || pc.RunTask?
  }

  /** How far a thread is: a thread only ever waits for threads that are less far, or as far but earlier in line. */
  function Stage(me: Thread, runs: nat, k: nat): nat {
    if BeforeTask(me.pc) then 0
    else if me.pc.JoinStart? || me.pc.Join? || me.pc.Exited? then 2 * k + 3
    else if me.pc.AwaitBroadcast? || me.pc.Unpublish? || Broadcasts(me.pc) then 2 * Base(me, runs, k) + 2
    else 2 * Base(me, runs, k) + 1
  }

  function Turn(tp: Topology, me: Thread, t: nat): nat
    requires t <= tp.n
  {
    if me.pc.AwaitBroadcast? || me.pc.Unpublish? || Broadcasts(me.pc) then t else tp.n - t
  }

  /** A target that has not signalled completion, seen from a thread that waits for it. */
  lemma AwaitedIsLive(tp: Topology, s: State, t: nat) returns (j: nat)
    requires Live(tp, s, t) && s.th[t].pc.AwaitSub? && !WorkerEnabled(s, t)
    ensures t < j && Live(tp, s, j)
    ensures Stage(s.th[j], s.runs, |s.cur.rounds|) < Stage(s.th[t], s.runs, |s.cur.rounds|)
      || (Stage(s.th[j], s.runs, |s.cur.rounds|) == Stage(s.th[t], s.runs, |s.cur.rounds|)
          && Turn(tp, s.th[j], j) < Turn(tp, s.th[t], t))
  {
    hide HistoryOk, DataOk, ValueOk, Folding, HasResult, Merging, OutputOk, Results, ResultOf, TransformLog, Cost,
      Advances, MovesOn, StartsWalk, Retires, LinkTo;
    ContractAt(tp, s, t);
    var rest := s.th[t].pc.rest;
    j := Target(tp, s, t, RunLimit(tp, s.runs, s.cur), rest);
  }

  /** A target that has not raised `collecting`, seen from a thread that waits for it. */
  lemma CollectedIsLive(tp: Topology, s: State, t: nat) returns (j: nat)
    requires Live(tp, s, t) && s.th[t].pc.Collect? && !WorkerEnabled(s, t)
    ensures t < j && Live(tp, s, j)
    ensures Stage(s.th[j], s.runs, |s.cur.rounds|) < Stage(s.th[t], s.runs, |s.cur.rounds|)
      || (Stage(s.th[j], s.runs, |s.cur.rounds|) == Stage(s.th[t], s.runs, |s.cur.rounds|)
          && Turn(tp, s.th[j], j) < Turn(tp, s.th[t], t))
  {
    hide HistoryOk, DataOk, ValueOk, Folding, HasResult, Merging, MainOk, MainLink, WellFormed, IsWalk, Results,
      ResultOf, TransformLog, Cost, Advances, MovesOn, StartsWalk, Retires, LinkTo;
    ContractAt(tp, s, t);
    var rest := s.th[t].pc.rest;
    j := Target(tp, s, t, s.cur.concurrency, rest);
  }

  /** The controller of a thread that waits for the broadcast. */
  lemma BroadcasterIsLive(tp: Topology, s: State, t: nat) returns (p: nat)
    requires Live(tp, s, t) && s.th[t].pc.AwaitBroadcast? && !WorkerEnabled(s, t)
    ensures p < t && Live(tp, s, p)
    ensures Stage(s.th[p], s.runs, |s.cur.rounds|) < Stage(s.th[t], s.runs, |s.cur.rounds|)
      || (Stage(s.th[p], s.runs, |s.cur.rounds|) == Stage(s.th[t], s.runs, |s.cur.rounds|)
          && Turn(tp, s.th[p], p) < Turn(tp, s.th[t], t))
  {
    hide HistoryOk, DataOk, ValueOk, Folding, HasResult, Merging, OutputOk, Results, ResultOf, TransformLog, Cost,
      Advances, MovesOn, StartsWalk, Retires;
    ContractAt(tp, s, t);
    p := tp.parent(t);
    ContractAt(tp, s, p);
  }

  /** A target that has not exited, seen from a thread that joins it. */
  lemma JoinedIsLive(tp: Topology, s: State, t: nat) returns (j: nat)
    requires Live(tp, s, t) && s.th[t].pc.Join? && !WorkerEnabled(s, t)
    ensures t < j && Live(tp, s, j) && (s.th[j].pc.JoinStart? || s.th[j].pc.Join?)
  {
    ContractAt(tp, s, t);
    var rest := s.th[t].pc.rest;
    j := Target(tp, s, t, tp.n, rest);
  }

  lemma WokenIsEnabled(tp: Topology, s: State, t: nat)
    requires Live(tp, s, t)
    requires !s.th[t].pc.Collect? && !s.th[t].pc.AwaitBroadcast? && !s.th[t].pc.AwaitSub? && !s.th[t].pc.Join?
    ensures WorkerEnabled(s, t)
  {
    ContractAt(tp, s, t);
  }

  /** Following who waits for whom from a live thread leads to a thread that can step. */
  lemma {:induction false} FindEnabled(tp: Topology, s: State, t: nat) returns (u: nat)
    requires Live(tp, s, t)
    ensures WorkerEnabled(s, u)
    decreases Stage(s.th[t], s.runs, |s.cur.rounds|), Turn(tp, s.th[t], t)
  {
    hide HistoryOk, DataOk, ValueOk, Contract, MainOk, LinkTo, LinkOf, MainLink, WellFormed, IsWalk, Cost;
    if WorkerEnabled(s, t) {
      u := t;
    } else if s.th[t].pc.AwaitSub? {
      var j := AwaitedIsLive(tp, s, t);
      u := FindEnabled(tp, s, j);
    } else if s.th[t].pc.Collect? {
      var j := CollectedIsLive(tp, s, t);
      u := FindEnabled(tp, s, j);
    } else if s.th[t].pc.AwaitBroadcast? {
      var p := BroadcasterIsLive(tp, s, t);
      u := FindEnabled(tp, s, p);
    } else if s.th[t].pc.Join? {
      var j := JoinedIsLive(tp, s, t);
      u := FindEnabled(tp, s, j);
    } else {
      WokenIsEnabled(tp, s, t);
      assert false;
    }
  }

  /** While a run is in progress, the caller or some thread can take a step. */
  lemma SomeoneCanStep(tp: Topology, s: State) returns (a: Actor)
    requires Inv(tp, s) && Running(s.main)
    ensures Enabled(s, a) && Safe(tp, s, a)
  {
    if MainEnabled(s) {
      a := Caller;
      MainKeepsInv(tp, s);
    } else {
      RootAt(tp, s);
      var u := FindEnabled(tp, s, 0);
      a := Worker(u);
      WorkerKeepsInv(tp, s, u);
    }
  }

  // ----- termination -----

  /** Steps a thread has left after it signals completion. */
  function JoinCost(n: nat, task: Task): nat {
    if task.joinRequested then n + 2 else 0
  }

  function AwaitCost(n: nat, task: Task): nat {
    JoinCost(n, task) + 3 + 2 * n
  }

  function RoundsCost(n: nat, m: nat): nat {
    if m == 0 then 0 else RoundsCost(n, m - 1) + (5 * n + 8)
  }

  /** Steps left at the start of round `r`. */
  function RoundCost(n: nat, task: Task, r: nat): nat {
    AwaitCost(n, task) + 1 + if r <= |task.rounds| then RoundsCost(n, |task.rounds| - r) else 0
  }

  function WakeCost(n: nat, task: Task): nat {
    RoundCost(n, task, 0) + 3 + 2 * n
  }

  /** An upper bound on the steps a thread has left in the current run. */
  function Cost(n: nat, runs: nat, task: Task, me: Thread): nat {
    match me.pc
    case Unborn => WakeCost(n, task) + 1 + 3 * n
    case ForkReset(rest) => WakeCost(n, task) + 1 + 3 * |rest|
    case ForkNotify(rest) => WakeCost(n, task) + 3 * |rest|
    case ForkSpawn(rest) => WakeCost(n, task) + 3 * |rest| - if rest == [] then 0 else 1
    case TaskWait => if me.ran == runs then 0 else WakeCost(n, task)
    case NotifyReset(rest) => RoundCost(n, task, 0) + 2 + 2 * |rest|
    case NotifySet(rest) => RoundCost(n, task, 0) + 1 + 2 * |rest|
    case RunTask => RoundCost(n, task, 0) + 1
    case RoundStart(r) => RoundCost(n, task, r)
    case Collect(r, rest) => RoundCost(n, task, r + 1) + 3 * n + 7 + 2 * |rest|
    case CollectData(r, rest) => RoundCost(n, task, r + 1) + 3 * n + 6 + 2 * |rest|
    case Publish(r) => RoundCost(n, task, r + 1) + 3 * n + 6
    case ResetBroadcasting(r) => RoundCost(n, task, r + 1) + 3 * n + 5
    case SetCollecting(r) => RoundCost(n, task, r + 1) + 3 * n + 4
    case AwaitBroadcast(r) => RoundCost(n, task, r + 1) + 3 * n + 3
    case Unpublish(r) => RoundCost(n, task, r + 1) + 3 * n + 2
    case BroadcastData(r, rest) => RoundCost(n, task, r + 1) + 1 + 3 * |rest|
    case BroadcastReset(r, rest) => RoundCost(n, task, r + 1) + 3 * |rest|
    case BroadcastSet(r, rest) => RoundCost(n, task, r + 1) + 3 * |rest| - if rest == [] then 0 else 1
    case AwaitSub(rest) => JoinCost(n, task) + 3 + 2 * |rest|
    case Merge(rest) => JoinCost(n, task) + 2 + 2 * |rest|
    case ResetAvailable => JoinCost(n, task) + 2
    case SetProcessed => JoinCost(n, task) + 1
    case JoinStart => n + 2
    case Join(rest) => |rest| + 1
    case Exited => 0
  }

  function MainCost(main: MainPC): nat {
    match main
    case MainReset => 6
    case MainNotify => 5
    case MainFork => 4
    case MainWait => 3
    case MainJoin => 2
    case Release => 1
    case Idle | Destroyed => 0
  }

  function SumCost(n: nat, runs: nat, task: Task, th: seq<Thread>): nat {
    if th == [] then 0 else Cost(n, runs, task, th[0]) + SumCost(n, runs, task, th[1..])
  }

  /** An upper bound on the steps left in the current run. */
  function Measure(tp: Topology, s: State): nat {
    MainCost(s.main) + SumCost(tp.n, s.runs, s.cur, s.th)
  }

  lemma {:induction false} SumUpdate(n: nat, runs: nat, task: Task, th: seq<Thread>, t: nat, me: Thread)
    requires t < |th|
    ensures SumCost(n, runs, task, th[t := me]) + Cost(n, runs, task, th[t])
         == SumCost(n, runs, task, th) + Cost(n, runs, task, me)
    decreases |th|
  {
    var th' := th[t := me];
    if t == 0 {
      assert th'[1..] == th[1..];
    } else {
      assert th'[1..] == th[1..][t - 1 := me];
      SumUpdate(n, runs, task, th[1..], t - 1, me);
    }
  }

  lemma MeasureOne(tp: Topology, s: State, t: nat, me: Thread)
    requires t < |s.th| && Cost(tp.n, s.runs, s.cur, me) < Cost(tp.n, s.runs, s.cur, s.th[t])
    ensures Measure(tp, Set(s, t, me)) < Measure(tp, s)
  {
    SumUpdate(tp.n, s.runs, s.cur, s.th, t, me);
  }

  lemma MeasureTwo(tp: Topology, s: State, t: nat, me: Thread, j: nat, kid: Thread)
    requires t < |s.th| && j < |s.th| && t != j
    requires Cost(tp.n, s.runs, s.cur, me) < Cost(tp.n, s.runs, s.cur, s.th[t])
    requires Cost(tp.n, s.runs, s.cur, kid) <= Cost(tp.n, s.runs, s.cur, s.th[j])
    ensures Measure(tp, Set2(s, t, me, j, kid)) < Measure(tp, s)
  {
    SumUpdate(tp.n, s.runs, s.cur, s.th, t, me);
    SumUpdate(tp.n, s.runs, s.cur, s.th[t := me], j, kid);
  }

  // ----- each kind of move costs something -----

  lemma AdvanceCosts(n: nat, runs: nat, task: Task, me: Thread, me': Thread)
    requires Advances(me.pc, me'.pc)
    ensures Cost(n, runs, task, me') < Cost(n, runs, task, me)
  {
  }

  lemma RetireCosts(n: nat, runs: nat, task: Task, me: Thread, me': Thread)
    requires Retires(me.pc, me'.pc)
    ensures Cost(n, runs, task, me') < Cost(n, runs, task, me)
  {
  }

  lemma MoveCosts(n: nat, runs: nat, task: Task, me: Thread, me': Thread)
    requires MovesOn(me.pc, me'.pc) && (me.pc.SetProcessed? ==> task.joinRequested)
    ensures Cost(n, runs, task, me') < Cost(n, runs, task, me)
  {
  }

  lemma StartCosts(n: nat, runs: nat, task: Task, me: Thread, me': Thread, walk: seq<nat>)
    requires StartsWalk(me.pc, me'.pc, walk, |task.rounds|) && |walk| <= n && !me.pc.Unborn?
    requires me'.pc.Collect? && me.pc.RoundStart? ==> me.pc.round < |task.rounds|
    ensures Cost(n, runs, task, me') < Cost(n, runs, task, me)
  {
  }

  /** The moves that are none of the four kinds. */
  predicate OtherMove(runs: nat, n: nat, me: Thread, me': Thread) {
    match me.pc
    case ForkReset(rest) => rest == [] && me'.pc.TaskWait?
    case TaskWait => me.ran != runs && (me'.pc.RunTask? || (me'.pc.NotifyReset? && |me'.pc.rest| <= n))
    case RunTask => me'.pc.AwaitSub? && |me'.pc.rest| <= n
    case SetProcessed => me'.pc.TaskWait? && me'.ran == runs
    case _ => false
  }

  lemma OtherCosts(n: nat, runs: nat, task: Task, me: Thread, me': Thread)
    requires OtherMove(runs, n, me, me')
    ensures Cost(n, runs, task, me') < Cost(n, runs, task, me)
  {
  }

  ghost predicate StartsShortWalk(tp: Topology, s: State, me: Thread, me': Thread) {
    exists walk: seq<nat> :: StartsWalk(me.pc, me'.pc, walk, |s.cur.rounds|) && |walk| <= tp.n && !me.pc.Unborn?
      && (me'.pc.Collect? && me.pc.RoundStart? ==> me.pc.round < |s.cur.rounds|)
  }

  ghost predicate CostlyMove(tp: Topology, s: State, me: Thread, me': Thread) {
    || Advances(me.pc, me'.pc)
    || Retires(me.pc, me'.pc)
    || (MovesOn(me.pc, me'.pc) && (me.pc.SetProcessed? ==> s.cur.joinRequested))
    || OtherMove(s.runs, tp.n, me, me')
    || StartsShortWalk(tp, s, me, me')
  }

  lemma MoveIsCostly(tp: Topology, s: State, me: Thread, me': Thread)
    requires CostlyMove(tp, s, me, me')
    ensures Cost(tp.n, s.runs, s.cur, me') < Cost(tp.n, s.runs, s.cur, me)
  {
    if Advances(me.pc, me'.pc) {
      AdvanceCosts(tp.n, s.runs, s.cur, me, me');
    } else if Retires(me.pc, me'.pc) {
      RetireCosts(tp.n, s.runs, s.cur, me, me');
    } else if OtherMove(s.runs, tp.n, me, me') {
      OtherCosts(tp.n, s.runs, s.cur, me, me');
    } else if MovesOn(me.pc, me'.pc) && (me.pc.SetProcessed? ==> s.cur.joinRequested) {
      MoveCosts(tp.n, s.runs, s.cur, me, me');
    } else {
      var walk: seq<nat> :| StartsWalk(me.pc, me'.pc, walk, |s.cur.rounds|) && |walk| <= tp.n && !me.pc.Unborn?
        && (me'.pc.Collect? && me.pc.RoundStart? ==> me.pc.round < |s.cur.rounds|);
      StartCosts(tp.n, s.runs, s.cur, me, me', walk);
    }
  }

  // ----- every step of a thread is one of these moves -----

  /** The walks of a thread are no longer than the squad. */
  lemma ShortWalks(tp: Topology, t: nat, lim: nat)
    requires WellFormed(tp) && t < tp.n && lim <= tp.n
    ensures |tp.up(t, lim)| <= tp.n && |tp.down(t, lim)| <= tp.n
  {
    assert IsWalk(tp, t, lim, tp.up(t, lim)) && IsWalk(tp, t, lim, tp.down(t, lim));
  }

  lemma AloneFalls(tp: Topology, s: State, t: nat, me': Thread)
    requires t < |s.th| && CostlyMove(tp, s, s.th[t], me')
    ensures Measure(tp, Set(s, t, me')) < Measure(tp, s)
  {
    MoveIsCostly(tp, s, s.th[t], me');
    MeasureOne(tp, s, t, me');
  }

  lemma StartFalls(tp: Topology, s: State, t: nat, me': Thread, walk: seq<nat>)
    requires t < |s.th| && !s.th[t].pc.Unborn? && |walk| <= tp.n
    requires StartsWalk(s.th[t].pc, me'.pc, walk, |s.cur.rounds|)
    requires me'.pc.Collect? && s.th[t].pc.RoundStart? ==> s.th[t].pc.round < |s.cur.rounds|
    ensures Measure(tp, Set(s, t, me')) < Measure(tp, s)
  {
    hide Cost, StartsWalk;
    StartCosts(tp.n, s.runs, s.cur, s.th[t], me', walk);
    MeasureOne(tp, s, t, me');
  }

  /** The thread a move addresses stays where it is, unless it is forked. */
  predicate StaysOrStarts(n: nat, kid: Thread, kid': Thread) {
    || (kid'.pc == kid.pc && kid'.ran == kid.ran)
    || (kid.pc.Unborn? && kid'.pc.ForkReset? && |kid'.pc.rest| <= n)
  }

  lemma StayingCosts(n: nat, runs: nat, task: Task, kid: Thread, kid': Thread)
    requires StaysOrStarts(n, kid, kid')
    ensures Cost(n, runs, task, kid') <= Cost(n, runs, task, kid)
  {
  }

  lemma TogetherFalls(tp: Topology, s: State, t: nat, me': Thread, j: nat, kid': Thread)
    requires t < |s.th| && CostlyMove(tp, s, s.th[t], me')
    requires j < |s.th| && j != t && StaysOrStarts(tp.n, s.th[j], kid')
    ensures Measure(tp, Set2(s, t, me', j, kid')) < Measure(tp, s)
  {
    hide Advances, MovesOn, StartsWalk, Retires, Distinct, SubWalk, LinkTo, TaskOk, PlaceOk, Cost;
    MoveIsCostly(tp, s, s.th[t], me');
    StayingCosts(tp.n, s.runs, s.cur, s.th[j], kid');
    MeasureTwo(tp, s, t, me', j, kid');
  }

  /** The first target of a walk is another thread of the squad. */
  lemma TargetInSquad(tp: Topology, t: nat, lim: nat, rest: seq<nat>)
    requires WellFormed(tp) && SubWalk(tp, t, lim, rest) && rest != [] && lim <= tp.n
    ensures t < rest[0] < tp.n
  {
  }

  lemma FallsForkReset(tp: Topology, s: State, t: nat)
    requires Ready(tp, s, t) && WorkerSafe(tp, s, t) && (s.th[t].pc.ForkReset?)
    ensures Measure(tp, WorkerStep(tp, s, t)) < Measure(tp, s)
  {
    hide NotifyStep, TaskStep, CollectStep, MeetStep, BroadcastStep, AwaitStep, SignalStep, JoinStep;
    var me := s.th[t];
    PlaceAt(tp, s, t);
    var rest := me.pc.rest;
    if rest != [] {
      TargetInSquad(tp, t, tp.n, rest);
    }
    if rest == [] {
      AloneFalls(tp, s, t, me.(pc := TaskWait));
    } else {
      TogetherFalls(tp, s, t, me.(pc := ForkNotify(rest)), rest[0], s.th[rest[0]].(processed := false));
    }
  }

  lemma FallsForkNotify(tp: Topology, s: State, t: nat)
    requires Ready(tp, s, t) && WorkerSafe(tp, s, t) && (s.th[t].pc.ForkNotify?)
    ensures Measure(tp, WorkerStep(tp, s, t)) < Measure(tp, s)
  {
    hide NotifyStep, TaskStep, CollectStep, MeetStep, BroadcastStep, AwaitStep, SignalStep, JoinStep;
    var me := s.th[t];
    PlaceAt(tp, s, t);
    var rest := me.pc.rest;
    if rest != [] {
      TargetInSquad(tp, t, tp.n, rest);
    }
    TogetherFalls(tp, s, t, me.(pc := ForkSpawn(rest)), rest[0], s.th[rest[0]].(available := true));
  }

  /** The thread about to be forked has not been started yet. */
  lemma ForkedIsUnborn(tp: Topology, s: State, t: nat)
    requires Ready(tp, s, t) && s.th[t].pc.ForkSpawn?
    ensures s.th[t].pc.rest != [] && s.th[t].pc.rest[0] < tp.n && s.th[s.th[t].pc.rest[0]].pc.Unborn?
  {
    hide HistoryOk, DataOk, ValueOk, OutputOk, MainOk, MainLink;
    PlaceAt(tp, s, t);
    var rest := s.th[t].pc.rest;
    var j := Target(tp, s, t, tp.n, rest);
    NotifiedLinks(s.th[t], s.th[t].(pc := ForkReset(rest[1..])), s.runs, |s.cur.rounds|, j);
  }

  lemma FallsForkSpawn(tp: Topology, s: State, t: nat)
    requires Ready(tp, s, t) && WorkerSafe(tp, s, t) && (s.th[t].pc.ForkSpawn?)
    ensures Measure(tp, WorkerStep(tp, s, t)) < Measure(tp, s)
  {
    hide NotifyStep, TaskStep, CollectStep, MeetStep, BroadcastStep, AwaitStep, SignalStep, JoinStep;
    var me := s.th[t];
    PlaceAt(tp, s, t);
    ForkedIsUnborn(tp, s, t);
    var rest := me.pc.rest;
    TargetInSquad(tp, t, tp.n, rest);
    var kid := s.th[rest[0]];
    ShortWalks(tp, rest[0], tp.n);
    TogetherFalls(tp, s, t, me.(pc := ForkReset(rest[1..])), rest[0],
      kid.(hasHandle := true, forks := kid.forks + 1, pc := ForkReset(tp.down(rest[0], tp.n))));
  }

  lemma FallsWake(tp: Topology, s: State, t: nat)
    requires Ready(tp, s, t) && WorkerSafe(tp, s, t) && (s.th[t].pc.TaskWait?)
    ensures Measure(tp, WorkerStep(tp, s, t)) < Measure(tp, s)
  {
    hide ForkStep, TaskStep, CollectStep, MeetStep, BroadcastStep, AwaitStep, SignalStep, JoinStep;
    var me := s.th[t];
    PlaceAt(tp, s, t);
    ContractAt(tp, s, t);
    TaskStored(tp, s, t);
    ThreadsForTask(tp, s, t);
    ShortWalks(tp, t, RunLimit(tp, s.runs, s.cur));
    var pc := if me.pass == 0 then RunTask else NotifyReset(tp.down(t, NumThreadsForTask(tp, s, t)));
    AloneFalls(tp, s, t, me.(joinRequested := s.cur.joinRequested, pc := pc));
  }

  lemma FallsNotify(tp: Topology, s: State, t: nat)
    requires Ready(tp, s, t) && WorkerSafe(tp, s, t) && (s.th[t].pc.NotifyReset? || s.th[t].pc.NotifySet?)
    ensures Measure(tp, WorkerStep(tp, s, t)) < Measure(tp, s)
  {
    hide ForkStep, TaskStep, CollectStep, MeetStep, BroadcastStep, AwaitStep, SignalStep, JoinStep, HistoryOk,
      DataOk, ValueOk, Folding, HasResult, Merging, SyncOk, HandleOk, CountersOk, HandshakeOk, BystanderOk, MainOk,
      MainLink, Results, ResultOf, TransformLog, Cost, Distinct, SubWalk, LinkTo;
    var me := s.th[t];
    PlaceAt(tp, s, t);
    var rest := me.pc.rest;
    if rest != [] {
      TargetInSquad(tp, t, RunLimit(tp, s.runs, s.cur), rest);
    }
    if me.pc.NotifySet? {
      TogetherFalls(tp, s, t, me.(pc := NotifyReset(rest[1..])), rest[0], s.th[rest[0]].(available := true));
    } else if rest == [] {
      AloneFalls(tp, s, t, me.(pc := RunTask));
    } else {
      TogetherFalls(tp, s, t, me.(pc := NotifySet(rest)), rest[0], s.th[rest[0]].(processed := false));
    }
  }

  lemma FallsRunTask(tp: Topology, s: State, t: nat)
    requires Ready(tp, s, t) && WorkerSafe(tp, s, t) && (s.th[t].pc.RunTask?)
    ensures Measure(tp, WorkerStep(tp, s, t)) < Measure(tp, s)
  {
    hide ForkStep, NotifyStep, CollectStep, MeetStep, BroadcastStep, AwaitStep, SignalStep, JoinStep;
    var me := s.th[t];
    PlaceAt(tp, s, t);
    TaskStored(tp, s, t);
    ThreadsForTask(tp, s, t);
    ShortWalks(tp, t, RunLimit(tp, s.runs, s.cur));
    if t < s.cur.concurrency {
      AloneFalls(tp, s, t, me.(executed := me.executed + 1, pc := RoundStart(0)));
    } else {
      AloneFalls(tp, s, t, me.(pc := AwaitSub(tp.up(t, RunLimit(tp, s.runs, s.cur)))));
    }
  }

  lemma FallsRound(tp: Topology, s: State, t: nat)
    requires Ready(tp, s, t) && WorkerSafe(tp, s, t) && s.th[t].pc.RoundStart? && s.th[t].pc.round < |s.cur.rounds|
    ensures Measure(tp, WorkerStep(tp, s, t)) < Measure(tp, s)
  {
    hide ForkStep, NotifyStep, CollectStep, MeetStep, BroadcastStep, AwaitStep, SignalStep, JoinStep, OutputOk,
      LinkOf, MainOk, MainLink, Cost, WellFormed, IsWalk, LinkTo, Inv, Contract, Measure;
    var me, r := s.th[t], s.th[t].pc.round;
    PlaceAt(tp, s, t);
    TaskStored(tp, s, t);
    ShortWalks(tp, t, s.cur.concurrency);
    var walk := tp.up(t, s.cur.concurrency);
    var data := if s.cur.rounds[r].Barrier? then me.data else Some(s.cur.rounds[r].red.x(t));
    StartFalls(tp, s, t, me.(data := data, result := None, pc := Collect(r, walk)), walk);
  }

  lemma FallsTaskDone(tp: Topology, s: State, t: nat)
    requires Ready(tp, s, t) && WorkerSafe(tp, s, t) && s.th[t].pc.RoundStart? && s.th[t].pc.round >= |s.cur.rounds|
    ensures Measure(tp, WorkerStep(tp, s, t)) < Measure(tp, s)
  {
    hide ForkStep, NotifyStep, CollectStep, MeetStep, BroadcastStep, AwaitStep, SignalStep, JoinStep, OutputOk,
      LinkOf, MainOk, MainLink, Cost, WellFormed, IsWalk, LinkTo, RunLimit, Inv, Contract, Measure;
    var me, task := s.th[t], s.cur;
    PlaceAt(tp, s, t);
    TaskStored(tp, s, t);
    ThreadsForTask(tp, s, t);
    ShortWalks(tp, t, RunLimit(tp, s.runs, s.cur));
    var walk := tp.up(t, RunLimit(tp, s.runs, s.cur));
    var value := if task.kind.TransformReduce? then Some(task.kind.red.x(t)) else me.value;
    StartFalls(tp, s, t, me.(value := value, pc := AwaitSub(walk)), walk);
  }

  lemma FallsCollect(tp: Topology, s: State, t: nat)
    requires Ready(tp, s, t) && WorkerSafe(tp, s, t) && s.th[t].pc.Collect? && (s.th[t].pc.rest != [] || t > 0)
    ensures Measure(tp, WorkerStep(tp, s, t)) < Measure(tp, s)
  {
    hide ForkStep, NotifyStep, TaskStep, MeetStep, BroadcastStep, AwaitStep, SignalStep, JoinStep;
    var me := s.th[t];
    AloneFalls(tp, s, t,
      me.(pc := if me.pc.rest == [] then Publish(me.pc.round) else CollectData(me.pc.round, me.pc.rest)));
  }

  lemma FallsCollectRoot(tp: Topology, s: State, t: nat)
    requires Ready(tp, s, t) && WorkerSafe(tp, s, t) && s.th[t].pc.Collect? && s.th[t].pc.rest == [] && t == 0
    ensures Measure(tp, WorkerStep(tp, s, t)) < Measure(tp, s)
  {
    hide ForkStep, NotifyStep, TaskStep, MeetStep, BroadcastStep, AwaitStep, SignalStep, JoinStep, MainOk, MainLink,
      WellFormed, IsWalk, Cost, Phase, Base, Raised, Passed, RunLimit, LinkTo, PlaceOk;
    TaskStored(tp, s, t);
    ShortWalks(tp, t, s.cur.concurrency);
    StartFalls(tp, s, t, WorkerStep(tp, s, t).th[t], tp.down(t, s.cur.concurrency));
  }

  lemma FallsCollectData(tp: Topology, s: State, t: nat)
    requires Ready(tp, s, t) && WorkerSafe(tp, s, t) && (s.th[t].pc.CollectData?)
    ensures Measure(tp, WorkerStep(tp, s, t)) < Measure(tp, s)
  {
    hide ForkStep, NotifyStep, TaskStep, MeetStep, BroadcastStep, AwaitStep, SignalStep, JoinStep;
    var me := s.th[t];
    PlaceAt(tp, s, t);
    TaskStored(tp, s, t);
    AloneFalls(tp, s, t, WorkerStep(tp, s, t).th[t]);
  }

  lemma FallsMeet(tp: Topology, s: State, t: nat)
    requires Ready(tp, s, t) && WorkerSafe(tp, s, t)
    requires var pc := s.th[t].pc; pc.Publish? || pc.ResetBroadcasting? || pc.SetCollecting? || pc.AwaitBroadcast?
    ensures Measure(tp, WorkerStep(tp, s, t)) < Measure(tp, s)
  {
    hide ForkStep, NotifyStep, TaskStep, CollectStep, BroadcastStep, AwaitStep, SignalStep, JoinStep;
    var me := s.th[t];
    PlaceAt(tp, s, t);
    AloneFalls(tp, s, t, WorkerStep(tp, s, t).th[t]);
  }

  lemma FallsUnpublish(tp: Topology, s: State, t: nat)
    requires Ready(tp, s, t) && WorkerSafe(tp, s, t) && (s.th[t].pc.Unpublish?)
    ensures Measure(tp, WorkerStep(tp, s, t)) < Measure(tp, s)
  {
    hide ForkStep, NotifyStep, TaskStep, CollectStep, BroadcastStep, AwaitStep, SignalStep, JoinStep;
    var me := s.th[t];
    PlaceAt(tp, s, t);
    TaskStored(tp, s, t);
    ShortWalks(tp, t, s.cur.concurrency);
    StartFalls(tp, s, t, WorkerStep(tp, s, t).th[t], tp.down(t, s.cur.concurrency));
  }

  lemma FallsBroadcastData(tp: Topology, s: State, t: nat)
    requires Ready(tp, s, t) && WorkerSafe(tp, s, t) && (s.th[t].pc.BroadcastData?)
    ensures Measure(tp, WorkerStep(tp, s, t)) < Measure(tp, s)
  {
    hide ForkStep, NotifyStep, TaskStep, CollectStep, MeetStep, AwaitStep, SignalStep, JoinStep, HistoryOk, DataOk,
      ValueOk, Folding, HasResult, Merging, Results, ResultOf, TransformLog, PlaceOk, Received, Outcome, SyncOk,
      HandleOk, CountersOk, HandshakeOk, BystanderOk, OutputOk, LinkOf, MainOk, MainLink, Cost, Phase, Base, Raised,
      Passed, LinkTo;
    var me := s.th[t];
    PlaceAt(tp, s, t);
    TaskStored(tp, s, t);
    var rest := me.pc.rest;
    if rest != [] {
      TargetInSquad(tp, t, s.cur.concurrency, rest);
    }
    var round := s.cur.rounds[me.pc.round];
    if rest == [] {
      AloneFalls(tp, s, t, me.(log := me.log + [Outcome(round, me)], pc := RoundStart(me.pc.round + 1)));
    } else {
      ReceivesData(round, me, s.th[rest[0]]);
      TogetherFalls(tp, s, t, me.(pc := BroadcastReset(me.pc.round, rest)),
        rest[0], Received(round, me, s.th[rest[0]]));
    }
  }

  lemma FallsBroadcast(tp: Topology, s: State, t: nat)
    requires Ready(tp, s, t) && WorkerSafe(tp, s, t) && (s.th[t].pc.BroadcastReset? || s.th[t].pc.BroadcastSet?)
    ensures Measure(tp, WorkerStep(tp, s, t)) < Measure(tp, s)
  {
    hide ForkStep, NotifyStep, TaskStep, CollectStep, MeetStep, AwaitStep, SignalStep, JoinStep;
    var me := s.th[t];
    PlaceAt(tp, s, t);
    var rest := me.pc.rest;
    if rest != [] {
      TargetInSquad(tp, t, s.cur.concurrency, rest);
    }
    if me.pc.BroadcastReset? {
      TogetherFalls(tp, s, t, me.(pc := BroadcastSet(me.pc.round, rest)), rest[0], s.th[rest[0]].(collecting := false));
    } else {
      TogetherFalls(tp, s, t, me.(pc := BroadcastData(me.pc.round, rest[1..])),
        rest[0], s.th[rest[0]].(broadcasting := true));
    }
  }

  lemma FallsAwaitSub(tp: Topology, s: State, t: nat)
    requires Ready(tp, s, t) && WorkerSafe(tp, s, t) && (s.th[t].pc.AwaitSub?)
    ensures Measure(tp, WorkerStep(tp, s, t)) < Measure(tp, s)
  {
    hide ForkStep, NotifyStep, TaskStep, CollectStep, MeetStep, BroadcastStep, SignalStep, JoinStep, HistoryOk,
      DataOk, ValueOk, Folding, HasResult, Merging, SyncOk, HandleOk, CountersOk, HandshakeOk, BystanderOk, OutputOk,
      LinkOf, Results, ResultOf, TransformLog, Cost, Phase, Base, Raised, Passed, RunLimit, Distinct, SubWalk,
      TaskOk, PlaceOk, MainOk, MainLink, WellFormed, IsWalk, LinkTo;
    var me := s.th[t];
    PlaceAt(tp, s, t);
    AloneFalls(tp, s, t, me.(pc := if me.pc.rest == [] then ResetAvailable else Merge(me.pc.rest)));
  }

  lemma FallsMerge(tp: Topology, s: State, t: nat)
    requires Ready(tp, s, t) && WorkerSafe(tp, s, t) && s.th[t].pc.Merge? && MergesValue(s, t)
    ensures Measure(tp, WorkerStep(tp, s, t)) < Measure(tp, s)
  {
    hide ForkStep, NotifyStep, TaskStep, CollectStep, MeetStep, BroadcastStep, SignalStep, JoinStep;
    TaskStored(tp, s, t);
    PlaceAt(tp, s, t);
    var j := s.th[t].pc.rest[0];
    TargetInSquad(tp, t, RunLimit(tp, s.runs, s.cur), s.th[t].pc.rest);
    TogetherFalls(tp, s, t, WorkerStep(tp, s, t).th[t], j, s.th[j].(value := None));
  }

  lemma FallsSkipMerge(tp: Topology, s: State, t: nat)
    requires Ready(tp, s, t) && WorkerSafe(tp, s, t) && s.th[t].pc.Merge? && !MergesValue(s, t)
    ensures Measure(tp, WorkerStep(tp, s, t)) < Measure(tp, s)
  {
    hide ForkStep, NotifyStep, TaskStep, CollectStep, MeetStep, BroadcastStep, SignalStep, JoinStep;
    TaskStored(tp, s, t);
    AloneFalls(tp, s, t, s.th[t].(pc := AwaitSub(s.th[t].pc.rest[1..])));
  }

  lemma FallsSignal(tp: Topology, s: State, t: nat)
    requires Ready(tp, s, t) && WorkerSafe(tp, s, t) && (s.th[t].pc.ResetAvailable? || s.th[t].pc.SetProcessed?)
    ensures Measure(tp, WorkerStep(tp, s, t)) < Measure(tp, s)
  {
    hide ForkStep, NotifyStep, TaskStep, CollectStep, MeetStep, BroadcastStep, AwaitStep, JoinStep;
    var me := s.th[t];
    PlaceAt(tp, s, t);
    ContractAt(tp, s, t);
    AloneFalls(tp, s, t, WorkerStep(tp, s, t).th[t]);
  }

  lemma FallsJoinStart(tp: Topology, s: State, t: nat)
    requires Ready(tp, s, t) && WorkerSafe(tp, s, t) && s.th[t].pc.JoinStart?
    ensures Measure(tp, WorkerStep(tp, s, t)) < Measure(tp, s)
  {
    hide ForkStep, NotifyStep, TaskStep, CollectStep, MeetStep, BroadcastStep, AwaitStep, SignalStep;
    ShortWalks(tp, t, tp.n);
    StartFalls(tp, s, t, s.th[t].(pc := Join(tp.up(t, tp.n))), tp.up(t, tp.n));
  }

  lemma FallsJoin(tp: Topology, s: State, t: nat)
    requires Ready(tp, s, t) && WorkerSafe(tp, s, t) && s.th[t].pc.Join?
    ensures Measure(tp, WorkerStep(tp, s, t)) < Measure(tp, s)
  {
    hide ForkStep, NotifyStep, TaskStep, CollectStep, MeetStep, BroadcastStep, AwaitStep, SignalStep, HistoryOk,
      DataOk, ValueOk, Folding, HasResult, Merging, LinkOf, MainOk, MainLink, WellFormed, IsWalk, Results, ResultOf,
      TransformLog, Cost, Phase, Base, Raised, Passed, Distinct, SubWalk, TaskOk, PlaceOk, SyncOk, HandleOk,
      CountersOk, HandshakeOk, BystanderOk, OutputOk, LinkTo;
    var me := s.th[t];
    var rest := me.pc.rest;
    PlaceAt(tp, s, t);
    if rest == [] {
      AloneFalls(tp, s, t, me.(pc := Exited));
    } else {
      TargetInSquad(tp, t, tp.n, rest);
      var kid := s.th[rest[0]];
      TogetherFalls(tp, s, t, me.(pc := Join(rest[1..])), rest[0], kid.(hasHandle := false, joins := kid.joins + 1));
    }
  }

  lemma WorkerFalls(tp: Topology, s: State, t: nat)
    requires Inv(tp, s) && WorkerEnabled(s, t) && WorkerSafe(tp, s, t)
    ensures Measure(tp, WorkerStep(tp, s, t)) < Measure(tp, s)
  {
    var pc := s.th[t].pc;
    match pc
    case ForkReset(_) => FallsForkReset(tp, s, t);
    case ForkNotify(_) => FallsForkNotify(tp, s, t);
    case ForkSpawn(_) => FallsForkSpawn(tp, s, t);
    case TaskWait => FallsWake(tp, s, t);
    case NotifyReset(_) | NotifySet(_) => FallsNotify(tp, s, t);
    case RunTask => FallsRunTask(tp, s, t);
    case RoundStart(r) =>
      if r < |s.cur.rounds| { FallsRound(tp, s, t); } else { FallsTaskDone(tp, s, t); }
    case Collect(_, rest) =>
      if rest != [] || t > 0 { FallsCollect(tp, s, t); } else { FallsCollectRoot(tp, s, t); }
    case CollectData(_, _) => FallsCollectData(tp, s, t);
    case Publish(_) | ResetBroadcasting(_) | SetCollecting(_) | AwaitBroadcast(_) => FallsMeet(tp, s, t);
    case Unpublish(_) => FallsUnpublish(tp, s, t);
    case BroadcastData(_, _) => FallsBroadcastData(tp, s, t);
    case BroadcastReset(_, _) | BroadcastSet(_, _) => FallsBroadcast(tp, s, t);
    case AwaitSub(_) => FallsAwaitSub(tp, s, t);
    case Merge(_) =>
      if MergesValue(s, t) { FallsMerge(tp, s, t); } else { FallsSkipMerge(tp, s, t); }
    case ResetAvailable | SetProcessed => FallsSignal(tp, s, t);
    case JoinStart => FallsJoinStart(tp, s, t);
    case Join(_) => FallsJoin(tp, s, t);
    case Unborn | Exited =>
  }

  lemma CallerStarts(tp: Topology, s: State)
    requires Inv(tp, s) && s.runs > 0 && s.main == MainFork
    ensures |s.th| == tp.n > 0 && s.th[0].pc.Unborn?
  {
    RootAt(tp, s);
  }

  lemma CallerFalls(tp: Topology, s: State)
    requires Inv(tp, s) && MainEnabled(s) && MainSafe(s)
    ensures Measure(tp, MainStep(tp, s)) < Measure(tp, s)
  {
    hide WellFormed, Cost, Contract, SumCost;
    var s' := MainStep(tp, s);
    if s'.th != s.th {
      if s.main == MainFork {
        CallerStarts(tp, s);
      }
      ShortWalks(tp, 0, tp.n);
      StayingCosts(tp.n, s.runs, s.cur, s.th[0], s'.th[0]);
      SumUpdate(tp.n, s.runs, s.cur, s.th, 0, s'.th[0]);
    }
  }

  /** Every step of a run in progress brings it closer to its end. */
  lemma StepFalls(tp: Topology, s: State, s': State)
    requires Inv(tp, s) && Steps(tp, s, s')
    ensures Inv(tp, s') && Measure(tp, s') < Measure(tp, s)
  {
    var a :| Enabled(s, a) && Safe(tp, s, a) && s' == Step(tp, s, a);
    match a
    case Caller =>
      CallerFalls(tp, s);
      MainKeepsInv(tp, s);
    case Worker(t) =>
      WorkerFalls(tp, s, t);
      WorkerKeepsInv(tp, s, t);
  }

  // ----- every run returns -----

  /** A schedule: consecutive steps of a run, of whichever threads. */
  ghost predicate IsSchedule(tp: Topology, states: seq<State>) {
    |states| > 0 && forall k :: 0 <= k < |states| - 1 ==> Steps(tp, states[k], states[k + 1])
  }

  ghost predicate Stuck(tp: Topology, s: State) {
    forall s' :: !Steps(tp, s, s')
  }

  lemma {:induction false} ScheduleFalls(tp: Topology, states: seq<State>, k: nat)
    requires IsSchedule(tp, states) && Inv(tp, states[0]) && k < |states|
    ensures Inv(tp, states[k]) && Measure(tp, states[k]) + k <= Measure(tp, states[0])
    decreases k
  {
    if k > 0 {
      ScheduleFalls(tp, states, k - 1);
      assert Steps(tp, states[k - 1], states[k - 1 + 1]);
      StepFalls(tp, states[k - 1], states[k]);
    }
  }

  /**
  From any reachable state, no schedule is longer than the measure of that state, and a schedule that cannot be
  continued has brought the run to its end: `run` has returned.
  */
  lemma EveryRunReturns(tp: Topology, states: seq<State>)
    requires WellFormed(tp) && IsSchedule(tp, states) && Reachable(tp, states[0])
    ensures |states| <= Measure(tp, states[0]) + 1
    ensures Stuck(tp, states[|states| - 1]) ==> !Running(states[|states| - 1].main)
  {
    ReachableInv(tp, states[0]);
    var last := states[|states| - 1];
    ScheduleFalls(tp, states, |states| - 1);
    if Running(last.main) {
      var a := SomeoneCanStep(tp, last);
      assert Steps(tp, last, Step(tp, last, a));
    }
  }
}
