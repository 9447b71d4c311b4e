/** Every step of a squad thread is safe and keeps the invariant. */
module ProtocolSteps {
  import opened Sequences
  import opened Wrappers
  import opened Values
  import opened Protocol
  import opened TreeFold
  import opened ProtocolInvariant
  import opened ProtocolContracts
  import opened ProtocolLinks

  /** The situation of a step lemma: thread `t` is about to step in a squad that has been started. */
  ghost predicate Ready(tp: Topology, s: State, t: nat) {
    Inv(tp, s) && s.runs > 0 && t < tp.n && WorkerEnabled(s, t)
  }

  ghost predicate Kid(tp: Topology, t: nat, i: nat) {
    0 < i < tp.n && tp.parent(i) == t
  }

  ghost function Under(s: State, boss: Thread, i: nat): Link {
    LinkOf(boss, s.runs, |s.cur.rounds|, i)
  }

  /** The contract of thread `i` of state `s`, were it to look like `me` and have the link `link`. */
  ghost predicate Holds(tp: Topology, s: State, i: nat, me: Thread, link: Link) {
    Contract(tp, s.runs, s.cur, i, me, link)
  }

  ghost predicate Unconcerned(tp: Topology, s: State, boss: Thread, boss': Thread, i: nat) {
    Compatible(tp, s.runs, s.cur, i, Under(s, boss, i), Under(s, boss', i))
  }

  lemma ContractAt(tp: Topology, s: State, i: nat)
    requires Inv(tp, s) && s.runs > 0 && i < tp.n
    ensures Holds(tp, s, i, s.th[i], LinkTo(tp, s, i))
  {
  }

  /** A step that changes only thread `t`. */
  lemma KeepsOne(tp: Topology, s: State, t: nat, me: Thread)
    requires Inv(tp, s) && s.runs > 0 && t < tp.n
    requires Holds(tp, s, t, me, LinkTo(tp, s, t))
    requires forall i: nat :: Kid(tp, t, i) ==> Unconcerned(tp, s, s.th[t], me, i)
    ensures Inv(tp, Set(s, t, me))
  {
    var s' := Set(s, t, me);
    forall i | 0 <= i < tp.n ensures Holds(tp, s', i, s'.th[i], LinkTo(tp, s', i)) {
      ContractAt(tp, s, i);
      if i != t && i != 0 && tp.parent(i) == t {
        assert Kid(tp, t, i);
        ContractCompatible(tp, s.runs, s.cur, i, s.th[i], Under(s, s.th[t], i), Under(s, me, i));
      }
    }
  }

  /** A step that changes thread `t` and addresses the thread `j` it controls. */
  lemma KeepsTwo(tp: Topology, s: State, t: nat, me: Thread, j: nat, kid: Thread)
    requires Inv(tp, s) && s.runs > 0 && t < tp.n && Kid(tp, t, j)
    requires Holds(tp, s, t, me, LinkTo(tp, s, t))
    requires Holds(tp, s, j, kid, Under(s, me, j))
    requires forall i: nat :: Kid(tp, t, i) && i != j ==> Under(s, s.th[t], i) == Under(s, me, i)
    requires forall i: nat :: Kid(tp, j, i) ==> Under(s, s.th[j], i) == Under(s, kid, i)
    ensures Inv(tp, Set2(s, t, me, j, kid))
  {
    var s' := Set2(s, t, me, j, kid);
    forall i | 0 <= i < tp.n ensures Holds(tp, s', i, s'.th[i], LinkTo(tp, s', i)) {
      ContractAt(tp, s, i);
      assert i != 0 && tp.parent(i) == t ==> Kid(tp, t, i);
      assert i != 0 && tp.parent(i) == j ==> Kid(tp, j, i);
    }
  }

  /** The first remaining target is controlled by the thread, and its contract holds. */
  lemma Target(tp: Topology, s: State, t: nat, lim: nat, rest: seq<nat>) returns (j: nat)
    requires Inv(tp, s) && s.runs > 0 && t < tp.n && lim <= tp.n
    requires SubWalk(tp, t, lim, rest) && rest != []
    ensures j == rest[0] && j < lim && Kid(tp, t, j) && t < j
    ensures Holds(tp, s, j, s.th[j], Under(s, s.th[t], j))
  {
    j := rest[0];
    ContractAt(tp, s, j);
  }

  /** A walk as it starts lists all threads the thread controls below the limit. */
  lemma FullWalk(tp: Topology, t: nat, lim: nat, walk: seq<nat>)
    requires WellFormed(tp) && t < tp.n && lim <= tp.n && IsWalk(tp, t, lim, walk)
    ensures SubWalk(tp, t, lim, walk)
    ensures forall i: nat :: Kid(tp, t, i) ==> (i in walk <==> i < lim)
  {
    forall a | 0 <= a < |walk| ensures 0 < walk[a] < lim && tp.parent(walk[a]) == t {
      assert walk[a] in walk;
    }
  }

  lemma PlaceAt(tp: Topology, s: State, t: nat)
    requires Inv(tp, s) && s.runs > 0 && t < tp.n
    ensures TaskOk(tp, s.runs, s.cur) && PlaceOk(tp, s.runs, s.cur, t, s.th[t])
  {
    ContractAt(tp, s, t);
  }

  // ----- the four kinds of moves -----

  lemma KeepsAdvance(tp: Topology, s: State, t: nat, me: Thread, j: nat, kid: Thread)
    requires Inv(tp, s) && s.runs > 0 && t < tp.n
    requires Advances(s.th[t].pc, me.pc) && j == s.th[t].pc.rest[0] && Kid(tp, t, j)
    requires Holds(tp, s, t, me, LinkTo(tp, s, t))
    requires Holds(tp, s, j, kid, Under(s, me, j)) && kid.pc == s.th[j].pc && kid.ran == s.th[j].ran
    ensures Inv(tp, Set2(s, t, me, j, kid))
  {
    forall i: nat | Kid(tp, t, i) && i != j ensures Under(s, s.th[t], i) == Under(s, me, i) {
      AdvanceOthers(s.th[t], me, s.runs, |s.cur.rounds|, i);
    }
    forall i: nat | Kid(tp, j, i) ensures Under(s, s.th[j], i) == Under(s, kid, i) {
      SameControl(s.th[j], kid, s.runs, |s.cur.rounds|, i);
    }
    KeepsTwo(tp, s, t, me, j, kid);
  }

  lemma KeepsRetire(tp: Topology, s: State, t: nat, me: Thread, j: nat, kid: Thread)
    requires Inv(tp, s) && s.runs > 0 && t < tp.n
    requires Retires(s.th[t].pc, me.pc) && j == s.th[t].pc.rest[0] && Kid(tp, t, j) && Distinct(s.th[t].pc.rest)
    requires Holds(tp, s, t, me, LinkTo(tp, s, t))
    requires Holds(tp, s, j, kid, Under(s, me, j))
    requires forall i: nat :: Kid(tp, j, i) ==> Under(s, s.th[j], i) == Under(s, kid, i)
    ensures Inv(tp, Set2(s, t, me, j, kid))
  {
    forall i: nat | Kid(tp, t, i) && i != j ensures Under(s, s.th[t], i) == Under(s, me, i) {
      RetireOthers(s.th[t], me, s.runs, |s.cur.rounds|, i);
    }
    KeepsTwo(tp, s, t, me, j, kid);
  }

  lemma KeepsMove(tp: Topology, s: State, t: nat, me: Thread)
    requires Inv(tp, s) && s.runs > 0 && t < tp.n && MovesOn(s.th[t].pc, me.pc)
    requires Holds(tp, s, t, me, LinkTo(tp, s, t))
    ensures Inv(tp, Set(s, t, me))
  {
    forall i: nat | Kid(tp, t, i) ensures Unconcerned(tp, s, s.th[t], me, i) {
      MoveOn(s.th[t], me, s.runs, |s.cur.rounds|, i);
    }
    KeepsOne(tp, s, t, me);
  }

  lemma KeepsStart(tp: Topology, s: State, t: nat, me: Thread, lim: nat, walk: seq<nat>)
    requires Inv(tp, s) && s.runs > 0 && t < tp.n && StartsWalk(s.th[t].pc, me.pc, walk, |s.cur.rounds|)
    requires lim <= tp.n && IsWalk(tp, t, lim, walk)
    requires lim == tp.n
      || (lim == s.cur.concurrency && !s.th[t].pc.Unborn? && !s.th[t].pc.JoinStart? && !me.pc.AwaitSub?)
      || (lim == RunLimit(tp, s.runs, s.cur) && me.pc.AwaitSub?)
    requires Holds(tp, s, t, me, LinkTo(tp, s, t))
    ensures Inv(tp, Set(s, t, me))
  {
    FullWalk(tp, t, lim, walk);
    forall i: nat | Kid(tp, t, i) ensures Unconcerned(tp, s, s.th[t], me, i) {
      StartWalk(s.th[t], me, s.runs, |s.cur.rounds|, walk, i);
    }
    KeepsOne(tp, s, t, me);
  }

  // ----- when `task_` is set -----

  /** Once the caller has seen thread 0 signal completion, every thread of the run has. */
  lemma {:induction false} Finished(tp: Topology, s: State, i: nat)
    requires Inv(tp, s) && s.runs > 0 && MainLink(s.main, s.cur.joinRequested).view >= 4
    requires i < RunLimit(tp, s.runs, s.cur)
    ensures Phase(s.th[i], s.runs) == 3
    decreases i
  {
    ContractAt(tp, s, i);
    if i > 0 {
      Finished(tp, s, tp.parent(i));
    }
  }

  /** Once the caller has joined thread 0, every thread has exited. */
  lemma {:induction false} AllExited(tp: Topology, s: State, i: nat)
    requires Inv(tp, s) && s.runs > 0 && MainLink(s.main, s.cur.joinRequested).joined && i < tp.n
    ensures s.th[i].pc.Exited?
    decreases i
  {
    ContractAt(tp, s, i);
    if i > 0 {
      AllExited(tp, s, tp.parent(i));
    }
  }

  /** No thread reads through `task_` outside the window between `store_task` and `release_task`. */
  lemma TaskStored(tp: Topology, s: State, t: nat)
    requires Ready(tp, s, t) && ReadsTask(s, t)
    ensures s.task == Some(s.cur)
  {
    ContractAt(tp, s, t);
    if !Running(s.main) {
      if t < RunLimit(tp, s.runs, s.cur) {
        Finished(tp, s, t);
      }
      if s.main == Destroyed {
        AllExited(tp, s, t);
      }
    }
  }

  lemma ThreadsForTask(tp: Topology, s: State, t: nat)
    requires Ready(tp, s, t) && ReadsTask(s, t)
    requires Phase(s.th[t], s.runs) < 3
    ensures NumThreadsForTask(tp, s, t) == RunLimit(tp, s.runs, s.cur)
  {
    ContractAt(tp, s, t);
    TaskStored(tp, s, t);
  }

  // ----- notify_and_fork_subthreads -----

  lemma StepForkResetOver(tp: Topology, s: State, t: nat)
    requires Ready(tp, s, t) && s.th[t].pc.ForkReset? && s.th[t].pc.rest == []
    ensures WorkerSafe(tp, s, t) && Inv(tp, WorkerStep(tp, s, t))
  {
    hide NotifyStep, TaskStep, CollectStep, MeetStep, BroadcastStep, AwaitStep, SignalStep, JoinStep;
    var me, link := s.th[t], LinkTo(tp, s, t);
    ContractAt(tp, s, t);
    var me' := me.(pc := TaskWait);
    ForkResetSelf(tp, s.runs, s.cur, t, me, link, me');
    KeepsOne(tp, s, t, me');
  }

  lemma StepForkReset(tp: Topology, s: State, t: nat)
    requires Ready(tp, s, t) && s.th[t].pc.ForkReset? && s.th[t].pc.rest != []
    ensures WorkerSafe(tp, s, t) && Inv(tp, WorkerStep(tp, s, t))
  {
    hide NotifyStep, TaskStep, CollectStep, MeetStep, BroadcastStep, AwaitStep, SignalStep, JoinStep;
    var me, link := s.th[t], LinkTo(tp, s, t);
    ContractAt(tp, s, t);
    var rest := me.pc.rest;
    var j := Target(tp, s, t, tp.n, rest);
    var me' := me.(pc := ForkNotify(rest));
    var kid' := s.th[j].(processed := false);
    ForkResetSelf(tp, s.runs, s.cur, t, me, link, me');
    NotifyLinks(me, me', s.runs, |s.cur.rounds|, j);
    GotReset(tp, s.runs, s.cur, j, s.th[j], Under(s, me, j), kid', Under(s, me', j));
    KeepsAdvance(tp, s, t, me', j, kid');
  }

  lemma StepForkNotify(tp: Topology, s: State, t: nat)
    requires Ready(tp, s, t) && s.th[t].pc.ForkNotify?
    ensures WorkerSafe(tp, s, t) && Inv(tp, WorkerStep(tp, s, t))
  {
    hide NotifyStep, TaskStep, CollectStep, MeetStep, BroadcastStep, AwaitStep, SignalStep, JoinStep, HistoryOk,
      DataOk, ValueOk, Folding, HasResult, Merging, SyncOk, HandleOk, CountersOk, HandshakeOk, BystanderOk, OutputOk,
      LinkOf, MainOk, MainLink, Fold, FoldRest, Results, ResultOf, TransformLog, Phase, Base, Raised, Passed,
      Advances, MovesOn, StartsWalk, Retires, Distinct, SubWalk, LinkTo, TaskOk;
    var me, link := s.th[t], LinkTo(tp, s, t);
    ContractAt(tp, s, t);
    var rest := me.pc.rest;
    var j := Target(tp, s, t, tp.n, rest);
    var me' := me.(pc := ForkSpawn(rest));
    var kid' := s.th[j].(available := true);
    ForkNotifySelf(tp, s.runs, s.cur, t, me, link, me');
    NotifyLinks(me, me', s.runs, |s.cur.rounds|, j);
    GotNotified(tp, s.runs, s.cur, j, s.th[j], Under(s, me, j), kid', Under(s, me', j));
    KeepsAdvance(tp, s, t, me', j, kid');
  }

  lemma StepForkSpawn(tp: Topology, s: State, t: nat)
    requires Ready(tp, s, t) && s.th[t].pc.ForkSpawn?
    ensures WorkerSafe(tp, s, t) && Inv(tp, WorkerStep(tp, s, t))
  {
    hide NotifyStep, TaskStep, CollectStep, MeetStep, BroadcastStep, AwaitStep, SignalStep, JoinStep, HistoryOk,
      DataOk, ValueOk, Folding, HasResult, Merging, OutputOk, LinkOf, MainOk, MainLink, Phase, Base, Raised, Passed;
    var me, link := s.th[t], LinkTo(tp, s, t);
    ContractAt(tp, s, t);
    var rest := me.pc.rest;
    var j := Target(tp, s, t, tp.n, rest);
    var walk := tp.down(j, tp.n);
    FullWalk(tp, j, tp.n, walk);
    var me' := me.(pc := ForkReset(rest[1..]));
    var kid' := s.th[j].(hasHandle := true, forks := s.th[j].forks + 1, pc := ForkReset(walk));
    ForkSpawnSelf(tp, s.runs, s.cur, t, me, link, me');
    NotifiedLinks(me, me', s.runs, |s.cur.rounds|, j);
    GotForked(tp, s.runs, s.cur, j, s.th[j], Under(s, me, j), walk, kid', Under(s, me', j));
    forall i: nat | Kid(tp, j, i) ensures Under(s, s.th[j], i) == Under(s, kid', i) {
      StartWalk(s.th[j], kid', s.runs, |s.cur.rounds|, walk, i);
    }
    KeepsRetire(tp, s, t, me', j, kid');
  }

  // ----- task_wait and notify_subthreads -----

  lemma StepWake(tp: Topology, s: State, t: nat)
    requires Ready(tp, s, t) && s.th[t].pc.TaskWait?
    ensures WorkerSafe(tp, s, t) && Inv(tp, WorkerStep(tp, s, t))
  {
    hide ForkStep, TaskStep, CollectStep, MeetStep, BroadcastStep, AwaitStep, SignalStep, JoinStep, HistoryOk,
      DataOk, ValueOk, Folding, HasResult, Merging, LinkOf, MainOk, MainLink, Phase, Base, Raised, Passed, Advances,
      MovesOn, StartsWalk, Retires;
    var me, link := s.th[t], LinkTo(tp, s, t);
    ContractAt(tp, s, t);
    TaskStored(tp, s, t);
    ThreadsForTask(tp, s, t);
    var lim := RunLimit(tp, s.runs, s.cur);
    var walk := tp.down(t, lim);
    FullWalk(tp, t, lim, walk);
    var me' := me.(joinRequested := s.cur.joinRequested, pc := if me.pass == 0 then RunTask else NotifyReset(walk));
    WakeSelf(tp, s.runs, s.cur, t, me, link, walk, me');
    forall i: nat | Kid(tp, t, i) ensures Unconcerned(tp, s, me, me', i) {
      WakeLinks(me, me', s.runs, |s.cur.rounds|, walk, i);
    }
    KeepsOne(tp, s, t, me');
  }

  lemma StepNotifyResetOver(tp: Topology, s: State, t: nat)
    requires Ready(tp, s, t) && s.th[t].pc.NotifyReset? && s.th[t].pc.rest == []
    ensures WorkerSafe(tp, s, t) && Inv(tp, WorkerStep(tp, s, t))
  {
    hide ForkStep, TaskStep, CollectStep, MeetStep, BroadcastStep, AwaitStep, SignalStep, JoinStep;
    var me, link := s.th[t], LinkTo(tp, s, t);
    ContractAt(tp, s, t);
    var me' := me.(pc := RunTask);
    NotifyResetSelf(tp, s.runs, s.cur, t, me, link, me');
    KeepsMove(tp, s, t, me');
  }

  lemma StepNotifyReset(tp: Topology, s: State, t: nat)
    requires Ready(tp, s, t) && s.th[t].pc.NotifyReset? && s.th[t].pc.rest != []
    ensures WorkerSafe(tp, s, t) && Inv(tp, WorkerStep(tp, s, t))
  {
    hide ForkStep, TaskStep, CollectStep, MeetStep, BroadcastStep, AwaitStep, SignalStep, JoinStep;
    var me, link := s.th[t], LinkTo(tp, s, t);
    ContractAt(tp, s, t);
    var rest := me.pc.rest;
    var j := Target(tp, s, t, RunLimit(tp, s.runs, s.cur), rest);
    var me' := me.(pc := NotifySet(rest));
    var kid' := s.th[j].(processed := false);
    NotifyResetSelf(tp, s.runs, s.cur, t, me, link, me');
    NotifyLinks(me, me', s.runs, |s.cur.rounds|, j);
    GotReset(tp, s.runs, s.cur, j, s.th[j], Under(s, me, j), kid', Under(s, me', j));
    KeepsAdvance(tp, s, t, me', j, kid');
  }

  lemma StepNotifySet(tp: Topology, s: State, t: nat)
    requires Ready(tp, s, t) && s.th[t].pc.NotifySet?
    ensures WorkerSafe(tp, s, t) && Inv(tp, WorkerStep(tp, s, t))
  {
    hide ForkStep, TaskStep, CollectStep, MeetStep, BroadcastStep, AwaitStep, SignalStep, JoinStep;
    var me, link := s.th[t], LinkTo(tp, s, t);
    ContractAt(tp, s, t);
    var rest := me.pc.rest;
    var j := Target(tp, s, t, RunLimit(tp, s.runs, s.cur), rest);
    var me' := me.(pc := NotifyReset(rest[1..]));
    var kid' := s.th[j].(available := true);
    NotifySetSelf(tp, s.runs, s.cur, t, me, link, me');
    NotifiedLinks(me, me', s.runs, |s.cur.rounds|, j);
    GotNotified(tp, s.runs, s.cur, j, s.th[j], Under(s, me, j), kid', Under(s, me', j));
    forall i: nat | Kid(tp, j, i) ensures Under(s, s.th[j], i) == Under(s, kid', i) {
      SameControl(s.th[j], kid', s.runs, |s.cur.rounds|, i);
    }
    KeepsRetire(tp, s, t, me', j, kid');
  }

  // ----- task_run -----

  lemma StepRunTask(tp: Topology, s: State, t: nat)
    requires Ready(tp, s, t) && s.th[t].pc.RunTask? && t < s.cur.concurrency
    ensures WorkerSafe(tp, s, t) && Inv(tp, WorkerStep(tp, s, t))
  {
    hide ForkStep, NotifyStep, CollectStep, MeetStep, BroadcastStep, AwaitStep, SignalStep, JoinStep;
    var me, link := s.th[t], LinkTo(tp, s, t);
    ContractAt(tp, s, t);
    TaskStored(tp, s, t);
    var me' := me.(executed := me.executed + 1, pc := RoundStart(0));
    RunTaskSelf(tp, s.runs, s.cur, t, me, link, me');
    KeepsMove(tp, s, t, me');
  }

  lemma StepSkipTask(tp: Topology, s: State, t: nat)
    requires Ready(tp, s, t) && s.th[t].pc.RunTask? && t >= s.cur.concurrency
    ensures WorkerSafe(tp, s, t) && Inv(tp, WorkerStep(tp, s, t))
  {
    hide ForkStep, NotifyStep, CollectStep, MeetStep, BroadcastStep, AwaitStep, SignalStep, JoinStep;
    var me, link := s.th[t], LinkTo(tp, s, t);
    ContractAt(tp, s, t);
    TaskStored(tp, s, t);
    ThreadsForTask(tp, s, t);
    var lim := RunLimit(tp, s.runs, s.cur);
    var walk := tp.up(t, lim);
    FullWalk(tp, t, lim, walk);
    var me' := me.(pc := AwaitSub(walk));
    SkipTaskSelf(tp, s.runs, s.cur, t, me, link, walk, me');
    forall i: nat | Kid(tp, t, i) ensures Unconcerned(tp, s, me, me', i) {
      SkipLinks(me, me', s.runs, |s.cur.rounds|, walk, i);
    }
    KeepsOne(tp, s, t, me');
  }

  lemma StepRoundStart(tp: Topology, s: State, t: nat)
    requires Ready(tp, s, t) && s.th[t].pc.RoundStart? && s.th[t].pc.round < |s.cur.rounds|
    ensures WorkerSafe(tp, s, t) && Inv(tp, WorkerStep(tp, s, t))
  {
    hide ForkStep, NotifyStep, CollectStep, MeetStep, BroadcastStep, AwaitStep, SignalStep, JoinStep;
    var me, link := s.th[t], LinkTo(tp, s, t);
    ContractAt(tp, s, t);
    TaskStored(tp, s, t);
    var r, c := me.pc.round, s.cur.concurrency;
    var walk := tp.up(t, c);
    FullWalk(tp, t, c, walk);
    WalkAbove(tp, t, c);
    var data := if s.cur.rounds[r].Barrier? then me.data else Some(s.cur.rounds[r].red.x(t));
    var me' := me.(data := data, result := None, pc := Collect(r, walk));
    RoundStartSelf(tp, s.runs, s.cur, t, me, link, data, walk, me');
    KeepsStart(tp, s, t, me', c, walk);
  }

  lemma StepTaskDone(tp: Topology, s: State, t: nat)
    requires Ready(tp, s, t) && s.th[t].pc.RoundStart? && s.th[t].pc.round >= |s.cur.rounds|
    ensures WorkerSafe(tp, s, t) && Inv(tp, WorkerStep(tp, s, t))
  {
    hide ForkStep, NotifyStep, CollectStep, MeetStep, BroadcastStep, AwaitStep, SignalStep, JoinStep, HistoryOk,
      DataOk, ValueOk, Folding, HasResult, Merging, OutputOk, Fold, FoldRest, Results, ResultOf, TransformLog,
      RunLimit;
    var me, link := s.th[t], LinkTo(tp, s, t);
    ContractAt(tp, s, t);
    TaskStored(tp, s, t);
    ThreadsForTask(tp, s, t);
    var lim := RunLimit(tp, s.runs, s.cur);
    var walk := tp.up(t, lim);
    FullWalk(tp, t, lim, walk);
    if s.cur.kind.Action? {
      var me' := me.(pc := AwaitSub(walk));
      ActionDoneSelf(tp, s.runs, s.cur, t, me, link, walk, me');
      KeepsStart(tp, s, t, me', lim, walk);
    } else {
      var me' := me.(value := Some(s.cur.kind.red.x(t)), pc := AwaitSub(walk));
      FoldRunWalk(tp, s.runs, s.cur, t);
      TransformDoneSelf(tp, s.runs, s.cur, t, me, link, walk, me');
      KeepsStart(tp, s, t, me', lim, walk);
    }
  }

  // ----- synchronize_collect -----

  lemma CollectSelfAt(tp: Topology, s: State, t: nat, me': Thread)
    requires Inv(tp, s) && s.runs > 0 && t < tp.n && s.th[t].pc.Collect? && s.th[t].pc.rest != []
    requires me' == s.th[t].(pc := CollectData(s.th[t].pc.round, s.th[t].pc.rest))
    ensures Holds(tp, s, t, me', LinkTo(tp, s, t))
  {
    ContractAt(tp, s, t);
    CollectSelf(tp, s.runs, s.cur, t, s.th[t], LinkTo(tp, s, t), me');
  }

  lemma CollectTargetAt(tp: Topology, s: State, t: nat, me': Thread, j: nat, kid': Thread)
    requires Inv(tp, s) && s.runs > 0 && t < tp.n && s.th[t].pc.Collect? && s.th[t].pc.rest != []
    requires me' == s.th[t].(pc := CollectData(s.th[t].pc.round, s.th[t].pc.rest)) && j == s.th[t].pc.rest[0]
    requires j < |s.th| && s.th[j].collecting && kid' == s.th[j]
    ensures Holds(tp, s, j, kid', Under(s, me', j)) && Kid(tp, t, j)
  {
    PlaceAt(tp, s, t);
    var me, rest := s.th[t], s.th[t].pc.rest;
    var j' := Target(tp, s, t, s.cur.concurrency, rest);
    CollectLinks(me, me', s.runs, |s.cur.rounds|, j);
    GotCollected(tp, s.runs, s.cur, j, s.th[j], Under(s, me, j), kid', Under(s, me', j));
  }

  lemma StepCollect(tp: Topology, s: State, t: nat)
    requires Ready(tp, s, t) && s.th[t].pc.Collect? && s.th[t].pc.rest != []
    ensures WorkerSafe(tp, s, t) && Inv(tp, WorkerStep(tp, s, t))
  {
    hide ForkStep, NotifyStep, TaskStep, MeetStep, BroadcastStep, AwaitStep, SignalStep, JoinStep, HistoryOk, DataOk,
      ValueOk, Folding, HasResult, Merging, SyncOk, HandleOk, CountersOk, HandshakeOk, BystanderOk, OutputOk, LinkOf,
      MainOk, MainLink, Fold, FoldRest, Results, ResultOf, TransformLog, Phase, Base, Raised, Passed, PlaceOk;
    var me, rest := s.th[t], s.th[t].pc.rest;
    PlaceAt(tp, s, t);
    var j := rest[0];
    TaskStored(tp, s, t);
    var me' := me.(pc := CollectData(me.pc.round, rest));
    CollectSelfAt(tp, s, t, me');
    CollectTargetAt(tp, s, t, me', j, s.th[j]);
    KeepsAdvance(tp, s, t, me', j, s.th[j]);
    assert Set2(s, t, me', j, s.th[j]) == Set(s, t, me');
  }

  lemma StepCollectOver(tp: Topology, s: State, t: nat)
    requires Ready(tp, s, t) && s.th[t].pc.Collect? && s.th[t].pc.rest == [] && t > 0
    ensures WorkerSafe(tp, s, t) && Inv(tp, WorkerStep(tp, s, t))
  {
    hide ForkStep, NotifyStep, TaskStep, MeetStep, BroadcastStep, AwaitStep, SignalStep, JoinStep;
    var me, link := s.th[t], LinkTo(tp, s, t);
    ContractAt(tp, s, t);
    TaskStored(tp, s, t);
    var me' := me.(pc := Publish(me.pc.round));
    CollectSelf(tp, s.runs, s.cur, t, me, link, me');
    KeepsMove(tp, s, t, me');
  }

  lemma StepCollectRoot(tp: Topology, s: State, t: nat)
    requires Ready(tp, s, t) && s.th[t].pc.Collect? && s.th[t].pc.rest == [] && t == 0
    ensures WorkerSafe(tp, s, t) && Inv(tp, WorkerStep(tp, s, t))
  {
    hide ForkStep, NotifyStep, TaskStep, MeetStep, BroadcastStep, AwaitStep, SignalStep, JoinStep;
    var me, link := s.th[t], LinkTo(tp, s, t);
    ContractAt(tp, s, t);
    TaskStored(tp, s, t);
    var r, c := me.pc.round, s.cur.concurrency;
    var walk := tp.down(t, c);
    FullWalk(tp, t, c, walk);
    if s.cur.rounds[r].ReduceTransform? {
      var value := if me.data.Some? then s.cur.rounds[r].fin(me.data.value) else s.cur.rounds[r].red.x(0);
      var me' := me.(result := Some(value), transforms := me.transforms + [r], pc := BroadcastData(r, walk));
      TransformedRoot(tp, s.runs, s.cur, t, me, link, value, walk, me');
      KeepsStart(tp, s, t, me', c, walk);
    } else {
      var me' := me.(pc := BroadcastData(r, walk));
      CollectedRoot(tp, s.runs, s.cur, t, me, link, walk, me');
      KeepsStart(tp, s, t, me', c, walk);
    }
  }

  ghost predicate CollectsBarrier(s: State, t: nat)
    requires t < |s.th| && s.th[t].pc.CollectData?
  {
    s.th[t].pc.round < |s.cur.rounds| && s.cur.rounds[s.th[t].pc.round].Barrier?
  }

  lemma CollectDataKeeps(tp: Topology, s: State, t: nat, me: Thread, j: nat)
    requires Inv(tp, s) && s.runs > 0 && t < tp.n && s.th[t].pc.CollectData? && Kid(tp, t, j)
    requires Retires(s.th[t].pc, me.pc) && j == s.th[t].pc.rest[0] && Distinct(s.th[t].pc.rest)
    requires Holds(tp, s, t, me, LinkTo(tp, s, t))
    ensures Inv(tp, Set(s, t, me))
  {
    ContractAt(tp, s, j);
    NotifiedLinks(s.th[t], me, s.runs, |s.cur.rounds|, j);
    KeepsRetire(tp, s, t, me, j, s.th[j]);
    assert Set2(s, t, me, j, s.th[j]) == Set(s, t, me);
  }

  lemma StepCollectBarrier(tp: Topology, s: State, t: nat)
    requires Ready(tp, s, t) && s.th[t].pc.CollectData? && CollectsBarrier(s, t)
    ensures WorkerSafe(tp, s, t) && Inv(tp, WorkerStep(tp, s, t))
  {
    hide ForkStep, NotifyStep, TaskStep, MeetStep, BroadcastStep, AwaitStep, SignalStep, JoinStep;
    var me, link := s.th[t], LinkTo(tp, s, t);
    ContractAt(tp, s, t);
    var rest := me.pc.rest;
    TaskStored(tp, s, t);
    var r := me.pc.round;
    var j := Target(tp, s, t, s.cur.concurrency, rest);
    var me' := me.(pc := Collect(r, rest[1..]));
    CollectBarrierSelf(tp, s.runs, s.cur, t, me, link, me');
    CollectDataKeeps(tp, s, t, me', j);
  }

  lemma WaitingData(tp: Topology, runs: nat, task: Task, j: nat, kid: Thread, link: Link, r: nat)
    requires Contract(tp, runs, task, j, kid, link) && 0 < j < task.concurrency
    requires link.seen == r + 1 && link.bcast == link.wrote == r && r < |task.rounds| && !task.rounds[r].Barrier?
    ensures kid.published && kid.data == Some(Fold(tp, task.rounds[r].red, task.concurrency, j))
  {
    IsWaiting(tp, runs, task, j, kid, link, r);
  }

  lemma CollectDataTarget(tp: Topology, s: State, t: nat) returns (j: nat)
    requires Ready(tp, s, t) && s.th[t].pc.CollectData? && !CollectsBarrier(s, t)
    ensures 0 < s.cur.concurrency <= tp.n && s.th[t].pc.rest != [] && s.th[t].pc.round < |s.cur.rounds|
    ensures j == s.th[t].pc.rest[0] && t < j < s.cur.concurrency && Kid(tp, t, j) && Distinct(s.th[t].pc.rest)
    ensures s.th[j].published
    ensures s.th[j].data == Some(Fold(tp, s.cur.rounds[s.th[t].pc.round].red, s.cur.concurrency, j))
  {
    hide HistoryOk, DataOk, ValueOk, Folding, HasResult, Merging, HandleOk, CountersOk, HandshakeOk, BystanderOk,
      Fold, FoldRest, MainOk, MainLink;
    PlaceAt(tp, s, t);
    var me := s.th[t];
    j := Target(tp, s, t, s.cur.concurrency, me.pc.rest);
    CollectDataLink(me, s.runs, |s.cur.rounds|, j);
    WaitingData(tp, s.runs, s.cur, j, s.th[j], Under(s, me, j), me.pc.round);
  }

  lemma CollectDataSelfAt(tp: Topology, s: State, t: nat, value: Value, acc: Value, me': Thread)
    requires Ready(tp, s, t) && s.th[t].pc.CollectData? && !CollectsBarrier(s, t)
    requires 0 < s.cur.concurrency <= tp.n && s.th[t].pc.round < |s.cur.rounds|
    requires s.th[t].pc.rest != [] && t < s.th[t].pc.rest[0] < s.cur.concurrency
    requires value == Fold(tp, s.cur.rounds[s.th[t].pc.round].red, s.cur.concurrency, s.th[t].pc.rest[0])
    requires s.th[t].data.Some? ==> acc == s.cur.rounds[s.th[t].pc.round].red.op(s.th[t].data.value, value)
    requires me' == s.th[t].(data := Some(acc), pc := Collect(s.th[t].pc.round, s.th[t].pc.rest[1..]))
    ensures s.th[t].data.Some? && Holds(tp, s, t, me', LinkTo(tp, s, t))
  {
    hide Contract;
    ContractAt(tp, s, t);
    CollectDataSelf(tp, s.runs, s.cur, t, s.th[t], LinkTo(tp, s, t), value, acc, me');
  }

  lemma StepCollectData(tp: Topology, s: State, t: nat)
    requires Ready(tp, s, t) && s.th[t].pc.CollectData? && !CollectsBarrier(s, t)
    ensures WorkerSafe(tp, s, t) && Inv(tp, WorkerStep(tp, s, t))
  {
    hide ForkStep, NotifyStep, TaskStep, MeetStep, BroadcastStep, AwaitStep, SignalStep, JoinStep, Holds, Fold, LinkTo,
      Contract;
    var me, r, rest := s.th[t], s.th[t].pc.round, s.th[t].pc.rest;
    var j := CollectDataTarget(tp, s, t);
    TaskStored(tp, s, t);
    var red, value := s.cur.rounds[r].red, s.th[j].data.value;
    var acc := if me.data.Some? then red.op(me.data.value, value) else value;
    var me' := me.(data := Some(acc), pc := Collect(r, rest[1..]));
    CollectDataSelfAt(tp, s, t, value, acc, me');
    CollectDataKeeps(tp, s, t, me', j);
  }

  lemma StepPublish(tp: Topology, s: State, t: nat)
    requires Ready(tp, s, t) && s.th[t].pc.Publish?
    ensures WorkerSafe(tp, s, t) && Inv(tp, WorkerStep(tp, s, t))
  {
    hide ForkStep, NotifyStep, TaskStep, CollectStep, BroadcastStep, AwaitStep, SignalStep, JoinStep;
    var me, link := s.th[t], LinkTo(tp, s, t);
    ContractAt(tp, s, t);
    TaskStored(tp, s, t);
    var me' := me.(published := !s.cur.rounds[me.pc.round].Barrier?, pc := ResetBroadcasting(me.pc.round));
    PublishSelf(tp, s.runs, s.cur, t, me, link, me');
    KeepsMove(tp, s, t, me');
  }

  lemma StepResetBroadcasting(tp: Topology, s: State, t: nat)
    requires Ready(tp, s, t) && s.th[t].pc.ResetBroadcasting?
    ensures WorkerSafe(tp, s, t) && Inv(tp, WorkerStep(tp, s, t))
  {
    hide ForkStep, NotifyStep, TaskStep, CollectStep, BroadcastStep, AwaitStep, SignalStep, JoinStep;
    var me, link := s.th[t], LinkTo(tp, s, t);
    ContractAt(tp, s, t);
    var me' := me.(broadcasting := false, pc := SetCollecting(me.pc.round));
    ResetBroadcastingSelf(tp, s.runs, s.cur, t, me, link, me');
    KeepsMove(tp, s, t, me');
  }

  lemma StepSetCollecting(tp: Topology, s: State, t: nat)
    requires Ready(tp, s, t) && s.th[t].pc.SetCollecting?
    ensures WorkerSafe(tp, s, t) && Inv(tp, WorkerStep(tp, s, t))
  {
    hide ForkStep, NotifyStep, TaskStep, CollectStep, BroadcastStep, AwaitStep, SignalStep, JoinStep;
    var me, link := s.th[t], LinkTo(tp, s, t);
    ContractAt(tp, s, t);
    var me' := me.(collecting := true, pc := AwaitBroadcast(me.pc.round));
    SetCollectingSelf(tp, s.runs, s.cur, t, me, link, me');
    KeepsMove(tp, s, t, me');
  }

  lemma StepAwaitBroadcast(tp: Topology, s: State, t: nat)
    requires Ready(tp, s, t) && s.th[t].pc.AwaitBroadcast?
    ensures WorkerSafe(tp, s, t) && Inv(tp, WorkerStep(tp, s, t))
  {
    hide ForkStep, NotifyStep, TaskStep, CollectStep, BroadcastStep, AwaitStep, SignalStep, JoinStep;
    var me, link := s.th[t], LinkTo(tp, s, t);
    ContractAt(tp, s, t);
    var me' := me.(pc := Unpublish(me.pc.round));
    AwaitBroadcastSelf(tp, s.runs, s.cur, t, me, link, me');
    KeepsMove(tp, s, t, me');
  }

  lemma StepUnpublish(tp: Topology, s: State, t: nat)
    requires Ready(tp, s, t) && s.th[t].pc.Unpublish?
    ensures WorkerSafe(tp, s, t) && Inv(tp, WorkerStep(tp, s, t))
  {
    hide ForkStep, NotifyStep, TaskStep, CollectStep, BroadcastStep, AwaitStep, SignalStep, JoinStep;
    var me, link := s.th[t], LinkTo(tp, s, t);
    ContractAt(tp, s, t);
    TaskStored(tp, s, t);
    var walk := tp.down(t, s.cur.concurrency);
    FullWalk(tp, t, s.cur.concurrency, walk);
    var me' := me.(published := false, pc := BroadcastData(me.pc.round, walk));
    UnpublishSelf(tp, s.runs, s.cur, t, me, link, walk, me');
    KeepsStart(tp, s, t, me', s.cur.concurrency, walk);
  }

  // ----- synchronize_broadcast -----

  lemma StepBroadcastDataOver(tp: Topology, s: State, t: nat)
    requires Ready(tp, s, t) && s.th[t].pc.BroadcastData? && s.th[t].pc.rest == []
    ensures WorkerSafe(tp, s, t) && Inv(tp, WorkerStep(tp, s, t))
  {
    hide ForkStep, NotifyStep, TaskStep, CollectStep, MeetStep, AwaitStep, SignalStep, JoinStep, OutputOk, MainOk,
      MainLink, Advances, MovesOn, StartsWalk, Retires, LinkTo, TaskOk;
    var me, link := s.th[t], LinkTo(tp, s, t);
    ContractAt(tp, s, t);
    TaskStored(tp, s, t);
    var r := me.pc.round;
    var me' := me.(log := me.log + [Outcome(s.cur.rounds[r], me)], pc := RoundStart(r + 1));
    RoundDoneSelf(tp, s.runs, s.cur, t, me, link, me');
    KeepsMove(tp, s, t, me');
  }

  lemma BroadcastDataSelfAt(tp: Topology, s: State, t: nat, me': Thread)
    requires Inv(tp, s) && s.runs > 0 && t < tp.n && s.th[t].pc.BroadcastData?
    requires s.th[t].pc.rest != [] && s.th[t].pc.round < |s.cur.rounds|
    requires me' == s.th[t].(pc := BroadcastReset(s.th[t].pc.round, s.th[t].pc.rest))
    ensures Holds(tp, s, t, me', LinkTo(tp, s, t))
  {
    ContractAt(tp, s, t);
    BroadcastDataSelf(tp, s.runs, s.cur, t, s.th[t], LinkTo(tp, s, t), me');
  }

  lemma BroadcastDataTargetAt(tp: Topology, s: State, t: nat, me': Thread, j: nat, kid': Thread)
    requires Inv(tp, s) && s.runs > 0 && t < tp.n && s.th[t].pc.BroadcastData?
    requires s.th[t].pc.rest != [] && s.th[t].pc.round < |s.cur.rounds|
    requires me' == s.th[t].(pc := BroadcastReset(s.th[t].pc.round, s.th[t].pc.rest)) && j == s.th[t].pc.rest[0]
    requires j < |s.th| && kid' == Received(s.cur.rounds[s.th[t].pc.round], s.th[t], s.th[j])
    ensures Holds(tp, s, j, kid', Under(s, me', j)) && Kid(tp, t, j)
  {
    PlaceAt(tp, s, t);
    var me, rest := s.th[t], s.th[t].pc.rest;
    var j' := Target(tp, s, t, s.cur.concurrency, rest);
    BroadcastLinks(me, me', s.runs, |s.cur.rounds|, j);
    ContractAt(tp, s, t);
    GotWritten(tp, s.runs, s.cur, j, s.th[j], Under(s, me, j), me.pc.round, me, kid', Under(s, me', j));
  }

  lemma BroadcastDataSafe(tp: Topology, s: State, t: nat, j: nat)
    requires Inv(tp, s) && s.runs > 0 && t < tp.n && s.th[t].pc.BroadcastData? && s.th[t].pc.rest != []
    requires j == s.th[t].pc.rest[0] && Kid(tp, t, j) && s.th[t].pc.round < |s.cur.rounds|
    ensures s.th[j].published == !s.cur.rounds[s.th[t].pc.round].Barrier?
    ensures s.cur.rounds[s.th[t].pc.round].ReduceTransform? ==> s.th[t].result.Some?
  {
    hide SyncOk, HandleOk, CountersOk, HandshakeOk, BystanderOk, MainOk, MainLink, WellFormed, IsWalk, Phase, Base,
      Raised, Passed, RunLimit;
    ContractAt(tp, s, t);
    ContractAt(tp, s, j);
    var me := s.th[t];
    BroadcastLinks(me, me.(pc := BroadcastReset(me.pc.round, me.pc.rest)), s.runs, |s.cur.rounds|, j);
    IsWaiting(tp, s.runs, s.cur, j, s.th[j], Under(s, s.th[t], j), s.th[t].pc.round);
  }

  lemma StepBroadcastData(tp: Topology, s: State, t: nat)
    requires Ready(tp, s, t) && s.th[t].pc.BroadcastData? && s.th[t].pc.rest != []
    ensures WorkerSafe(tp, s, t) && Inv(tp, WorkerStep(tp, s, t))
  {
    hide ForkStep, NotifyStep, TaskStep, CollectStep, MeetStep, AwaitStep, SignalStep, JoinStep, HistoryOk, DataOk,
      ValueOk, Folding, HasResult, Merging, SyncOk, HandleOk, CountersOk, HandshakeOk, BystanderOk, LinkOf, MainOk,
      MainLink, WellFormed, IsWalk, Fold, FoldRest, Results, ResultOf, TransformLog, Phase, Base, Raised, Passed,
      RunLimit, Advances, MovesOn, StartsWalk, Retires, OutputOk, TaskOk, LinkTo, Distinct, Contract;
    var me, rest := s.th[t], s.th[t].pc.rest;
    PlaceAt(tp, s, t);
    var j := rest[0];
    TaskStored(tp, s, t);
    var me' := me.(pc := BroadcastReset(me.pc.round, rest));
    var kid' := Received(s.cur.rounds[me.pc.round], me, s.th[j]);
    BroadcastDataSelfAt(tp, s, t, me');
    BroadcastDataTargetAt(tp, s, t, me', j, kid');
    KeepsAdvance(tp, s, t, me', j, kid');
    BroadcastDataSafe(tp, s, t, j);
  }

  lemma StepBroadcastReset(tp: Topology, s: State, t: nat)
    requires Ready(tp, s, t) && s.th[t].pc.BroadcastReset?
    ensures WorkerSafe(tp, s, t) && Inv(tp, WorkerStep(tp, s, t))
  {
    hide ForkStep, NotifyStep, TaskStep, CollectStep, MeetStep, AwaitStep, SignalStep, JoinStep, HistoryOk, DataOk,
      ValueOk, Folding, HasResult, Merging, OutputOk, LinkOf, MainOk, MainLink, SyncOk, HandleOk, CountersOk,
      HandshakeOk, BystanderOk, MovesOn, StartsWalk, Retires, LinkTo, IsWalk, Distinct, Fold, FoldRest, Results,
      ResultOf, TransformLog;
    var me, link := s.th[t], LinkTo(tp, s, t);
    ContractAt(tp, s, t);
    var rest := me.pc.rest;
    var r := me.pc.round;
    var j := Target(tp, s, t, s.cur.concurrency, rest);
    var me' := me.(pc := BroadcastSet(r, rest));
    var kid' := s.th[j].(collecting := false);
    BroadcastResetSelf(tp, s.runs, s.cur, t, me, link, me');
    BroadcastLinks(me, me', s.runs, |s.cur.rounds|, j);
    GotCollectingReset(tp, s.runs, s.cur, j, s.th[j], Under(s, me, j), r, kid', Under(s, me', j));
    KeepsAdvance(tp, s, t, me', j, kid');
  }

  lemma StepBroadcastSet(tp: Topology, s: State, t: nat)
    requires Ready(tp, s, t) && s.th[t].pc.BroadcastSet?
    ensures WorkerSafe(tp, s, t) && Inv(tp, WorkerStep(tp, s, t))
  {
    hide ForkStep, NotifyStep, TaskStep, CollectStep, MeetStep, AwaitStep, SignalStep, JoinStep, HistoryOk, DataOk,
      ValueOk, Folding, HasResult, Merging, SyncOk, HandleOk, CountersOk, HandshakeOk, BystanderOk, MainOk, MainLink,
      Phase, Base, Raised, Passed, RunLimit, OutputOk, LinkOf, Advances, MovesOn, StartsWalk, LinkTo, IsWalk,
      Distinct, Fold, FoldRest, Results, ResultOf, TransformLog;
    var me, link := s.th[t], LinkTo(tp, s, t);
    ContractAt(tp, s, t);
    var rest := me.pc.rest;
    var r := me.pc.round;
    var j := Target(tp, s, t, s.cur.concurrency, rest);
    var me' := me.(pc := BroadcastData(r, rest[1..]));
    var kid' := s.th[j].(broadcasting := true);
    BroadcastSetSelf(tp, s.runs, s.cur, t, me, link, me');
    BroadcastLinks(me, me', s.runs, |s.cur.rounds|, j);
    GotBroadcast(tp, s.runs, s.cur, j, s.th[j], Under(s, me, j), r, kid', Under(s, me', j));
    forall i: nat | Kid(tp, j, i) ensures Under(s, s.th[j], i) == Under(s, kid', i) {
      SameControl(s.th[j], kid', s.runs, |s.cur.rounds|, i);
    }
    KeepsRetire(tp, s, t, me', j, kid');
  }

  // ----- wait_for_subthreads -----

  lemma StepAwaitSubOver(tp: Topology, s: State, t: nat)
    requires Ready(tp, s, t) && s.th[t].pc.AwaitSub? && s.th[t].pc.rest == []
    ensures WorkerSafe(tp, s, t) && Inv(tp, WorkerStep(tp, s, t))
  {
    hide ForkStep, NotifyStep, TaskStep, CollectStep, MeetStep, BroadcastStep, SignalStep, JoinStep;
    var me, link := s.th[t], LinkTo(tp, s, t);
    ContractAt(tp, s, t);
    var me' := me.(pc := ResetAvailable);
    AwaitSubSelf(tp, s.runs, s.cur, t, me, link, me');
    KeepsMove(tp, s, t, me');
  }

  lemma AwaitSubSelfAt(tp: Topology, s: State, t: nat, me': Thread)
    requires Inv(tp, s) && s.runs > 0 && t < tp.n && s.th[t].pc.AwaitSub? && s.th[t].pc.rest != []
    requires me' == s.th[t].(pc := Merge(s.th[t].pc.rest))
    ensures Holds(tp, s, t, me', LinkTo(tp, s, t))
  {
    ContractAt(tp, s, t);
    AwaitSubSelf(tp, s.runs, s.cur, t, s.th[t], LinkTo(tp, s, t), me');
  }

  lemma AwaitSubTargetAt(tp: Topology, s: State, t: nat, me': Thread, j: nat, kid': Thread)
    requires Inv(tp, s) && s.runs > 0 && t < tp.n && s.th[t].pc.AwaitSub? && s.th[t].pc.rest != []
    requires me' == s.th[t].(pc := Merge(s.th[t].pc.rest)) && j == s.th[t].pc.rest[0]
    requires j < |s.th| && s.th[j].processed && kid' == s.th[j]
    ensures Holds(tp, s, j, kid', Under(s, me', j)) && Kid(tp, t, j)
  {
    PlaceAt(tp, s, t);
    var me, rest := s.th[t], s.th[t].pc.rest;
    var j' := Target(tp, s, t, RunLimit(tp, s.runs, s.cur), rest);
    NotifyLinks(me, me', s.runs, |s.cur.rounds|, j);
    GotAwaited(tp, s.runs, s.cur, j, s.th[j], Under(s, me, j), kid', Under(s, me', j));
  }

  lemma StepAwaitSub(tp: Topology, s: State, t: nat)
    requires Ready(tp, s, t) && s.th[t].pc.AwaitSub? && s.th[t].pc.rest != []
    ensures WorkerSafe(tp, s, t) && Inv(tp, WorkerStep(tp, s, t))
  {
    hide ForkStep, NotifyStep, TaskStep, CollectStep, MeetStep, BroadcastStep, SignalStep, JoinStep, HistoryOk,
      DataOk, ValueOk, Folding, HasResult, Merging, SyncOk, HandleOk, CountersOk, HandshakeOk, BystanderOk, LinkOf,
      Fold, FoldRest, Results, ResultOf, TransformLog, Phase, Base, Raised, Passed, RunLimit, Advances, MovesOn,
      StartsWalk, Retires, Distinct, SubWalk, LinkTo, TaskOk, PlaceOk;
    var me, rest := s.th[t], s.th[t].pc.rest;
    PlaceAt(tp, s, t);
    var j := rest[0];
    var me' := me.(pc := Merge(rest));
    AwaitSubSelfAt(tp, s, t, me');
    AwaitSubTargetAt(tp, s, t, me', j, s.th[j]);
    KeepsAdvance(tp, s, t, me', j, s.th[j]);
    assert Set2(s, t, me', j, s.th[j]) == Set(s, t, me');
  }

  ghost predicate MergesValue(s: State, t: nat)
    requires t < |s.th| && s.th[t].pc.Merge?
  {
    s.th[t].pc.rest != [] && s.th[t].pc.rest[0] < s.cur.concurrency && s.cur.kind.TransformReduce?
  }

  lemma MergeKeeps(tp: Topology, s: State, t: nat, me': Thread, j: nat, kid': Thread)
    requires Inv(tp, s) && s.runs > 0 && t < tp.n && s.th[t].pc.Merge? && Kid(tp, t, j)
    requires Retires(s.th[t].pc, me'.pc) && j == s.th[t].pc.rest[0] && j < RunLimit(tp, s.runs, s.cur)
    requires Distinct(s.th[t].pc.rest) && kid' == s.th[j].(value := None)
    requires Holds(tp, s, t, me', LinkTo(tp, s, t))
    ensures Inv(tp, Set2(s, t, me', j, kid'))
    ensures if j < s.cur.concurrency && s.cur.kind.TransformReduce?
      then s.th[j].value == Some(Fold(tp, s.cur.kind.red, s.cur.concurrency, j)) else s.th[j].value == None
  {
    var me := s.th[t];
    ContractAt(tp, s, j);
    NotifiedLinks(me, me', s.runs, |s.cur.rounds|, j);
    GotMerged(tp, s.runs, s.cur, j, s.th[j], Under(s, me, j), kid', Under(s, me', j));
    forall i: nat | Kid(tp, j, i) ensures Under(s, s.th[j], i) == Under(s, kid', i) {
      SameControl(s.th[j], kid', s.runs, |s.cur.rounds|, i);
    }
    KeepsRetire(tp, s, t, me', j, kid');
  }

  lemma MergeSelfAt(tp: Topology, s: State, t: nat, j: nat, value: Value, acc: Value, me': Thread)
    requires Ready(tp, s, t) && s.th[t].pc.Merge? && MergesValue(s, t)
    requires s.cur.concurrency <= tp.n && j == s.th[t].pc.rest[0] && t < j
    requires value == Fold(tp, s.cur.kind.red, s.cur.concurrency, j)
    requires s.th[t].value.Some? ==> acc == s.cur.kind.red.op(s.th[t].value.value, value)
    requires me' == s.th[t].(value := Some(acc), pc := AwaitSub(s.th[t].pc.rest[1..]))
    ensures s.th[t].value.Some? && Holds(tp, s, t, me', LinkTo(tp, s, t))
  {
    hide Contract;
    ContractAt(tp, s, t);
    MergeSelf(tp, s.runs, s.cur, t, s.th[t], LinkTo(tp, s, t), value, acc, me');
  }

  lemma MergeTarget(tp: Topology, s: State, t: nat) returns (j: nat)
    requires Ready(tp, s, t) && s.th[t].pc.Merge? && MergesValue(s, t)
    ensures s.cur.concurrency <= tp.n && s.th[t].pc.rest != [] && Distinct(s.th[t].pc.rest)
    ensures j == s.th[t].pc.rest[0] && t < j < RunLimit(tp, s.runs, s.cur) && j < |s.th| && Kid(tp, t, j)
  {
    hide OutputOk, MainOk, MainLink;
    PlaceAt(tp, s, t);
    j := Target(tp, s, t, RunLimit(tp, s.runs, s.cur), s.th[t].pc.rest);
  }

  lemma StepMerge(tp: Topology, s: State, t: nat)
    requires Ready(tp, s, t) && s.th[t].pc.Merge? && MergesValue(s, t)
    ensures WorkerSafe(tp, s, t) && Inv(tp, WorkerStep(tp, s, t))
  {
    hide ForkStep, NotifyStep, TaskStep, CollectStep, MeetStep, BroadcastStep, SignalStep, JoinStep, Holds, Fold,
      LinkTo, Contract, RunLimit, Inv;
    var me, rest := s.th[t], s.th[t].pc.rest;
    PlaceAt(tp, s, t);
    TaskStored(tp, s, t);
    var j := MergeTarget(tp, s, t);
    var red := s.cur.kind.red;
    var value := Fold(tp, red, s.cur.concurrency, j);
    var acc := if me.value.Some? then red.op(me.value.value, value) else value;
    var me' := me.(value := Some(acc), pc := AwaitSub(rest[1..]));
    MergeSelfAt(tp, s, t, j, value, acc, me');
    MergeKeeps(tp, s, t, me', j, s.th[j].(value := None));
  }

  lemma SkipMergeSelfAt(tp: Topology, s: State, t: nat, me': Thread)
    requires Inv(tp, s) && s.runs > 0 && t < tp.n && s.th[t].pc.Merge? && !MergesValue(s, t)
    requires s.th[t].pc.rest != []
    requires me' == s.th[t].(pc := AwaitSub(s.th[t].pc.rest[1..]))
    ensures Holds(tp, s, t, me', LinkTo(tp, s, t))
  {
    ContractAt(tp, s, t);
    SkipMergeSelf(tp, s.runs, s.cur, t, s.th[t], LinkTo(tp, s, t), me');
  }

  lemma SkipMergeKeeps(tp: Topology, s: State, t: nat, me': Thread)
    requires Inv(tp, s) && s.runs > 0 && t < tp.n && s.th[t].pc.Merge? && !MergesValue(s, t)
    requires s.th[t].pc.rest != []
    requires me' == s.th[t].(pc := AwaitSub(s.th[t].pc.rest[1..]))
    ensures Inv(tp, Set(s, t, me'))
  {
    hide HistoryOk, DataOk, ValueOk, Folding, HasResult, Merging, SyncOk, HandleOk, CountersOk, HandshakeOk,
      BystanderOk, OutputOk, LinkOf, MainOk, MainLink, WellFormed, IsWalk, Fold, FoldRest, Results, ResultOf,
      TransformLog, Phase, Base, Raised, Passed;
    PlaceAt(tp, s, t);
    var j := Target(tp, s, t, RunLimit(tp, s.runs, s.cur), s.th[t].pc.rest);
    SkipMergeSelfAt(tp, s, t, me');
    MergeKeeps(tp, s, t, me', j, s.th[j].(value := None));
    assert Set2(s, t, me', j, s.th[j].(value := None)) == Set(s, t, me');
  }

  lemma StepSkipMerge(tp: Topology, s: State, t: nat)
    requires Ready(tp, s, t) && s.th[t].pc.Merge? && !MergesValue(s, t)
    ensures WorkerSafe(tp, s, t) && Inv(tp, WorkerStep(tp, s, t))
  {
    hide ForkStep, NotifyStep, TaskStep, CollectStep, MeetStep, BroadcastStep, SignalStep, JoinStep;
    TaskStored(tp, s, t);
    PlaceAt(tp, s, t);
    SkipMergeKeeps(tp, s, t, s.th[t].(pc := AwaitSub(s.th[t].pc.rest[1..])));
  }

  // ----- task_signal_completion and next_pass -----

  lemma StepResetAvailable(tp: Topology, s: State, t: nat)
    requires Ready(tp, s, t) && s.th[t].pc.ResetAvailable?
    ensures WorkerSafe(tp, s, t) && Inv(tp, WorkerStep(tp, s, t))
  {
    hide ForkStep, NotifyStep, TaskStep, CollectStep, MeetStep, BroadcastStep, AwaitStep, JoinStep;
    var me, link := s.th[t], LinkTo(tp, s, t);
    ContractAt(tp, s, t);
    var me' := me.(available := false, pc := SetProcessed);
    ResetAvailableSelf(tp, s.runs, s.cur, t, me, link, me');
    KeepsMove(tp, s, t, me');
  }

  lemma SetProcessedSelfAt(tp: Topology, s: State, t: nat, me': Thread)
    requires Inv(tp, s) && s.runs > 0 && t < tp.n && s.th[t].pc.SetProcessed?
    requires me' == s.th[t].(processed := true, pass := s.th[t].pass + 1, ran := s.runs,
                            pc := if s.th[t].joinRequested then JoinStart else TaskWait)
    ensures Holds(tp, s, t, me', LinkTo(tp, s, t)) && !s.th[t].processed
    ensures forall i: nat :: Kid(tp, t, i) ==> Unconcerned(tp, s, s.th[t], me', i)
  {
    ContractAt(tp, s, t);
    SetProcessedSelf(tp, s.runs, s.cur, t, s.th[t], LinkTo(tp, s, t), me');
    forall i: nat | Kid(tp, t, i) ensures Unconcerned(tp, s, s.th[t], me', i) {
      DoneLinks(s.th[t], me', s.runs, |s.cur.rounds|, i);
    }
  }

  lemma StepSetProcessed(tp: Topology, s: State, t: nat)
    requires Ready(tp, s, t) && s.th[t].pc.SetProcessed?
    ensures WorkerSafe(tp, s, t) && Inv(tp, WorkerStep(tp, s, t))
  {
    hide ForkStep, NotifyStep, TaskStep, CollectStep, MeetStep, BroadcastStep, AwaitStep, JoinStep;
    var me := s.th[t];
    var me' := me.(processed := true, pass := me.pass + 1, ran := s.runs,
                 pc := if me.joinRequested then JoinStart else TaskWait);
    SetProcessedSelfAt(tp, s, t, me');
    KeepsOne(tp, s, t, me');
  }

  // ----- join_subthreads -----

  lemma StepJoinStart(tp: Topology, s: State, t: nat)
    requires Ready(tp, s, t) && s.th[t].pc.JoinStart?
    ensures WorkerSafe(tp, s, t) && Inv(tp, WorkerStep(tp, s, t))
  {
    hide ForkStep, NotifyStep, TaskStep, CollectStep, MeetStep, BroadcastStep, AwaitStep, SignalStep;
    var me, link := s.th[t], LinkTo(tp, s, t);
    ContractAt(tp, s, t);
    TaskStored(tp, s, t);
    var walk := tp.up(t, tp.n);
    FullWalk(tp, t, tp.n, walk);
    var me' := me.(pc := Join(walk));
    JoinStartSelf(tp, s.runs, s.cur, t, me, link, walk, me');
    KeepsStart(tp, s, t, me', tp.n, walk);
  }

  lemma StepJoinOver(tp: Topology, s: State, t: nat)
    requires Ready(tp, s, t) && s.th[t].pc.Join? && s.th[t].pc.rest == []
    ensures WorkerSafe(tp, s, t) && Inv(tp, WorkerStep(tp, s, t))
  {
    hide ForkStep, NotifyStep, TaskStep, CollectStep, MeetStep, BroadcastStep, AwaitStep, SignalStep;
    var me, link := s.th[t], LinkTo(tp, s, t);
    ContractAt(tp, s, t);
    var me' := me.(pc := Exited);
    JoinSelf(tp, s.runs, s.cur, t, me, link, me');
    KeepsMove(tp, s, t, me');
  }

  lemma JoinSelfAt(tp: Topology, s: State, t: nat, me': Thread)
    requires Inv(tp, s) && s.runs > 0 && t < tp.n && s.th[t].pc.Join? && s.th[t].pc.rest != []
    requires me' == s.th[t].(pc := Join(s.th[t].pc.rest[1..]))
    ensures Holds(tp, s, t, me', LinkTo(tp, s, t))
  {
    ContractAt(tp, s, t);
    JoinSelf(tp, s.runs, s.cur, t, s.th[t], LinkTo(tp, s, t), me');
  }

  lemma JoinTargetAt(tp: Topology, s: State, t: nat, me': Thread, j: nat, kid': Thread)
    requires Inv(tp, s) && s.runs > 0 && t < tp.n && s.th[t].pc.Join? && s.th[t].pc.rest != []
    requires me' == s.th[t].(pc := Join(s.th[t].pc.rest[1..])) && j == s.th[t].pc.rest[0]
    requires j < |s.th| && s.th[j].pc.Exited? && kid' == s.th[j].(hasHandle := false, joins := s.th[j].joins + 1)
    ensures Holds(tp, s, j, kid', Under(s, me', j)) && Kid(tp, t, j)
  {
    PlaceAt(tp, s, t);
    var me, rest := s.th[t], s.th[t].pc.rest;
    var j' := Target(tp, s, t, tp.n, rest);
    NotifiedLinks(me, me', s.runs, |s.cur.rounds|, j);
    GotJoined(tp, s.runs, s.cur, j, s.th[j], Under(s, me, j), kid', Under(s, me', j));
  }

  lemma StepJoin(tp: Topology, s: State, t: nat)
    requires Ready(tp, s, t) && s.th[t].pc.Join? && s.th[t].pc.rest != []
    ensures WorkerSafe(tp, s, t) && Inv(tp, WorkerStep(tp, s, t))
  {
    hide ForkStep, NotifyStep, TaskStep, CollectStep, MeetStep, BroadcastStep, AwaitStep, SignalStep;
    var me, rest := s.th[t], s.th[t].pc.rest;
    PlaceAt(tp, s, t);
    var j := rest[0];
    var me' := me.(pc := Join(rest[1..]));
    var kid' := s.th[j].(hasHandle := false, joins := s.th[j].joins + 1);
    JoinSelfAt(tp, s, t, me');
    JoinTargetAt(tp, s, t, me', j, kid');
    forall i: nat | Kid(tp, j, i) ensures Under(s, s.th[j], i) == Under(s, kid', i) {
      SameControl(s.th[j], kid', s.runs, |s.cur.rounds|, i);
    }
    KeepsRetire(tp, s, t, me', j, kid');
    ContractAt(tp, s, j);
  }

  /** Whatever a thread does next: nothing the source asserts is violated, and the invariant is kept. */
  lemma WorkerKeepsInv(tp: Topology, s: State, t: nat)
    requires Inv(tp, s) && WorkerEnabled(s, t)
    ensures WorkerSafe(tp, s, t) && Inv(tp, WorkerStep(tp, s, t))
  {
    var pc := s.th[t].pc;
    match pc
    case ForkReset(rest) =>
      if rest == [] { StepForkResetOver(tp, s, t); } else { StepForkReset(tp, s, t); }
    case ForkNotify(_) => StepForkNotify(tp, s, t);
    case ForkSpawn(_) => StepForkSpawn(tp, s, t);
    case TaskWait => StepWake(tp, s, t);
    case NotifyReset(rest) =>
      if rest == [] { StepNotifyResetOver(tp, s, t); } else { StepNotifyReset(tp, s, t); }
    case NotifySet(_) => StepNotifySet(tp, s, t);
    case RunTask =>
      if t < s.cur.concurrency { StepRunTask(tp, s, t); } else { StepSkipTask(tp, s, t); }
    case RoundStart(r) =>
      if r < |s.cur.rounds| { StepRoundStart(tp, s, t); } else { StepTaskDone(tp, s, t); }
    case Collect(_, rest) =>
      if rest != [] { StepCollect(tp, s, t); }
      else if t > 0 { StepCollectOver(tp, s, t); }
      else { StepCollectRoot(tp, s, t); }
    case CollectData(_, _) =>
      if CollectsBarrier(s, t) { StepCollectBarrier(tp, s, t); } else { StepCollectData(tp, s, t); }
    case Publish(_) => StepPublish(tp, s, t);
    case ResetBroadcasting(_) => StepResetBroadcasting(tp, s, t);
    case SetCollecting(_) => StepSetCollecting(tp, s, t);
    case AwaitBroadcast(_) => StepAwaitBroadcast(tp, s, t);
    case Unpublish(_) => StepUnpublish(tp, s, t);
    case BroadcastData(_, rest) =>
      if rest == [] { StepBroadcastDataOver(tp, s, t); } else { StepBroadcastData(tp, s, t); }
    case BroadcastReset(_, _) => StepBroadcastReset(tp, s, t);
    case BroadcastSet(_, _) => StepBroadcastSet(tp, s, t);
    case AwaitSub(rest) =>
      if rest == [] { StepAwaitSubOver(tp, s, t); } else { StepAwaitSub(tp, s, t); }
    case Merge(_) =>
      if MergesValue(s, t) { StepMerge(tp, s, t); } else { StepSkipMerge(tp, s, t); }
    case ResetAvailable => StepResetAvailable(tp, s, t);
    case SetProcessed => StepSetProcessed(tp, s, t);
    case JoinStart => StepJoinStart(tp, s, t);
    case Join(rest) =>
      if rest == [] { StepJoinOver(tp, s, t); } else { StepJoin(tp, s, t); }
    case Unborn =>
    case Exited =>
  }
}
