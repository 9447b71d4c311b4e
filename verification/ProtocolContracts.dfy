/** How single moves of a thread, or of its controller, keep the thread's contract. */
module ProtocolContracts {
  import opened Sequences
  import opened Wrappers
  import opened Values
  import opened Protocol
  import opened TreeFold
  import opened ProtocolInvariant

  // ----- what the controller's moves do to the thread -----

  lemma GotReset(tp: Topology, runs: nat, task: Task, j: nat, kid: Thread, link: Link, kid': Thread, link': Link)
    requires Contract(tp, runs, task, j, kid, link) && j < RunLimit(tp, runs, task) && link.view == 0
    requires kid' == kid.(processed := false) && link' == link.(view := 1)
    ensures Contract(tp, runs, task, j, kid', link')
  {
  }

  lemma GotNotified(tp: Topology, runs: nat, task: Task, j: nat, kid: Thread, link: Link, kid': Thread, link': Link)
    requires Contract(tp, runs, task, j, kid, link) && j < RunLimit(tp, runs, task) && link.view == 1
    requires kid' == kid.(available := true) && link' == link.(view := if runs == 1 then 2 else 3)
    ensures !kid.available
    ensures Contract(tp, runs, task, j, kid', link')
  {
  }

  lemma GotForked(tp: Topology, runs: nat, task: Task, j: nat, kid: Thread, link: Link,
      walk: seq<nat>, kid': Thread, link': Link)
    requires Contract(tp, runs, task, j, kid, link) && j < RunLimit(tp, runs, task) && link.view == 2 && !link.joined
    requires SubWalk(tp, j, tp.n, walk)
    requires kid' == kid.(hasHandle := true, forks := kid.forks + 1, pc := ForkReset(walk)) && link' == link.(view := 3)
    ensures !kid.hasHandle && kid.pc.Unborn?
    ensures Contract(tp, runs, task, j, kid', link')
  {
  }

  lemma GotAwaited(tp: Topology, runs: nat, task: Task, j: nat, kid: Thread, link: Link, kid': Thread, link': Link)
    requires Contract(tp, runs, task, j, kid, link) && j < RunLimit(tp, runs, task) && link.view == 3 && kid.processed
    requires kid' == kid && link' == link.(view := 4)
    ensures Contract(tp, runs, task, j, kid', link')
  {
  }

  lemma GotMerged(tp: Topology, runs: nat, task: Task, j: nat, kid: Thread, link: Link, kid': Thread, link': Link)
    requires Contract(tp, runs, task, j, kid, link) && 0 < j < RunLimit(tp, runs, task) && link.view == 4
    requires kid' == kid.(value := None) && link' == link.(view := 5)
    ensures j < task.concurrency && task.kind.TransformReduce?
      ==> kid.value == Some(Fold(tp, task.kind.red, task.concurrency, j))
    ensures !(j < task.concurrency && task.kind.TransformReduce?) ==> kid.value == None
    ensures Contract(tp, runs, task, j, kid', link')
  {
  }

  lemma GotCollected(tp: Topology, runs: nat, task: Task, j: nat, kid: Thread, link: Link, kid': Thread, link': Link)
    requires Contract(tp, runs, task, j, kid, link) && 0 < j < task.concurrency
    requires kid.collecting && link.seen == link.reset
    requires kid' == kid && link' == link.(seen := link.seen + 1)
    ensures Contract(tp, runs, task, j, kid', link')
  {
  }

  /** Between collecting and broadcasting, the thread waits in the controller's round. */
  lemma IsWaiting(tp: Topology, runs: nat, task: Task, j: nat, kid: Thread, link: Link, r: nat)
    requires Contract(tp, runs, task, j, kid, link) && 0 < j < task.concurrency
    requires link.seen == r + 1 && link.bcast == r
    ensures kid.pc == AwaitBroadcast(r)
  {
  }

  lemma GotWritten(tp: Topology, runs: nat, task: Task, j: nat, kid: Thread, link: Link,
      r: nat, boss: Thread, kid': Thread, link': Link)
    requires Contract(tp, runs, task, j, kid, link) && 0 < j < task.concurrency && r < |task.rounds|
    requires link.seen == r + 1 && link.wrote == r && link.bcast == r && HasResult(tp, task, r, boss)
    requires kid' == Received(task.rounds[r], boss, kid) && link' == link.(wrote := r + 1)
    ensures Contract(tp, runs, task, j, kid', link')
  {
    IsWaiting(tp, runs, task, j, kid, link, r);
  }

  lemma GotCollectingReset(tp: Topology, runs: nat, task: Task, j: nat, kid: Thread, link: Link,
      r: nat, kid': Thread, link': Link)
    requires Contract(tp, runs, task, j, kid, link) && 0 < j < task.concurrency
    requires link.seen == r + 1 && link.wrote == r + 1 && link.reset == r && link.bcast == r
    requires kid' == kid.(collecting := false) && link' == link.(reset := r + 1)
    ensures Contract(tp, runs, task, j, kid', link')
  {
    IsWaiting(tp, runs, task, j, kid, link, r);
  }

  lemma GotBroadcast(tp: Topology, runs: nat, task: Task, j: nat, kid: Thread, link: Link,
      r: nat, kid': Thread, link': Link)
    requires Contract(tp, runs, task, j, kid, link) && 0 < j < task.concurrency
    requires link.seen == r + 1 && link.wrote == r + 1 && link.reset == r + 1 && link.bcast == r
    requires kid' == kid.(broadcasting := true) && link' == link.(bcast := r + 1)
    ensures !kid.broadcasting
    ensures Contract(tp, runs, task, j, kid', link')
  {
    IsWaiting(tp, runs, task, j, kid, link, r);
  }

  lemma GotJoined(tp: Topology, runs: nat, task: Task, j: nat, kid: Thread, link: Link, kid': Thread, link': Link)
    requires Contract(tp, runs, task, j, kid, link) && kid.pc.Exited? && !link.joined
    requires kid' == kid.(hasHandle := false, joins := kid.joins + 1) && link' == link.(joined := true)
    ensures kid.hasHandle
    ensures Contract(tp, runs, task, j, kid', link')
  {
  }

  // ----- walks and folds, one target on -----

  lemma SubWalkTail(tp: Topology, i: nat, lim: nat, rest: seq<nat>)
    requires SubWalk(tp, i, lim, rest) && rest != []
    ensures SubWalk(tp, i, lim, rest[1..])
  {
  }

  lemma MergingTail(tp: Topology, red: Reduction, c: nat, i: nat, me: Thread, rest: seq<nat>, me': Thread)
    requires WellFormed(tp) && c <= tp.n && i < tp.n && Merging(tp, red, c, i, me, rest) && rest != []
    requires me'.value == if rest[0] < c then Some(red.op(me.value.value, Fold(tp, red, c, rest[0]))) else me.value
    ensures Merging(tp, red, c, i, me', rest[1..])
  {
  }

  lemma FoldingTail(tp: Topology, task: Task, i: nat, r: nat, me: Thread, rest: seq<nat>, me': Thread)
    requires WellFormed(tp) && 0 < task.concurrency <= tp.n && r < |task.rounds| && i < tp.n
    requires !task.rounds[r].Barrier? && Folding(tp, task, i, r, me, rest) && rest != []
    requires i < rest[0] < task.concurrency
    requires me'.data
      == Some(task.rounds[r].red.op(me.data.value, Fold(tp, task.rounds[r].red, task.concurrency, rest[0])))
    ensures Folding(tp, task, i, r, me', rest[1..])
  {
  }

  // ----- when the controller's move does not concern the thread -----

  /** The two links differ only in what does not matter to a thread that takes no part. */
  ghost predicate Compatible(tp: Topology, runs: nat, task: Task, i: nat, link: Link, link': Link) {
    link == link' ||
    (i >= task.concurrency && link.joined == link'.joined && (link.view == link'.view || i >= RunLimit(tp, runs, task)))
  }

  lemma ContractCompatible(tp: Topology, runs: nat, task: Task, i: nat, me: Thread, link: Link, link': Link)
    requires Contract(tp, runs, task, i, me, link) && Compatible(tp, runs, task, i, link, link')
    ensures Contract(tp, runs, task, i, me, link')
  {
  }

  // ----- the thread's own moves -----

  lemma ForkResetSelf(tp: Topology, runs: nat, task: Task, t: nat, me: Thread, link: Link, me': Thread)
    requires Contract(tp, runs, task, t, me, link) && me.pc.ForkReset?
    requires me' == me.(pc := if me.pc.rest == [] then TaskWait else ForkNotify(me.pc.rest))
    ensures Contract(tp, runs, task, t, me', link)
  {
  }

  lemma ForkNotifySelf(tp: Topology, runs: nat, task: Task, t: nat, me: Thread, link: Link, me': Thread)
    requires Contract(tp, runs, task, t, me, link) && me.pc.ForkNotify?
    requires me' == me.(pc := ForkSpawn(me.pc.rest))
    ensures Contract(tp, runs, task, t, me', link)
  {
  }

  lemma ForkSpawnSelf(tp: Topology, runs: nat, task: Task, t: nat, me: Thread, link: Link, me': Thread)
    requires Contract(tp, runs, task, t, me, link) && me.pc.ForkSpawn?
    requires me' == me.(pc := ForkReset(me.pc.rest[1..]))
    ensures Contract(tp, runs, task, t, me', link)
  {
  }

  lemma WakeSelf(tp: Topology, runs: nat, task: Task, t: nat, me: Thread, link: Link, walk: seq<nat>, me': Thread)
    requires Contract(tp, runs, task, t, me, link) && me.pc.TaskWait? && me.available
    requires SubWalk(tp, t, RunLimit(tp, runs, task), walk)
    requires me' == me.(joinRequested := task.joinRequested,
      pc := if me.pass == 0 then RunTask else NotifyReset(walk))
    ensures me.pass == 0 <==> runs == 1
    ensures Contract(tp, runs, task, t, me', link)
  {
  }

  lemma NotifyResetSelf(tp: Topology, runs: nat, task: Task, t: nat, me: Thread, link: Link, me': Thread)
    requires Contract(tp, runs, task, t, me, link) && me.pc.NotifyReset?
    requires me' == me.(pc := if me.pc.rest == [] then RunTask else NotifySet(me.pc.rest))
    ensures Contract(tp, runs, task, t, me', link)
  {
  }

  lemma NotifySetSelf(tp: Topology, runs: nat, task: Task, t: nat, me: Thread, link: Link, me': Thread)
    requires Contract(tp, runs, task, t, me, link) && me.pc.NotifySet?
    requires me' == me.(pc := NotifyReset(me.pc.rest[1..]))
    ensures Contract(tp, runs, task, t, me', link)
  {
  }

  lemma RunTaskSelf(tp: Topology, runs: nat, task: Task, t: nat, me: Thread, link: Link, me': Thread)
    requires Contract(tp, runs, task, t, me, link) && me.pc.RunTask? && t < task.concurrency
    requires me' == me.(executed := me.executed + 1, pc := RoundStart(0))
    ensures Contract(tp, runs, task, t, me', link)
  {
  }

  lemma SkipTaskSelf(tp: Topology, runs: nat, task: Task, t: nat, me: Thread, link: Link, walk: seq<nat>, me': Thread)
    requires Contract(tp, runs, task, t, me, link) && me.pc.RunTask? && t >= task.concurrency
    requires SubWalk(tp, t, RunLimit(tp, runs, task), walk)
    requires me' == me.(pc := AwaitSub(walk))
    ensures Contract(tp, runs, task, t, me', link)
  {
  }

  /** A new synchroniser holds the thread's own contribution; the walk over its targets is all to come. */
  lemma RoundStartSelf(tp: Topology, runs: nat, task: Task, t: nat, me: Thread, link: Link,
      data: Option<Value>, walk: seq<nat>, me': Thread)
    requires Contract(tp, runs, task, t, me, link) && me.pc.RoundStart? && me.pc.round < |task.rounds|
    requires var round := task.rounds[me.pc.round]; !round.Barrier? ==> data == Some(round.red.x(t))
    requires walk == tp.up(t, task.concurrency) && SubWalk(tp, t, task.concurrency, walk) && Above(tp, t, walk)
    requires me' == me.(data := data, result := None, pc := Collect(me.pc.round, walk))
    ensures Contract(tp, runs, task, t, me', link)
  {
  }

  lemma ActionDoneSelf(tp: Topology, runs: nat, task: Task, t: nat, me: Thread, link: Link, walk: seq<nat>, me': Thread)
    requires Contract(tp, runs, task, t, me, link) && me.pc == RoundStart(|task.rounds|) && task.kind.Action?
    requires SubWalk(tp, t, RunLimit(tp, runs, task), walk)
    requires me' == me.(pc := AwaitSub(walk))
    ensures Contract(tp, runs, task, t, me', link)
  {
  }

  lemma TransformDoneSelf(tp: Topology, runs: nat, task: Task, t: nat, me: Thread, link: Link,
      walk: seq<nat>, me': Thread)
    requires Contract(tp, runs, task, t, me, link) && me.pc == RoundStart(|task.rounds|) && task.kind.TransformReduce?
    requires SubWalk(tp, t, RunLimit(tp, runs, task), walk) && Above(tp, t, walk)
    requires FoldRest(tp, task.kind.red, task.concurrency, t, task.kind.red.x(t), walk)
          == Fold(tp, task.kind.red, task.concurrency, t)
    requires me' == me.(value := Some(task.kind.red.x(t)), pc := AwaitSub(walk))
    ensures me.value == None
    ensures Contract(tp, runs, task, t, me', link)
  {
  }

  /** Every thread merges the same value, whether it waits for all threads or for those of the task. */
  lemma FoldRunWalk(tp: Topology, runs: nat, task: Task, t: nat)
    requires TaskOk(tp, runs, task) && t < tp.n && task.kind.TransformReduce?
    ensures var walk := tp.up(t, RunLimit(tp, runs, task));
      && Above(tp, t, walk)
      && FoldRest(tp, task.kind.red, task.concurrency, t, task.kind.red.x(t), walk)
      == Fold(tp, task.kind.red, task.concurrency, t)
  {
    FoldFullWalk(tp, task.kind.red, task.concurrency, t);
    WalkAbove(tp, t, task.concurrency);
  }

  lemma CollectSelf(tp: Topology, runs: nat, task: Task, t: nat, me: Thread, link: Link, me': Thread)
    requires Contract(tp, runs, task, t, me, link) && me.pc.Collect? && (me.pc.rest != [] || t > 0)
    requires me' == me.(pc := if me.pc.rest == [] then Publish(me.pc.round) else CollectData(me.pc.round, me.pc.rest))
    ensures Contract(tp, runs, task, t, me', link)
  {
    hide WellFormed, IsWalk, Fold, FoldRest, Results, ResultOf, TransformLog, Distinct, SubWalk, LinkTo;
  }

  /** Thread 0 has the whole fold once it has collected. */
  lemma CollectedRoot(tp: Topology, runs: nat, task: Task, t: nat, me: Thread, link: Link, walk: seq<nat>, me': Thread)
    requires Contract(tp, runs, task, t, me, link) && t == 0 && me.pc.Collect? && me.pc.rest == []
    requires !task.rounds[me.pc.round].ReduceTransform? && SubWalk(tp, 0, task.concurrency, walk)
    requires me' == me.(pc := BroadcastData(me.pc.round, walk))
    ensures Contract(tp, runs, task, t, me', link)
  {
  }

  /** Thread 0 applies the transform, once. */
  lemma TransformedRoot(tp: Topology, runs: nat, task: Task, t: nat, me: Thread, link: Link,
      value: Value, walk: seq<nat>, me': Thread)
    requires Contract(tp, runs, task, t, me, link) && t == 0 && me.pc.Collect? && me.pc.rest == []
    requires task.rounds[me.pc.round].ReduceTransform? && SubWalk(tp, 0, task.concurrency, walk)
    requires me.data.Some? ==> value == task.rounds[me.pc.round].fin(me.data.value)
    requires me' == me.(result := Some(value), transforms := me.transforms + [me.pc.round],
                        pc := BroadcastData(me.pc.round, walk))
    ensures me.data.Some?
    ensures Contract(tp, runs, task, t, me', link)
  {
  }

  lemma CollectBarrierSelf(tp: Topology, runs: nat, task: Task, t: nat, me: Thread, link: Link, me': Thread)
    requires Contract(tp, runs, task, t, me, link) && me.pc.CollectData? && task.rounds[me.pc.round].Barrier?
    requires me' == me.(pc := Collect(me.pc.round, me.pc.rest[1..]))
    ensures Contract(tp, runs, task, t, me', link)
  {
  }

  lemma CollectDataSelf(tp: Topology, runs: nat, task: Task, t: nat, me: Thread, link: Link,
      value: Value, acc: Value, me': Thread)
    requires Contract(tp, runs, task, t, me, link) && me.pc.CollectData? && !task.rounds[me.pc.round].Barrier?
    requires t < me.pc.rest[0] < task.concurrency
    requires value == Fold(tp, task.rounds[me.pc.round].red, task.concurrency, me.pc.rest[0])
    requires me.data.Some? ==> acc == task.rounds[me.pc.round].red.op(me.data.value, value)
    requires me' == me.(data := Some(acc), pc := Collect(me.pc.round, me.pc.rest[1..]))
    ensures me.data.Some?
    ensures Contract(tp, runs, task, t, me', link)
  {
    SubWalkTail(tp, t, task.concurrency, me.pc.rest);
    FoldingTail(tp, task, t, me.pc.round, me, me.pc.rest, me');
  }

  lemma PublishSelf(tp: Topology, runs: nat, task: Task, t: nat, me: Thread, link: Link, me': Thread)
    requires Contract(tp, runs, task, t, me, link) && me.pc.Publish?
    requires me' == me.(published := !task.rounds[me.pc.round].Barrier?, pc := ResetBroadcasting(me.pc.round))
    ensures Contract(tp, runs, task, t, me', link)
  {
  }

  lemma ResetBroadcastingSelf(tp: Topology, runs: nat, task: Task, t: nat, me: Thread, link: Link, me': Thread)
    requires Contract(tp, runs, task, t, me, link) && me.pc.ResetBroadcasting?
    requires me' == me.(broadcasting := false, pc := SetCollecting(me.pc.round))
    ensures Contract(tp, runs, task, t, me', link)
  {
  }

  lemma SetCollectingSelf(tp: Topology, runs: nat, task: Task, t: nat, me: Thread, link: Link, me': Thread)
    requires Contract(tp, runs, task, t, me, link) && me.pc.SetCollecting?
    requires me' == me.(collecting := true, pc := AwaitBroadcast(me.pc.round))
    ensures !me.collecting
    ensures Contract(tp, runs, task, t, me', link)
  {
  }

  lemma AwaitBroadcastSelf(tp: Topology, runs: nat, task: Task, t: nat, me: Thread, link: Link, me': Thread)
    requires Contract(tp, runs, task, t, me, link) && me.pc.AwaitBroadcast? && me.broadcasting
    requires me' == me.(pc := Unpublish(me.pc.round))
    ensures Contract(tp, runs, task, t, me', link)
  {
  }

  lemma UnpublishSelf(tp: Topology, runs: nat, task: Task, t: nat, me: Thread, link: Link, walk: seq<nat>, me': Thread)
    requires Contract(tp, runs, task, t, me, link) && me.pc.Unpublish? && SubWalk(tp, t, task.concurrency, walk)
    requires me' == me.(published := false, pc := BroadcastData(me.pc.round, walk))
    ensures Contract(tp, runs, task, t, me', link)
  {
  }

  lemma BroadcastDataSelf(tp: Topology, runs: nat, task: Task, t: nat, me: Thread, link: Link, me': Thread)
    requires Contract(tp, runs, task, t, me, link) && me.pc.BroadcastData? && me.pc.rest != []
    requires me' == me.(pc := BroadcastReset(me.pc.round, me.pc.rest))
    ensures HasResult(tp, task, me.pc.round, me)
    ensures Contract(tp, runs, task, t, me', link)
  {
  }

  lemma RoundDoneSelf(tp: Topology, runs: nat, task: Task, t: nat, me: Thread, link: Link, me': Thread)
    requires Contract(tp, runs, task, t, me, link) && me.pc.BroadcastData? && me.pc.rest == []
    requires me' == me.(log := me.log + [Outcome(task.rounds[me.pc.round], me)], pc := RoundStart(me.pc.round + 1))
    ensures Contract(tp, runs, task, t, me', link)
  {
  }

  lemma BroadcastResetSelf(tp: Topology, runs: nat, task: Task, t: nat, me: Thread, link: Link, me': Thread)
    requires Contract(tp, runs, task, t, me, link) && me.pc.BroadcastReset?
    requires me' == me.(pc := BroadcastSet(me.pc.round, me.pc.rest))
    ensures Contract(tp, runs, task, t, me', link)
  {
  }

  lemma BroadcastSetSelf(tp: Topology, runs: nat, task: Task, t: nat, me: Thread, link: Link, me': Thread)
    requires Contract(tp, runs, task, t, me, link) && me.pc.BroadcastSet?
    requires me' == me.(pc := BroadcastData(me.pc.round, me.pc.rest[1..]))
    ensures Contract(tp, runs, task, t, me', link)
  {
    SubWalkTail(tp, t, task.concurrency, me.pc.rest);
  }

  lemma AwaitSubSelf(tp: Topology, runs: nat, task: Task, t: nat, me: Thread, link: Link, me': Thread)
    requires Contract(tp, runs, task, t, me, link) && me.pc.AwaitSub?
    requires me' == me.(pc := if me.pc.rest == [] then ResetAvailable else Merge(me.pc.rest))
    ensures Contract(tp, runs, task, t, me', link)
  {
  }

  lemma SkipMergeSelf(tp: Topology, runs: nat, task: Task, t: nat, me: Thread, link: Link, me': Thread)
    requires Contract(tp, runs, task, t, me, link) && me.pc.Merge?
    requires task.kind.Action? || me.pc.rest[0] >= task.concurrency
    requires me' == me.(pc := AwaitSub(me.pc.rest[1..]))
    ensures Contract(tp, runs, task, t, me', link)
  {
    SubWalkTail(tp, t, RunLimit(tp, runs, task), me.pc.rest);
    if task.kind.TransformReduce? && t < task.concurrency {
      MergingTail(tp, task.kind.red, task.concurrency, t, me, me.pc.rest, me');
    }
  }

  lemma MergeSelf(tp: Topology, runs: nat, task: Task, t: nat, me: Thread, link: Link,
      value: Value, acc: Value, me': Thread)
    requires Contract(tp, runs, task, t, me, link) && me.pc.Merge?
    requires task.kind.TransformReduce? && t < me.pc.rest[0] < task.concurrency
    requires value == Fold(tp, task.kind.red, task.concurrency, me.pc.rest[0])
    requires me.value.Some? ==> acc == task.kind.red.op(me.value.value, value)
    requires me' == me.(value := Some(acc), pc := AwaitSub(me.pc.rest[1..]))
    ensures me.value.Some?
    ensures Contract(tp, runs, task, t, me', link)
  {
    SubWalkTail(tp, t, RunLimit(tp, runs, task), me.pc.rest);
    MergingTail(tp, task.kind.red, task.concurrency, t, me, me.pc.rest, me');
  }

  lemma ResetAvailableSelf(tp: Topology, runs: nat, task: Task, t: nat, me: Thread, link: Link, me': Thread)
    requires Contract(tp, runs, task, t, me, link) && me.pc.ResetAvailable?
    requires me' == me.(available := false, pc := SetProcessed)
    ensures Contract(tp, runs, task, t, me', link)
  {
  }

  lemma SetProcessedSelf(tp: Topology, runs: nat, task: Task, t: nat, me: Thread, link: Link, me': Thread)
    requires Contract(tp, runs, task, t, me, link) && me.pc.SetProcessed?
    requires me' == me.(processed := true, pass := me.pass + 1, ran := runs,
      pc := if me.joinRequested then JoinStart else TaskWait)
    ensures !me.processed
    ensures Contract(tp, runs, task, t, me', link)
  {
  }

  lemma JoinStartSelf(tp: Topology, runs: nat, task: Task, t: nat, me: Thread, link: Link, walk: seq<nat>, me': Thread)
    requires Contract(tp, runs, task, t, me, link) && me.pc.JoinStart? && SubWalk(tp, t, tp.n, walk)
    requires me' == me.(pc := Join(walk))
    ensures Contract(tp, runs, task, t, me', link)
  {
  }

  lemma JoinSelf(tp: Topology, runs: nat, task: Task, t: nat, me: Thread, link: Link, me': Thread)
    requires Contract(tp, runs, task, t, me, link) && me.pc.Join?
    requires me' == me.(pc := if me.pc.rest == [] then Exited else Join(me.pc.rest[1..]))
    ensures Contract(tp, runs, task, t, me', link)
  {
    hide LinkOf, MainOk, MainLink, Fold, FoldRest, Results, ResultOf, TransformLog, RunLimit, Distinct, SubWalk,
      LinkTo;
    if me.pc.rest != [] {
      SubWalkTail(tp, t, tp.n, me.pc.rest);
    }
  }
}
