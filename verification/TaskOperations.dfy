/**
The operations on task data that the steps of the squad stand for (include/patton/detail/thread_squad.hpp): the
result slots of a transform_reduce, and the synchronisers of reduce and reduce_transform.
*/
module TaskOperations {
  import opened Wrappers
  import opened Values
  import opened Protocol
  import opened ProtocolInvariant
  import opened ProtocolSteps
  import opened ProtocolRuns

  /** The slots as `merge(dst, src)` leaves them. */
  function Merged(slots: seq<Option<Value>>, op: (Value, Value) -> Value, dst: nat, src: nat): seq<Option<Value>>
    requires dst < |slots| && src < |slots| && slots[dst].Some? && slots[src].Some?
  {
    slots[dst := Some(op(slots[dst].value, slots[src].value))][src := None]
  }

  class TransformReduceOperation {
    const red: Reduction
    const subthreadData: array<Option<Value>>

    constructor (red: Reduction, subthreadData: array<Option<Value>>)
      ensures this.red == red && this.subthreadData == subthreadData
    {
      this.red := red;
      this.subthreadData := subthreadData;
    }

    method Execute(i: nat)
      requires i < subthreadData.Length && subthreadData[i] == None
      modifies subthreadData
      ensures subthreadData[..] == old(subthreadData[..])[i := Some(red.x(i))]
    {
      subthreadData[i] := Some(red.x(i));
    }

    method Merge(iDst: nat, iSrc: nat)
      requires iDst < subthreadData.Length && iSrc < subthreadData.Length
      requires subthreadData[iDst].Some? && subthreadData[iSrc].Some?
      modifies subthreadData
      ensures subthreadData[..] == Merged(old(subthreadData[..]), red.op, iDst, iSrc)
    {
      subthreadData[iDst] := Some(red.op(subthreadData[iDst].value, subthreadData[iSrc].value));
      subthreadData[iSrc] := None;
    }
  }

  /** The synchroniser of `reduce`. */
  class ReduceSynchronizer {
    var value: Value
    const op: (Value, Value) -> Value

    constructor (value: Value, op: (Value, Value) -> Value)
      ensures this.value == value && this.op == op
    {
      this.value := value;
      this.op := op;
    }

    /** This is the synchroniser on the stack of a thread that takes part in the round. */
    ghost predicate IsOf(round: Round, thread: Thread)
      reads this
    {
      round.Reduce? && op == round.red.op && thread.data == Some(value)
    }

    /** Collecting from a controlled thread's synchroniser is what the protocol does to the collecting thread. */
    method Collect(src: ReduceSynchronizer, ghost round: Round, ghost me: Thread, ghost kid: Thread)
      requires src != this && IsOf(round, me) && src.IsOf(round, kid)
      modifies this
      ensures value == op(old(value), old(src.value))
      ensures IsOf(round, Collected(round, me, kid))
    {
      value := op(value, src.value);
    }

    /** Broadcasting to a controlled thread's synchroniser is what the protocol does to that thread. */
    method Broadcast(dst: ReduceSynchronizer, ghost round: Round, ghost me: Thread, ghost kid: Thread)
      requires dst != this && IsOf(round, me) && dst.IsOf(round, kid)
      modifies dst
      ensures dst.value == value
      ensures dst.IsOf(round, Received(round, me, kid)) && IsOf(round, me)
    {
      dst.value := value;
    }
  }

  /** The synchroniser of `reduce_transform`. */
  class ReduceTransformSynchronizer {
    var value: Value
    var result: Option<Value>
    const op: (Value, Value) -> Value

    constructor (value: Value, op: (Value, Value) -> Value)
      ensures this.value == value && this.op == op && result == None
    {
      this.value := value;
      this.op := op;
      result := None;
    }

    /** This is the synchroniser on the stack of a thread that takes part in the round. */
    ghost predicate IsOf(round: Round, thread: Thread)
      reads this
    {
      round.ReduceTransform? && op == round.red.op && thread.data == Some(value) && thread.result == result
    }

    /** Collecting from a controlled thread's synchroniser is what the protocol does to the collecting thread. */
    method Collect(src: ReduceTransformSynchronizer, ghost round: Round, ghost me: Thread, ghost kid: Thread)
      requires src != this && IsOf(round, me) && src.IsOf(round, kid)
      modifies this
      ensures value == op(old(value), old(src.value)) && result == old(result)
      ensures IsOf(round, Collected(round, me, kid))
    {
      value := op(value, src.value);
    }

    /** Its result is that of the thread; its value may have been moved into the transform. */
    ghost predicate HasResultOf(round: Round, thread: Thread)
      reads this
    {
      round.ReduceTransform? && thread.result == result
    }

    /**
    Broadcasting to a controlled thread's synchroniser is what the protocol does to that thread. `result.value()` is
    there: only thread 0 and threads that have received a result broadcast.
    */
    method Broadcast(dst: ReduceTransformSynchronizer, ghost round: Round, ghost me: Thread, ghost kid: Thread)
      requires dst != this && HasResultOf(round, me) && dst.HasResultOf(round, kid) && result.Some?
      modifies dst
      ensures dst.result == result && dst.value == old(dst.value)
      ensures dst.HasResultOf(round, Received(round, me, kid)) && HasResultOf(round, me)
    {
      dst.result := result;
    }
  }

  // ----- the steps of the squad do just that -----

  /** The result slots as they are spread over the threads. */
  function Slots(s: State): (slots: seq<Option<Value>>)
    ensures |slots| == |s.th|
  {
    seq(|s.th|, i requires 0 <= i < |s.th| => s.th[i].value)
  }

  /** A merging step of thread `t` is `merge(t, target)` on the slots, which are both filled. */
  lemma MergeStepMerges(tp: Topology, s: State, t: nat, s': State)
    requires WellFormed(tp) && Ready(tp, s, t) && WorkerSafe(tp, s, t) && s' == AwaitStep(tp, s, t)
    requires s.th[t].pc.Merge? && MergesValue(s, t)
    ensures var j := s.th[t].pc.rest[0];
      && j < |s.th| && j != t && Slots(s)[t].Some? && Slots(s)[j].Some?
      && Slots(s') == Merged(Slots(s), s.cur.kind.red.op, t, j)
  {
    hide LinkOf, OutputOk;
    TaskStored(tp, s, t);
    PlaceAt(tp, s, t);
    assert s.th[t].pc.rest[0] != t;
  }

  /** The end of a task is `execute` on the thread's slot, which is still empty. */
  lemma TaskStepExecutes(tp: Topology, s: State, t: nat, s': State)
    requires WellFormed(tp) && Ready(tp, s, t) && WorkerSafe(tp, s, t) && s' == TaskStep(tp, s, t)
    requires s.th[t].pc == RoundStart(|s.cur.rounds|) && s.cur.kind.TransformReduce?
    ensures Slots(s)[t] == None
    ensures Slots(s') == Slots(s)[t := Some(s.cur.kind.red.x(t))]
  {
    hide LinkOf, OutputOk;
    TaskStored(tp, s, t);
  }

  /**
  A collecting step of a reachable squad is `collect` on the synchronisers of two different threads: the controlled
  thread's one is published, both hold a value, and what they hold afterwards is what `collect` leaves.
  */
  lemma CollectStepCollects(tp: Topology, s: State, t: nat)
    requires WellFormed(tp) && Reachable(tp, s) && WorkerEnabled(s, t) && s.th[t].pc.CollectData?
    ensures s.task == Some(s.cur) && s.th[t].pc.round < |s.cur.rounds|
    ensures s.th[t].pc.rest != [] && s.th[t].pc.rest[0] < |s.th| && s.th[t].pc.rest[0] != t
    ensures WorkerSafe(tp, s, t)
    ensures var round, me, kid := s.cur.rounds[s.th[t].pc.round], s.th[t], s.th[s.th[t].pc.rest[0]];
      !round.Barrier? ==>
        && kid.published && me.data.Some? && kid.data.Some?
        && WorkerStep(tp, s, t).th == s.th[t := Collected(round, me, kid).(pc := Collect(me.pc.round, me.pc.rest[1..]))]
  {
    hide OutputOk, LinkOf, Collected;
    hide ForkStep, NotifyStep, TaskStep, MeetStep, BroadcastStep, AwaitStep, SignalStep, JoinStep;
    ReachableInv(tp, s);
    NoFailure(tp, s, Worker(t));
    TaskStored(tp, s, t);
    PlaceAt(tp, s, t);
  }

  lemma HoldsOutcome(tp: Topology, s: State, t: nat)
    requires Inv(tp, s) && s.runs > 0 && t < tp.n && s.th[t].pc.BroadcastData? && s.th[t].pc.round < |s.cur.rounds|
    ensures !s.cur.rounds[s.th[t].pc.round].Barrier? ==> Outcome(s.cur.rounds[s.th[t].pc.round], s.th[t]).Some?
  {
    ContractAt(tp, s, t);
  }

  /**
  A broadcasting step of a reachable squad is `broadcast` on the synchronisers of two different threads: the
  controlled thread's one is published, a transformed result is there, and the target is left as `broadcast` leaves it.
  */
  lemma BroadcastStepBroadcasts(tp: Topology, s: State, t: nat)
    requires WellFormed(tp) && Reachable(tp, s) && WorkerEnabled(s, t) && s.th[t].pc.BroadcastData?
    requires s.th[t].pc.rest != []
    ensures s.task == Some(s.cur) && s.th[t].pc.round < |s.cur.rounds|
    ensures s.th[t].pc.rest[0] < |s.th| && s.th[t].pc.rest[0] != t
    ensures WorkerSafe(tp, s, t)
    ensures var round, me, j := s.cur.rounds[s.th[t].pc.round], s.th[t], s.th[t].pc.rest[0];
      !round.Barrier? ==>
        && s.th[j].published && Outcome(round, me).Some?
        && WorkerStep(tp, s, t).th
           == s.th[t := me.(pc := BroadcastReset(me.pc.round, me.pc.rest))][j := Received(round, me, s.th[j])]
  {
    hide OutputOk, LinkOf, Received;
    hide ForkStep, NotifyStep, TaskStep, CollectStep, MeetStep, AwaitStep, SignalStep, JoinStep;
    ReachableInv(tp, s);
    NoFailure(tp, s, Worker(t));
    TaskStored(tp, s, t);
    PlaceAt(tp, s, t);
    HoldsOutcome(tp, s, t);
  }
}
