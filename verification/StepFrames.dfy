/** What the steps of a thread change and what they leave alone, in any tree. */
module StepFrames {
  import opened Wrappers
  import opened Protocol

  // ----- flags -----

  datatype Flag = Available | Processed | Collecting | Broadcasting

  function FlagOf(me: Thread, f: Flag): bool {
    match f
    case Available => me.available
    case Processed => me.processed
    case Collecting => me.collecting
    case Broadcasting => me.broadcasting
  }

  predicate Addresses(rest: seq<nat>, i: nat) {
    rest != [] && rest[0] == i
  }

  /** The next step of thread `t`, whose program counter is `pc`, stores to flag `f` of thread `i`. */
  predicate WorkerWrites(pc: PC, t: nat, f: Flag, i: nat) {
    match pc
    case ForkReset(rest) => f == Processed && Addresses(rest, i)
    case ForkNotify(rest) => f == Available && Addresses(rest, i)
    case NotifyReset(rest) => f == Processed && Addresses(rest, i)
    case NotifySet(rest) => f == Available && Addresses(rest, i)
    case ResetBroadcasting(_) => f == Broadcasting && i == t
    case SetCollecting(_) => f == Collecting && i == t
    case BroadcastReset(_, rest) => f == Collecting && Addresses(rest, i)
    case BroadcastSet(_, rest) => f == Broadcasting && Addresses(rest, i)
    case ResetAvailable => f == Available && i == t
    case SetProcessed => f == Processed && i == t
    case _ => false
  }

  // ----- what may change -----

  /** The targets a thread has yet to fork. */
  function ForkRest(pc: PC): seq<nat> {
    match pc
    case ForkReset(rest) => rest
    case ForkNotify(rest) => rest
    case ForkSpawn(rest) => rest
    case _ => []
  }

  predicate Forks(pc: PC) {
    pc.ForkReset? || pc.ForkNotify? || pc.ForkSpawn?
  }

  /** The targets that the current walk of a thread has yet to visit. */
  function RestOf(pc: PC): seq<nat> {
    match pc
    case ForkReset(rest) => rest
    case ForkNotify(rest) => rest
    case ForkSpawn(rest) => rest
    case NotifyReset(rest) => rest
    case NotifySet(rest) => rest
    case Collect(_, rest) => rest
    case CollectData(_, rest) => rest
    case BroadcastData(_, rest) => rest
    case BroadcastReset(_, rest) => rest
    case BroadcastSet(_, rest) => rest
    case AwaitSub(rest) => rest
    case Merge(rest) => rest
    case Join(rest) => rest
    case _ => []
  }

  predicate SameFork(me: Thread, me': Thread) {
    me'.pc.Unborn? == me.pc.Unborn? && ForkRest(me'.pc) == ForkRest(me.pc)
  }

  /** The thread has neither got ahead with forking nor passed a run, and `processed` has at most been reset. */
  predicate Calm(me: Thread, me': Thread) {
    SameFork(me, me') && (Forks(me'.pc) ==> Forks(me.pc)) && me'.pass == me.pass && (me'.processed ==> me.processed)
  }

  predicate SameHandle(me: Thread, me': Thread) {
    me'.hasHandle == me.hasHandle && me'.forks == me.forks && me'.joins == me.joins
  }

  predicate ForksOrJoins(pc: PC, i: nat) {
    (pc.ForkSpawn? || pc.Join?) && Addresses(pc.rest, i)
  }

  /** Of the flags and the OS thread handle of thread `i`, only those change that a step of `t` at `pc` writes. */
  predicate Signals(pc: PC, t: nat, i: nat, me: Thread, me': Thread) {
    && (me'.available != me.available ==> WorkerWrites(pc, t, Available, i))
    && (me'.processed != me.processed ==> WorkerWrites(pc, t, Processed, i))
    && (me'.collecting != me.collecting ==> WorkerWrites(pc, t, Collecting, i))
    && (me'.broadcasting != me.broadcasting ==> WorkerWrites(pc, t, Broadcasting, i))
    && (SameHandle(me, me') || ForksOrJoins(pc, i))
  }

  /** The thread waits for others to complete the task, or is about to signal its own completion. */
  predicate Waits(pc: PC) {
    pc.AwaitSub? || pc.Merge? || pc.ResetAvailable? || pc.SetProcessed?
  }

  /** The thread has seen that joining is requested, and is on its way out. */
  predicate Leaves(pc: PC) {
    pc.JoinStart? || pc.Join? || pc.Exited?
  }

  /** How thread `t` may get to the program counter `pc'`, if it waits or leaves there. */
  ghost predicate Moves(tp: Topology, s: State, t: nat, pc': PC)
    requires t < |s.th|
  {
    (Waits(pc') || Leaves(pc')) && pc' != s.th[t].pc ==>
      match s.th[t].pc
      case RunTask | RoundStart(_) => pc' == AwaitSub(tp.up(t, NumThreadsForTask(tp, s, t)))
      case AwaitSub(rest) => pc' == if rest == [] then ResetAvailable else Merge(rest)
      case Merge(rest) => rest != [] && pc' == AwaitSub(rest[1..])
      case ResetAvailable => pc' == SetProcessed
      case JoinStart => pc' == Join(tp.up(t, tp.n))
      case Join(rest) => pc' == if rest == [] then Exited else Join(rest[1..])
      case _ => false
  }

  /** What a step of thread `t` does to thread `i`, unless it starts a thread or signals completion. */
  predicate Keeps(s: State, t: nat, i: nat, me': Thread)
    requires t < |s.th| && i < |s.th|
  {
    && Calm(s.th[i], me') && Signals(s.th[t].pc, t, i, s.th[i], me')
    && (me'.joinRequested ==> s.th[i].joinRequested || (s.task.Some? && s.task.value.joinRequested))
  }

  /** Threads that the step neither is one of nor addresses stay as they are. */
  ghost predicate Elsewhere(s: State, t: nat, s': State)
    requires t < |s.th| == |s'.th|
  {
    forall i :: 0 <= i < |s.th| && i != t && !Addresses(RestOf(s.th[t].pc), i) ==> s'.th[i] == s.th[i]
  }

  ghost predicate Frame(tp: Topology, s: State, t: nat, s': State) {
    && t < |s.th| == |s'.th| && s' == s.(th := s'.th)
    && Moves(tp, s, t, s'.th[t].pc)
    && (forall i :: 0 <= i < |s.th| ==> Keeps(s, t, i, s'.th[i]) && (i != t ==> s'.th[i].pc == s.th[i].pc))
    && Elsewhere(s, t, s')
  }

  /** A step that addresses a thread addresses one of the squad. */
  lemma AddressedExists(tp: Topology, s: State, t: nat)
    requires WorkerEnabled(s, t) && WorkerSafe(tp, s, t)
    ensures t < |s.th|
    ensures var pc := s.th[t].pc;
      && (pc.ForkReset? || pc.NotifyReset? || pc.Join? || pc.BroadcastData? ==> TargetInRange(s, pc.rest))
      && (pc.ForkNotify? || pc.ForkSpawn? || pc.NotifySet? || pc.BroadcastReset? || pc.BroadcastSet?
          || pc.Merge? || pc.CollectData? ==>
            pc.rest != [] && TargetInRange(s, pc.rest))
      && (pc.BroadcastData? || pc.Collect? || pc.Publish? ==> s.task.Some? && pc.round < |s.task.value.rounds|)
      && (pc.RunTask? || pc.RoundStart? || pc.Unpublish? ==> s.task.Some?)
      && (pc.CollectData? ==>
            && s.task.Some? && pc.round < |s.task.value.rounds|
            && (!s.task.value.rounds[pc.round].Barrier? ==> s.th[t].data.Some? && s.th[pc.rest[0]].data.Some?))
  {
  }

  lemma OneFrame(tp: Topology, s: State, t: nat, me': Thread)
    requires t < |s.th| && Keeps(s, t, t, me') && Moves(tp, s, t, me'.pc)
    ensures Frame(tp, s, t, Set(s, t, me'))
  {
    hide Moves, WorkerWrites;
  }

  /** A step of a thread on its own that neither forks, nor writes a flag, nor learns of a request to join. */
  predicate Quiet(me: Thread, me': Thread) {
    && !Forks(me.pc) && !Forks(me'.pc) && me'.pc.Unborn? == me.pc.Unborn?
    && me' == me.(pc := me'.pc, executed := me'.executed, data := me'.data, result := me'.result, value := me'.value,
                  published := me'.published, log := me'.log, transforms := me'.transforms)
  }

  lemma QuietFrame(tp: Topology, s: State, t: nat, me': Thread)
    requires t < |s.th| && Quiet(s.th[t], me') && Moves(tp, s, t, me'.pc)
    ensures Frame(tp, s, t, Set(s, t, me'))
  {
    hide Moves, WorkerWrites;
  }

  /** A step that changes thread `t` and addresses thread `j`, which may even be `t`, and stays where it is. */
  lemma TwoFrame(tp: Topology, s: State, t: nat, me': Thread, j: nat, kid': Thread)
    requires t < |s.th| && j < |s.th| && Calm(s.th[t], me') && Moves(tp, s, t, me'.pc)
    requires me' == s.th[t].(pc := me'.pc, value := me'.value)
    requires Keeps(s, t, j, kid') && kid'.pc == s.th[j].pc && Addresses(RestOf(s.th[t].pc), j)
    ensures Frame(tp, s, t, Set2(s, t, me', j, kid'))
  {
    hide WorkerWrites;
  }

  // ----- the steps, group by group -----

  lemma ForkFrame(tp: Topology, s: State, t: nat, s': State)
    requires WorkerEnabled(s, t) && WorkerSafe(tp, s, t) && s' == ForkStep(tp, s, t)
    requires s.th[t].pc.ForkReset? || s.th[t].pc.ForkNotify?
    ensures Frame(tp, s, t, s')
  {
    AddressedExists(tp, s, t);
    hide WorkerEnabled, WorkerSafe, Frame;
    var me, rest := s.th[t], s.th[t].pc.rest;
    if rest == [] {
      OneFrame(tp, s, t, me.(pc := TaskWait));
    } else {
      var kid := s.th[rest[0]];
      if me.pc.ForkReset? {
        TwoFrame(tp, s, t, me.(pc := ForkNotify(rest)), rest[0], kid.(processed := false));
      } else {
        TwoFrame(tp, s, t, me.(pc := ForkSpawn(rest)), rest[0], kid.(available := true));
      }
    }
  }

  lemma WakeFrame(tp: Topology, s: State, t: nat, s': State)
    requires WorkerEnabled(s, t) && WorkerSafe(tp, s, t) && s' == NotifyStep(tp, s, t) && s.th[t].pc.TaskWait?
    ensures Frame(tp, s, t, s')
  {
    AddressedExists(tp, s, t);
    hide WorkerEnabled, Frame, NumThreadsForTask;
    var me := s.th[t];
    var pc := if me.pass == 0 then RunTask else NotifyReset(tp.down(t, NumThreadsForTask(tp, s, t)));
    OneFrame(tp, s, t, me.(joinRequested := s.task.value.joinRequested, pc := pc));
  }

  lemma NotifyResetFrame(tp: Topology, s: State, t: nat, s': State)
    requires WorkerEnabled(s, t) && WorkerSafe(tp, s, t) && s' == NotifyStep(tp, s, t) && s.th[t].pc.NotifyReset?
    ensures Frame(tp, s, t, s')
  {
    AddressedExists(tp, s, t);
    hide WorkerEnabled, WorkerSafe, Frame, NumThreadsForTask;
    var me, rest := s.th[t], s.th[t].pc.rest;
    if rest == [] {
      QuietFrame(tp, s, t, me.(pc := RunTask));
    } else {
      TwoFrame(tp, s, t, me.(pc := NotifySet(rest)), rest[0], s.th[rest[0]].(processed := false));
    }
  }

  lemma NotifySetFrame(tp: Topology, s: State, t: nat, s': State)
    requires WorkerEnabled(s, t) && WorkerSafe(tp, s, t) && s' == NotifyStep(tp, s, t) && s.th[t].pc.NotifySet?
    ensures Frame(tp, s, t, s')
  {
    AddressedExists(tp, s, t);
    hide WorkerEnabled, WorkerSafe, Frame, NumThreadsForTask;
    var me, rest := s.th[t], s.th[t].pc.rest;
    TwoFrame(tp, s, t, me.(pc := NotifyReset(rest[1..])), rest[0], s.th[rest[0]].(available := true));
  }

  lemma RunTaskFrame(tp: Topology, s: State, t: nat, s': State)
    requires WorkerEnabled(s, t) && WorkerSafe(tp, s, t) && s' == TaskStep(tp, s, t) && s.th[t].pc.RunTask?
    ensures Frame(tp, s, t, s')
  {
    AddressedExists(tp, s, t);
    hide WorkerEnabled, WorkerSafe, NumThreadsForTask, Frame;
    var me := s.th[t];
    if t < s.task.value.concurrency {
      QuietFrame(tp, s, t, me.(executed := me.executed + 1, pc := RoundStart(0)));
    } else {
      QuietFrame(tp, s, t, me.(pc := AwaitSub(tp.up(t, NumThreadsForTask(tp, s, t)))));
    }
  }

  lemma RoundStartFrame(tp: Topology, s: State, t: nat, s': State)
    requires WorkerEnabled(s, t) && WorkerSafe(tp, s, t) && s' == TaskStep(tp, s, t) && s.th[t].pc.RoundStart?
    ensures Frame(tp, s, t, s')
  {
    AddressedExists(tp, s, t);
    hide WorkerEnabled, WorkerSafe, NumThreadsForTask, Frame;
    var task, me, r := s.task.value, s.th[t], s.th[t].pc.round;
    if r < |task.rounds| {
      var data := if task.rounds[r].Barrier? then me.data else Some(task.rounds[r].red.x(t));
      QuietFrame(tp, s, t, me.(data := data, result := None, pc := Collect(r, tp.up(t, task.concurrency))));
    } else {
      var value := if task.kind.TransformReduce? then Some(task.kind.red.x(t)) else me.value;
      QuietFrame(tp, s, t, me.(value := value, pc := AwaitSub(tp.up(t, NumThreadsForTask(tp, s, t)))));
    }
  }

  lemma RootCollectFrame(tp: Topology, s: State, t: nat, s': State)
    requires WorkerEnabled(s, t) && WorkerSafe(tp, s, t) && s' == CollectStep(tp, s, t) && s.th[t].pc.Collect?
    requires s.th[t].pc.rest == [] && t == 0
    ensures Frame(tp, s, t, s')
  {
    AddressedExists(tp, s, t);
    hide WorkerEnabled, WorkerSafe, Frame;
    var me, r := s.th[t], s.th[t].pc.round;
    var round := s.task.value.rounds[r];
    var down := BroadcastData(r, tp.down(t, s.task.value.concurrency));
    if round.ReduceTransform? {
      QuietFrame(tp, s, t,
        me.(result := Some(round.fin(me.data.value)), transforms := me.transforms + [r], pc := down));
    } else {
      QuietFrame(tp, s, t, me.(pc := down));
    }
  }

  lemma CollectFrame(tp: Topology, s: State, t: nat, s': State)
    requires WorkerEnabled(s, t) && WorkerSafe(tp, s, t) && s' == CollectStep(tp, s, t) && s.th[t].pc.Collect?
    ensures Frame(tp, s, t, s')
  {
    AddressedExists(tp, s, t);
    hide WorkerEnabled, WorkerSafe, Frame;
    var me, r := s.th[t], s.th[t].pc.round;
    if me.pc.rest != [] {
      QuietFrame(tp, s, t, me.(pc := CollectData(r, me.pc.rest)));
    } else if t > 0 {
      QuietFrame(tp, s, t, me.(pc := Publish(r)));
    } else {
      RootCollectFrame(tp, s, t, s');
    }
  }

  /** The collecting thread only changes its own data. */
  lemma CollectsData(round: Round, me: Thread, kid: Thread)
    requires !round.Barrier? ==> me.data.Some? && kid.data.Some?
    ensures var me' := Collected(round, me, kid); me' == me.(data := me'.data)
  {
  }

  lemma CollectDataFrame(tp: Topology, s: State, t: nat, s': State)
    requires WorkerEnabled(s, t) && WorkerSafe(tp, s, t) && s' == CollectStep(tp, s, t) && s.th[t].pc.CollectData?
    ensures Frame(tp, s, t, s')
  {
    AddressedExists(tp, s, t);
    hide WorkerEnabled, WorkerSafe, Frame, Collected, WorkerWrites;
    var me, r, rest := s.th[t], s.th[t].pc.round, s.th[t].pc.rest;
    CollectsData(s.task.value.rounds[r], me, s.th[rest[0]]);
    QuietFrame(tp, s, t, Collected(s.task.value.rounds[r], me, s.th[rest[0]]).(pc := Collect(r, rest[1..])));
  }

  lemma MeetQuietFrame(tp: Topology, s: State, t: nat, s': State)
    requires WorkerEnabled(s, t) && WorkerSafe(tp, s, t) && s' == MeetStep(tp, s, t)
    requires s.th[t].pc.Publish? || s.th[t].pc.AwaitBroadcast? || s.th[t].pc.Unpublish?
    ensures Frame(tp, s, t, s')
  {
    AddressedExists(tp, s, t);
    hide WorkerEnabled, WorkerSafe, Frame;
    var me := s.th[t];
    match me.pc
    case Publish(r) =>
      QuietFrame(tp, s, t, me.(published := !s.task.value.rounds[r].Barrier?, pc := ResetBroadcasting(r)));
    case AwaitBroadcast(r) => QuietFrame(tp, s, t, me.(pc := Unpublish(r)));
    case Unpublish(r) =>
      QuietFrame(tp, s, t, me.(published := false, pc := BroadcastData(r, tp.down(t, s.task.value.concurrency))));
  }

  lemma MeetFlagFrame(tp: Topology, s: State, t: nat, s': State)
    requires WorkerEnabled(s, t) && WorkerSafe(tp, s, t) && s' == MeetStep(tp, s, t)
    requires s.th[t].pc.ResetBroadcasting? || s.th[t].pc.SetCollecting?
    ensures Frame(tp, s, t, s')
  {
    AddressedExists(tp, s, t);
    hide WorkerEnabled, WorkerSafe, Frame;
    var me, r := s.th[t], s.th[t].pc.round;
    if me.pc.ResetBroadcasting? {
      OneFrame(tp, s, t, me.(broadcasting := false, pc := SetCollecting(r)));
    } else {
      OneFrame(tp, s, t, me.(collecting := true, pc := AwaitBroadcast(r)));
    }
  }

  /** The target of a broadcast only receives data. */
  lemma ReceivesData(round: Round, me: Thread, kid: Thread)
    ensures var kid' := Received(round, me, kid); kid' == kid.(data := kid'.data, result := kid'.result)
  {
    match round
    case Barrier =>
    case Reduce(_) =>
    case ReduceTransform(_, _) =>
  }

  lemma BroadcastEndFrame(tp: Topology, s: State, t: nat, s': State)
    requires WorkerEnabled(s, t) && WorkerSafe(tp, s, t) && s' == BroadcastStep(tp, s, t)
    requires s.th[t].pc.BroadcastData? && s.th[t].pc.rest == []
    ensures Frame(tp, s, t, s')
  {
    AddressedExists(tp, s, t);
    hide WorkerEnabled, WorkerSafe, Frame, Outcome;
    var me, r := s.th[t], s.th[t].pc.round;
    QuietFrame(tp, s, t, me.(log := me.log + [Outcome(s.task.value.rounds[r], me)], pc := RoundStart(r + 1)));
  }

  lemma BroadcastDataFrame(tp: Topology, s: State, t: nat, s': State)
    requires WorkerEnabled(s, t) && WorkerSafe(tp, s, t) && s' == BroadcastStep(tp, s, t)
    requires s.th[t].pc.BroadcastData? && s.th[t].pc.rest != []
    ensures Frame(tp, s, t, s')
  {
    AddressedExists(tp, s, t);
    hide WorkerEnabled, WorkerSafe, Frame, Received, Outcome, WorkerWrites;
    var me, r, rest := s.th[t], s.th[t].pc.round, s.th[t].pc.rest;
    var round := s.task.value.rounds[r];
    ReceivesData(round, me, s.th[rest[0]]);
    TwoFrame(tp, s, t, me.(pc := BroadcastReset(r, rest)), rest[0], Received(round, me, s.th[rest[0]]));
  }

  lemma BroadcastResetFrame(tp: Topology, s: State, t: nat, s': State)
    requires WorkerEnabled(s, t) && WorkerSafe(tp, s, t) && s' == BroadcastStep(tp, s, t) && s.th[t].pc.BroadcastReset?
    ensures Frame(tp, s, t, s')
  {
    AddressedExists(tp, s, t);
    hide WorkerEnabled, WorkerSafe, Frame;
    var me, r, rest := s.th[t], s.th[t].pc.round, s.th[t].pc.rest;
    TwoFrame(tp, s, t, me.(pc := BroadcastSet(r, rest)), rest[0], s.th[rest[0]].(collecting := false));
  }

  lemma BroadcastSetFrame(tp: Topology, s: State, t: nat, s': State)
    requires WorkerEnabled(s, t) && WorkerSafe(tp, s, t) && s' == BroadcastStep(tp, s, t) && s.th[t].pc.BroadcastSet?
    ensures Frame(tp, s, t, s')
  {
    AddressedExists(tp, s, t);
    hide WorkerEnabled, WorkerSafe, Frame;
    var me, r, rest := s.th[t], s.th[t].pc.round, s.th[t].pc.rest;
    TwoFrame(tp, s, t, me.(pc := BroadcastData(r, rest[1..])), rest[0], s.th[rest[0]].(broadcasting := true));
  }

  lemma AwaitSubFrame(tp: Topology, s: State, t: nat, s': State)
    requires WorkerEnabled(s, t) && WorkerSafe(tp, s, t) && s' == AwaitStep(tp, s, t) && s.th[t].pc.AwaitSub?
    ensures Frame(tp, s, t, s')
  {
    AddressedExists(tp, s, t);
    hide WorkerEnabled, WorkerSafe, Frame;
    var rest := s.th[t].pc.rest;
    QuietFrame(tp, s, t, s.th[t].(pc := if rest == [] then ResetAvailable else Merge(rest)));
  }

  lemma MergeFrame(tp: Topology, s: State, t: nat, s': State)
    requires WorkerEnabled(s, t) && WorkerSafe(tp, s, t) && s' == AwaitStep(tp, s, t) && s.th[t].pc.Merge?
    ensures Frame(tp, s, t, s')
  {
    AddressedExists(tp, s, t);
    hide WorkerEnabled, Frame;
    var task, me, rest := s.task.value, s.th[t], s.th[t].pc.rest;
    var kid := s.th[rest[0]];
    if rest[0] < task.concurrency && task.kind.TransformReduce? {
      var me' := me.(value := Some(task.kind.red.op(me.value.value, kid.value.value)), pc := AwaitSub(rest[1..]));
      TwoFrame(tp, s, t, me', rest[0], kid.(value := None));
    } else {
      QuietFrame(tp, s, t, me.(pc := AwaitSub(rest[1..])));
    }
  }

  lemma ResetAvailableFrame(tp: Topology, s: State, t: nat, s': State)
    requires WorkerEnabled(s, t) && WorkerSafe(tp, s, t) && s' == SignalStep(tp, s, t) && s.th[t].pc.ResetAvailable?
    ensures Frame(tp, s, t, s')
  {
    AddressedExists(tp, s, t);
    hide WorkerEnabled, WorkerSafe, Frame;
    OneFrame(tp, s, t, s.th[t].(available := false, pc := SetProcessed));
  }

  lemma JoinStartFrame(tp: Topology, s: State, t: nat, s': State)
    requires WorkerEnabled(s, t) && WorkerSafe(tp, s, t) && s' == JoinStep(tp, s, t) && s.th[t].pc.JoinStart?
    ensures Frame(tp, s, t, s')
  {
    AddressedExists(tp, s, t);
    hide WorkerEnabled, NumThreadsForTask, Frame;
    QuietFrame(tp, s, t, s.th[t].(pc := Join(tp.up(t, tp.n))));
  }

  lemma ExitFrame(tp: Topology, s: State, t: nat, s': State)
    requires WorkerEnabled(s, t) && WorkerSafe(tp, s, t) && s' == JoinStep(tp, s, t)
    requires s.th[t].pc.Join? && s.th[t].pc.rest == []
    ensures Frame(tp, s, t, s')
  {
    AddressedExists(tp, s, t);
    hide WorkerEnabled, WorkerSafe, Frame;
    QuietFrame(tp, s, t, s.th[t].(pc := Exited));
  }

  lemma JoinedKeeps(s: State, t: nat, j: nat)
    requires t < |s.th| && j < |s.th| && s.th[t].pc.Join? && Addresses(s.th[t].pc.rest, j)
    ensures Keeps(s, t, j, s.th[j].(hasHandle := false, joins := s.th[j].joins + 1))
  {
    hide WorkerWrites;
  }

  lemma JoinParts(tp: Topology, s: State, t: nat, s': State)
    requires WorkerEnabled(s, t) && WorkerSafe(tp, s, t) && s' == JoinStep(tp, s, t)
    requires s.th[t].pc.Join? && s.th[t].pc.rest != []
    ensures var me, j := s.th[t], s.th[t].pc.rest[0];
      j < |s.th| && s' == Set2(s, t, me.(pc := Join(me.pc.rest[1..])), j,
                              s.th[j].(hasHandle := false, joins := s.th[j].joins + 1))
  {
    AddressedExists(tp, s, t);
    hide WorkerEnabled, WorkerSafe;
  }

  lemma JoinFrame(tp: Topology, s: State, t: nat, s': State)
    requires WorkerEnabled(s, t) && WorkerSafe(tp, s, t) && s' == JoinStep(tp, s, t)
    requires s.th[t].pc.Join? && s.th[t].pc.rest != []
    ensures Frame(tp, s, t, s')
  {
    JoinParts(tp, s, t, s');
    AddressedExists(tp, s, t);
    hide WorkerEnabled, WorkerSafe, JoinStep, Frame, Keeps;
    var me, j := s.th[t], s.th[t].pc.rest[0];
    JoinedKeeps(s, t, j);
    var kid := s.th[j];
    TwoFrame(tp, s, t, me.(pc := Join(me.pc.rest[1..])), j, kid.(hasHandle := false, joins := kid.joins + 1));
  }

  /** Every step that neither starts a thread nor signals completion keeps to the frame. */
  lemma StepFrame(tp: Topology, s: State, t: nat, s': State)
    requires WorkerEnabled(s, t) && WorkerSafe(tp, s, t) && s' == WorkerStep(tp, s, t)
    requires !s.th[t].pc.ForkSpawn? && !s.th[t].pc.SetProcessed?
    ensures Frame(tp, s, t, s')
  {
    hide ForkStep, NotifyStep, TaskStep, CollectStep, MeetStep, BroadcastStep, AwaitStep, SignalStep, JoinStep, Frame;
    match s.th[t].pc
    case ForkReset(_) | ForkNotify(_) => ForkFrame(tp, s, t, s');
    case TaskWait => WakeFrame(tp, s, t, s');
    case NotifyReset(_) => NotifyResetFrame(tp, s, t, s');
    case NotifySet(_) => NotifySetFrame(tp, s, t, s');
    case RunTask => RunTaskFrame(tp, s, t, s');
    case RoundStart(_) => RoundStartFrame(tp, s, t, s');
    case Collect(_, _) => CollectFrame(tp, s, t, s');
    case CollectData(_, _) => CollectDataFrame(tp, s, t, s');
    case Publish(_) | AwaitBroadcast(_) | Unpublish(_) => MeetQuietFrame(tp, s, t, s');
    case ResetBroadcasting(_) | SetCollecting(_) => MeetFlagFrame(tp, s, t, s');
    case BroadcastData(_, rest) =>
      if rest == [] { BroadcastEndFrame(tp, s, t, s'); } else { BroadcastDataFrame(tp, s, t, s'); }
    case BroadcastReset(_, _) => BroadcastResetFrame(tp, s, t, s');
    case BroadcastSet(_, _) => BroadcastSetFrame(tp, s, t, s');
    case AwaitSub(_) => AwaitSubFrame(tp, s, t, s');
    case Merge(_) => MergeFrame(tp, s, t, s');
    case ResetAvailable => ResetAvailableFrame(tp, s, t, s');
    case JoinStart => JoinStartFrame(tp, s, t, s');
    case Join(rest) =>
      if rest == [] { ExitFrame(tp, s, t, s'); } else { JoinFrame(tp, s, t, s'); }
    case Unborn | Exited =>
  }

  /** The step that starts a thread. */
  lemma SpawnParts(tp: Topology, s: State, t: nat)
    requires WorkerEnabled(s, t) && WorkerSafe(tp, s, t) && s.th[t].pc.ForkSpawn?
    ensures s.th[t].pc.rest != [] && s.th[t].pc.rest[0] < |s.th|
    ensures var rest := s.th[t].pc.rest; var kid := s.th[rest[0]];
      && !kid.hasHandle
      && WorkerStep(tp, s, t) == Set2(s, t, s.th[t].(pc := ForkReset(rest[1..])),
           rest[0], kid.(hasHandle := true, forks := kid.forks + 1, pc := ForkReset(tp.down(rest[0], tp.n))))
  {
    AddressedExists(tp, s, t);
    hide WorkerEnabled, NotifyStep, TaskStep, CollectStep, MeetStep, BroadcastStep, AwaitStep, SignalStep, JoinStep;
  }

  /** The step that signals completion. */
  lemma SignalParts(tp: Topology, s: State, t: nat)
    requires WorkerEnabled(s, t) && WorkerSafe(tp, s, t) && s.th[t].pc.SetProcessed?
    ensures var me := s.th[t];
      WorkerStep(tp, s, t) == Set(s, t, me.(processed := true, pass := me.pass + 1, ran := s.runs,
                                        pc := if me.joinRequested then JoinStart else TaskWait))
  {
    hide WorkerSafe, ForkStep, NotifyStep, TaskStep, CollectStep, MeetStep, BroadcastStep, AwaitStep, JoinStep;
  }

  /** A step of thread `t` leaves all threads alone except itself and the one that it addresses. */
  lemma StepElsewhere(tp: Topology, s: State, t: nat, i: nat)
    requires WorkerEnabled(s, t) && WorkerSafe(tp, s, t)
    requires i < |s.th| && i != t && !Addresses(RestOf(s.th[t].pc), i)
    ensures |WorkerStep(tp, s, t).th| == |s.th| && WorkerStep(tp, s, t).th[i] == s.th[i]
  {
    if s.th[t].pc.ForkSpawn? {
      SpawnParts(tp, s, t);
    } else if s.th[t].pc.SetProcessed? {
      SignalParts(tp, s, t);
    } else {
      StepFrame(tp, s, t, WorkerStep(tp, s, t));
    }
    hide WorkerStep, WorkerSafe;
  }

  /** No step of a run changes the task, the number of runs or the number of threads. */
  lemma StepKeepsTask(tp: Topology, s: State, a: Actor)
    requires Enabled(s, a) && Safe(tp, s, a)
    ensures var s' := Step(tp, s, a); s'.cur == s.cur && s'.runs == s.runs && |s'.th| == |s.th|
  {
    hide ForkStep, NotifyStep, TaskStep, CollectStep, MeetStep, BroadcastStep, AwaitStep, SignalStep, JoinStep;
    match a
    case Caller =>
    case Worker(t) =>
      if s.th[t].pc.ForkSpawn? {
        SpawnParts(tp, s, t);
      } else if s.th[t].pc.SetProcessed? {
        SignalParts(tp, s, t);
      } else {
        StepFrame(tp, s, t, WorkerStep(tp, s, t));
      }
  }
}
