/**
The thread squad as a state machine (src/thread_squad.cpp).

Every thread has a program counter; every access to a flag, to `task_`, to an OS thread handle or to another
thread's data is a step of its own, and steps of different threads interleave arbitrarily. A blocking wait is a
guard. What the source asserts or silently relies on (`set_and_notify` changes the flag, a pointer is not null, a
handle is there) is collected in `WorkerSafe` and `MainSafe`; a step that is not safe is not a step of the machine.
*/
module Protocol {
  import opened Sequences
  import opened Wrappers
  import opened Values

  // ----- the tree, as far as the protocol uses it -----

  /** `up` and `down` are the targets of `from_subthreads` and `to_subthreads` for a thread and a concurrency. */
  datatype Topology = Topology(
    n: nat,
    parent: nat -> nat,
    up: (nat, nat) -> seq<nat>,
    down: (nat, nat) -> seq<nat>
  )

  /** `walk` lists the threads below `lim` that `t` controls, each once. */
  ghost predicate IsWalk(tp: Topology, t: nat, lim: nat, walk: seq<nat>) {
    && Distinct(walk)
    && |walk| <= tp.n
    && forall i :: i in walk <==> 0 < i < lim && tp.parent(i) == t
  }

  function Below(s: seq<nat>, lim: nat): seq<nat> {
    if s == [] then []
    else if s[0] < lim then [s[0]] + Below(s[1..], lim)
    else Below(s[1..], lim)
  }

  ghost predicate WellFormed(tp: Topology) {
    && tp.n >= 1
    && (forall i :: 0 < i < tp.n ==> tp.parent(i) < i)
    && (forall t, lim :: 0 <= t < tp.n && 0 <= lim <= tp.n ==>
          && IsWalk(tp, t, lim, tp.up(t, lim))
          && tp.up(t, lim) == Below(tp.up(t, tp.n), lim))
    && (forall t, lim :: 0 <= t < tp.n && 0 <= lim <= tp.n ==> IsWalk(tp, t, lim, tp.down(t, lim)))
  }

  // ----- tasks -----

  /** A synchronisation call inside a task: `synchronize`, `reduce` or `reduce_transform`. */
  datatype Round = Barrier | Reduce(red: Reduction) | ReduceTransform(red: Reduction, fin: Value -> Value)

  /** `run` executes an action, `transform_reduce` also keeps and merges what the threads return. */
  datatype Kind = Action | TransformReduce(red: Reduction)

  datatype Task = Task(concurrency: nat, joinRequested: bool, kind: Kind, rounds: seq<Round>)

  // ----- states -----

  /** What a thread does next; `rest` are the targets its current walk has yet to visit. */
  datatype PC =
    | Unborn
    // notify_and_fork_subthreads
    | ForkReset(rest: seq<nat>)
    | ForkNotify(rest: seq<nat>)
    | ForkSpawn(rest: seq<nat>)
    // task_wait
    | TaskWait
    // notify_subthreads
    | NotifyReset(rest: seq<nat>)
    | NotifySet(rest: seq<nat>)
    // task_run, with the calls of synchronize_collect and synchronize_broadcast made by the task
    | RunTask
    | RoundStart(round: nat)
    | Collect(round: nat, rest: seq<nat>)
    | CollectData(round: nat, rest: seq<nat>)
    | Publish(round: nat)
    | ResetBroadcasting(round: nat)
    | SetCollecting(round: nat)
    | AwaitBroadcast(round: nat)
    | Unpublish(round: nat)
    | BroadcastData(round: nat, rest: seq<nat>)
    | BroadcastReset(round: nat, rest: seq<nat>)
    | BroadcastSet(round: nat, rest: seq<nat>)
    // wait_for_subthreads
    | AwaitSub(rest: seq<nat>)
    | Merge(rest: seq<nat>)
    // task_signal_completion, next_pass
    | ResetAvailable
    | SetProcessed
    // join_subthreads
    | JoinStart
    | Join(rest: seq<nat>)
    | Exited

  datatype Thread = Thread(
    pc: PC,
    pass: nat,
    joinRequested: bool,
    hasHandle: bool,              // osThread_.have_thread_handle()
    available: bool,              // signalTaskAvailable_
    processed: bool,              // signalTaskProcessed_
    collecting: bool,             // signalCollecting_
    broadcasting: bool,           // signalBroadcasting_
    published: bool,              // syncData_ != nullptr
    data: Option<Value>,          // synchronizer.data.value
    result: Option<Value>,        // synchronizer.data.result
    value: Option<Value>,         // subthreadData_[i].value
    // history: no step depends on it
    ran: nat,                     // number of the last run this thread signalled complete
    executed: nat,                // how often it executed the task of the current run
    log: seq<Option<Value>>,      // what its synchronisation calls returned in the current run
    transforms: seq<nat>,         // the rounds whose transform it applied in the current run
    forks: nat,
    joins: nat
  )

  /** What the thread that calls `run` does next. */
  datatype MainPC = Idle | MainReset | MainNotify | MainFork | MainWait | MainJoin | Release | Destroyed

  datatype State = State(
    main: MainPC,
    task: Option<Task>,           // task_
    th: seq<Thread>,
    // history
    cur: Task,                    // the task of the current or last run
    runs: nat                     // number of runs that had work
  )

  function NewThread(): Thread {
    Thread(Unborn, 0, false, false, false, false, false, false, false, None, None, None, 0, 0, [], [], 0, 0)
  }

  ghost predicate Init(tp: Topology, s: State) {
    s.main == Idle && s.task == None && s.runs == 0 && s.th == seq(tp.n, i => NewThread())
  }

  // ----- steps of a squad thread -----

  /** `num_threads_for_task` of a thread. */
  function NumThreadsForTask(tp: Topology, s: State, t: nat): nat
    requires t < |s.th|
  {
    if s.th[t].pass == 0 || s.task == None || s.task.value.joinRequested then tp.n else s.task.value.concurrency
  }

  function Set(s: State, t: nat, me: Thread): State
    requires t < |s.th|
  {
    s.(th := s.th[t := me])
  }

  function Set2(s: State, t: nat, me: Thread, j: nat, kid: Thread): State
    requires t < |s.th| && j < |s.th|
  {
    s.(th := s.th[t := me][j := kid])
  }

  /** The thread a pending per-target step addresses is a thread of the squad. */
  ghost predicate TargetInRange(s: State, rest: seq<nat>) {
    rest != [] ==> rest[0] < |s.th|
  }

  /** The guards of the blocking waits. */
  ghost predicate WorkerEnabled(s: State, t: nat) {
    t < |s.th| &&
    match s.th[t].pc
    case Unborn => false
    case TaskWait => s.th[t].available
    case Collect(r, rest) => TargetInRange(s, rest) && (rest != [] ==> s.th[rest[0]].collecting)
    case AwaitBroadcast(r) => s.th[t].broadcasting
    case AwaitSub(rest) => TargetInRange(s, rest) && (rest != [] ==> s.th[rest[0]].processed)
    case Join(rest) => TargetInRange(s, rest) && (rest != [] ==> s.th[rest[0]].pc.Exited?)
    case Exited => false
    case _ => true
  }

  /** Whether the next step of thread `t` reads through `task_` (the code a task runs included). */
  ghost predicate ReadsTask(s: State, t: nat)
    requires t < |s.th|
  {
    match s.th[t].pc
    case TaskWait | RunTask | RoundStart(_) | Collect(_, _) | CollectData(_, _) | Publish(_) | Unpublish(_)
      | BroadcastData(_, _) | Merge(_) | JoinStart => true
    case _ => false
  }

  /** What the source asserts, or relies on without checking, about the next step of thread `t`. */
  ghost predicate WorkerSafe(tp: Topology, s: State, t: nat)
    requires t < |s.th|
  {
    var me := s.th[t];
    && (ReadsTask(s, t) ==> s.task.Some?)
    && match me.pc
       case ForkReset(rest) => TargetInRange(s, rest)
       case ForkNotify(rest) => rest != [] && TargetInRange(s, rest) && !s.th[rest[0]].available
       case ForkSpawn(rest) => rest != [] && TargetInRange(s, rest) && !s.th[rest[0]].hasHandle
       case NotifyReset(rest) => TargetInRange(s, rest)
       case NotifySet(rest) => rest != [] && TargetInRange(s, rest) && !s.th[rest[0]].available
       case RoundStart(r) =>
         && r <= |s.task.value.rounds|
         && (r == |s.task.value.rounds| && s.task.value.kind.TransformReduce? ==> me.value == None)
       case Collect(r, rest) => TargetInRange(s, rest) && r < |s.task.value.rounds|
         && (rest == [] && t == 0 && s.task.value.rounds[r].ReduceTransform? ==> me.data.Some?)
       case CollectData(r, rest) => rest != [] && TargetInRange(s, rest) && r < |s.task.value.rounds|
         && (!s.task.value.rounds[r].Barrier? ==>
               s.th[rest[0]].published && s.th[rest[0]].data.Some? && me.data.Some?)
       case Publish(r) => r < |s.task.value.rounds|
       case SetCollecting(r) => !me.collecting
       case BroadcastData(r, rest) => TargetInRange(s, rest) && r < |s.task.value.rounds|
         && (rest != [] && !s.task.value.rounds[r].Barrier? ==> s.th[rest[0]].published)
         && (rest != [] && s.task.value.rounds[r].ReduceTransform? ==> me.result.Some?)
       case BroadcastReset(r, rest) => rest != [] && TargetInRange(s, rest)
       case BroadcastSet(r, rest) => rest != [] && TargetInRange(s, rest) && !s.th[rest[0]].broadcasting
       case Merge(rest) => rest != [] && TargetInRange(s, rest)
         && (rest[0] < s.task.value.concurrency && s.task.value.kind.TransformReduce? ==>
               me.value.Some? && s.th[rest[0]].value.Some?)
       case SetProcessed => !me.processed
       case JoinStart => NumThreadsForTask(tp, s, t) == tp.n
       case Join(rest) => TargetInRange(s, rest) && (rest != [] ==> s.th[rest[0]].hasHandle)
       case _ => true
  }

  /** What a synchronisation call returns. */
  function Outcome(round: Round, me: Thread): Option<Value> {
    match round
    case Barrier => None
    case Reduce(_) => me.data
    case ReduceTransform(_, _) => me.result
  }

  /** `synchronizer.collect(syncData)`: the target's contribution is folded in from the right. */
  function Collected(round: Round, me: Thread, kid: Thread): Thread
    requires !round.Barrier? ==> me.data.Some? && kid.data.Some?
  {
    if round.Barrier? then me else me.(data := Some(round.red.op(me.data.value, kid.data.value)))
  }

  /** `synchronizer.broadcast(syncData)`: the target receives the result. */
  function Received(round: Round, me: Thread, kid: Thread): Thread {
    match round
    case Barrier => kid
    case Reduce(_) => kid.(data := me.data)
    case ReduceTransform(_, _) => kid.(result := me.result)
  }

  /**
  notify_and_fork_subthreads: `notify_thread`, then `fork_thread`, for each target. Without an OS thread handle, a
  target may be forked, be it for the first time or after it has been joined.
  */
  ghost function ForkStep(tp: Topology, s: State, t: nat): State
    requires WorkerEnabled(s, t) && WorkerSafe(tp, s, t)
  {
    var me := s.th[t];
    match me.pc
    case ForkReset(rest) =>
      if rest == [] then Set(s, t, me.(pc := TaskWait))
      else Set2(s, t, me.(pc := ForkNotify(rest)), rest[0], s.th[rest[0]].(processed := false))
    case ForkNotify(rest) =>
      Set2(s, t, me.(pc := ForkSpawn(rest)), rest[0], s.th[rest[0]].(available := true))
    case ForkSpawn(rest) =>
      var kid := s.th[rest[0]];
      Set2(s, t, me.(pc := ForkReset(rest[1..])),
           rest[0], kid.(hasHandle := true, forks := kid.forks + 1, pc := ForkReset(tp.down(rest[0], tp.n))))
    case _ => s
  }

  /** task_wait, and `notify_thread` for each target of notify_subthreads. */
  ghost function NotifyStep(tp: Topology, s: State, t: nat): State
    requires WorkerEnabled(s, t) && WorkerSafe(tp, s, t)
  {
    var me := s.th[t];
    match me.pc
    case TaskWait =>
      var pc := if me.pass == 0 then RunTask else NotifyReset(tp.down(t, NumThreadsForTask(tp, s, t)));
      Set(s, t, me.(joinRequested := s.task.value.joinRequested, pc := pc))
    case NotifyReset(rest) =>
      if rest == [] then Set(s, t, me.(pc := RunTask))
      else Set2(s, t, me.(pc := NotifySet(rest)), rest[0], s.th[rest[0]].(processed := false))
    case NotifySet(rest) =>
      Set2(s, t, me.(pc := NotifyReset(rest[1..])), rest[0], s.th[rest[0]].(available := true))
    case _ => s
  }

  /** task_run: the task's own computation between its synchronisation calls. */
  ghost function TaskStep(tp: Topology, s: State, t: nat): State
    requires WorkerEnabled(s, t) && WorkerSafe(tp, s, t)
  {
    var me := s.th[t];
    match me.pc
    case RunTask =>
      if t < s.task.value.concurrency
      then Set(s, t, me.(executed := me.executed + 1, pc := RoundStart(0)))
      else Set(s, t, me.(pc := AwaitSub(tp.up(t, NumThreadsForTask(tp, s, t)))))
    case RoundStart(r) =>
      var task := s.task.value;
      if r < |task.rounds| then
        var data := if task.rounds[r].Barrier? then me.data else Some(task.rounds[r].red.x(t));
        Set(s, t, me.(data := data, result := None, pc := Collect(r, tp.up(t, task.concurrency))))
      else
        var value := if task.kind.TransformReduce? then Some(task.kind.red.x(t)) else me.value;
        Set(s, t, me.(value := value, pc := AwaitSub(tp.up(t, NumThreadsForTask(tp, s, t)))))
    case _ => s
  }

  /** `collect_from_thread` for each target of synchronize_collect. */
  ghost function CollectStep(tp: Topology, s: State, t: nat): State
    requires WorkerEnabled(s, t) && WorkerSafe(tp, s, t)
  {
    var me := s.th[t];
    match me.pc
    case Collect(r, rest) =>
      var round := s.task.value.rounds[r];
      if rest != [] then Set(s, t, me.(pc := CollectData(r, rest)))
      else if t > 0 then Set(s, t, me.(pc := Publish(r)))
      else
        var down := BroadcastData(r, tp.down(t, s.task.value.concurrency));
        if round.ReduceTransform?
        then Set(s, t, me.(result := Some(round.fin(me.data.value)), transforms := me.transforms + [r], pc := down))
        else Set(s, t, me.(pc := down))
    case CollectData(r, rest) =>
      Set(s, t, Collected(s.task.value.rounds[r], me, s.th[rest[0]]).(pc := Collect(r, rest[1..])))
    case _ => s
  }

  /** The end of synchronize_collect: report to the controller and wait for its broadcast. */
  ghost function MeetStep(tp: Topology, s: State, t: nat): State
    requires WorkerEnabled(s, t) && WorkerSafe(tp, s, t)
  {
    var me := s.th[t];
    match me.pc
    case Publish(r) =>
      Set(s, t, me.(published := !s.task.value.rounds[r].Barrier?, pc := ResetBroadcasting(r)))
    case ResetBroadcasting(r) => Set(s, t, me.(broadcasting := false, pc := SetCollecting(r)))
    case SetCollecting(r) => Set(s, t, me.(collecting := true, pc := AwaitBroadcast(r)))
    case AwaitBroadcast(r) => Set(s, t, me.(pc := Unpublish(r)))
    case Unpublish(r) =>
      Set(s, t, me.(published := false, pc := BroadcastData(r, tp.down(t, s.task.value.concurrency))))
    case _ => s
  }

  /** `broadcast_to_thread` for each target of synchronize_broadcast. */
  ghost function BroadcastStep(tp: Topology, s: State, t: nat): State
    requires WorkerEnabled(s, t) && WorkerSafe(tp, s, t)
  {
    var me := s.th[t];
    match me.pc
    case BroadcastData(r, rest) =>
      var round := s.task.value.rounds[r];
      if rest == [] then Set(s, t, me.(log := me.log + [Outcome(round, me)], pc := RoundStart(r + 1)))
      else Set2(s, t, me.(pc := BroadcastReset(r, rest)), rest[0], Received(round, me, s.th[rest[0]]))
    case BroadcastReset(r, rest) =>
      Set2(s, t, me.(pc := BroadcastSet(r, rest)), rest[0], s.th[rest[0]].(collecting := false))
    case BroadcastSet(r, rest) =>
      Set2(s, t, me.(pc := BroadcastData(r, rest[1..])), rest[0], s.th[rest[0]].(broadcasting := true))
    case _ => s
  }

  /** `wait_for_thread` for each target of wait_for_subthreads. */
  ghost function AwaitStep(tp: Topology, s: State, t: nat): State
    requires WorkerEnabled(s, t) && WorkerSafe(tp, s, t)
  {
    var me := s.th[t];
    match me.pc
    case AwaitSub(rest) =>
      Set(s, t, me.(pc := if rest == [] then ResetAvailable else Merge(rest)))
    case Merge(rest) =>
      var task, kid := s.task.value, s.th[rest[0]];
      if rest[0] < task.concurrency && task.kind.TransformReduce?
      then Set2(s, t, me.(value := Some(task.kind.red.op(me.value.value, kid.value.value)), pc := AwaitSub(rest[1..])),
                rest[0], kid.(value := None))
      else Set(s, t, me.(pc := AwaitSub(rest[1..])))
    case _ => s
  }

  /** task_signal_completion and next_pass. */
  ghost function SignalStep(tp: Topology, s: State, t: nat): State
    requires WorkerEnabled(s, t) && WorkerSafe(tp, s, t)
  {
    var me := s.th[t];
    match me.pc
    case ResetAvailable => Set(s, t, me.(available := false, pc := SetProcessed))
    case SetProcessed =>
      Set(s, t, me.(processed := true, pass := me.pass + 1, ran := s.runs,
                   pc := if me.joinRequested then JoinStart else TaskWait))
    case _ => s
  }

  /** `join_thread` for each target of join_subthreads. */
  ghost function JoinStep(tp: Topology, s: State, t: nat): State
    requires WorkerEnabled(s, t) && WorkerSafe(tp, s, t)
  {
    var me := s.th[t];
    match me.pc
    case JoinStart => Set(s, t, me.(pc := Join(tp.up(t, NumThreadsForTask(tp, s, t)))))
    case Join(rest) =>
      if rest == [] then Set(s, t, me.(pc := Exited))
      else
        var kid := s.th[rest[0]];
        Set2(s, t, me.(pc := Join(rest[1..])), rest[0], kid.(hasHandle := false, joins := kid.joins + 1))
    case _ => s
  }

  ghost function WorkerStep(tp: Topology, s: State, t: nat): State
    requires WorkerEnabled(s, t) && WorkerSafe(tp, s, t)
  {
    match s.th[t].pc
    case ForkReset(_) | ForkNotify(_) | ForkSpawn(_) => ForkStep(tp, s, t)
    case TaskWait | NotifyReset(_) | NotifySet(_) => NotifyStep(tp, s, t)
    case RunTask | RoundStart(_) => TaskStep(tp, s, t)
    case Collect(_, _) | CollectData(_, _) => CollectStep(tp, s, t)
    case Publish(_) | ResetBroadcasting(_) | SetCollecting(_) | AwaitBroadcast(_) | Unpublish(_) => MeetStep(tp, s, t)
    case BroadcastData(_, _) | BroadcastReset(_, _) | BroadcastSet(_, _) => BroadcastStep(tp, s, t)
    case AwaitSub(_) | Merge(_) => AwaitStep(tp, s, t)
    case ResetAvailable | SetProcessed => SignalStep(tp, s, t)
    case JoinStart | Join(_) => JoinStep(tp, s, t)
    case Unborn | Exited => s
  }

  // ----- steps of the calling thread -----

  ghost predicate MainEnabled(s: State) {
    |s.th| > 0 &&
    match s.main
    case Idle | Destroyed => false
    case MainWait => s.th[0].processed
    case MainJoin => s.th[0].pc.Exited?
    case _ => true
  }

  ghost predicate MainSafe(s: State)
    requires |s.th| > 0
  {
    match s.main
    case MainNotify => !s.th[0].available
    case MainFork => !s.th[0].hasHandle
    case MainWait => s.task.Some?
    case MainJoin => s.th[0].hasHandle
    case Release => s.task.Some?
    case _ => true
  }

  ghost function MainStep(tp: Topology, s: State): State
    requires MainEnabled(s) && MainSafe(s)
  {
    var kid := s.th[0];
    match s.main
    case MainReset => Set(s, 0, kid.(processed := false)).(main := MainNotify)
    case MainNotify => Set(s, 0, kid.(available := true)).(main := if kid.hasHandle then MainWait else MainFork)
    case MainFork =>
      Set(s, 0, kid.(hasHandle := true, forks := kid.forks + 1, pc := ForkReset(tp.down(0, tp.n)))).(main := MainWait)
    case MainWait => s.(main := if s.task.value.joinRequested then MainJoin else Release)
    case MainJoin => Set(s, 0, kid.(hasHandle := false, joins := kid.joins + 1)).(main := Release)
    case Release => s.(task := None, main := if s.task.value.joinRequested then Destroyed else Idle)
    case _ => s
  }

  /** `haveWork` in `thread_squad_impl::run`. */
  ghost predicate HaveWork(s: State, task: Task)
    requires |s.th| > 0
  {
    task.concurrency != 0 || (task.joinRequested && s.th[0].hasHandle)
  }

  function Renew(me: Thread): Thread {
    me.(value := None, executed := 0, log := [], transforms := [])
  }

  /** The caller starts a run: `store_task`, or nothing at all if there is no work. */
  ghost predicate Begins(tp: Topology, s: State, task: Task, s': State) {
    && s.main == Idle && |s.th| > 0 && task.concurrency <= tp.n
    && if HaveWork(s, task) then
         s' == s.(main := MainReset, task := Some(task), cur := task, runs := s.runs + 1,
                  th := seq(|s.th|, i requires 0 <= i < |s.th| => Renew(s.th[i])))
       else
         s' == if task.joinRequested then s.(main := Destroyed) else s
  }

  datatype Actor = Caller | Worker(t: nat)

  ghost predicate Enabled(s: State, a: Actor) {
    match a
    case Caller => MainEnabled(s)
    case Worker(t) => WorkerEnabled(s, t)
  }

  ghost predicate Safe(tp: Topology, s: State, a: Actor)
    requires Enabled(s, a)
  {
    match a
    case Caller => MainSafe(s)
    case Worker(t) => WorkerSafe(tp, s, t)
  }

  ghost function Step(tp: Topology, s: State, a: Actor): State
    requires Enabled(s, a) && Safe(tp, s, a)
  {
    match a
    case Caller => MainStep(tp, s)
    case Worker(t) => WorkerStep(tp, s, t)
  }

  /** One step of a run in progress. */
  ghost predicate Steps(tp: Topology, s: State, s': State) {
    exists a :: Enabled(s, a) && Safe(tp, s, a) && s' == Step(tp, s, a)
  }

  ghost predicate Next(tp: Topology, s: State, s': State) {
    Steps(tp, s, s') || exists task :: Begins(tp, s, task, s')
  }

  /** A history of the squad: any interleaving, any sequence of tasks. */
  ghost predicate IsExecution(tp: Topology, states: seq<State>) {
    && |states| > 0
    && Init(tp, states[0])
    && forall k :: 0 <= k < |states| - 1 ==> Next(tp, states[k], states[k + 1])
  }

  ghost predicate Reachable(tp: Topology, s: State) {
    exists states :: IsExecution(tp, states) && states[|states| - 1] == s
  }
}
