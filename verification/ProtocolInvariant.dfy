/**
What holds in every reachable state of the squad.

Each thread keeps a contract with its controller (thread 0 with the caller of `run`). The controller's half of
the handshake is a `Link`, computed from the controller's program counter alone; the thread's half is its own
program counter, flags and data. The invariant is the conjunction of the contracts.
*/
module ProtocolInvariant {
  import opened Sequences
  import opened Wrappers
  import opened Values
  import opened Protocol
  import opened TreeFold

  // ----- a thread's own progress -----

  /** 0: not woken up for the current run; 1: works on it; 2: has withdrawn `available`; 3: has set `processed`. */
  function Phase(me: Thread, runs: nat): nat {
    match me.pc
    case Unborn | ForkReset(_) | ForkNotify(_) | ForkSpawn(_) => 0
    case TaskWait => if me.ran == runs then 3 else 0
    case SetProcessed => 2
    case JoinStart | Join(_) | Exited => 3
    case _ => 1
  }

  /** The synchronisation round a thread is in: 0 before the task, `k` (the number of rounds) after it. */
  function Base(me: Thread, runs: nat, k: nat): nat {
    match me.pc
    case Unborn | ForkReset(_) | ForkNotify(_) | ForkSpawn(_) | NotifyReset(_) | NotifySet(_) | RunTask => 0
    case TaskWait => if me.ran == runs then k else 0
    case RoundStart(r) => r
    case Collect(r, _) => r
    case CollectData(r, _) => r
    case Publish(r) => r
    case ResetBroadcasting(r) => r
    case SetCollecting(r) => r
    case AwaitBroadcast(r) => r
    case Unpublish(r) => r
    case BroadcastData(r, _) => r
    case BroadcastReset(r, _) => r
    case BroadcastSet(r, _) => r
    case _ => k
  }

  predicate Broadcasts(pc: PC) {
    pc.BroadcastData? || pc.BroadcastReset? || pc.BroadcastSet?
  }

  /** In how many rounds the thread has raised `collecting`. */
  function Raised(me: Thread, runs: nat, k: nat): nat {
    Base(me, runs, k) + if me.pc.AwaitBroadcast? || me.pc.Unpublish? || Broadcasts(me.pc) then 1 else 0
  }

  /** In how many rounds the thread has got past waiting for the broadcast (thread 0: past collecting). */
  function Passed(me: Thread, runs: nat, k: nat): nat {
    Base(me, runs, k) + if me.pc.Unpublish? || Broadcasts(me.pc) then 1 else 0
  }

  // ----- the controller's half of a handshake -----

  /**
  view: 0 not notified; 1 `processed` reset; 2 notified but not yet forked; 3 notified; 4 awaited; 5 merged.
  seen, wrote, reset, bcast: in how many rounds the controller has seen `collecting`, has written the result,
  has reset `collecting`, has raised `broadcasting`.
  */
  datatype Link = Link(view: nat, joined: bool, seen: nat, wrote: nat, reset: nat, bcast: nat)

  predicate DoneOrAt(rest: seq<nat>, i: nat) {
    i !in rest || (|rest| > 0 && rest[0] == i)
  }

  function ViewOf(boss: Thread, runs: nat, i: nat): nat {
    match boss.pc
    case Unborn => 0
    case ForkReset(rest) => if i in rest then 0 else 3
    case ForkNotify(rest) => if i !in rest then 3 else if DoneOrAt(rest, i) then 1 else 0
    case ForkSpawn(rest) => if i !in rest then 3 else if DoneOrAt(rest, i) then 2 else 0
    case TaskWait => if boss.ran == runs then 5 else if runs == 1 then 3 else 0
    case NotifyReset(rest) => if i in rest then 0 else 3
    case NotifySet(rest) => if i !in rest then 3 else if DoneOrAt(rest, i) then 1 else 0
    case AwaitSub(rest) => if i in rest then 3 else 5
    case Merge(rest) => if i !in rest then 5 else if DoneOrAt(rest, i) then 4 else 3
    case ResetAvailable | SetProcessed | JoinStart | Join(_) | Exited => 5
    case _ => 3
  }

  predicate JoinedBy(boss: Thread, i: nat) {
    match boss.pc
    case Join(rest) => i !in rest
    case Exited => true
    case _ => false
  }

  predicate SeenInRound(boss: Thread, i: nat) {
    match boss.pc
    case Collect(_, rest) => i !in rest
    case CollectData(_, rest) => DoneOrAt(rest, i)
    case Publish(_) | ResetBroadcasting(_) | SetCollecting(_) | AwaitBroadcast(_) | Unpublish(_) => true
    case BroadcastData(_, _) | BroadcastReset(_, _) | BroadcastSet(_, _) => true
    case _ => false
  }

  predicate WroteInRound(boss: Thread, i: nat) {
    match boss.pc
    case BroadcastData(_, rest) => i !in rest
    case BroadcastReset(_, rest) => DoneOrAt(rest, i)
    case BroadcastSet(_, rest) => DoneOrAt(rest, i)
    case _ => false
  }

  predicate ResetInRound(boss: Thread, i: nat) {
    match boss.pc
    case BroadcastData(_, rest) => i !in rest
    case BroadcastReset(_, rest) => i !in rest
    case BroadcastSet(_, rest) => DoneOrAt(rest, i)
    case _ => false
  }

  predicate BcastInRound(boss: Thread, i: nat) {
    match boss.pc
    case BroadcastData(_, rest) => i !in rest
    case BroadcastReset(_, rest) => i !in rest
    case BroadcastSet(_, rest) => i !in rest
    case _ => false
  }

  function LinkOf(boss: Thread, runs: nat, k: nat, i: nat): Link {
    var base := Base(boss, runs, k);
    Link(ViewOf(boss, runs, i),
         JoinedBy(boss, i),
         base + (if SeenInRound(boss, i) then 1 else 0),
         base + (if WroteInRound(boss, i) then 1 else 0),
         base + (if ResetInRound(boss, i) then 1 else 0),
         base + (if BcastInRound(boss, i) then 1 else 0))
  }

  function MainLink(main: MainPC, joinRequested: bool): Link {
    var view := match main
      case MainReset => 0
      case MainNotify => 1
      case MainFork => 2
      case MainWait => 3
      case _ => 5;
    Link(view, joinRequested && (main == Idle || main == Release || main == Destroyed), 0, 0, 0, 0)
  }

  /** The controller's half of the handshake with thread `i`. */
  function LinkTo(tp: Topology, s: State, i: nat): Link
    requires i == 0 || tp.parent(i) < |s.th|
  {
    if i == 0 then MainLink(s.main, s.cur.joinRequested)
    else LinkOf(s.th[tp.parent(i)], s.runs, |s.cur.rounds|, i)
  }

  // ----- the contract -----

  /** How many threads take part in waking up: all in the first run and when joining, else those of the task. */
  function RunLimit(tp: Topology, runs: nat, task: Task): nat {
    if runs == 1 || task.joinRequested then tp.n else task.concurrency
  }

  ghost predicate SubWalk(tp: Topology, i: nat, lim: nat, rest: seq<nat>) {
    && Distinct(rest)
    && |rest| <= tp.n
    && forall a :: 0 <= a < |rest| ==> 0 < rest[a] < lim && tp.parent(rest[a]) == i
  }

  /** Where the thread can be at all. */
  ghost predicate PlaceOk(tp: Topology, runs: nat, task: Task, i: nat, me: Thread) {
    var c, k, lim := task.concurrency, |task.rounds|, RunLimit(tp, runs, task);
    match me.pc
    case Unborn => runs == 1
    case ForkReset(rest) => runs == 1 && SubWalk(tp, i, tp.n, rest)
    case ForkNotify(rest) => runs == 1 && SubWalk(tp, i, tp.n, rest) && rest != []
    case ForkSpawn(rest) => runs == 1 && SubWalk(tp, i, tp.n, rest) && rest != []
    case TaskWait => me.ran == runs ==> !task.joinRequested
    case NotifyReset(rest) => runs > 1 && SubWalk(tp, i, lim, rest)
    case NotifySet(rest) => runs > 1 && SubWalk(tp, i, lim, rest) && rest != []
    case RunTask => true
    case RoundStart(r) => i < c && r <= k
    case Collect(r, rest) => i < c && r < k && SubWalk(tp, i, c, rest)
    case CollectData(r, rest) => i < c && r < k && SubWalk(tp, i, c, rest) && rest != []
    case Publish(r) => 0 < i < c && r < k
    case ResetBroadcasting(r) => 0 < i < c && r < k
    case SetCollecting(r) => 0 < i < c && r < k
    case AwaitBroadcast(r) => 0 < i < c && r < k
    case Unpublish(r) => 0 < i < c && r < k
    case BroadcastData(r, rest) => i < c && r < k && SubWalk(tp, i, c, rest)
    case BroadcastReset(r, rest) => i < c && r < k && SubWalk(tp, i, c, rest) && rest != []
    case BroadcastSet(r, rest) => i < c && r < k && SubWalk(tp, i, c, rest) && rest != []
    case AwaitSub(rest) => SubWalk(tp, i, lim, rest)
    case Merge(rest) => SubWalk(tp, i, lim, rest) && rest != []
    case ResetAvailable | SetProcessed => true
    case JoinStart => task.joinRequested
    case Join(rest) => task.joinRequested && SubWalk(tp, i, tp.n, rest)
    case Exited => task.joinRequested
  }

  /** The thread's counters and its copy of `join_requested`. */
  ghost predicate CountersOk(runs: nat, task: Task, me: Thread) {
    var phase := Phase(me, runs);
    && me.ran <= runs
    && (phase < 3 ==> (me.pass == 0 <==> runs == 1) && me.ran < runs)
    && (phase == 3 ==> me.pass > 0 && me.ran == runs)
    && (phase == 1 || phase == 2 ==> me.joinRequested == task.joinRequested)
  }

  /** `task_` and `signal...` handshake between runs and at their ends, for threads that take part. */
  ghost predicate HandshakeOk(runs: nat, me: Thread, link: Link) {
    var phase := Phase(me, runs);
    && (link.view < 2 ==> phase == 0)
    && (me.available <==> link.view >= 2 && phase <= 1)
    && (me.processed <==> if link.view == 0 then runs > 1 else phase == 3)
    && (link.view >= 4 ==> phase == 3)
    && (me.pc.Unborn? <==> runs == 1 && link.view <= 2)
    && (link.view == 2 ==> runs == 1)
  }

  /** A thread that the current run leaves asleep. */
  ghost predicate BystanderOk(runs: nat, me: Thread) {
    me.pc.TaskWait? && me.ran < runs && !me.available && me.processed
  }

  ghost predicate HandleOk(me: Thread, link: Link) {
    && (me.hasHandle <==> !me.pc.Unborn? && !link.joined)
    && me.forks == (if me.pc.Unborn? then 0 else 1)
    && me.joins == (if link.joined then 1 else 0)
    && (link.joined ==> me.pc.Exited?)
  }

  /** The `collecting`/`broadcasting` handshake of a thread that takes part in the task and has a controller. */
  ghost predicate SyncOk(runs: nat, task: Task, me: Thread, link: Link) {
    var k := |task.rounds|;
    && link.bcast <= link.reset <= link.wrote <= link.seen <= Raised(me, runs, k)
    && Passed(me, runs, k) <= link.bcast
    && (me.collecting <==> Raised(me, runs, k) > link.reset)
    && (me.pc.SetCollecting? || me.pc.AwaitBroadcast? ==> (me.broadcasting <==> link.bcast > me.pc.round))
  }

  predicate HasBegun(me: Thread, runs: nat) {
    match me.pc
    case Unborn | ForkReset(_) | ForkNotify(_) | ForkSpawn(_) | NotifyReset(_) | NotifySet(_) | RunTask => false
    case TaskWait => me.ran == runs
    case _ => true
  }

  /** What a synchronisation call returns to every participant: the fold over the whole tree, transformed. */
  ghost function ResultOf(tp: Topology, task: Task, r: nat): Option<Value>
    requires WellFormed(tp) && 0 < task.concurrency <= tp.n && r < |task.rounds|
  {
    match task.rounds[r]
    case Barrier => None
    case Reduce(red) => Some(Fold(tp, red, task.concurrency, 0))
    case ReduceTransform(red, fin) => Some(fin(Fold(tp, red, task.concurrency, 0)))
  }

  ghost function Results(tp: Topology, task: Task, k: nat): (log: seq<Option<Value>>)
    requires WellFormed(tp) && 0 < task.concurrency <= tp.n && k <= |task.rounds|
    ensures |log| == k
  {
    if k == 0 then [] else Results(tp, task, k - 1) + [ResultOf(tp, task, k - 1)]
  }

  /** The rounds below `k` that transform their result, in order. */
  ghost function TransformLog(task: Task, k: nat): seq<nat>
    requires k <= |task.rounds|
  {
    if k == 0 then []
    else TransformLog(task, k - 1) + if task.rounds[k - 1].ReduceTransform? then [k - 1] else []
  }

  /** `executed`, the task's synchronisation results, and the applications of transforms. */
  ghost predicate HistoryOk(tp: Topology, runs: nat, task: Task, i: nat, me: Thread)
    requires WellFormed(tp) && 0 < task.concurrency <= tp.n
  {
    var k := |task.rounds|;
    && me.executed == (if i < task.concurrency && HasBegun(me, runs) then 1 else 0)
    && Passed(me, runs, k) <= k
    && me.log == Results(tp, task, if i < task.concurrency then Base(me, runs, k) else 0)
    && me.transforms == TransformLog(task, if i == 0 then Passed(me, runs, k) else 0)
  }

  /** The data of a synchronisation call, before the result arrives. */
  ghost predicate Folding(tp: Topology, task: Task, i: nat, r: nat, me: Thread, rest: seq<nat>)
    requires WellFormed(tp) && 0 < task.concurrency <= tp.n && r < |task.rounds| && i < tp.n
  {
    var round, c := task.rounds[r], task.concurrency;
    !round.Barrier? ==>
      && me.data.Some?
      && Above(tp, i, rest)
      && FoldRest(tp, round.red, c, i, me.data.value, rest) == Fold(tp, round.red, c, i)
  }

  ghost predicate HasResult(tp: Topology, task: Task, r: nat, me: Thread)
    requires WellFormed(tp) && 0 < task.concurrency <= tp.n && r < |task.rounds|
  {
    Outcome(task.rounds[r], me) == ResultOf(tp, task, r)
  }

  /** The synchroniser on the thread's stack, and whether the controller can reach it through `syncData_`. */
  ghost predicate DataOk(tp: Topology, runs: nat, task: Task, i: nat, me: Thread, link: Link)
    requires WellFormed(tp) && 0 < task.concurrency <= tp.n && i < tp.n && PlaceOk(tp, runs, task, i, me)
  {
    match me.pc
    case Collect(r, rest) => !me.published && Folding(tp, task, i, r, me, rest)
    case CollectData(r, rest) => !me.published && Folding(tp, task, i, r, me, rest)
    case Publish(r) => !me.published && Folding(tp, task, i, r, me, [])
    case ResetBroadcasting(r) => me.published == !task.rounds[r].Barrier? && Folding(tp, task, i, r, me, [])
    case SetCollecting(r) => me.published == !task.rounds[r].Barrier? && Folding(tp, task, i, r, me, [])
    case AwaitBroadcast(r) =>
      && me.published == !task.rounds[r].Barrier?
      && if link.wrote > r then HasResult(tp, task, r, me) else Folding(tp, task, i, r, me, [])
    case Unpublish(r) => me.published == !task.rounds[r].Barrier? && HasResult(tp, task, r, me)
    case BroadcastData(r, rest) => !me.published && HasResult(tp, task, r, me)
    case BroadcastReset(r, rest) => !me.published && HasResult(tp, task, r, me)
    case BroadcastSet(r, rest) => !me.published && HasResult(tp, task, r, me)
    case _ => !me.published
  }

  ghost predicate Merging(tp: Topology, red: Reduction, c: nat, i: nat, me: Thread, rest: seq<nat>)
    requires WellFormed(tp) && c <= tp.n && i < tp.n
  {
    && me.value.Some?
    && Above(tp, i, rest)
    && FoldRest(tp, red, c, i, me.value.value, rest) == Fold(tp, red, c, i)
  }

  /** The thread's slot of a `transform_reduce` operation. */
  ghost predicate ValueOk(tp: Topology, runs: nat, task: Task, i: nat, me: Thread, link: Link)
    requires WellFormed(tp) && 0 < task.concurrency <= tp.n && i < tp.n
  {
    var c := task.concurrency;
    if task.kind.Action? || i >= c then me.value == None
    else
      var red := task.kind.red;
      match me.pc
      case AwaitSub(rest) => Merging(tp, red, c, i, me, rest)
      case Merge(rest) => Merging(tp, red, c, i, me, rest)
      case ResetAvailable | SetProcessed => me.value == Some(Fold(tp, red, c, i))
      case _ =>
        me.value == if Phase(me, runs) == 3 && (i == 0 || link.view < 5) then Some(Fold(tp, red, c, i)) else None
  }

  ghost predicate TaskOk(tp: Topology, runs: nat, task: Task) {
    && runs >= 1
    && WellFormed(tp)
    && task.concurrency <= tp.n
    && (task.concurrency > 0 || (task.joinRequested && runs > 1))
  }

  /** The data a thread holds; nothing to say about a run that only joins. */
  ghost predicate OutputOk(tp: Topology, runs: nat, task: Task, i: nat, me: Thread, link: Link)
    requires TaskOk(tp, runs, task) && i < tp.n && PlaceOk(tp, runs, task, i, me)
  {
    if task.concurrency == 0 then
      me.executed == 0 && me.log == [] && me.transforms == [] && me.value == None && !me.published
    else
      && HistoryOk(tp, runs, task, i, me)
      && DataOk(tp, runs, task, i, me, link)
      && ValueOk(tp, runs, task, i, me, link)
  }

  /** Everything about thread `i`, given its controller's half of the handshake. */
  ghost predicate Contract(tp: Topology, runs: nat, task: Task, i: nat, me: Thread, link: Link) {
    && TaskOk(tp, runs, task)
    && i < tp.n
    && PlaceOk(tp, runs, task, i, me)
    && CountersOk(runs, task, me)
    && (if i < RunLimit(tp, runs, task) then HandshakeOk(runs, me, link) else BystanderOk(runs, me))
    && HandleOk(me, link)
    && (if 0 < i < task.concurrency then SyncOk(runs, task, me, link) else !me.collecting)
    && OutputOk(tp, runs, task, i, me, link)
  }

  // ----- the invariant -----

  predicate Running(main: MainPC) {
    main != Idle && main != Destroyed
  }

  ghost predicate MainOk(s: State) {
    && s.task == (if Running(s.main) then Some(s.cur) else None)
    && (s.main == MainFork ==> s.runs == 1)
    && (s.main == MainJoin ==> s.cur.joinRequested)
    && (s.main == Idle ==> !s.cur.joinRequested)
    && (s.main == Destroyed ==> s.cur.joinRequested)
  }

  ghost predicate Inv(tp: Topology, s: State) {
    && WellFormed(tp)
    && |s.th| == tp.n
    && if s.runs == 0 then
         !Running(s.main) && s.task == None && s.th == seq(tp.n, i => NewThread())
       else
         && MainOk(s)
         && TaskOk(tp, s.runs, s.cur)
         && forall i {:trigger LinkTo(tp, s, i)} :: 0 <= i < tp.n ==>
              Contract(tp, s.runs, s.cur, i, s.th[i], LinkTo(tp, s, i))
  }
}
