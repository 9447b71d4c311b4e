/** How a controller's program counter changes its half of the handshakes with the threads it controls. */
module ProtocolLinks {
  import opened Sequences
  import opened Protocol
  import opened ProtocolInvariant

  // ----- kinds of moves -----

  /** The current walk turns from preparing its first target to the next action on the same target. */
  predicate Advances(pc: PC, pc': PC) {
    match pc
    case ForkReset(rest) => rest != [] && pc' == ForkNotify(rest)
    case ForkNotify(rest) => rest != [] && pc' == ForkSpawn(rest)
    case NotifyReset(rest) => rest != [] && pc' == NotifySet(rest)
    case Collect(r, rest) => rest != [] && pc' == CollectData(r, rest)
    case BroadcastData(r, rest) => rest != [] && pc' == BroadcastReset(r, rest)
    case BroadcastReset(r, rest) => rest != [] && pc' == BroadcastSet(r, rest)
    case AwaitSub(rest) => rest != [] && pc' == Merge(rest)
    case _ => false
  }

  /** The current walk is done with its first target. */
  predicate Retires(pc: PC, pc': PC) {
    match pc
    case ForkSpawn(rest) => rest != [] && pc' == ForkReset(rest[1..])
    case NotifySet(rest) => rest != [] && pc' == NotifyReset(rest[1..])
    case CollectData(r, rest) => rest != [] && pc' == Collect(r, rest[1..])
    case BroadcastSet(r, rest) => rest != [] && pc' == BroadcastData(r, rest[1..])
    case Merge(rest) => rest != [] && pc' == AwaitSub(rest[1..])
    case Join(rest) => rest != [] && pc' == Join(rest[1..])
    case _ => false
  }

  /** A walk is over, or the move has nothing to do with other threads. */
  predicate MovesOn(pc: PC, pc': PC) {
    match pc
    case NotifyReset(rest) => rest == [] && pc' == RunTask
    case RunTask => pc' == RoundStart(0)
    case Collect(r, rest) => rest == [] && pc' == Publish(r)
    case Publish(r) => pc' == ResetBroadcasting(r)
    case ResetBroadcasting(r) => pc' == SetCollecting(r)
    case SetCollecting(r) => pc' == AwaitBroadcast(r)
    case AwaitBroadcast(r) => pc' == Unpublish(r)
    case BroadcastData(r, rest) => rest == [] && pc' == RoundStart(r + 1)
    case AwaitSub(rest) => rest == [] && pc' == ResetAvailable
    case ResetAvailable => pc' == SetProcessed
    case SetProcessed => pc' == JoinStart
    case Join(rest) => rest == [] && pc' == Exited
    case _ => false
  }

  /** A walk over `walk` begins. */
  predicate StartsWalk(pc: PC, pc': PC, walk: seq<nat>, k: nat) {
    match pc
    case Unborn => pc' == ForkReset(walk)
    case RoundStart(r) => pc' == Collect(r, walk) || (r == k && pc' == AwaitSub(walk))
    case Collect(r, rest) => rest == [] && pc' == BroadcastData(r, walk)
    case Unpublish(r) => pc' == BroadcastData(r, walk)
    case JoinStart => pc' == Join(walk)
    case _ => false
  }

  // ----- threads the move does not address -----

  lemma SameControl(boss: Thread, boss': Thread, runs: nat, k: nat, i: nat)
    requires boss.pc == boss'.pc && boss.ran == boss'.ran
    ensures LinkOf(boss', runs, k, i) == LinkOf(boss, runs, k, i)
  {
  }

  lemma AdvanceOthers(boss: Thread, boss': Thread, runs: nat, k: nat, i: nat)
    requires Advances(boss.pc, boss'.pc) && i != boss.pc.rest[0]
    ensures LinkOf(boss', runs, k, i) == LinkOf(boss, runs, k, i)
  {
  }

  lemma InTail(rest: seq<nat>, i: nat)
    requires rest != [] && Distinct(rest)
    ensures i in rest[1..] <==> i in rest && i != rest[0]
  {
    assert rest == [rest[0]] + rest[1..];
  }

  lemma RetireOthers(boss: Thread, boss': Thread, runs: nat, k: nat, i: nat)
    requires Retires(boss.pc, boss'.pc) && Distinct(boss.pc.rest) && i != boss.pc.rest[0]
    ensures LinkOf(boss', runs, k, i) == LinkOf(boss, runs, k, i)
  {
    InTail(boss.pc.rest, i);
  }

  lemma MoveOn(boss: Thread, boss': Thread, runs: nat, k: nat, i: nat)
    requires MovesOn(boss.pc, boss'.pc)
    ensures LinkOf(boss', runs, k, i) == LinkOf(boss, runs, k, i)
  {
  }

  /** Threads on the new walk notice nothing, threads off it at most that they are done with. */
  lemma StartWalk(boss: Thread, boss': Thread, runs: nat, k: nat, walk: seq<nat>, i: nat)
    requires StartsWalk(boss.pc, boss'.pc, walk, k)
    ensures i in walk ==> LinkOf(boss', runs, k, i) == LinkOf(boss, runs, k, i)
    ensures !boss.pc.JoinStart? ==> LinkOf(boss', runs, k, i).joined == LinkOf(boss, runs, k, i).joined
    ensures !boss.pc.Unborn? && !boss'.pc.AwaitSub? ==> LinkOf(boss', runs, k, i).view == LinkOf(boss, runs, k, i).view
  {
  }

  /** Waking up: in the first run all targets are notified already, later the walk over `walk` begins. */
  lemma WakeLinks(boss: Thread, boss': Thread, runs: nat, k: nat, walk: seq<nat>, i: nat)
    requires boss.pc.TaskWait? && boss.ran != runs && boss'.ran == boss.ran
    requires boss'.pc == if runs == 1 then RunTask else NotifyReset(walk)
    ensures runs == 1 || i in walk ==> LinkOf(boss', runs, k, i) == LinkOf(boss, runs, k, i)
    ensures LinkOf(boss', runs, k, i) == LinkOf(boss, runs, k, i).(view := LinkOf(boss', runs, k, i).view)
  {
  }

  /** A thread that has no part in the task goes straight to waiting for the threads it controls. */
  lemma SkipLinks(boss: Thread, boss': Thread, runs: nat, k: nat, walk: seq<nat>, i: nat)
    requires boss.pc.RunTask? && boss'.pc == AwaitSub(walk)
    ensures LinkOf(boss', runs, k, i).joined == LinkOf(boss, runs, k, i).joined
    ensures i in walk ==> LinkOf(boss', runs, k, i).view == LinkOf(boss, runs, k, i).view
  {
  }

  /** Signalling completion leaves nothing to do for the threads below. */
  lemma DoneLinks(boss: Thread, boss': Thread, runs: nat, k: nat, i: nat)
    requires boss.pc.SetProcessed? && boss'.ran == runs
    requires boss'.pc == (if boss.joinRequested then JoinStart else TaskWait)
    ensures LinkOf(boss', runs, k, i) == LinkOf(boss, runs, k, i)
  {
  }

  // ----- the thread the move addresses -----

  lemma NotifyLinks(boss: Thread, boss': Thread, runs: nat, k: nat, j: nat)
    requires Advances(boss.pc, boss'.pc) && j == boss.pc.rest[0]
    ensures boss.pc.ForkReset? || boss.pc.NotifyReset?
      ==> LinkOf(boss, runs, k, j).view == 0 && LinkOf(boss', runs, k, j) == LinkOf(boss, runs, k, j).(view := 1)
    ensures boss.pc.ForkNotify?
      ==> LinkOf(boss, runs, k, j).view == 1 && LinkOf(boss', runs, k, j) == LinkOf(boss, runs, k, j).(view := 2)
    ensures boss.pc.AwaitSub?
      ==> LinkOf(boss, runs, k, j).view == 3 && LinkOf(boss', runs, k, j) == LinkOf(boss, runs, k, j).(view := 4)
  {
  }

  lemma NotifiedLinks(boss: Thread, boss': Thread, runs: nat, k: nat, j: nat)
    requires Retires(boss.pc, boss'.pc) && Distinct(boss.pc.rest) && j == boss.pc.rest[0]
    ensures boss.pc.ForkSpawn?
      ==> LinkOf(boss, runs, k, j).view == 2 && LinkOf(boss', runs, k, j) == LinkOf(boss, runs, k, j).(view := 3)
    ensures boss.pc.NotifySet?
      ==> LinkOf(boss, runs, k, j).view == 1 && LinkOf(boss', runs, k, j) == LinkOf(boss, runs, k, j).(view := 3)
    ensures boss.pc.Merge?
      ==> LinkOf(boss, runs, k, j).view == 4 && LinkOf(boss', runs, k, j) == LinkOf(boss, runs, k, j).(view := 5)
    ensures boss.pc.CollectData? ==> LinkOf(boss', runs, k, j) == LinkOf(boss, runs, k, j)
    ensures boss.pc.Join?
      ==> !LinkOf(boss, runs, k, j).joined && LinkOf(boss', runs, k, j) == LinkOf(boss, runs, k, j).(joined := true)
  {
    InTail(boss.pc.rest, j);
  }

  lemma CollectLinks(boss: Thread, boss': Thread, runs: nat, k: nat, j: nat)
    requires boss.pc.Collect? && Advances(boss.pc, boss'.pc) && j == boss.pc.rest[0]
    ensures var link := LinkOf(boss, runs, k, j);
      link.seen == link.reset && LinkOf(boss', runs, k, j) == link.(seen := link.seen + 1)
  {
  }

  lemma CollectDataLink(boss: Thread, runs: nat, k: nat, j: nat)
    requires boss.pc.CollectData? && boss.pc.rest != [] && j == boss.pc.rest[0]
    ensures var link := LinkOf(boss, runs, k, j);
      link.seen == boss.pc.round + 1 && link.bcast == link.wrote == boss.pc.round
  {
  }

  lemma BroadcastLinks(boss: Thread, boss': Thread, runs: nat, k: nat, j: nat)
    requires Broadcasts(boss.pc) && boss.pc.rest != [] && j == boss.pc.rest[0] && Distinct(boss.pc.rest)
    requires Advances(boss.pc, boss'.pc) || Retires(boss.pc, boss'.pc)
    ensures var r, link, link' := boss.pc.round, LinkOf(boss, runs, k, j), LinkOf(boss', runs, k, j);
      && link.seen == r + 1 && link.bcast == r
      && (boss.pc.BroadcastData? ==> link.wrote == link.reset == r && link' == link.(wrote := r + 1))
      && (boss.pc.BroadcastReset? ==> link.wrote == r + 1 && link.reset == r && link' == link.(reset := r + 1))
      && (boss.pc.BroadcastSet? ==> link.wrote == link.reset == r + 1 && link' == link.(bcast := r + 1))
  {
    InTail(boss.pc.rest, j);
  }
}
