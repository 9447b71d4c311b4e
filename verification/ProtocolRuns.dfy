/** The steps of the calling thread, the start of a run, and so every reachable state: the invariant holds. */
module ProtocolRuns {
  import opened Protocol
  import opened ProtocolInvariant
  import opened ProtocolContracts
  import opened ProtocolLinks
  import opened ProtocolSteps

  // ----- the calling thread -----

  /** A step of the caller that addresses thread 0. */
  lemma KeepsRoot(tp: Topology, s: State, main: MainPC, kid: Thread)
    requires Inv(tp, s) && s.runs > 0
    requires Running(main) && Running(s.main) && MainOk(s.(main := main))
    requires Holds(tp, s, 0, kid, MainLink(main, s.cur.joinRequested))
    requires forall i: nat :: Kid(tp, 0, i) ==> Under(s, s.th[0], i) == Under(s, kid, i)
    ensures Inv(tp, Set(s, 0, kid).(main := main))
  {
    var s' := Set(s, 0, kid).(main := main);
    forall i {:trigger LinkTo(tp, s', i)} | 0 <= i < tp.n ensures Holds(tp, s', i, s'.th[i], LinkTo(tp, s', i)) {
      ContractAt(tp, s, i);
      assert i != 0 && tp.parent(i) == 0 ==> Kid(tp, 0, i);
    }
  }

  lemma RootAt(tp: Topology, s: State)
    requires Inv(tp, s) && s.runs > 0
    ensures Holds(tp, s, 0, s.th[0], MainLink(s.main, s.cur.joinRequested))
  {
    ContractAt(tp, s, 0);
  }

  /** The caller sees thread 0 signal completion. There is nothing to merge on this side. */
  lemma RootAwaited(tp: Topology, runs: nat, task: Task, kid: Thread, link: Link, link': Link)
    requires Contract(tp, runs, task, 0, kid, link) && 0 < RunLimit(tp, runs, task) && kid.processed && link.view == 3
    requires link' == link.(view := 5)
    ensures Contract(tp, runs, task, 0, kid, link')
  {
  }

  lemma SameControls(tp: Topology, s: State, kid: Thread, kid': Thread)
    requires kid.pc == kid'.pc && kid.ran == kid'.ran
    ensures forall i: nat :: Kid(tp, 0, i) ==> Under(s, kid, i) == Under(s, kid', i)
  {
    forall i: nat | Kid(tp, 0, i) ensures Under(s, kid, i) == Under(s, kid', i) {
      SameControl(kid, kid', s.runs, |s.cur.rounds|, i);
    }
  }

  lemma MainNotifies(tp: Topology, s: State)
    requires Inv(tp, s) && MainEnabled(s) && (s.main == MainReset || s.main == MainNotify)
    ensures MainSafe(s) && Inv(tp, MainStep(tp, s))
  {
    RootAt(tp, s);
    var kid, link := s.th[0], MainLink(s.main, s.cur.joinRequested);
    if s.main == MainReset {
      var kid' := kid.(processed := false);
      GotReset(tp, s.runs, s.cur, 0, kid, link, kid', MainLink(MainNotify, s.cur.joinRequested));
      SameControls(tp, s, kid, kid');
      KeepsRoot(tp, s, MainNotify, kid');
    } else {
      var kid' := kid.(available := true);
      var main := if kid.hasHandle then MainWait else MainFork;
      GotNotified(tp, s.runs, s.cur, 0, kid, link, kid', MainLink(main, s.cur.joinRequested));
      SameControls(tp, s, kid, kid');
      KeepsRoot(tp, s, main, kid');
    }
  }

  lemma MainForks(tp: Topology, s: State)
    requires Inv(tp, s) && MainEnabled(s) && s.main == MainFork
    ensures MainSafe(s) && Inv(tp, MainStep(tp, s))
  {
    RootAt(tp, s);
    var walk := tp.down(0, tp.n);
    FullWalk(tp, 0, tp.n, walk);
    var kid, link := s.th[0], MainLink(s.main, s.cur.joinRequested);
    var kid' := kid.(hasHandle := true, forks := kid.forks + 1, pc := ForkReset(walk));
    GotForked(tp, s.runs, s.cur, 0, kid, link, walk, kid', MainLink(MainWait, s.cur.joinRequested));
    forall i: nat | Kid(tp, 0, i) ensures Under(s, kid, i) == Under(s, kid', i) {
      StartWalk(kid, kid', s.runs, |s.cur.rounds|, walk, i);
    }
    KeepsRoot(tp, s, MainWait, kid');
  }

  lemma MainWaits(tp: Topology, s: State)
    requires Inv(tp, s) && MainEnabled(s) && s.main == MainWait
    ensures MainSafe(s) && Inv(tp, MainStep(tp, s))
  {
    RootAt(tp, s);
    var main := if s.cur.joinRequested then MainJoin else Release;
    var link := MainLink(s.main, s.cur.joinRequested);
    var kid := s.th[0];
    RootAwaited(tp, s.runs, s.cur, kid, link, link.(view := 5));
    SameControls(tp, s, kid, kid);
    KeepsRoot(tp, s, main, kid);
    assert Set(s, 0, kid) == s;
  }

  lemma MainJoins(tp: Topology, s: State)
    requires Inv(tp, s) && MainEnabled(s) && s.main == MainJoin
    ensures MainSafe(s) && Inv(tp, MainStep(tp, s))
  {
    RootAt(tp, s);
    var kid := s.th[0];
    var kid' := kid.(hasHandle := false, joins := kid.joins + 1);
    GotJoined(tp, s.runs, s.cur, 0, kid, MainLink(s.main, true), kid', MainLink(Release, true));
    SameControls(tp, s, kid, kid');
    KeepsRoot(tp, s, Release, kid');
  }

  lemma MainReleases(tp: Topology, s: State)
    requires Inv(tp, s) && MainEnabled(s) && s.main == Release
    ensures MainSafe(s) && Inv(tp, MainStep(tp, s))
  {
    var s' := MainStep(tp, s);
    forall i {:trigger LinkTo(tp, s', i)} | 0 <= i < tp.n ensures Holds(tp, s', i, s'.th[i], LinkTo(tp, s', i)) {
      ContractAt(tp, s, i);
    }
  }

  lemma MainKeepsInv(tp: Topology, s: State)
    requires Inv(tp, s) && MainEnabled(s)
    ensures MainSafe(s) && Inv(tp, MainStep(tp, s))
  {
    match s.main
    case MainReset => MainNotifies(tp, s);
    case MainNotify => MainNotifies(tp, s);
    case MainFork => MainForks(tp, s);
    case MainWait => MainWaits(tp, s);
    case MainJoin => MainJoins(tp, s);
    case Release => MainReleases(tp, s);
    case Idle =>
    case Destroyed =>
  }

  // ----- the start of a run -----

  /** A thread that has not been started yet. */
  lemma FreshContract(tp: Topology, task: Task, i: nat, me: Thread, link: Link)
    requires TaskOk(tp, 1, task) && i < tp.n && me == NewThread()
    requires link.view == 0 && !link.joined && link.seen == link.wrote == link.reset == link.bcast == 0
    ensures Contract(tp, 1, task, i, me, link)
  {
  }

  /** A thread at rest between two runs. */
  ghost predicate AtRest(tp: Topology, runs: nat, i: nat, me: Thread) {
    && me.pc.TaskWait? && me.ran <= runs && me.pass > 0
    && me.hasHandle && me.forks == 1 && me.joins == 0
    && !me.available && me.processed && !me.collecting && !me.published
  }

  lemma SyncAtRest(tp: Topology, s: State, i: nat)
    requires Inv(tp, s) && s.runs > 0 && s.main == Idle && i < RunLimit(tp, s.runs, s.cur)
    ensures !s.th[i].collecting && !s.th[i].published && s.th[i].pc.TaskWait?
  {
    ContractAt(tp, s, i);
    Finished(tp, s, i);
    if 0 < i < s.cur.concurrency {
      ContractAt(tp, s, tp.parent(i));
      Finished(tp, s, tp.parent(i));
    }
  }

  /** After a run that does not join, every thread of the squad is at rest. */
  lemma AllAtRest(tp: Topology, s: State, i: nat)
    requires Inv(tp, s) && s.runs > 0 && s.main == Idle && i < tp.n
    ensures AtRest(tp, s.runs, i, s.th[i])
  {
    ContractAt(tp, s, i);
    if i < RunLimit(tp, s.runs, s.cur) {
      Finished(tp, s, i);
      SyncAtRest(tp, s, i);
    }
  }

  /** A thread at rest is ready for any next task. */
  lemma RestedContract(tp: Topology, runs: nat, task: Task, i: nat, me: Thread, me': Thread, link: Link)
    requires TaskOk(tp, runs, task) && i < tp.n && runs > 1 && AtRest(tp, runs - 1, i, me) && me' == Renew(me)
    requires link.view == 0 && !link.joined && link.seen == link.wrote == link.reset == link.bcast == 0
    ensures Contract(tp, runs, task, i, me', link)
  {
  }

  lemma BeginKeepsInv(tp: Topology, s: State, task: Task, s': State)
    requires Inv(tp, s) && Begins(tp, s, task, s')
    ensures Inv(tp, s')
  {
    if HaveWork(s, task) {
      assert TaskOk(tp, s'.runs, task);
      forall i {:trigger LinkTo(tp, s', i)} | 0 <= i < tp.n ensures Holds(tp, s', i, s'.th[i], LinkTo(tp, s', i)) {
        if s.runs == 0 {
          FreshContract(tp, task, i, s'.th[i], LinkTo(tp, s', i));
        } else {
          AllAtRest(tp, s, i);
          if i > 0 {
            AllAtRest(tp, s, tp.parent(i));
          }
          RestedContract(tp, s'.runs, task, i, s.th[i], s'.th[i], LinkTo(tp, s', i));
        }
      }
    } else if s.runs > 0 {
      AllAtRest(tp, s, 0);
    }
  }

  // ----- every reachable state -----

  lemma NextKeepsInv(tp: Topology, s: State, s': State)
    requires Inv(tp, s) && Next(tp, s, s')
    ensures Inv(tp, s')
  {
    if Steps(tp, s, s') {
      var a :| Enabled(s, a) && Safe(tp, s, a) && s' == Step(tp, s, a);
      match a
      case Caller => MainKeepsInv(tp, s);
      case Worker(t) => WorkerKeepsInv(tp, s, t);
    } else {
      var task :| Begins(tp, s, task, s');
      BeginKeepsInv(tp, s, task, s');
    }
  }

  lemma {:induction false} ExecutionKeepsInv(tp: Topology, states: seq<State>, k: nat)
    requires WellFormed(tp) && IsExecution(tp, states) && k < |states|
    ensures Inv(tp, states[k])
    decreases k
  {
    if k > 0 {
      ExecutionKeepsInv(tp, states, k - 1);
      assert Next(tp, states[k - 1], states[k]);
      NextKeepsInv(tp, states[k - 1], states[k]);
    }
  }

  /** The invariant holds in every state any history can lead to. */
  lemma ReachableInv(tp: Topology, s: State)
    requires WellFormed(tp) && Reachable(tp, s)
    ensures Inv(tp, s)
  {
    var states :| IsExecution(tp, states) && states[|states| - 1] == s;
    ExecutionKeepsInv(tp, states, |states| - 1);
  }

  /** No assertion of the source, and nothing it silently relies on, is ever violated. */
  lemma NoFailure(tp: Topology, s: State, a: Actor)
    requires WellFormed(tp) && Reachable(tp, s) && Enabled(s, a)
    ensures Safe(tp, s, a)
  {
    ReachableInv(tp, s);
    match a
    case Caller => MainKeepsInv(tp, s);
    case Worker(t) => WorkerKeepsInv(tp, s, t);
  }
}
