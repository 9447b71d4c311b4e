/** Which squads can be set up at all: a squad of n threads gets all of them running if and only if n is regular. */
module SquadSetup {
  import opened Wrappers
  import opened TreeShape
  import opened Protocol
  import opened ProtocolInvariant
  import opened StepFrames
  import opened ProtocolRuns
  import opened ProtocolProgress
  import opened ProtocolSafety
  import opened PattonSquad
  import opened IrregularSquad

  /** Every thread has been forked and has forked the threads it visits. */
  ghost predicate IsSetUp(s: State) {
    forall t :: 0 <= t < |s.th| ==> !s.th[t].pc.Unborn? && ForkRest(s.th[t].pc) == []
  }

  /** Whatever happens, an irregular squad never gets all its threads running without violating an assertion. */
  lemma IrregularIsNeverSetUp(n: nat, s: State)
    requires n >= 1 && !Regular(n) && Reachable(Squad(n), s)
    ensures !IsSetUp(s)
  {
    var t, b := SomeThreadIsStuck(n, s);
  }

  // ----- regular squads can be set up -----

  lemma Extended(tp: Topology, states: seq<State>, s': State)
    requires IsExecution(tp, states) && Next(tp, states[|states| - 1], s')
    ensures IsExecution(tp, states + [s'])
  {
    var longer := states + [s'];
    forall k | 0 <= k < |longer| - 1 ensures Next(tp, longer[k], longer[k + 1]) {
      if k < |states| - 1 {
        assert Next(tp, states[k], states[k + 1]);
      }
    }
  }

  lemma StepIsNext(tp: Topology, s: State, a: Actor)
    requires Enabled(s, a) && Safe(tp, s, a)
    ensures Steps(tp, s, Step(tp, s, a)) && Next(tp, s, Step(tp, s, a))
  {
  }

  /** A history can be continued to the end of the run that is in progress. */
  lemma {:induction false} RunOut(tp: Topology, states: seq<State>) returns (longer: seq<State>)
    requires WellFormed(tp) && IsExecution(tp, states) && states[|states| - 1].runs > 0
    ensures IsExecution(tp, longer) && longer[|longer| - 1].runs > 0 && !Running(longer[|longer| - 1].main)
    decreases Measure(tp, states[|states| - 1])
  {
    hide WellFormed, Inv, Measure, Next, Running, Enabled, Safe, Step;
    var last := states[|states| - 1];
    if Running(last.main) {
      assert Reachable(tp, last);
      ReachableInv(tp, last);
      var a := SomeoneCanStep(tp, last);
      var s' := Step(tp, last, a);
      StepKeepsTask(tp, last, a);
      StepIsNext(tp, last, a);
      StepFalls(tp, last, s');
      Extended(tp, states, s');
      longer := RunOut(tp, states + [s']);
    } else {
      longer := states;
    }
  }

  /** A first run on one thread. */
  lemma FirstRun(tp: Topology) returns (states: seq<State>)
    requires tp.n >= 1
    ensures IsExecution(tp, states) && states[|states| - 1].runs > 0
  {
    var task := Task(1, false, Action, []);
    var s := State(Idle, None, seq(tp.n, i => NewThread()), task, 0);
    var s' := s.(main := MainReset, task := Some(task), cur := task, runs := 1,
                 th := seq(|s.th|, i requires 0 <= i < |s.th| => Renew(s.th[i])));
    assert Begins(tp, s, task, s');
    assert Init(tp, s);
    states := [s, s'];
    assert Next(tp, states[0], states[1]);
  }

  lemma RestedIsSetUp(tp: Topology, s: State)
    requires Returned(tp, s)
    ensures IsSetUp(s)
  {
    ExactlyOnce(tp, s, 0);
    forall t: nat | t < |s.th| ensures !s.th[t].pc.Unborn? && ForkRest(s.th[t].pc) == [] {
      ExactlyOnce(tp, s, t);
    }
  }

  /** A regular squad has a history in which a run returns. */
  lemma RegularReturns(n: nat) returns (s: State)
    requires Regular(n)
    ensures Reachable(Squad(n), s) && s.runs > 0 && !Running(s.main)
  {
    SquadWellFormed(n);
    var states := FirstRun(Squad(n));
    states := RunOut(Squad(n), states);
    s := states[|states| - 1];
  }

  /** The threads of a squad can all be got running without violating an assertion if and only if n is regular. */
  lemma SetUpIffRegular(n: nat)
    requires n >= 1
    ensures Regular(n) <==> exists s :: Reachable(Squad(n), s) && IsSetUp(s)
  {
    if Regular(n) {
      var s := RegularReturns(n);
      SquadWellFormed(n);
      RestedIsSetUp(Squad(n), s);
    } else {
      forall s | Reachable(Squad(n), s) ensures !IsSetUp(s) {
        IrregularIsNeverSetUp(n, s);
      }
    }
  }
}
