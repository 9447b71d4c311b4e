/** When `run` can return: on a squad of n threads it returns by safe steps if and only if n is regular. */
module SquadReturn {
  import opened TreeShape
  import opened Protocol
  import opened ProtocolInvariant
  import opened PassOrder
  import opened PattonSquad
  import opened IrregularSquad
  import opened SquadSetup

  /** On an irregular squad, no `run` with work to do ever returns without violating an assertion. */
  lemma IrregularNeverReturns(n: nat, s: State)
    requires n >= 1 && !Regular(n) && Reachable(Squad(n), s) && s.runs > 0
    ensures Running(s.main)
  {
    if !Running(s.main) {
      var t, b := SomeThreadIsStuck(n, s);
      ReturnedHavePassed(n, s, t);
    }
  }

  /** When `run` has returned, all threads have been forked and are done with forking, for any n. */
  lemma ReturnedIsSetUp(n: nat, s: State)
    requires n >= 1 && Reachable(Squad(n), s) && s.runs > 0 && !Running(s.main)
    ensures IsSetUp(s)
  {
    if Regular(n) {
      SquadWellFormed(n);
      RestedIsSetUp(Squad(n), s);
    } else {
      IrregularNeverReturns(n, s);
    }
  }

  /** A `run` on a squad of n threads can return without violating an assertion if and only if n is regular. */
  lemma ReturnsIffRegular(n: nat)
    requires n >= 1
    ensures Regular(n) <==> exists s :: Reachable(Squad(n), s) && s.runs > 0 && !Running(s.main)
  {
    if Regular(n) {
      var s := RegularReturns(n);
    } else {
      forall s | Reachable(Squad(n), s) && s.runs > 0 ensures Running(s.main) {
        IrregularNeverReturns(n, s);
      }
    }
  }

  /** With 65 threads, no `run` ever returns without violating an assertion. */
  lemma SixtyFiveNeverReturns(n: nat, s: State)
    requires n == 65 && Reachable(Squad(n), s) && s.runs > 0
    ensures Running(s.main)
  {
    SixtyFiveIsIrregular(n);
    IrregularNeverReturns(n, s);
  }
}
