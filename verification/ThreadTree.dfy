/** The stride array of a squad and the loops over it, as in src/thread_squad.cpp. */
module ThreadTree {
  import opened ModArith
  import opened SquadTree

  /** Inside the sub-block that starts at `b`, the nested decomposition is that of the sub-block. */
  lemma NumSubInBlock(first: nat, stride: nat, b: nat, t: nat)
    requires stride > 1 && first <= b
    requires (b - first) % NextSubstride(stride) == 0
    requires b <= t < b + NextSubstride(stride) && first < t < first + stride
    ensures NumSub(first, stride, t) == NumSub(b, NextSubstride(stride), t)
  {
    var u := NextSubstride(stride);
    ModShift(t - b, b - first, u);
    ModSmall(t - b, u);
    assert BlockStart(first, u, t) == b;
  }

  lemma MultiplesFrom(i: nat, last: int, u: nat)
    requires u >= 1
    ensures Multiples(i, last, u) == if i < last then [i] + Multiples(i + u, last, u) else []
  {
  }

  class ThreadTree {
    const numThreads: nat
    const numSubthreads: array<int>

    ghost predicate Valid()
      reads this, numSubthreads
    {
      && numSubthreads.Length == numThreads
      && forall t :: 0 <= t < numThreads ==> numSubthreads[t] == NumSubthreads(numThreads, t)
    }

    constructor (n: nat)
      requires n >= 1
      ensures Valid() && numThreads == n && fresh(numSubthreads)
    {
      numThreads := n;
      numSubthreads := new int[n](_ => -1);
      new;
      Init(0, n, n);
    }

    method Init(first: nat, last: nat, stride: nat)
      requires first < last <= first + stride && last <= numSubthreads.Length
      modifies numSubthreads
      ensures forall t :: first <= t < last ==> numSubthreads[t] == NumSub(first, stride, t)
      ensures forall t :: 0 <= t < numSubthreads.Length && !(first <= t < last)
                ==> numSubthreads[t] == old(numSubthreads[t])
      decreases stride
    {
      if stride != 1 {
        var substride := NextSubstride(stride);
        var i := first;
        ModSmall(0, substride);
        while i < last
          invariant first <= i
          invariant (i - first) % substride == 0
          invariant forall t :: first < t < i && t < last ==> numSubthreads[t] == NumSub(first, stride, t)
          invariant forall t :: 0 <= t < numSubthreads.Length && !(first <= t < last)
                      ==> numSubthreads[t] == old(numSubthreads[t])
          decreases last - i
        {
          Init(i, Min(i + substride, last), substride);
          forall t | i <= t < i + substride && first < t < last
            ensures numSubthreads[t] == NumSub(first, stride, t)
          {
            NumSubInBlock(first, stride, i, t);
          }
          ModSelf(substride);
          ModShift(i - first, substride, substride);
          i := i + substride;
        }
      }
      numSubthreads[first] := stride;
    }

    /** `to_subthreads`: the calls of its function argument, in order. */
    method ToSubthreads(callingThreadIdx: nat, concurrency: nat) returns (visited: seq<nat>)
      requires Valid() && callingThreadIdx < numThreads
      ensures visited == Down(numThreads, callingThreadIdx, concurrency)
    {
      visited := [];
      var stride: int := numSubthreads[callingThreadIdx];
      var last := Min(callingThreadIdx + stride, concurrency);
      ghost var all := Down(numThreads, callingThreadIdx, concurrency);
      assert all == [] + DownTargets(callingThreadIdx, stride, last);
      while stride != 1
        invariant stride >= 1
        invariant visited + DownTargets(callingThreadIdx, stride, last) == all
        decreases stride
      {
        var substride := NextSubstride(stride);
        var i := callingThreadIdx + substride;
        ghost var before, level := visited, Multiples(i, last, substride);
        ghost var below := DownTargets(callingThreadIdx, substride, Min(callingThreadIdx + substride, last));
        assert DownTargets(callingThreadIdx, stride, last) == level + below;
        while i < last
          invariant i >= callingThreadIdx + substride
          invariant visited + Multiples(i, last, substride) == before + level
          decreases last - i
        {
          visited := visited + [i];
          i := i + substride;
        }
        assert visited == before + level;
        assert before + (level + below) == visited + below;
        last := Min(callingThreadIdx + substride, last);
        stride := substride;
      }
    }

    method FromSubthreadsImpl(first: nat, last: int, stride: nat, visited: seq<nat>) returns (visited': seq<nat>)
      requires stride >= 1
      ensures visited' == visited + UpTargets(first, stride, last)
      decreases stride
    {
      hide NextSubstride, Min, UpTargets, Multiples;
      visited' := visited;
      var substride := NextSubstride(stride);
      if stride != 1 {
        visited' := FromSubthreadsImpl(first, Min(first + substride, last), substride, visited');
      }
      ghost var before, level := visited', Multiples(first + substride, last, substride);
      var i := first + substride;
      while i < last
        invariant i >= first + substride
        invariant visited' + Multiples(i, last, substride) == before + level
        decreases last - i
      {
        MultiplesFrom(i, last, substride);
        assert visited' + ([i] + Multiples(i + substride, last, substride))
          == (visited' + [i]) + Multiples(i + substride, last, substride);
        visited' := visited' + [i];
        i := i + substride;
      }
      MultiplesFrom(i, last, substride);
      UpWalkParts(first, stride, last);
      if stride == 1 {
        assert [] + level == level;
      } else {
        ghost var inner := UpTargets(first, substride, Min(first + substride, last));
        assert (visited + inner) + level == visited + (inner + level);
      }
    }

    /** `from_subthreads`: the calls of its function argument, in order. */
    method FromSubthreads(callingThreadIdx: nat, concurrency: nat) returns (visited: seq<nat>)
      requires Valid() && callingThreadIdx < numThreads
      ensures visited == Up(numThreads, callingThreadIdx, concurrency)
    {
      var stride := numSubthreads[callingThreadIdx];
      visited := FromSubthreadsImpl(callingThreadIdx, Min(callingThreadIdx + stride, concurrency), stride, []);
    }
  }
}
