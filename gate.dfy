/**
 * The admission gate: a counter of free worker slots, taken before a
 * connection is served and given back when its worker ends.
 */
module Gate {

  /** Total of a sequence of slot releases. */
  function Sum(s: seq<nat>): nat {
    if s == [] then 0 else Sum(s[..|s| - 1]) + s[|s| - 1]
  }

  lemma {:induction false} SumOfPrefix(s: seq<nat>, i: nat)
    requires i <= |s|
    ensures Sum(s[..i]) <= Sum(s)
    decreases |s| - i
  {
    if i < |s| {
      SumOfPrefix(s, i + 1);
      assert s[..i + 1][..i] == s[..i];
    } else {
      assert s[..i] == s;
    }
  }

  class AdmissionGate {
    /** The shared counter of free slots. */
    var free: int
    /** The configured number of slots. */
    const capacity: int
    /** Slots taken and not yet given back. */
    ghost var held: nat

    ghost predicate Valid()
      reads this
    {
      free + held == capacity && (capacity >= 0 ==> free >= 0)
    }

    constructor (capacity: int)
      ensures Valid() && this.capacity == capacity && free == capacity && held == 0
    {
      this.capacity := capacity;
      free := capacity;
      held := 0;
    }

    /** The counter never leaves [0, capacity] when the capacity is not
        negative. */
    lemma FreeWithinCapacity()
      requires Valid() && capacity >= 0
      ensures 0 <= free <= capacity
    {
    }

    /** Wait for a free slot and take it. While the counter reads zero the
        caller sleeps; `releases[i]` is the number of slots that finishing
        workers give back during the i-th sleep. When the schedule runs out
        with the counter still zero the caller is still waiting. The test is
        `== 0`, so a negative counter never blocks. */
    method FreeThreadBarrier(releases: seq<nat>) returns (acquired: bool, sleeps: nat)
      requires Valid() && Sum(releases) <= held
      modifies this
      ensures Valid()
      ensures sleeps <= |releases|
      ensures forall j :: 0 <= j < sleeps ==> old(free) + Sum(releases[..j]) == 0
      ensures acquired <==> old(free) + Sum(releases[..sleeps]) != 0
      ensures acquired ==> free == old(free) + Sum(releases[..sleeps]) - 1 && held == old(held) - Sum(releases[..sleeps]) + 1
      ensures !acquired ==> sleeps == |releases| && free == 0 && held == old(held) - Sum(releases)
    {
      sleeps := 0;
      while free == 0 && sleeps < |releases|
        invariant sleeps <= |releases|
        invariant free == old(free) + Sum(releases[..sleeps])
        invariant held == old(held) - Sum(releases[..sleeps])
        invariant forall j :: 0 <= j < sleeps ==> old(free) + Sum(releases[..j]) == 0
        invariant Valid()
      {
        assert releases[..sleeps + 1][..sleeps] == releases[..sleeps];
        SumOfPrefix(releases, sleeps + 1);
        free := free + releases[sleeps];
        held := held - releases[sleeps];
        sleeps := sleeps + 1;
      }
      if free != 0 {
        free := free - 1;
        held := held + 1;
        acquired := true;
      } else {
        assert releases[..sleeps] == releases;
        acquired := false;
      }
    }

    /** A finishing worker gives its slot back. */
    method Release()
      requires Valid() && held > 0
      modifies this
      ensures Valid()
      ensures free == old(free) + 1 && held == old(held) - 1
    {
      free := free + 1;
      held := held - 1;
    }
  }
}
