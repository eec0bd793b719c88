/**
 * The file-usage tracker: a map from file name to the number of times the
 * file was opened for download.
 */
module UsageTracking {
  import opened FileRequest

  /** The tracker after one more successful open of `name`: its count goes up
      by one, or it enters with 1. */
  function Bump(counts: map<Name, int>, name: Name): (r: map<Name, int>)
    ensures r.Keys == counts.Keys + {name}
    ensures name in counts ==> r[name] == counts[name] + 1
    ensures name !in counts ==> r[name] == 1
    ensures forall other :: other in counts && other != name ==> r[other] == counts[other]
  {
    counts[name := if name in counts then counts[name] + 1 else 1]
  }

  /** The tracker built from empty by the successful opens `opens`, in order. */
  function Tally(opens: seq<Name>): map<Name, int> {
    if opens == [] then map[] else Bump(Tally(opens[..|opens| - 1]), opens[|opens| - 1])
  }

  /** How often `name` occurs in `opens`. */
  function Occurrences(opens: seq<Name>, name: Name): nat {
    if opens == [] then 0
    else Occurrences(opens[..|opens| - 1], name) + (if opens[|opens| - 1] == name then 1 else 0)
  }

  /** Counts are exact: a name is tracked exactly when it was opened, and its
      count is the number of times it was opened, whatever the order. */
  lemma {:induction false} TallyCountsOpens(opens: seq<Name>, name: Name)
    ensures name in Tally(opens) <==> name in opens
    ensures name in Tally(opens) ==> Tally(opens)[name] == Occurrences(opens, name)
  {
    if opens != [] {
      var init := opens[..|opens| - 1];
      TallyCountsOpens(init, name);
      assert opens == init + [opens[|opens| - 1]];
      assert name in opens <==> name in init || name == opens[|opens| - 1];
      if name !in init {
        assert Occurrences(init, name) == 0 by { NoOccurrences(init, name); }
      }
    }
  }

  lemma {:induction false} NoOccurrences(opens: seq<Name>, name: Name)
    requires name !in opens
    ensures Occurrences(opens, name) == 0
  {
    if opens != [] {
      NoOccurrences(opens[..|opens| - 1], name);
    }
  }

  /** Every tracked count is at least one. */
  ghost predicate AllPositive(counts: map<Name, int>) {
    forall name :: name in counts ==> counts[name] >= 1
  }

  lemma {:induction false} TallyIsPositive(opens: seq<Name>)
    ensures AllPositive(Tally(opens))
  {
    if opens != [] {
      TallyIsPositive(opens[..|opens| - 1]);
    }
  }

  /** The shared tracker object the download workers update. */
  class UsageTracker {
    var counts: map<Name, int>

    ghost predicate Valid()
      reads this
    {
      AllPositive(counts)
    }

    constructor ()
      ensures Valid() && counts == map[]
    {
      counts := map[];
    }

    /** Record one successful open of `name`. */
    method RecordDownload(name: Name)
      requires Valid()
      modifies this
      ensures Valid()
      ensures counts == Bump(old(counts), name)
    {
      if name in counts {
        counts := counts[name := counts[name] + 1];
      } else {
        counts := counts[name := 1];
      }
    }
  }
}
