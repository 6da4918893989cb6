/** Who is still there: ids in the order in which they came, without those that have gone. */
module Roster {
  function Remaining(ids: seq<nat>, gone: set<nat>): (r: seq<nat>)
    ensures forall id :: id in r <==> id in ids && id !in gone
  {
    if ids == [] then []
    else
      var before, last := ids[..|ids| - 1], ids[|ids| - 1];
      assert ids == before + [last];
      Remaining(before, gone) + (if last in gone then [] else [last])
  }

  ghost predicate Distinct(ids: seq<nat>) {
    forall i, j :: 0 <= i < j < |ids| ==> ids[i] != ids[j]
  }

  lemma NoneRemaining(gone: set<nat>)
    ensures Remaining([], gone) == []
  {
  }

  lemma RemainingNext(ids: seq<nat>, id: nat, gone: set<nat>)
    ensures Remaining(ids + [id], gone) == Remaining(ids, gone) + (if id in gone then [] else [id])
  {
    assert (ids + [id])[..|ids|] == ids;
  }

  /** Who goes later goes from those who were left. */
  lemma {:induction false} RemainingMore(ids: seq<nat>, gone: set<nat>, more: set<nat>)
    ensures Remaining(ids, gone + more) == Remaining(Remaining(ids, gone), more)
  {
    if ids != [] {
      var before, last := ids[..|ids| - 1], ids[|ids| - 1];
      RemainingMore(before, gone, more);
      if last !in gone {
        RemainingNext(Remaining(before, gone), last, more);
      } else {
        assert Remaining(before, gone) + [] == Remaining(before, gone);
      }
    }
  }

  lemma {:induction false} RemainingAll(ids: seq<nat>, gone: set<nat>)
    requires forall id :: id in ids ==> id !in gone
    ensures Remaining(ids, gone) == ids
  {
    if ids != [] {
      var before, last := ids[..|ids| - 1], ids[|ids| - 1];
      assert ids == before + [last];
      RemainingAll(before, gone);
    }
  }

  lemma SameRemaining(a: seq<nat>, b: seq<nat>, gone: set<nat>, more: set<nat>)
    requires Remaining(a, gone) == Remaining(b, gone)
    ensures Remaining(a, gone + more) == Remaining(b, gone + more)
  {
    RemainingMore(a, gone, more);
    RemainingMore(b, gone, more);
  }
}
