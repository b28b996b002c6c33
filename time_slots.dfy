/**
 * The canonical bookable times and the filter that removes the occupied ones
 * from the time buttons (src/app/page.tsx, `allAvailableTimes` and
 * `availableTimes`).
 */
module TimeSlots {

  /** The eight bookable times of a day, in display order. */
  const AllAvailableTimes: seq<string> := ["09:00", "10:00", "11:00", "14:00", "15:00", "16:00", "17:00", "18:00"]

  /** The dates offered by the date buttons. */
  const AvailableDates: seq<string> := ["2024-02-15", "2024-02-16", "2024-02-17", "2024-02-19"]

  predicate NoDuplicates(s: seq<string>) {
    forall i, j :: 0 <= i < j < |s| ==> s[i] != s[j]
  }

  /** `all.filter(time => !occupied.includes(time))`. */
  function AvailableTimes(all: seq<string>, occupied: seq<string>): (r: seq<string>)
    ensures |r| <= |all|
    ensures forall t :: t in r <==> t in all && t !in occupied
  {
    if |all| == 0 then []
    else (if all[0] in occupied then [] else [all[0]]) + AvailableTimes(all[1..], occupied)
  }

  /**
   * The filter keeps the original order: it distributes over concatenation,
   * so each element of `all` is kept or dropped in place.
   */
  lemma {:induction false} AvailableTimesAppend(a: seq<string>, b: seq<string>, occupied: seq<string>)
    ensures AvailableTimes(a + b, occupied) == AvailableTimes(a, occupied) + AvailableTimes(b, occupied)
  {
    if |a| > 0 {
      assert (a + b)[0] == a[0] && (a + b)[1..] == a[1..] + b;
      AvailableTimesAppend(a[1..], b, occupied);
    } else {
      assert a + b == b;
    }
  }

  /** Filtering a second time with the same occupied list changes nothing. */
  lemma {:induction false} AvailableTimesIdempotent(all: seq<string>, occupied: seq<string>)
    ensures AvailableTimes(AvailableTimes(all, occupied), occupied) == AvailableTimes(all, occupied)
  {
    if |all| > 0 {
      AvailableTimesIdempotent(all[1..], occupied);
      var head := if all[0] in occupied then [] else [all[0]];
      AvailableTimesAppend(head, AvailableTimes(all[1..], occupied), occupied);
    }
  }

  /** When no time of `all` is occupied (in particular for the fail-open answer `[]`) every time is offered. */
  lemma {:induction false} AvailableTimesNoneOccupied(all: seq<string>, occupied: seq<string>)
    requires forall i :: 0 <= i < |all| ==> all[i] !in occupied
    ensures AvailableTimes(all, occupied) == all
  {
    if |all| > 0 {
      AvailableTimesNoneOccupied(all[1..], occupied);
    }
  }

  /** Offered and occupied times are disjoint, and together they cover every canonical time. */
  lemma AvailableTimesPartition(all: seq<string>, occupied: seq<string>)
    ensures (set t | t in AvailableTimes(all, occupied)) * (set t | t in occupied) == {}
    ensures (set t | t in AvailableTimes(all, occupied)) + (set t | t in all && t in occupied) == (set t | t in all)
  {
  }

  /**
   * On a list without repeats, such as the canonical times, the offered
   * count is the number of canonical times minus the occupied ones among them.
   */
  lemma {:induction false} AvailableTimesCount(all: seq<string>, occupied: seq<string>)
    requires NoDuplicates(all)
    ensures |AvailableTimes(all, occupied)| + |set t | t in all && t in occupied| == |all|
  {
    if |all| > 0 {
      var rest := all[1..];
      AvailableTimesCount(rest, occupied);
      var before := set t | t in rest && t in occupied;
      var now := set t | t in all && t in occupied;
      assert all[0] !in rest;
      if all[0] in occupied {
        assert now == before + {all[0]};
      } else {
        assert now == before;
      }
    }
  }

  /** With only the first time booked, the other seven are offered, still in display order. */
  lemma FirstTimeTaken()
    ensures AvailableTimes(AllAvailableTimes, ["09:00"]) == AllAvailableTimes[1..]
  {
    var rest := AllAvailableTimes[1..];
    assert AllAvailableTimes == ["09:00"] + rest;
    AvailableTimesAppend(["09:00"], rest, ["09:00"]);
    assert AvailableTimes(["09:00"], ["09:00"]) == [] by {
      assert ["09:00"][1..] == [];
    }
    AvailableTimesNoneOccupied(rest, ["09:00"]);
  }

  /** The canonical times are eight and have no repeats. */
  lemma CanonicalTimesDistinct()
    ensures NoDuplicates(AllAvailableTimes) && |AllAvailableTimes| == 8
  {
  }

  /** The number of offered times is eight minus the occupied canonical ones. */
  lemma OfferedCount(occupied: seq<string>)
    ensures |AvailableTimes(AllAvailableTimes, occupied)| == 8 - |set t | t in AllAvailableTimes && t in occupied|
  {
    CanonicalTimesDistinct();
    AvailableTimesCount(AllAvailableTimes, occupied);
  }
}
