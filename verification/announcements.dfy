/** Site announcements: the active ones are those flagged active whose date
    window contains the current time, ordered by priority and then by age.

    Dates are milliseconds since the epoch; `None` is a date that is absent or
    falsy. Priorities are numbers; a missing or zero priority counts as 1.
 */
module Announcements {
  import opened Base
  import Sorting

  datatype Announcement = Announcement(
    id: string,
    isActive: Option<bool>,
    startDate: Option<int>,
    endDate: Option<int>,
    priority: Option<real>,
    createdAt: Option<int>)

  /** `priority || 1`. */
  function Rank(a: Announcement): (r: real)
    ensures NumTruthy(a.priority) ==> r == a.priority.value
    ensures !NumTruthy(a.priority) ==> r == 1.0
  {
    if NumTruthy(a.priority) then a.priority.value else 1.0
  }

  /** The query `isActive == true` and the date filter: not before its start, not after its end. */
  predicate ActiveAt(a: Announcement, now: int) {
    && a.isActive == Some(true)
    && (a.startDate.None? || now >= a.startDate.value)
    && (a.endDate.None? || now <= a.endDate.value)
  }

  /** The filter callback, branch by branch: no dates keeps it, then the start check, then the end check. */
  function InWindow(a: Announcement, now: int): (keep: bool)
    ensures keep <==> (a.startDate.None? || now >= a.startDate.value) && (a.endDate.None? || now <= a.endDate.value)
  {
    if a.startDate.None? && a.endDate.None? then true
    else if a.startDate.Some? && now < a.startDate.value then false
    else if a.endDate.Some? && now > a.endDate.value then false
    else true
  }

  function FilterActive(all: seq<Announcement>, now: int): (r: seq<Announcement>)
    ensures forall a :: a in r <==> a in all && ActiveAt(a, now)
    ensures multiset(r) <= multiset(all)
  {
    if |all| == 0 then []
    else
      var keep := all[0].isActive == Some(true) && InWindow(all[0], now);
      assert all == [all[0]] + all[1..];
      (if keep then [all[0]] else []) + FilterActive(all[1..], now)
  }

  // ---------------------------------------------------------------------------
  // The comparator as written

  /** The sort callback as written. Different raw priorities compare as `(b.priority || 1) - (a.priority || 1)`,
      which is 0 when both fall back to the same rank; equal raw priorities compare by `createdAt`, newest
      first. A missing `createdAt` makes an invalid date, and `Array.prototype.sort` reads the resulting NaN
      as 0. A negative result puts `a` first. */
  function CompareAsWritten(a: Announcement, b: Announcement): (r: real)
    ensures a.priority != b.priority ==> r == Rank(b) - Rank(a)
    ensures a.priority == b.priority && a.createdAt.Some? && b.createdAt.Some? ==>
              r == (b.createdAt.value - a.createdAt.value) as real
    ensures a.priority == b.priority && (a.createdAt.None? || b.createdAt.None?) ==> r == 0.0
  {
    if a.priority != b.priority then Rank(b) - Rank(a)
    else if a.createdAt.Some? && b.createdAt.Some? then (b.createdAt.value - a.createdAt.value) as real
    else 0.0
  }

  /** Three announcements on which the comparator is not a consistent ordering: `a` ties with `b`, `b` ties
      with `c`, yet `a` must come before `c`. A missing priority and a priority of 1 tie without the dates
      being looked at, while two missing priorities fall through to the dates. The order the engine
      then produces is implementation-defined. */
  lemma CompareAsWrittenInconsistent()
    ensures var a := Announcement("a", Some(true), None, None, None, Some(5));
            var b := Announcement("b", Some(true), None, None, Some(1.0), Some(10));
            var c := Announcement("c", Some(true), None, None, None, Some(1));
            && CompareAsWritten(a, b) == 0.0
            && CompareAsWritten(b, c) == 0.0
            && CompareAsWritten(a, c) < 0.0
  {
  }

  // ---------------------------------------------------------------------------
  // The corrected order

  /** Higher rank first; equal ranks newest first, an announcement without `createdAt` after dated ones. */
  predicate RanksBefore(a: Announcement, b: Announcement) {
    || Rank(a) > Rank(b)
    || (Rank(a) == Rank(b) && (b.createdAt.None? || (a.createdAt.Some? && a.createdAt.value >= b.createdAt.value)))
  }

  lemma RanksBeforeIsPreorder()
    ensures Sorting.TotalPreorder(RanksBefore)
  {
  }

  /** The ordering agrees with the comparator as written wherever that comparator decides: a strictly
      negative comparison puts the first announcement no later than the second. */
  lemma RanksBeforeRefinesComparator(a: Announcement, b: Announcement)
    requires CompareAsWritten(a, b) < 0.0
    ensures RanksBefore(a, b) && !RanksBefore(b, a)
  {
  }

  /** `getActiveAnnouncements()`: the active announcements, highest rank first, then newest first. */
  function GetActiveAnnouncements(all: seq<Announcement>, now: int): (r: seq<Announcement>)
    ensures forall a :: a in r <==> a in all && ActiveAt(a, now)
    ensures multiset(r) <= multiset(all)
    ensures Sorting.SortedBy(r, RanksBefore)
  {
    RanksBeforeIsPreorder();
    Sorting.Sort(FilterActive(all, now), RanksBefore)
  }

  /** The query `orderBy('createdAt')`: it leaves out the announcements that have no `createdAt`. */
  function FilterDated(all: seq<Announcement>): (r: seq<Announcement>)
    ensures forall a :: a in r <==> a in all && a.createdAt.Some?
    ensures multiset(r) <= multiset(all)
  {
    if |all| == 0 then []
    else
      assert all == [all[0]] + all[1..];
      (if all[0].createdAt.Some? then [all[0]] else []) + FilterDated(all[1..])
  }

  /** `getAnnouncements()`: the dated announcements, highest rank first, then newest first. */
  function GetAnnouncements(all: seq<Announcement>): (r: seq<Announcement>)
    ensures forall a :: a in r <==> a in all && a.createdAt.Some?
    ensures multiset(r) <= multiset(all)
    ensures Sorting.SortedBy(r, RanksBefore)
  {
    RanksBeforeIsPreorder();
    Sorting.Sort(FilterDated(all), RanksBefore)
  }

  /** An active announcement with neither date is always shown; one whose window has closed never is. */
  lemma WindowEdges(all: seq<Announcement>, a: Announcement, now: int)
    requires a in all && a.isActive == Some(true)
    ensures a.startDate.None? && a.endDate.None? ==> a in GetActiveAnnouncements(all, now)
    ensures a.endDate.Some? && now > a.endDate.value ==> a !in GetActiveAnnouncements(all, now)
  {
  }
}
