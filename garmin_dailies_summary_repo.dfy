/** `GarminDailiesSummaryRepo`: two read-only JPQL queries over the daily summary table.
  * A result lists the matching rows by their keys, latest `calendarDate` first; rows on
  * the same date come in an order the queries leave unspecified. The table maps each key
  * to its row, whatever the row type. */
module DailiesSummaryRepository {
  import opened DailiesSummaryIds
  import Dates

  predicate SortedByDateDesc(ks: seq<SummaryKey>) {
    forall i, j :: 0 <= i < j < |ks| ==> Dates.NotAfter(ks[j].calendarDate, ks[i].calendarDate)
  }

  predicate Distinct(ks: seq<SummaryKey>) {
    forall i, j :: 0 <= i < j < |ks| ==> ks[i] != ks[j]
  }

  /** No key of `ks` has a later date than `k`. */
  predicate IsLatest(k: SummaryKey, ks: set<SummaryKey>) {
    forall j :: j in ks ==> Dates.NotAfter(j.calendarDate, k.calendarDate)
  }

  /** Every non-empty set of keys has a latest one. */
  lemma {:induction false} LatestExists(ks: set<SummaryKey>)
    requires ks != {}
    ensures exists k :: k in ks && IsLatest(k, ks)
    decreases ks
  {
    var x :| x in ks;
    if ks == {x} {
      assert IsLatest(x, ks);
    } else {
      var rest := ks - {x};
      LatestExists(rest);
      var m :| m in rest && IsLatest(m, rest);
      Dates.NotAfterTotal(x.calendarDate, m.calendarDate);
      if Dates.NotAfter(x.calendarDate, m.calendarDate) {
        assert IsLatest(m, ks);
      } else {
        assert IsLatest(x, ks);
      }
    }
  }

  /** `ORDER BY calendarDate DESC` over a set of keys. */
  ghost function OrderByDateDesc(ks: set<SummaryKey>): (r: seq<SummaryKey>)
    ensures forall k :: k in r <==> k in ks
    ensures |r| == |ks| && Distinct(r) && SortedByDateDesc(r)
    decreases ks
  {
    if ks == {} then []
    else
      LatestExists(ks);
      var k :| k in ks && IsLatest(k, ks);
      [k] + OrderByDateDesc(ks - {k})
  }

  /** `BETWEEN :startDate AND :endDate`: inclusive at both ends. */
  predicate InRange(d: Dates.LocalDate, startDate: Dates.LocalDate, endDate: Dates.LocalDate) {
    Dates.NotAfter(startDate, d) && Dates.NotAfter(d, endDate)
  }

  /** `... WHERE s.id.userId = :userId ORDER BY s.id.calendarDate DESC`. */
  ghost function FindByUserIdOrderByDateDesc<R>(t: map<SummaryKey, R>, userId: string): (r: seq<SummaryKey>)
    ensures forall k :: k in r <==> k in t && k.userId == userId
    ensures Distinct(r) && SortedByDateDesc(r)
  {
    OrderByDateDesc(set k | k in t && k.userId == userId)
  }

  /** `... WHERE g.id.userId = :userId AND g.id.calendarDate BETWEEN :startDate AND :endDate
    * ORDER BY g.id.calendarDate DESC`. */
  ghost function FindByUserIdAndDateRange<R>(t: map<SummaryKey, R>, userId: string,
                                             startDate: Dates.LocalDate, endDate: Dates.LocalDate): (r: seq<SummaryKey>)
    ensures forall k :: k in r <==> k in t && k.userId == userId && InRange(k.calendarDate, startDate, endDate)
    ensures Distinct(r) && SortedByDateDesc(r)
  {
    OrderByDateDesc(set k | k in t && k.userId == userId && InRange(k.calendarDate, startDate, endDate))
  }

  /** Every row of a range result is also a row of the user's full result. */
  lemma RangeWithinUserRows<R>(t: map<SummaryKey, R>, userId: string, startDate: Dates.LocalDate, endDate: Dates.LocalDate)
    ensures forall k :: k in FindByUserIdAndDateRange(t, userId, startDate, endDate) ==> k in FindByUserIdOrderByDateDesc(t, userId)
  {
  }

  /** A range whose start is after its end matches nothing. */
  lemma EmptyRangeWhenStartAfterEnd<R>(t: map<SummaryKey, R>, userId: string, startDate: Dates.LocalDate, endDate: Dates.LocalDate)
    requires !Dates.NotAfter(startDate, endDate)
    ensures FindByUserIdAndDateRange(t, userId, startDate, endDate) == []
  {
  }

  /** A one-day range matches exactly the user's rows on that day. */
  lemma SingleDayRange<R>(t: map<SummaryKey, R>, userId: string, day: Dates.LocalDate)
    ensures forall k :: k in FindByUserIdAndDateRange(t, userId, day, day) <==>
      k in t && k.userId == userId && k.calendarDate == day
  {
    forall k | k in t && k.userId == userId
      ensures InRange(k.calendarDate, day, day) <==> k.calendarDate == day
    {
      Dates.NotAfterTotal(k.calendarDate, day);
    }
  }
}
