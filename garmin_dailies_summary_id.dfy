/** `GarminDailiesSummaryId`: the embedded key `(userId, garminUserId, calendarDate)` of a
  * daily summary row, mutable through setters and compared by value. */
module DailiesSummaryIds {
  import opened Wrappers
  import JavaLang
  import Dates

  /** The value of a persisted key: all three primary-key columns are non-null. */
  datatype SummaryKey = SummaryKey(userId: string, garminUserId: string, calendarDate: Dates.LocalDate)

  class GarminDailiesSummaryId {
    var userId: Option<string>
    var garminUserId: Option<string>
    var calendarDate: Option<Dates.LocalDate>

    constructor Empty()
      ensures userId == None && garminUserId == None && calendarDate == None
    {
      userId, garminUserId, calendarDate := None, None, None;
    }

    /** The three-argument constructor stores its arguments. */
    constructor (userId: Option<string>, garminUserId: Option<string>, calendarDate: Option<Dates.LocalDate>)
      ensures this.userId == userId && this.garminUserId == garminUserId && this.calendarDate == calendarDate
    {
      this.userId := userId;
      this.garminUserId := garminUserId;
      this.calendarDate := calendarDate;
    }

    method SetUserId(userId: Option<string>)
      modifies this`userId
      ensures this.userId == userId
    {
      this.userId := userId;
    }

    method SetGarminUserId(garminUserId: Option<string>)
      modifies this`garminUserId
      ensures this.garminUserId == garminUserId
    {
      this.garminUserId := garminUserId;
    }

    method SetCalendarDate(calendarDate: Option<Dates.LocalDate>)
      modifies this`calendarDate
      ensures this.calendarDate == calendarDate
    {
      this.calendarDate := calendarDate;
    }

    function Key(): (k: Option<SummaryKey>)
      reads this
      ensures k.Some? <==> userId.Some? && garminUserId.Some? && calendarDate.Some?
    {
      if userId.Some? && garminUserId.Some? && calendarDate.Some? then
        Some(SummaryKey(userId.value, garminUserId.value, calendarDate.value))
      else None
    }

    /** `equals(o)`: identity, then null/other-class rejection, then null-safe comparison
      * of the three fields. */
    predicate Equals(o: Operand)
      reads this, o.Reads()
      ensures Equals(o) <==>
        (o.Same? && userId == o.that.userId
         && garminUserId == o.that.garminUserId && calendarDate == o.that.calendarDate)
    {
      match o
      case Same(that) =>
        this == that
        || (userId == that.userId && garminUserId == that.garminUserId && calendarDate == that.calendarDate)
      case _ => false
    }

    /** `hashCode()` = `Objects.hash(userId, garminUserId, calendarDate)`. */
    function HashCode(): (h: int)
      reads this
      ensures JavaLang.IsInt32(h)
    {
      JavaLang.ObjectsHash([
        JavaLang.NullableStringHash(userId),
        JavaLang.NullableStringHash(garminUserId),
        if calendarDate.Some? then Dates.HashCode(calendarDate.value) else 0])
    }
  }

  datatype Operand = Null | OtherClass | Same(that: GarminDailiesSummaryId) {
    function Reads(): set<object> {
      if Same? then {that} else {}
    }
  }

  lemma EqualsReflexive(a: GarminDailiesSummaryId)
    ensures a.Equals(Same(a))
  {
  }

  lemma EqualsSymmetric(a: GarminDailiesSummaryId, b: GarminDailiesSummaryId)
    ensures a.Equals(Same(b)) <==> b.Equals(Same(a))
  {
  }

  lemma EqualsRejectsNullAndOtherClasses(a: GarminDailiesSummaryId)
    ensures !a.Equals(Null) && !a.Equals(OtherClass)
  {
  }

  lemma EqualKeysHashEqually(a: GarminDailiesSummaryId, b: GarminDailiesSummaryId)
    requires a.Equals(Same(b))
    ensures a.HashCode() == b.HashCode()
  {
  }

  /** For keys whose columns are set, `equals` is equality of `SummaryKey` values. */
  lemma EqualsIsKeyEquality(a: GarminDailiesSummaryId, b: GarminDailiesSummaryId)
    requires a.Key().Some? && b.Key().Some?
    ensures a.Equals(Same(b)) <==> a.Key() == b.Key()
  {
  }
}
