/** `java.time.LocalDate` as far as the core uses it: chronological order (the JPQL
  * `BETWEEN` and `ORDER BY`), `toEpochDay` (the controller's query window) and `hashCode`
  * (the summary key's hash). */
module Dates {
  import JavaLang

  datatype LocalDate = LocalDate(year: int, month: int, day: int)

  /** `IsoChronology.isLeapYear`. */
  predicate IsLeapYear(year: int) {
    year % 4 == 0 && (year % 100 != 0 || year % 400 == 0)
  }

  function LengthOfMonth(year: int, month: int): (n: int)
    requires 1 <= month <= 12
    ensures 28 <= n <= 31
  {
    if month == 2 then (if IsLeapYear(year) then 29 else 28)
    else if month == 4 || month == 6 || month == 9 || month == 11 then 30
    else 31
  }

  /** The dates `LocalDate.of` accepts. */
  predicate Valid(d: LocalDate) {
    -999_999_999 <= d.year <= 999_999_999
    && 1 <= d.month <= 12
    && 1 <= d.day <= LengthOfMonth(d.year, d.month)
  }

  /** Chronological order: `!a.isAfter(b)`. */
  predicate NotAfter(a: LocalDate, b: LocalDate) {
    a.year < b.year
    || (a.year == b.year && (a.month < b.month || (a.month == b.month && a.day <= b.day)))
  }

  lemma NotAfterTotal(a: LocalDate, b: LocalDate)
    ensures NotAfter(a, b) || NotAfter(b, a)
    ensures NotAfter(a, b) && NotAfter(b, a) ==> a == b
  {
  }

  const DAYS_0000_TO_1970: int := 146097 * 5 - (30 * 365 + 7)

  /** `LocalDate.toEpochDay`, with Java's truncating division for years before 0. */
  function ToEpochDay(d: LocalDate): int
    requires 1 <= d.month <= 12
  {
    var y := d.year;
    var m := d.month;
    var leapDays :=
      if y >= 0 then (y + 3) / 4 - (y + 99) / 100 + (y + 399) / 400
      else -(JavaLang.JavaDiv(y, -4) - JavaLang.JavaDiv(y, -100) + JavaLang.JavaDiv(y, -400));
    var total := 365 * y + leapDays + (367 * m - 362) / 12 + d.day - 1;
    var adjusted := if m > 2 then (if IsLeapYear(y) then total - 1 else total - 2) else total;
    adjusted - DAYS_0000_TO_1970
  }

  lemma EpochDayOfEpoch()
    ensures ToEpochDay(LocalDate(1970, 1, 1)) == 0
  {
  }

  /** The next day of the same month is the next epoch day. */
  lemma EpochDayNextDay(d: LocalDate)
    requires Valid(d) && d.day < LengthOfMonth(d.year, d.month)
    ensures ToEpochDay(d.(day := d.day + 1)) == ToEpochDay(d) + 1
  {
  }

  /** `atStartOfDay().toEpochSecond(ZoneOffset.UTC)`. */
  function StartOfDaySeconds(d: LocalDate): (s: int)
    requires 1 <= d.month <= 12
    ensures s % 86400 == 0
  {
    ToEpochDay(d) * 86400
  }

  /** `atTime(23, 59, 59).toEpochSecond(ZoneOffset.UTC)`. */
  function EndOfDaySeconds(d: LocalDate): (s: int)
    requires 1 <= d.month <= 12
    ensures s % 86400 == 86399
  {
    ToEpochDay(d) * 86400 + 86399
  }

  function ToBv32(x: int): bv32 {
    (x % JavaLang.TWO_32) as bv32
  }

  function FromBv32(b: bv32): (x: int)
    ensures JavaLang.IsInt32(x)
  {
    var u := b as int;
    if u >= 0x8000_0000 then u - JavaLang.TWO_32 else u
  }

  /** `LocalDate.hashCode`: `(year & 0xFFFFF800) ^ ((year << 11) + (month << 6) + day)`
    * in 32-bit arithmetic. */
  function HashCode(d: LocalDate): (h: int)
    ensures JavaLang.IsInt32(h)
  {
    var y := ToBv32(d.year);
    FromBv32((y & 0xFFFF_F800) ^ ((y << 11) + (ToBv32(d.month) << 6) + ToBv32(d.day)))
  }
}
