/** The few pieces of the Java platform whose exact behaviour the model depends on:
  * 32-bit `int` arithmetic, truncating division, `String.isBlank`, `String.hashCode`,
  * `Objects.hash` and the decimal rendering of a `long`. */
module JavaLang {
  import opened Wrappers

  const TWO_32: int := 0x1_0000_0000
  const INT_MIN: int := -0x8000_0000
  const INT_MAX: int := 0x7FFF_FFFF

  predicate IsInt32(x: int) { INT_MIN <= x <= INT_MAX }

  /** Two's-complement wrap-around of an unbounded integer into Java's `int` range. */
  function Wrap32(x: int): (r: int)
    ensures IsInt32(r)
    ensures (r - x) % TWO_32 == 0
    ensures IsInt32(x) ==> r == x
  {
    (x - INT_MIN) % TWO_32 + INT_MIN
  }

  /** Wrapping once at the end gives what wrapping after every step gives. */
  lemma Wrap32AddLeft(a: int, b: int)
    ensures Wrap32(Wrap32(a) + b) == Wrap32(a + b)
  {
    var w := Wrap32(a);
    assert (w - a) % TWO_32 == 0;
    var q := (w - a) / TWO_32;
    assert w + b == (a + b) + q * TWO_32;
    ModShift(a + b - INT_MIN, q);
  }

  lemma ModShift(x: int, q: int)
    ensures (x + q * TWO_32) % TWO_32 == x % TWO_32
  {
  }

  /** Java's `/` on integers: the quotient is truncated toward zero. */
  function JavaDiv(a: int, b: int): (q: int)
    requires b != 0
    ensures a >= 0 && b > 0 ==> q == a / b
    ensures b > 0 ==> (if a >= 0 then q * b <= a < q * b + b else q * b - b < a <= q * b)
  {
    if (a >= 0) == (b > 0) then
      (if a >= 0 then a / b else (-a) / (-b))
    else
      -((if a >= 0 then a else -a) / (if b > 0 then b else -b))
  }

  /** `Character.isWhitespace`: space, line and paragraph separators other than the
    * no-break spaces, plus the ASCII controls U+0009..U+000D and U+001C..U+001F. */
  predicate IsWhitespace(c: char) {
    var n := c as int;
    (0x09 <= n <= 0x0D) || (0x1C <= n <= 0x20)
    || n == 0x1680 || (0x2000 <= n <= 0x2006) || (0x2008 <= n <= 0x200A)
    || n == 0x2028 || n == 0x2029 || n == 0x205F || n == 0x3000
  }

  /** `String.isBlank`: empty or made only of whitespace. */
  predicate IsBlank(s: string) {
    forall i :: 0 <= i < |s| ==> IsWhitespace(s[i])
  }

  /** A Java string is a sequence of UTF-16 code units; a character beyond the basic
    * plane becomes a surrogate pair. */
  function Utf16(s: string): (units: seq<int>)
    ensures |units| >= |s|
    ensures forall i :: 0 <= i < |units| ==> 0 <= units[i] < 0x1_0000
  {
    if s == [] then []
    else
      var n := s[0] as int;
      var head := if n < 0x1_0000 then [n]
                  else [0xD800 + (n - 0x1_0000) / 0x400, 0xDC00 + (n - 0x1_0000) % 0x400];
      head + Utf16(s[1..])
  }

  /** `h = 31 * h + unit` over the code units, in 32-bit arithmetic. */
  function HashUnits(units: seq<int>): (h: int)
    ensures IsInt32(h)
  {
    if units == [] then 0
    else Wrap32(31 * HashUnits(units[..|units| - 1]) + units[|units| - 1])
  }

  /** `String.hashCode`. */
  function StringHashCode(s: string): (h: int)
    ensures IsInt32(h)
  {
    HashUnits(Utf16(s))
  }

  /** The hash of a nullable string field as `Objects.hash` sees it: null hashes to 0. */
  function NullableStringHash(s: Option<string>): (h: int)
    ensures IsInt32(h)
    ensures s == None ==> h == 0
  {
    match s
    case None => 0
    case Some(v) => StringHashCode(v)
  }

  /** `Objects.hash(a, b, ...)` = `Arrays.hashCode`, given the element hashes:
    * `r = 31 * r + h` starting from 1. */
  function ObjectsHash(hashes: seq<int>): (h: int)
    ensures IsInt32(h)
  {
    if hashes == [] then 1
    else Wrap32(31 * ObjectsHash(hashes[..|hashes| - 1]) + hashes[|hashes| - 1])
  }

  predicate AllDigits(s: string) {
    forall i :: 0 <= i < |s| ==> '0' <= s[i] <= '9'
  }

  /** Decimal digits of a natural number, most significant first. */
  function NatToString(n: nat): (s: string)
    ensures |s| >= 1 && AllDigits(s)
    decreases n
  {
    if n < 10 then [Digit(n)] else NatToString(n / 10) + [Digit(n % 10)]
  }

  function Digit(d: nat): (c: char)
    requires d < 10
    ensures '0' <= c <= '9' && c as int - '0' as int == d
  {
    (d + '0' as int) as char
  }

  /** `Long.toString`: an optional minus sign and the decimal digits. */
  function LongToString(x: int): (s: string)
    ensures |s| >= 1
  {
    if x < 0 then "-" + NatToString(-x) else NatToString(x)
  }

  /** Reads a run of decimal digits back as a number. */
  function ParseDigits(s: string): (n: nat)
    requires AllDigits(s)
  {
    if s == [] then 0
    else 10 * ParseDigits(s[..|s| - 1]) + (s[|s| - 1] as int - '0' as int)
  }

  /** `Long.parseLong` on what `Long.toString` produced. */
  function ParseLong(s: string): Option<int> {
    if |s| >= 2 && s[0] == '-' && AllDigits(s[1..]) then
      var magnitude: int := ParseDigits(s[1..]);
      Some(-magnitude)
    else if |s| >= 1 && AllDigits(s) then
      Some(ParseDigits(s))
    else None
  }

  lemma {:induction false} NatToStringRoundTrip(n: nat)
    ensures ParseDigits(NatToString(n)) == n
    decreases n
  {
    if n >= 10 {
      var s := NatToString(n);
      assert s[..|s| - 1] == NatToString(n / 10);
      NatToStringRoundTrip(n / 10);
    }
  }

  /** The decimal rendering of a `long` reads back as the same number. */
  lemma LongToStringRoundTrip(x: int)
    ensures ParseLong(LongToString(x)) == Some(x)
  {
    if x < 0 {
      var digits := NatToString(-x);
      var s := "-" + digits;
      assert s[1..] == digits;
      NatToStringRoundTrip(-x);
    } else {
      var s := NatToString(x);
      assert s[0] != '-';
      NatToStringRoundTrip(x);
    }
  }
}
