/** Value types shared by every part of the gateway: optional values and
    results, Go's fixed-width integers, bytes, time stamps, HTTP status codes
    and the two string helpers the Go code uses everywhere (prefix tests and
    decimal formatting). */
module Basics {

  datatype Option<+T> = None | Some(value: T)

  datatype Result<+T, +E> = Ok(value: T) | Err(error: E)

  /** A byte of a payload or of a digest. */
  type Byte = b: int | 0 <= b < 256

  const MaxUint64: int := 0xFFFF_FFFF_FFFF_FFFF
  const MaxInt64: int := 0x7FFF_FFFF_FFFF_FFFF
  const MinInt64: int := -0x8000_0000_0000_0000
  const TwoTo32: int := 0x1_0000_0000
  const TwoTo64: int := 0x1_0000_0000_0000_0000

  type Uint64 = n: int | 0 <= n <= MaxUint64
  type Int64 = n: int | MinInt64 <= n <= MaxInt64
  type Uint32 = n: int | 0 <= n < TwoTo32

  /** Go's int64(x) conversion of a uint64: two's complement reinterpretation. */
  function ToInt64(x: Uint64): (r: Int64)
    ensures x <= MaxInt64 ==> r == x
    ensures x > MaxInt64 ==> r < 0 && r + TwoTo64 == x
  {
    if x <= MaxInt64 then x else x - TwoTo64
  }

  /** A point in time, as nanoseconds since Go's zero time (January 1, year 1,
      UTC); the zero value of time.Time is 0. */
  type Time = int

  const StatusOK := 200
  const StatusBadRequest := 400
  const StatusForbidden := 403
  const StatusNotFound := 404
  const StatusInternalServerError := 500
  const StatusServiceUnavailable := 503

  /** strings.HasPrefix */
  predicate HasPrefix(s: string, prefix: string) {
    |prefix| <= |s| && s[..|prefix|] == prefix
  }

  function DigitChar(d: nat): (c: char)
    requires d < 10
    ensures '0' <= c <= '9'
  {
    ('0' as int + d) as char
  }

  predicate IsDigit(c: char) {
    '0' <= c <= '9'
  }

  predicate AllDigits(s: string) {
    forall i :: 0 <= i < |s| ==> IsDigit(s[i])
  }

  /** The value of a string of decimal digits, most significant first. */
  function DigitsValue(s: string): nat
    requires AllDigits(s)
  {
    if |s| == 0 then 0
    else DigitsValue(s[..|s| - 1]) * 10 + (s[|s| - 1] as int - '0' as int)
  }

  /** Decimal formatting of a natural number, as Go's %d and strconv.Itoa
      print a non-negative value: no sign, no leading zeros. */
  function Decimal(n: nat): (r: string)
    ensures |r| >= 1 && AllDigits(r)
    ensures |r| > 1 ==> r[0] != '0'
    decreases n
  {
    if n < 10 then [DigitChar(n)] else Decimal(n / 10) + [DigitChar(n % 10)]
  }

  /** Reading the digits back gives the number that was printed. */
  lemma {:induction false} DecimalValue(n: nat)
    ensures DigitsValue(Decimal(n)) == n
    decreases n
  {
    if n >= 10 {
      DecimalValue(n / 10);
      var s := Decimal(n);
      assert s[..|s| - 1] == Decimal(n / 10);
    }
  }

  /** strings.Join with a one-character separator. */
  function JoinWith(parts: seq<string>, sep: char): string
    decreases |parts|
  {
    if |parts| == 0 then ""
    else if |parts| == 1 then parts[0]
    else parts[0] + [sep] + JoinWith(parts[1..], sep)
  }

  /** Each number printed in decimal, joined by `sep` (how storage group
      lists are written in headers and flags). */
  function DecimalList(ns: seq<nat>, sep: char): string {
    JoinWith(seq(|ns|, i requires 0 <= i < |ns| => Decimal(ns[i])), sep)
  }
}
