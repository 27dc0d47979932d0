/** What travels on the Redis stream: the text fields that `publishOnce` writes,
    how `decodeValues` reads them back, and how the worker classifies the result. */
module Codec {
  import opened Prelude
  import Calendar

  // ---- Instants. An instant is a number of nanoseconds since the start of year 0, UTC.

  const NS_PER_MS := 1_000_000
  const NS_PER_DAY := 86_400_000_000_000

  function TruncateMs(t: int): int {
    t - t % NS_PER_MS
  }

  function Digit(n: int): char
    requires 0 <= n < 10
  {
    (n + 48) as char
  }

  predicate IsDigit(c: char) {
    48 <= c as int < 58
  }

  function DigitValue(c: char): int
    requires IsDigit(c)
  {
    c as int - 48
  }

  function Two(n: int): string
    requires 0 <= n < 100
  {
    [Digit(n / 10), Digit(n % 10)]
  }

  function Decimal(n: nat): string {
    if n < 10 then [Digit(n)] else Decimal(n / 10) + [Digit(n % 10)]
  }

  /** A year padded to at least four digits, with a sign when it is negative. */
  function YearText(y: int): string {
    if 0 <= y < 10000 then Two(y / 100) + Two(y % 100)
    else if y < 0 then "-" + (if y > -10000 then Two(-y / 100) + Two(-y % 100) else Decimal(-y))
    else Decimal(y)
  }

  function DateText(d: Calendar.Date): string
    requires Calendar.ValidDate(d)
  {
    YearText(d.year) + "-" + Two(d.month) + "-" + Two(d.day)
  }

  /** The time of day at nanosecond `n`, its fraction cut to three digits. */
  function ClockText(n: int): string
    requires 0 <= n < NS_PER_DAY
  {
    var ms := n / NS_PER_MS;
    var s := ms / 1000;
    "T" + Two(s / 3600) + ":" + Two(s / 60 % 60) + ":" + Two(s % 60)
    + "." + [Digit(ms % 1000 / 100)] + Two(ms % 100) + "Z"
  }

  function DayAndClockText(day: int, n: int): string
    requires 0 <= n < NS_PER_DAY
  {
    DateText(Calendar.DateOf(day)) + ClockText(n)
  }

  function TimeText(t: int): string {
    DayAndClockText(t / NS_PER_DAY, t % NS_PER_DAY)
  }

  /** The instant at nanosecond `n` of day `day`, cut to whole milliseconds. */
  function OnDay(day: int, n: int): int {
    day * NS_PER_DAY + n / NS_PER_MS * NS_PER_MS
  }

  predicate TwoDigits(s: string, k: nat) {
    k + 1 < |s| && IsDigit(s[k]) && IsDigit(s[k + 1])
  }

  function TwoAt(s: string, k: nat): int
    requires TwoDigits(s, k)
  {
    10 * DigitValue(s[k]) + DigitValue(s[k + 1])
  }

  /** The shape `YYYY-MM-DDThh:mm:ss.mmmZ` (RFC 3339 section 5.6). */
  predicate TimeShape(s: string) {
    && |s| == 24
    && TwoDigits(s, 0) && TwoDigits(s, 2) && s[4] == '-' && TwoDigits(s, 5) && s[7] == '-' && TwoDigits(s, 8)
    && s[10] == 'T' && TwoDigits(s, 11) && s[13] == ':' && TwoDigits(s, 14) && s[16] == ':' && TwoDigits(s, 17)
    && s[19] == '.' && IsDigit(s[20]) && TwoDigits(s, 21) && s[23] == 'Z'
  }

  function ShapeDate(s: string): Calendar.Date
    requires TimeShape(s)
  {
    Calendar.Date(100 * TwoAt(s, 0) + TwoAt(s, 2), TwoAt(s, 5), TwoAt(s, 8))
  }

  function ShapeClock(s: string): int
    requires TimeShape(s)
  {
    (3600 * TwoAt(s, 11) + 60 * TwoAt(s, 14) + TwoAt(s, 17)) * 1000 + 100 * DigitValue(s[20]) + TwoAt(s, 21)
  }

  function ParseTime(s: string): Option<int> {
    if !TimeShape(s) then None
    else if !Calendar.ValidDate(ShapeDate(s)) then None
    else if TwoAt(s, 11) >= 24 || TwoAt(s, 14) >= 60 || TwoAt(s, 17) >= 60 then None
    else Some(Calendar.DayNumber(ShapeDate(s)) * NS_PER_DAY + ShapeClock(s) * NS_PER_MS)
  }

  /** Instants whose UTC year is written with exactly four digits. */
  predicate FourDigitYear(t: int) {
    0 <= t < Calendar.DaysBeforeYear(10000) * NS_PER_DAY
  }

  lemma {:induction false} YearRange(t: int)
    ensures FourDigitYear(t) <==> 0 <= Calendar.YearOf(t / NS_PER_DAY) < 10000
  {
    var y := Calendar.YearOf(t / NS_PER_DAY);
    if y < 0 {
      Calendar.YearsAscend(y + 1, 0);
    } else if y < 10000 {
      Calendar.YearsAscend(0, y);
      Calendar.YearsAscend(y + 1, 10000);
    } else {
      Calendar.YearsAscend(10000, y);
    }
  }

  lemma {:induction false} DecimalLength(n: nat)
    requires n >= 10000
    ensures |Decimal(n)| >= 5
  {
    assert |Decimal(n / 10)| >= 4 by {
      assert |Decimal(n / 10 / 10)| >= 3 by {
        assert |Decimal(n / 10 / 10 / 10)| >= 2;
      }
    }
  }

  lemma {:induction false} YearTextLength(y: int)
    ensures |YearText(y)| == 4 <==> 0 <= y < 10000
    ensures |YearText(y)| >= 4
  {
    if y >= 10000 {
      DecimalLength(y);
    } else if y <= -10000 {
      DecimalLength(-y);
    }
  }

  lemma {:induction false} TwoRoundTrip(n: int)
    requires 0 <= n < 100
    ensures TwoDigits(Two(n), 0) && TwoAt(Two(n), 0) == n
  {
  }

  /** Two digits standing at position `k` of a longer text read as their number. */
  lemma {:induction false} TwoInside(s: string, k: nat, n: int)
    requires 0 <= n < 100 && k + 2 <= |s| && s[k..k + 2] == Two(n)
    ensures TwoDigits(s, k) && TwoAt(s, k) == n
  {
    TwoRoundTrip(n);
    assert s[k] == s[k..k + 2][0] && s[k + 1] == s[k..k + 2][1];
  }

  /** The parts of the clock text recombine to the truncated time of day. */
  lemma {:induction false} ClockParts(n: int)
    requires 0 <= n < NS_PER_DAY
    ensures var ms := n / NS_PER_MS;
      var s := ms / 1000;
      && 0 <= s / 3600 < 24 && 0 <= s / 60 % 60 < 60 && 0 <= s % 60 < 60
      && (3600 * (s / 3600) + 60 * (s / 60 % 60) + s % 60) * 1000 + 100 * (ms % 1000 / 100) + ms % 100 == ms
  {
    var ms := n / NS_PER_MS;
    var s := ms / 1000;
    assert s / 3600 == s / 60 / 60;
    assert ms % 100 == ms % 1000 % 100;
  }

  lemma {:induction false} DateTextShape(d: Calendar.Date, s: string)
    requires Calendar.ValidDate(d) && 0 <= d.year < 10000
    requires |s| >= 10 && s[..10] == DateText(d)
    ensures TwoDigits(s, 0) && TwoDigits(s, 2) && TwoDigits(s, 5) && TwoDigits(s, 8)
    ensures s[4] == '-' && s[7] == '-'
    ensures Calendar.Date(100 * TwoAt(s, 0) + TwoAt(s, 2), TwoAt(s, 5), TwoAt(s, 8)) == d
  {
    assert forall k :: 0 <= k < 10 ==> s[k] == DateText(d)[k];
    TwoInside(s, 0, d.year / 100);
    TwoInside(s, 2, d.year % 100);
    TwoInside(s, 5, d.month);
    TwoInside(s, 8, d.day);
  }

  lemma {:induction false} ClockTextShape(n: int, s: string)
    requires 0 <= n < NS_PER_DAY
    requires |s| == 24 && s[10..] == ClockText(n)
    ensures TwoDigits(s, 11) && TwoDigits(s, 14) && TwoDigits(s, 17) && IsDigit(s[20]) && TwoDigits(s, 21)
    ensures s[10] == 'T' && s[13] == ':' && s[16] == ':' && s[19] == '.' && s[23] == 'Z'
    ensures TwoAt(s, 11) < 24 && TwoAt(s, 14) < 60 && TwoAt(s, 17) < 60
    ensures (3600 * TwoAt(s, 11) + 60 * TwoAt(s, 14) + TwoAt(s, 17)) * 1000 + 100 * DigitValue(s[20]) + TwoAt(s, 21)
         == n / NS_PER_MS
  {
    ClockParts(n);
    var ms := n / NS_PER_MS;
    var b := ClockText(n);
    assert forall k :: 0 <= k < 14 ==> s[10 + k] == b[k];
    TwoInside(s, 11, ms / 1000 / 3600);
    TwoInside(s, 14, ms / 1000 / 60 % 60);
    TwoInside(s, 17, ms / 1000 % 60);
    TwoInside(s, 21, ms % 100);
    assert s[20] == Digit(ms % 1000 / 100);
  }

  lemma {:induction false} DateYear(n: int)
    ensures Calendar.DateOf(n).year == Calendar.YearOf(n)
  {
  }

  lemma {:induction false} SplitDay(t: int)
    ensures OnDay(t / NS_PER_DAY, t % NS_PER_DAY) == TruncateMs(t)
  {
    var q, r := t / NS_PER_DAY, t % NS_PER_DAY;
    QuotientAndRest(t, NS_PER_MS, q * 86_400_000 + r / NS_PER_MS, r % NS_PER_MS);
  }

  lemma {:induction false} LongYearRefused(t: int)
    requires !FourDigitYear(t)
    ensures ParseTime(TimeText(t)) == None
  {
    YearRange(t);
    DateYear(t / NS_PER_DAY);
    TextLengths(Calendar.DateOf(t / NS_PER_DAY), t % NS_PER_DAY);
    assert |TimeText(t)| > 24;
  }

  lemma {:induction false} ShapeRead(s: string, d: Calendar.Date, ms: int)
    requires TimeShape(s) && ShapeDate(s) == d && Calendar.ValidDate(d) && ShapeClock(s) == ms
    requires TwoAt(s, 11) < 24 && TwoAt(s, 14) < 60 && TwoAt(s, 17) < 60
    ensures ParseTime(s) == Some(Calendar.DayNumber(d) * NS_PER_DAY + ms * NS_PER_MS)
  {
  }

  lemma {:induction false} PartsShape(d: Calendar.Date, n: int, s: string)
    requires Calendar.ValidDate(d) && 0 <= d.year < 10000 && 0 <= n < NS_PER_DAY
    requires |s| == 24 && s[..10] == DateText(d) && s[10..] == ClockText(n)
    ensures TimeShape(s) && TwoAt(s, 11) < 24 && TwoAt(s, 14) < 60 && TwoAt(s, 17) < 60
    ensures ShapeDate(s) == d && ShapeClock(s) == n / NS_PER_MS
  {
    DateTextShape(d, s);
    ClockTextShape(n, s);
  }

  lemma {:induction false} PartsRead(d: Calendar.Date, n: int, s: string)
    requires Calendar.ValidDate(d) && 0 <= d.year < 10000 && 0 <= n < NS_PER_DAY
    requires |s| == 24 && s[..10] == DateText(d) && s[10..] == ClockText(n)
    ensures ParseTime(s) == Some(OnDay(Calendar.DayNumber(d), n))
  {
    PartsShape(d, n, s);
    ShapeRead(s, d, n / NS_PER_MS);
  }

  lemma {:induction false} TextLengths(d: Calendar.Date, n: int)
    requires Calendar.ValidDate(d) && 0 <= n < NS_PER_DAY
    ensures |DateText(d)| == 10 <==> 0 <= d.year < 10000
    ensures |DateText(d)| >= 10
    ensures |ClockText(n)| == 14
  {
    YearTextLength(d.year);
    ClockParts(n);
  }

  lemma {:induction false} PartsJoinedRead(d: Calendar.Date, n: int)
    requires Calendar.ValidDate(d) && 0 <= d.year < 10000 && 0 <= n < NS_PER_DAY
    ensures ParseTime(DateText(d) + ClockText(n)) == Some(OnDay(Calendar.DayNumber(d), n))
  {
    TextLengths(d, n);
    var a, b := DateText(d), ClockText(n);
    assert (a + b)[..10] == a && (a + b)[10..] == b;
    PartsRead(d, n, a + b);
  }

  lemma {:induction false} DayAndClockRead(day: int, n: int)
    requires 0 <= Calendar.YearOf(day) < 10000 && 0 <= n < NS_PER_DAY
    ensures ParseTime(DayAndClockText(day, n)) == Some(OnDay(day, n))
  {
    DateYear(day);
    PartsJoinedRead(Calendar.DateOf(day), n);
  }

  lemma {:induction false} ShortYearRead(t: int)
    requires FourDigitYear(t)
    ensures ParseTime(TimeText(t)) == Some(TruncateMs(t))
  {
    YearRange(t);
    DayAndClockRead(t / NS_PER_DAY, t % NS_PER_DAY);
    SplitDay(t);
  }

  /** Reading a written timestamp gives the instant cut to whole milliseconds,
      exactly when the UTC year has four digits; otherwise it does not parse. */
  lemma {:induction false} TimeRoundTrip(t: int)
    ensures ParseTime(TimeText(t)) == if FourDigitYear(t) then Some(TruncateMs(t)) else None
  {
    if FourDigitYear(t) {
      ShortYearRead(t);
    } else {
      LongYearRefused(t);
    }
  }

  /** The number that two decimal digits at position `k` write. */
  function Pair(s: string, k: nat): int
    requires k + 1 < |s|
  {
    10 * (s[k] as int - 48) + (s[k + 1] as int - 48)
  }

  lemma {:induction false} PairOfTwo(s: string, k: nat, n: int)
    requires 0 <= n < 100 && k + 2 <= |s| && s[k..k + 2] == Two(n)
    ensures Pair(s, k) == n
  {
    assert s[k] == s[k..k + 2][0] && s[k + 1] == s[k..k + 2][1];
  }

  lemma {:induction false} DatePairs(d: Calendar.Date, s: string)
    requires Calendar.ValidDate(d) && 0 <= d.year < 10000
    requires |s| >= 10 && s[..10] == DateText(d)
    ensures Calendar.Date(100 * Pair(s, 0) + Pair(s, 2), Pair(s, 5), Pair(s, 8)) == d
  {
    assert forall k :: 0 <= k < 10 ==> s[k] == DateText(d)[k];
    PairOfTwo(s, 0, d.year / 100);
    PairOfTwo(s, 2, d.year % 100);
    PairOfTwo(s, 5, d.month);
    PairOfTwo(s, 8, d.day);
  }

  lemma {:induction false} UnitsOfDay(n: int)
    ensures n / NS_PER_MS / 1000 == n / 1_000_000_000
  {
  }

  lemma {:induction false} ClockSlices(n: int)
    requires 0 <= n < NS_PER_DAY
    ensures var s, b := n / NS_PER_MS / 1000, ClockText(n);
      && |b| == 14 && 0 <= s / 3600 < 24
      && b[1..3] == Two(s / 3600) && b[4..6] == Two(s / 60 % 60) && b[7..9] == Two(s % 60)
      && b[10] == Digit(n / NS_PER_MS % 1000 / 100) && b[11..13] == Two(n / NS_PER_MS % 100)
  {
    ClockParts(n);
  }

  lemma {:induction false} ClockPairs(n: int, s: string)
    requires 0 <= n < NS_PER_DAY && |s| == 24 && s[10..] == ClockText(n)
    ensures Pair(s, 11) == n / 1_000_000_000 / 3600 && Pair(s, 14) == n / 1_000_000_000 / 60 % 60
    ensures Pair(s, 17) == n / 1_000_000_000 % 60
    ensures 100 * (s[20] as int - 48) + Pair(s, 21) == n / 1_000_000 % 1000
  {
    ClockSlices(n);
    UnitsOfDay(n);
    var b, sec := ClockText(n), n / NS_PER_MS / 1000;
    assert s[11..13] == b[1..3] && s[14..16] == b[4..6] && s[17..19] == b[7..9] && s[21..23] == b[11..13];
    PairOfTwo(s, 11, sec / 3600);
    PairOfTwo(s, 14, sec / 60 % 60);
    PairOfTwo(s, 17, sec % 60);
    PairOfTwo(s, 21, n / NS_PER_MS % 100);
    assert s[20] == b[10];
    Hundreds(n / NS_PER_MS);
  }

  lemma {:induction false} Hundreds(ms: int)
    ensures 0 <= ms % 1000 / 100 < 10 && 100 * (ms % 1000 / 100) + ms % 100 == ms % 1000
  {
    assert ms % 100 == ms % 1000 % 100;
  }

  /** The marks between the digits of a written timestamp (section 5.6 of RFC 3339). */
  lemma {:induction false} WrittenMarks(t: int)
    requires FourDigitYear(t)
    ensures var s := TimeText(t);
      |s| == 24 && s[4] == s[7] == '-' && s[10] == 'T' && s[13] == s[16] == ':' && s[19] == '.' && s[23] == 'Z'
  {
    TimeRoundTrip(t);
    assert TimeShape(TimeText(t));
  }

  /** What stands where in a written timestamp: year, month and day of the instant's date, then
      hour, minute, second and millisecond of its day, digit by digit. */
  lemma {:induction false} WrittenForm(t: int)
    requires FourDigitYear(t)
    ensures var s, n := TimeText(t), t % 86_400_000_000_000;
      && |s| == 24
      && var d := Calendar.Date(100 * Pair(s, 0) + Pair(s, 2), Pair(s, 5), Pair(s, 8));
      && Calendar.ValidDate(d) && Calendar.DayNumber(d) == t / 86_400_000_000_000
      && Pair(s, 11) == n / 1_000_000_000 / 3600 && Pair(s, 14) == n / 1_000_000_000 / 60 % 60
      && Pair(s, 17) == n / 1_000_000_000 % 60
      && 100 * (s[20] as int - 48) + Pair(s, 21) == n / 1_000_000 % 1000
  {
    var day, n := t / NS_PER_DAY, t % NS_PER_DAY;
    YearRange(t);
    DateYear(day);
    TextLengths(Calendar.DateOf(day), n);
    var s := TimeText(t);
    assert s[..10] == DateText(Calendar.DateOf(day)) && s[10..] == ClockText(n);
    DatePairs(Calendar.DateOf(day), s);
    ClockPairs(n, s);
  }

  /** Truncation loses nothing that the text holds: writing the read instant again gives the same text. */
  lemma {:induction false} TimeTextOfTruncated(t: int)
    ensures TimeText(TruncateMs(t)) == TimeText(t)
    ensures TruncateMs(TruncateMs(t)) == TruncateMs(t)
    ensures TruncateMs(t) % 1_000_000 == 0 && 0 <= t - TruncateMs(t) < 1_000_000
  {
    SplitDay(t);
    var q, m := t / NS_PER_DAY, t % NS_PER_DAY / NS_PER_MS;
    QuotientAndRest(TruncateMs(t), NS_PER_DAY, q, m * NS_PER_MS);
    QuotientAndRest(m * NS_PER_MS, NS_PER_MS, m, 0);
    QuotientAndRest(TruncateMs(t), NS_PER_MS, t / NS_PER_MS, 0);
  }

  /** A year-10000 instant shows that the round trip does fail: its own text is refused. */
  lemma {:induction false} FiveDigitYearRefused()
    ensures var t := Calendar.DaysBeforeYear(10000) * NS_PER_DAY;
      ParseTime(TimeText(t)) == None && ParseTime(TimeText(t - 1)).Some?
  {
    TimeRoundTrip(Calendar.DaysBeforeYear(10000) * NS_PER_DAY);
    TimeRoundTrip(Calendar.DaysBeforeYear(10000) * NS_PER_DAY - 1);
  }

  // ---- UUIDs as 32 hexadecimal digits.

  type Nibble = n: int | 0 <= n < 16

  datatype RawUuid = RawUuid(digits: seq<Nibble>)

  type Uuid = u: RawUuid | |u.digits| == 32 witness RawUuid(seq(32, _ => 0))

  function HexChar(n: Nibble): char {
    if n < 10 then (n + 48) as char else (n + 87) as char
  }

  predicate IsHex(c: char) {
    48 <= c as int < 58 || 65 <= c as int < 71 || 97 <= c as int < 103
  }

  function HexValue(c: char): Nibble
    requires IsHex(c)
  {
    var n := c as int;
    if n < 58 then n - 48 else if n < 71 then n - 55 else n - 87
  }

  predicate IsDash(k: nat) {
    k == 8 || k == 13 || k == 18 || k == 23
  }

  function DashesBefore(k: nat): nat {
    if k <= 8 then 0 else if k <= 13 then 1 else if k <= 18 then 2 else if k <= 23 then 3 else 4
  }

  /** The position in the text of hexadecimal digit `i`. */
  function Position(i: nat): nat {
    if i < 8 then i else if i < 12 then i + 1 else if i < 16 then i + 2 else if i < 20 then i + 3 else i + 4
  }

  function UuidText(u: Uuid): string {
    seq(36, k requires 0 <= k < 36 => if IsDash(k) then '-' else HexChar(u.digits[k - DashesBefore(k)]))
  }

  predicate UuidShape(s: string) {
    && |s| == 36
    && s[8] == '-' && s[13] == '-' && s[18] == '-' && s[23] == '-'
    && forall i :: 0 <= i < 32 ==> IsHex(s[Position(i)])
  }

  function ParseUuid(s: string): Option<Uuid> {
    if UuidShape(s)
    then Some(RawUuid(seq(32, i requires 0 <= i < 32 => HexValue(s[Position(i)]))))
    else None
  }

  lemma {:induction false} UuidRoundTrip(u: Uuid)
    ensures ParseUuid(UuidText(u)) == Some(u)
  {
    var s := UuidText(u);
    forall i | 0 <= i < 32
      ensures IsHex(s[Position(i)]) && HexValue(s[Position(i)]) == u.digits[i]
    {
      var k := Position(i);
      assert !IsDash(k) && k - DashesBefore(k) == i;
      assert s[k] == HexChar(u.digits[i]);
    }
    assert ParseUuid(s).value.digits == u.digits;
  }

  /** What stands where in the text of an id: its digits in order, in lower case, with a dash after the
      eighth, twelfth, sixteenth and twentieth (section 3 of RFC 4122). */
  lemma {:induction false} UuidForm(u: Uuid, i: nat)
    requires i < 32
    ensures var s := UuidText(u);
      && |s| == 36 && s[8] == s[13] == s[18] == s[23] == '-'
      && s[i + (if i < 8 then 0 else if i < 12 then 1 else if i < 16 then 2 else if i < 20 then 3 else 4)] ==
           "0123456789abcdef"[u.digits[i]]
  {
    var k := Position(i);
    assert !IsDash(k) && k - DashesBefore(k) == i;
    assert UuidText(u)[k] == HexChar(u.digits[i]);
    HexDigit(u.digits[i]);
  }

  lemma {:induction false} HexDigit(n: Nibble)
    ensures HexChar(n) == "0123456789abcdef"[n]
  {
    match n {
      case 0 => case 1 => case 2 => case 3 => case 4 => case 5 => case 6 => case 7 =>
      case 8 => case 9 => case 10 => case 11 => case 12 => case 13 => case 14 => case 15 =>
    }
  }

  // ---- Events.

  datatype Event = Event(kind: string, tradeId: string, userId: string, sessionId: string, occurredAt: int)

  const TRADE_OPENED := "trade.opened"
  const TRADE_CLOSED := "trade.closed"
  const OVERTRADING_DETECTED := "overtrading.detected"

  /** The values of one stream entry. */
  type Fields = map<string, string>

  function Encode(ev: Event): Fields {
    map["type" := ev.kind, "tradeId" := ev.tradeId, "userId" := ev.userId,
        "sessionId" := ev.sessionId, "occurredAt" := TimeText(ev.occurredAt)]
  }

  function Get(v: Fields, k: string): string {
    if k in v then v[k] else ""
  }

  function Decode(v: Fields): Option<Event> {
    match ParseTime(Get(v, "occurredAt"))
    case None => None
    case Some(t) => Some(Event(Get(v, "type"), Get(v, "tradeId"), Get(v, "userId"), Get(v, "sessionId"), t))
  }

  lemma {:induction false} EventRoundTrip(ev: Event)
    ensures Decode(Encode(ev)) ==
      if FourDigitYear(ev.occurredAt) then Some(ev.(occurredAt := TruncateMs(ev.occurredAt))) else None
  {
    TimeRoundTrip(ev.occurredAt);
    KeysDiffer();
  }

  lemma {:induction false} KeysDiffer()
    ensures "type" != "tradeId" && "type" != "userId" && "type" != "sessionId" && "type" != "occurredAt"
    ensures "tradeId" != "userId" && "tradeId" != "sessionId" && "tradeId" != "occurredAt"
    ensures "userId" != "sessionId" && "userId" != "occurredAt" && "sessionId" != "occurredAt"
  {
    assert "type"[0] == 't' && "type"[1] == 'y' && "tradeId"[1] == 'r' && "userId"[0] == 'u';
    assert "sessionId"[0] == 's' && "occurredAt"[0] == 'o';
  }

  /** What was decoded encodes to an entry that decodes to the same event: decoding is idempotent. */
  lemma {:induction false} ReencodeIsIdentity(ev: Event, back: Event)
    requires Decode(Encode(ev)) == Some(back)
    ensures Encode(back) == Encode(ev) && Decode(Encode(back)) == Some(back)
  {
    EventRoundTrip(ev);
    TimeTextOfTruncated(ev.occurredAt);
  }

  // ---- Classification: what `decodeValues` and the type switch of `process` make of an entry.

  datatype Payload =
    | Undecodable
    | Malformed
    | Opened(trade: Uuid, user: Uuid, at: int)
    | Closed(trade: Uuid, user: Uuid, session: Uuid)
    | Notice

  function Classify(v: Fields): Payload {
    match Decode(v)
    case None => Undecodable
    case Some(ev) => ClassifyEvent(ev)
  }

  function ClassifyEvent(ev: Event): Payload {
    if ev.kind == TRADE_OPENED then
      match (ParseUuid(ev.tradeId), ParseUuid(ev.userId))
      case (Some(t), Some(u)) => Opened(t, u, ev.occurredAt)
      case _ => Malformed
    else if ev.kind == TRADE_CLOSED then
      match (ParseUuid(ev.tradeId), ParseUuid(ev.userId), ParseUuid(ev.sessionId))
      case (Some(t), Some(u), Some(s)) => Closed(t, u, s)
      case _ => Malformed
    else if ev.kind == OVERTRADING_DETECTED then Notice
    else Malformed
  }

  lemma {:induction false} KindsDiffer()
    ensures TRADE_OPENED != TRADE_CLOSED && TRADE_OPENED != OVERTRADING_DETECTED && TRADE_CLOSED != OVERTRADING_DETECTED
  {
    assert TRADE_OPENED[6] == 'o' && TRADE_CLOSED[6] == 'c' && OVERTRADING_DETECTED[0] == 'o';
  }
}
