/**
 * UTC months, UTC instants and the two spellings in which the ledger stores them.
 *
 * A month boundary is stored as `2026-07-01T00:00:00Z` and every other instant
 * with six fractional digits, `2026-07-01T00:00:00.000000Z`.  SQLite compares
 * both as text, so the order of the two spellings is part of the behaviour.
 */
module Calendar {
  import opened Text

  datatype Month = Month(year: int, month: int)

  datatype Stamp = Stamp(
    year: int, month: int, day: int, hour: int, minute: int, second: int, micro: int)

  /** What an `occurred_at_utc` column holds. */
  datatype Instant = Boundary(start: Month) | At(stamp: Stamp)

  predicate ValidMonth(m: Month) {
    1 <= m.year <= 9999 && 1 <= m.month <= 12
  }

  predicate LeapYear(year: int) {
    year % 4 == 0 && (year % 100 != 0 || year % 400 == 0)
  }

  function DaysIn(m: Month): int {
    if m.month == 2 then (if LeapYear(m.year) then 29 else 28)
    else if m.month in {4, 6, 9, 11} then 30
    else 31
  }

  predicate ValidStamp(t: Stamp) {
    && ValidMonth(MonthOf(t))
    && 1 <= t.day <= DaysIn(MonthOf(t))
    && 0 <= t.hour < 24 && 0 <= t.minute < 60 && 0 <= t.second < 60
    && 0 <= t.micro < 1_000_000
  }

  /** A date's month and a timezone-aware datetime in UTC, as Python can represent them. */
  type UtcMonth = m: Month | ValidMonth(m) witness Month(2026, 1)
  type UtcStamp = t: Stamp | ValidStamp(t) witness Stamp(2026, 1, 1, 0, 0, 0, 0)

  /** The last month has no following boundary inside the supported years. */
  const LAST_MONTH := Month(9999, 12)

  function MonthOf(t: Stamp): Month {
    Month(t.year, t.month)
  }

  function Next(m: Month): Month {
    if m.month == 12 then Month(m.year + 1, 1) else Month(m.year, m.month + 1)
  }

  predicate MonthBefore(a: Month, b: Month) {
    a.year < b.year || (a.year == b.year && a.month < b.month)
  }

  function FirstInstant(m: Month): Stamp {
    Stamp(m.year, m.month, 1, 0, 0, 0, 0)
  }

  function InstantStamp(i: Instant): Stamp {
    match i
    case Boundary(m) => FirstInstant(m)
    case At(t) => t
  }

  /** Chronological order of UTC instants, the order of Python's aware datetimes. */
  predicate Before(a: Stamp, b: Stamp) {
    if a.year != b.year then a.year < b.year
    else if a.month != b.month then a.month < b.month
    else if a.day != b.day then a.day < b.day
    else if a.hour != b.hour then a.hour < b.hour
    else if a.minute != b.minute then a.minute < b.minute
    else if a.second != b.second then a.second < b.second
    else a.micro < b.micro
  }

  /** A valid instant's fields as the digits of one number. */
  function Reading(t: Stamp): int {
    (((((t.year * 13 + t.month) * 32 + t.day) * 24 + t.hour) * 60 + t.minute) * 60 + t.second) * 1_000_000 + t.micro
  }

  lemma BeforeCountsUp(a: UtcStamp, b: UtcStamp)
    ensures Before(a, b) <==> Reading(a) < Reading(b)
    ensures !Before(a, b) && !Before(b, a) ==> a == b
  {
  }

  predicate FirstSecond(t: Stamp) {
    t.day == 1 && t.hour == 0 && t.minute == 0 && t.second == 0
  }

  /** The half-open month window of an instant is its own calendar month. */
  lemma MonthWindow(t: Stamp, m: Month)
    requires ValidStamp(t) && ValidMonth(m)
    ensures (!Before(t, FirstInstant(m)) && Before(t, FirstInstant(Next(m)))) <==> MonthOf(t) == m
  {
  }

  // ---- stored spellings -------------------------------------------------

  function Digit(d: int): char
    requires 0 <= d < 10
  {
    (48 + d) as char
  }

  /** Decimal digits of `n`, most significant first, padded to `width`. */
  function Digits(n: int, width: nat): string
    requires 0 <= n
  {
    if width == 0 then "" else Digits(n / 10, width - 1) + [Digit(n % 10)]
  }

  function Pow10(width: nat): nat {
    if width == 0 then 1 else 10 * Pow10(width - 1)
  }

  function BoundaryText(m: Month): string
    requires ValidMonth(m)
  {
    Digits(m.year, 4) + ("-" + (Digits(m.month, 2) + ("-" + (Digits(1, 2) + ("T" +
    (Digits(0, 2) + (":" + (Digits(0, 2) + (":" + (Digits(0, 2) + "Z"))))))))))
  }

  function StampText(t: Stamp): string
    requires ValidStamp(t)
  {
    Digits(t.year, 4) + ("-" + (Digits(t.month, 2) + ("-" + (Digits(t.day, 2) + ("T" +
    (Digits(t.hour, 2) + (":" + (Digits(t.minute, 2) + (":" + (Digits(t.second, 2) +
    ("." + (Digits(t.micro, 6) + "Z"))))))))))))
  }

  function InstantText(i: Instant): string
    requires ValidInstant(i)
  {
    match i
    case Boundary(m) => BoundaryText(m)
    case At(t) => StampText(t)
  }

  predicate ValidInstant(i: Instant) {
    match i
    case Boundary(m) => ValidMonth(m)
    case At(t) => ValidStamp(t)
  }

  /** Equal-width decimal fields compare as numbers before anything behind them. */
  lemma {:induction false} FieldOrder(x: int, y: int, width: nat, a: string, b: string)
    requires 0 <= x < Pow10(width) && 0 <= y < Pow10(width)
    ensures TextBefore(Digits(x, width) + a, Digits(y, width) + b)
       <==> (x < y || (x == y && TextBefore(a, b)))
  {
    if width == 0 {
      assert Digits(x, 0) + a == a && Digits(y, 0) + b == b;
    } else {
      var dx, dy := [Digit(x % 10)], [Digit(y % 10)];
      assert Digits(x, width) + a == Digits(x / 10, width - 1) + (dx + a);
      assert Digits(y, width) + b == Digits(y / 10, width - 1) + (dy + b);
      FieldOrder(x / 10, y / 10, width - 1, dx + a, dy + b);
      assert (dx + a)[1..] == a && (dy + b)[1..] == b;
    }
  }

  lemma SameHead(c: string, a: string, b: string)
    requires |c| == 1
    ensures TextBefore(c + a, c + b) <==> TextBefore(a, b)
  {
    assert (c + a)[1..] == a && (c + b)[1..] == b;
  }

  /** One field and the separator behind it. */
  lemma FieldThenMark(x: int, y: int, width: nat, mark: string, a: string, b: string)
    requires 0 <= x < Pow10(width) && 0 <= y < Pow10(width) && |mark| == 1
    ensures TextBefore(Digits(x, width) + (mark + a), Digits(y, width) + (mark + b))
       <==> (x < y || (x == y && TextBefore(a, b)))
  {
    FieldOrder(x, y, width, mark + a, mark + b);
    SameHead(mark, a, b);
  }

  /**
   * Text order against a month boundary is not chronological: '.' sorts before
   * 'Z', so every instant of the month's first second sorts before its start.
   */
  lemma StampBeforeBoundaryText(t: Stamp, m: Month)
    requires ValidStamp(t) && ValidMonth(m)
    ensures TextBefore(StampText(t), BoundaryText(m))
       <==> (Before(t, FirstInstant(m)) || (MonthOf(t) == m && FirstSecond(t)))
  {
    assert Pow10(2) == 100 && Pow10(4) == 10_000 by {
      assert Pow10(1) == 10;
      assert Pow10(3) == 1_000;
    }
    var a6, b6 := "." + (Digits(t.micro, 6) + "Z"), "Z";
    var a5, b5 := Digits(t.second, 2) + a6, Digits(0, 2) + b6;
    var a4, b4 := Digits(t.minute, 2) + (":" + a5), Digits(0, 2) + (":" + b5);
    var a3, b3 := Digits(t.hour, 2) + (":" + a4), Digits(0, 2) + (":" + b4);
    var a2, b2 := Digits(t.day, 2) + ("T" + a3), Digits(1, 2) + ("T" + b3);
    var a1, b1 := Digits(t.month, 2) + ("-" + a2), Digits(m.month, 2) + ("-" + b2);
    FieldThenMark(t.year, m.year, 4, "-", a1, b1);
    FieldThenMark(t.month, m.month, 2, "-", a2, b2);
    FieldThenMark(t.day, 1, 2, "T", a3, b3);
    FieldThenMark(t.hour, 0, 2, ":", a4, b4);
    FieldThenMark(t.minute, 0, 2, ":", a5, b5);
    FieldOrder(t.second, 0, 2, a6, b6);
    assert TextBefore(a6, b6);
    assert StampText(t) == Digits(t.year, 4) + ("-" + a1);
    assert BoundaryText(m) == Digits(m.year, 4) + ("-" + b1);
  }

  /** Two boundaries, being equally long, do sort chronologically. */
  lemma BoundaryTextOrder(a: Month, b: Month)
    requires ValidMonth(a) && ValidMonth(b)
    ensures TextBefore(BoundaryText(a), BoundaryText(b)) <==> MonthBefore(a, b)
  {
    assert Pow10(2) == 100 && Pow10(4) == 10_000 by {
      assert Pow10(1) == 10;
      assert Pow10(3) == 1_000;
    }
    var rest := "-" + (Digits(1, 2) + ("T" +
      (Digits(0, 2) + (":" + (Digits(0, 2) + (":" + (Digits(0, 2) + "Z")))))));
    var tail := rest[1..];
    assert rest == "-" + tail;
    FieldThenMark(a.year, b.year, 4, "-", Digits(a.month, 2) + rest, Digits(b.month, 2) + rest);
    FieldThenMark(a.month, b.month, 2, "-", tail, tail);
    TextIrreflexive(tail);
  }
}
