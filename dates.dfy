/**
 * Calendar dates as the ledger wizard and report pass them: formatted with
 * `strftime("%Y-%m-%d")` / `str(date)` and read back with
 * `datetime.strptime(s, "%Y-%m-%d").date()`.
 */
module Dates {
  import opened Common
  import opened Text

  datatype Date = Date(year: int, month: int, day: int)

  predicate IsLeap(y: int) {
    (y % 4 == 0 && y % 100 != 0) || y % 400 == 0
  }

  function DaysInMonth(y: int, m: int): int
    requires 1 <= m <= 12
  {
    if m == 2 then (if IsLeap(y) then 29 else 28)
    else if m == 4 || m == 6 || m == 9 || m == 11 then 30
    else 31
  }

  /** A date Python's `date(year, month, day)` accepts. */
  predicate Valid(d: Date) {
    1 <= d.year <= 9999 && 1 <= d.month <= 12 && 1 <= d.day <= DaysInMonth(d.year, d.month)
  }

  function Pow10(w: nat): (p: nat)
    ensures p >= 1
  {
    if w == 0 then 1 else 10 * Pow10(w - 1)
  }

  /** The last `w` decimal digits of `n`, zero padded. */
  function Pad(n: nat, w: nat): (r: string)
    ensures |r| == w && forall i :: 0 <= i < w ==> IsDigit(r[i])
  {
    if w == 0 then "" else Pad(n / 10, w - 1) + [DigitChar(n % 10)]
  }

  lemma {:induction false} PadValue(n: nat, w: nat)
    requires n < Pow10(w)
    ensures DigitsValue(Pad(n, w)) == n
  {
    if w > 0 {
      PadValue(n / 10, w - 1);
      var s := Pad(n, w);
      assert s[..|s| - 1] == Pad(n / 10, w - 1);
    }
  }

  /** `date.isoformat()`, also what `strftime("%Y-%m-%d")` writes. */
  function Format(d: Date): (s: string)
    requires Valid(d)
    ensures |s| == 10
  {
    Pad(d.year, 4) + "-" + Pad(d.month, 2) + "-" + Pad(d.day, 2)
  }

  predicate AllDigits(s: string) {
    forall i :: 0 <= i < |s| ==> IsDigit(s[i])
  }

  /**
   * `datetime.strptime(s, "%Y-%m-%d").date()`: a four-digit year, then a
   * month and a day of one or two digits, separated by `-`, naming a real
   * date; anything else raises ValueError (None here).
   */
  function Parse(s: string): (r: Option<Date>)
    ensures r.Some? ==> Valid(r.value)
  {
    var parts := Split(s, '-');
    if |parts| != 3 then None
    else if !(|parts[0]| == 4 && AllDigits(parts[0])) then None
    else if !(1 <= |parts[1]| <= 2 && AllDigits(parts[1])) then None
    else if !(1 <= |parts[2]| <= 2 && AllDigits(parts[2])) then None
    else
      var d := Date(DigitsValue(parts[0]), DigitsValue(parts[1]), DigitsValue(parts[2]));
      if Valid(d) then Some(d) else None
  }

  /** What the wizard writes, the report reads back unchanged. */
  lemma ParseFormat(d: Date)
    requires Valid(d)
    ensures Parse(Format(d)) == Some(d)
  {
    var y, m, dd := Pad(d.year, 4), Pad(d.month, 2), Pad(d.day, 2);
    var parts: seq<string> := [y, m, dd];
    assert Join(parts[2..], '-') == dd;
    assert Join(parts[1..], '-') == m + ['-'] + dd;
    assert Format(d) == Join(parts, '-');
    assert forall i :: 0 <= i < 3 ==> '-' !in parts[i] by {
      assert forall i :: 0 <= i < |y| ==> IsDigit(y[i]);
      assert forall i :: 0 <= i < |m| ==> IsDigit(m[i]);
      assert forall i :: 0 <= i < |dd| ==> IsDigit(dd[i]);
    }
    SplitJoin(parts, '-');
    PadValue(d.year, 4);
    PadValue(d.month, 2);
    PadValue(d.day, 2);
  }

  /** `today.replace(day=1)`: the first day of the same month. */
  function FirstOfMonth(today: Date): (r: Date)
    requires Valid(today)
    ensures Valid(r) && r.year == today.year && r.month == today.month && r.day == 1
  {
    Date(today.year, today.month, 1)
  }
}
