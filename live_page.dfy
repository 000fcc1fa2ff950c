/** The duration shown for past streams on the live page. Timestamps are
    milliseconds; a missing or empty timestamp is `None`. JavaScript's `%`
    takes the sign of the dividend, which differs from Dafny's `%` for a
    negative difference, so it is written out. */
module LivePage {
  import opened Js
  import opened Text

  const MillisPerHour := 1000 * 60 * 60
  const MillisPerMinute := 1000 * 60

  /** JavaScript's `a % b` for `b > 0`: the remainder of truncating division. */
  function JsRem(a: int, b: int): (r: int)
    requires b > 0
    ensures a >= 0 ==> r == a % b && 0 <= r < b
    ensures a < 0 ==> -b < r <= 0
  {
    if a >= 0 then a % b else -((-a) % b)
  }

  /** `Math.floor(a / b)` for `b > 0`. */
  function FloorDiv(a: int, b: int): (q: int)
    requires b > 0
    ensures q * b <= a < q * b + b
  {
    a / b
  }

  /** The hours and minutes of a difference: `Math.floor(diff / 3600000)`
      and `Math.floor((diff % 3600000) / 60000)`. */
  function Parts(diff: int): (int, int) {
    (FloorDiv(diff, MillisPerHour), FloorDiv(JsRem(diff, MillisPerHour), MillisPerMinute))
  }

  /** `formatDuration(start, end)`: "N/A" without both timestamps, otherwise
      "Hh Mm" from an hour on and "Mm" below. */
  function FormatDuration(start: Option<int>, end: Option<int>): (r: string)
    ensures start.None? || end.None? ==> r == "N/A"
  {
    if start.None? || end.None? then "N/A"
    else
      var (hours, minutes) := Parts(end.value - start.value);
      if hours > 0 then IntToString(hours) + "h " + IntToString(minutes) + "m" else IntToString(minutes) + "m"
  }

  /** For a non-negative difference the parts are the whole hours and the
      whole minutes left over: the minutes are below sixty and together they
      are the whole minutes of the difference, seconds dropped. */
  lemma PartsOfNonNegative(diff: int)
    requires diff >= 0
    ensures var (hours, minutes) := Parts(diff);
      hours >= 0 && 0 <= minutes < 60 && hours * 60 + minutes == diff / MillisPerMinute
  {
    var hours := diff / MillisPerHour;
    var rest := diff % MillisPerHour;
    var minutes := rest / MillisPerMinute;
    var secs := rest % MillisPerMinute;
    assert diff == (hours * 60 + minutes) * MillisPerMinute + secs;
    DivUnique(diff, MillisPerMinute, hours * 60 + minutes, secs);
  }

  /** The quotient and remainder of a division are the only ones. */
  lemma DivUnique(a: int, b: int, q: int, r: int)
    requires b > 0 && a == q * b + r && 0 <= r < b
    ensures a / b == q && a % b == r
  {
    var q', r' := a / b, a % b;
    assert a == q' * b + r';
    if q' > q {
      MulAtLeast(q' - q, b);
    } else if q' < q {
      MulAtLeast(q - q', b);
    }
  }

  lemma MulAtLeast(k: int, b: int)
    requires k >= 1 && b > 0
    ensures k * b >= b
  {
    var i := 1;
    while i < k
      invariant 1 <= i <= k && i * b >= b
    {
      assert (i + 1) * b == i * b + b;
      i := i + 1;
    }
  }

  /** The text for a non-negative difference. */
  lemma FormatNonNegative(start: int, end: int)
    requires end >= start
    ensures var minutes := (end - start) / MillisPerMinute;
      FormatDuration(Some(start), Some(end))
      == if minutes >= 60 then NatToString(minutes / 60) + "h " + NatToString(minutes % 60) + "m"
         else NatToString(minutes) + "m"
  {
    var diff := end - start;
    PartsOfNonNegative(diff);
    var (hours, rest) := Parts(diff);
    DivUnique(diff / MillisPerMinute, 60, hours, rest);
  }

  /** A stream of 59 seconds shows "0m". */
  lemma UnderAMinuteShowsZero(start: int)
    ensures FormatDuration(Some(start), Some(start + 59000)) == "0m"
  {
    FormatNonNegative(start, start + 59000);
  }

  /** A stream that ended before it started shows negative minutes,
      rounded down: one that "lasted" minus ninety seconds shows "-2m". */
  lemma NegativeDifference(start: int)
    ensures FormatDuration(Some(start), Some(start - 90000)) == "-2m"
  {
    assert JsRem(-90000, MillisPerHour) == -90000;
    assert Parts(-90000) == (-1, -2);
  }
}
