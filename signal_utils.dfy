// Black Signal: the helpers of utils.ts — clamping, the mm:ss clock and the
// suffix choice of the number formatter.

module SignalUtils {
  import opened Wrappers
  import opened Num
  import opened Text

  /** `clamp(value, min, max)` = max(min, min(max, value)). */
  function Clamp(value: real, min: real, max: real): (r: real)
    ensures min <= max ==> min <= r <= max
    ensures min <= value <= max ==> r == value
    ensures value < min ==> r == min
    ensures min <= max && max < value ==> r == max
  {
    Max(min, Min(max, value))
  }

  /** The whole seconds `formatTime` shows: the floor, with negatives as 0. */
  function WholeSeconds(seconds: real): (whole: nat)
    ensures seconds >= 0.0 ==> whole as real <= seconds < whole as real + 1.0
    ensures seconds < 0.0 ==> whole == 0
  {
    if seconds.Floor < 0 then 0 else seconds.Floor
  }

  /** Reads a clock back: digits, a colon and exactly two digits give the
      minutes and seconds they spell. */
  function ParseClock(r: string): Option<(nat, nat)> {
    if |r| >= 5 && r[|r| - 3] == ':' && AllDigits(r[..|r| - 3]) && AllDigits(r[|r| - 2..])
    then Some((DigitsValue(r[..|r| - 3]), DigitsValue(r[|r| - 2..])))
    else None
  }

  /** `formatTime`: "mm:ss" with the minutes zero-padded to at least two
      digits and the seconds to exactly two, so the colon is always third
      from the end, and under 100 minutes the clock is five characters. */
  function FormatTime(seconds: real): (r: string)
    ensures |r| >= 5 && r[|r| - 3] == ':'
    ensures WholeSeconds(seconds) < 6000 ==> |r| == 5
  {
    var whole := WholeSeconds(seconds);
    PaddedNumber(whole / 60);
    PaddedNumber(whole % 60);
    Pad2(whole / 60) + ":" + Pad2(whole % 60)
  }

  /** Reading a formatted time back gives the whole minutes and the seconds
      left over. */
  lemma FormatTimeReadsBack(seconds: real)
    ensures ParseClock(FormatTime(seconds)) == Some((WholeSeconds(seconds) / 60, WholeSeconds(seconds) % 60))
  {
    var whole := WholeSeconds(seconds);
    var minutes, secs := whole / 60, whole % 60;
    PaddedNumber(minutes);
    PaddedNumber(secs);
    ClockJoin(Pad2(minutes), Pad2(secs), minutes, secs);
  }

  /** `String(n).padStart(2, "0")`, spelled out digit by digit. */
  function Pad2(n: nat): string {
    if n < 10 then ['0', DigitChar(n)] else Decimal(n)
  }

  /** The decimal digits of `n`, most significant first. */
  function Decimal(n: nat): string
    decreases n
  {
    if n < 10 then [DigitChar(n)] else Decimal(n / 10) + [DigitChar(n % 10)]
  }

  lemma {:induction false} DecimalIsNatToString(n: nat)
    ensures Decimal(n) == NatToString(n)
    decreases n
  {
    if n >= 10 {
      DecimalIsNatToString(n / 10);
    }
  }

  /** A number padded to two places is a digit string of its value. */
  lemma PaddedNumber(n: nat)
    ensures AllDigits(Pad2(n)) && |Pad2(n)| >= 2 && DigitsValue(Pad2(n)) == n
    ensures n < 100 ==> |Pad2(n)| == 2
  {
    DecimalIsNatToString(n);
    assert Pad2(n) == PadStart(NatToString(n), 2, '0');
    PadStartZerosKeepsValue(NatToString(n), 2);
    DigitsValueOfNatToString(n);
    if n < 100 {
      TwoDigitsAtMost(n);
    }
  }

  /** Minutes of two digits or more, a colon and two digits of seconds read
      back as those minutes and seconds. */
  lemma ClockJoin(a: string, b: string, minutes: nat, secs: nat)
    requires AllDigits(a) && |a| >= 2 && DigitsValue(a) == minutes
    requires AllDigits(b) && |b| == 2 && DigitsValue(b) == secs
    ensures |a + ":" + b| >= 5 && ParseClock(a + ":" + b) == Some((minutes, secs))
  {
    ColonJoin(a, b);
  }

  lemma ColonJoin(a: string, b: string)
    requires |b| == 2
    ensures var r := a + ":" + b;
      |r| == |a| + 3 && r[|r| - 3] == ':' && r[..|r| - 3] == a && r[|r| - 2..] == b
  {
  }

  lemma TwoDigitsAtMost(n: nat)
    requires n < 100
    ensures |NatToString(n)| <= 2 && |PadStart(NatToString(n), 2, '0')| == 2
  {
    if n >= 10 {
      assert NatToString(n) == NatToString(n / 10) + [DigitChar(n % 10)];
    }
  }

  const Suffixes: seq<string> := ["K", "M", "B", "T"]

  /** What `formatNumber` prints, before the fixed-point rendering: the value
      itself below 1000, otherwise a sign, a scaled magnitude and a suffix;
      the digit count after the point is 0 from 100 upwards and 1 below. */
  datatype FormattedNumber =
    | Plain(value: real, decimals: nat)
    | Suffixed(sign: string, magnitude: real, decimals: nat, suffix: string)

  /** `formatNumber`'s suffix choice: divide the magnitude by 1000 while it is
      at least 1000, at most four times, and name the number of divisions. */
  method FormatNumber(value: real) returns (r: FormattedNumber)
    ensures var abs := if value < 0.0 then -value else value;
      && (abs < 1000.0 <==> r.Plain?)
      && (r.Plain? ==> r.value == value && r.decimals == if abs >= 100.0 then 0 else 1)
      && (r.Suffixed? ==>
            exists idx :: 0 <= idx < 4 && r.suffix == Suffixes[idx]
              && r.magnitude * Pow(1000.0, idx + 1) == abs
              && 1.0 <= r.magnitude
              && (r.magnitude < 1000.0 || idx == 3)
              && r.sign == (if value < 0.0 then "-" else "")
              && r.decimals == if r.magnitude >= 100.0 then 0 else 1)
  {
    var abs := if value < 0.0 then -value else value;
    if abs < 1000.0 {
      return Plain(value, if abs >= 100.0 then 0 else 1);
    }
    var current := abs;
    var idx := -1;
    while current >= 1000.0 && idx < |Suffixes| - 1
      invariant -1 <= idx <= 3
      invariant current * Pow(1000.0, idx + 1) == abs
      invariant idx == -1 ==> current == abs
      invariant idx >= 0 ==> current >= 1.0
      decreases 3 - idx
    {
      assert Pow(1000.0, idx + 2) == 1000.0 * Pow(1000.0, idx + 1);
      current := current / 1000.0;
      idx := idx + 1;
    }
    var sign := if value < 0.0 then "-" else "";
    r := Suffixed(sign, current, if current >= 100.0 then 0 else 1, Suffixes[idx]);
  }
}
