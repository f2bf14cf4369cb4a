/**
 * The full player's seek bar: a range input over `[0, max]`, a filled share for progress and
 * one for the buffered range, and a "current / total" label. A non-positive duration (nothing
 * loaded yet) shows an empty bar over a placeholder range of 100.
 */
module ProgressBar {
  import opened TimeFormat

  /** The placeholder range while no duration is known. */
  const PlaceholderMax: real := 100.0

  datatype BarView = BarView(
    max: real,
    value: real,
    progressPercent: real,
    bufferedPercent: real,
    disabled: bool,
    caption: string)

  /** The quotient of a value inside `[0, d]` by `d` lies in `[0, 1]`. */
  lemma QuotientFacts(x: real, d: real)
    requires d > 0.0
    ensures (x / d) * d == x
    ensures 0.0 <= x <= d ==> 0.0 <= x / d <= 1.0
  {
    var q := x / d;
    assert q * d == x;
  }

  /** `x / d * 100`: the share of `x` in `d`, in percent. */
  function Percent(x: real, d: real): (r: real)
    requires d > 0.0
    ensures r * d == x * 100.0
    ensures 0.0 <= x <= d ==> 0.0 <= r <= 100.0
  {
    QuotientFacts(x, d);
    x / d * 100.0
  }

  /** `formatTime(t) || "0:00"`. */
  function OrZeroClock(s: string): (r: string)
    ensures s != [] ==> r == s
  {
    if s != "" then s else "0:00"
  }

  /** The rendered bar for the given props. */
  function Bar(currentTime: real, duration: real, buffered: real, isLoading: bool): (r: BarView)
    ensures r.disabled == isLoading
    ensures duration > 0.0 ==>
      && r.max == duration && r.value == currentTime
      && r.progressPercent == Percent(currentTime, duration)
      && r.bufferedPercent == Percent(buffered, duration)
    ensures duration <= 0.0 ==>
      r.max == PlaceholderMax && r.value == 0.0 && r.progressPercent == 0.0 && r.bufferedPercent == 0.0
    // the guarded rendering is never empty, so the `|| "0:00"` fallback never applies
    ensures r.caption == FormatTime(Finite(r.value)) + " / " + FormatTime(Finite(duration))
  {
    var known := duration > 0.0;
    var shown := if known then currentTime else 0.0;
    var caption := OrZeroClock(FormatTime(Finite(shown))) + " / " + OrZeroClock(FormatTime(Finite(duration)));
    if known then BarView(duration, shown, Percent(currentTime, duration), Percent(buffered, duration), isLoading, caption)
    else BarView(PlaceholderMax, shown, 0.0, 0.0, isLoading, caption)
  }

  /** A position inside the track gives a thumb inside the range and a fill between 0 and 100 percent. */
  lemma BarWithinRange(currentTime: real, duration: real, buffered: real, isLoading: bool)
    requires 0.0 <= currentTime && 0.0 <= buffered
    requires currentTime <= duration && buffered <= duration
    ensures var r := Bar(currentTime, duration, buffered, isLoading);
      && 0.0 <= r.value <= r.max
      && 0.0 <= r.progressPercent <= 100.0
      && 0.0 <= r.bufferedPercent <= 100.0
  {
  }

  /** At the end of the track the bar is full. */
  lemma BarFullAtEnd(duration: real, isLoading: bool)
    requires duration > 0.0
    ensures Bar(duration, duration, duration, isLoading).progressPercent == 100.0
  {
  }
}
