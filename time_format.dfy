/**
 * `formatTime`: a number of seconds rendered as minutes, a colon and two-digit seconds. The
 * players use three guards: `isFinite` (the full player, its hooks and the mini player),
 * `!sec || isNaN(sec)` (the trending cards) and none (the legacy player).
 */
module TimeFormat {
  import opened Text

  /** A JavaScript number as far as `formatTime` can tell: a finite value or one of the three non-finite ones. */
  datatype JsNumber = Finite(value: real) | NaN | PosInfinity | NegInfinity

  predicate IsFinite(x: JsNumber) {
    x.Finite?
  }

  /**
   * The integer part of `x`, rounded toward zero, which JavaScript's `%` uses:
   * `x % 60` is `x - 60 * Trunc(x / 60)`. (`Math.floor` is `.Floor`, for either sign.)
   */
  function Trunc(x: real): (n: int)
    ensures x >= 0.0 ==> n == x.Floor
    ensures x < 0.0 ==> n == -((-x).Floor)
  {
    if x >= 0.0 then x.Floor else -((-x).Floor)
  }

  /** JavaScript's `a % 60`: the remainder of truncating division, with the sign of the dividend. */
  function Rem60(a: real): (r: real)
    ensures a >= 0.0 ==> 0.0 <= r < 60.0
    ensures a < 0.0 ==> -60.0 < r <= 0.0
  {
    a - 60.0 * Trunc(a / 60.0) as real
  }

  /** `s.padStart(2, "0")`. */
  function PadStart2(s: string): (r: string)
    ensures |s| >= 2 ==> r == s
    ensures |s| < 2 ==> |r| == 2 && r[2 - |s|..] == s && forall i :: 0 <= i < 2 - |s| ==> r[i] == '0'
  {
    if |s| >= 2 then s else if |s| == 1 then "0" + s else "00"
  }

  /**
   * The rendering of a finite number of seconds: floor of the minutes, a colon, floor of the
   * remainder padded to two. It is never shorter than "0:00", and it starts with a minus sign
   * exactly for a negative time.
   */
  function Clock(t: real): (r: string)
    ensures |r| >= 4
    ensures t < 0.0 <==> r[0] == '-'
  {
    IntToDecimal((t / 60.0).Floor) + ":" + PadStart2(IntToDecimal(Rem60(t).Floor))
  }

  /** The guarded `formatTime`: every non-finite input shows "0:00". */
  function FormatTime(x: JsNumber): (r: string)
    ensures !IsFinite(x) ==> r == "0:00"
    ensures r != []  // so the progress bar's `|| "0:00"` fallback never applies
  {
    if !IsFinite(x) then "0:00" else Clock(x.value)
  }

  /** The trending cards' `formatTime`: 0 and NaN show "0:00"; infinities are rendered. */
  function FormatTimeTrending(x: JsNumber): (r: string)
    ensures x == NaN || x == Finite(0.0) ==> r == "0:00"
  {
    match x
    case Finite(t) => if t == 0.0 then "0:00" else Clock(t)
    case NaN => "0:00"
    case PosInfinity => "Infinity:NaN"
    case NegInfinity => "-Infinity:NaN"
  }

  /** The legacy player's `formatTime`, without a guard. */
  function FormatTimeUnguarded(x: JsNumber): (r: string)
    ensures x.Finite? ==> r == FormatTime(x)
  {
    match x
    case Finite(t) => Clock(t)
    case NaN => "NaN:NaN"
    case PosInfinity => "Infinity:NaN"
    case NegInfinity => "-Infinity:NaN"
  }

  // ---------------------------------------------------------------- properties

  /** The three variants agree on finite input and differ only in what non-finite input shows. */
  lemma VariantsAgreeOnFinite(t: real)
    ensures FormatTimeTrending(Finite(t)) == FormatTime(Finite(t))
    ensures FormatTimeUnguarded(Finite(t)) == FormatTime(Finite(t))
    ensures FormatTimeTrending(NaN) == FormatTime(NaN) != FormatTimeUnguarded(NaN)
    ensures FormatTimeTrending(PosInfinity) != FormatTime(PosInfinity)
  {
    if t == 0.0 {
      assert (0.0 / 60.0).Floor == 0;
      assert Rem60(0.0).Floor == 0;
      assert IntToDecimal(0) == "0";
      assert Clock(0.0) == "0" + ":" + "00";
    }
  }

  /** Seconds below a minute read back from their two-digit rendering. */
  lemma {:induction false} SecondsRoundTrip(n: nat)
    requires n < 60
    ensures var r := PadStart2(NatToDecimal(n));
      |r| == 2 && IsDigit(r[0]) && IsDigit(r[1]) && ParseDecimal(r) == n
  {
    var d := NatToDecimal(n);
    ParseNatToDecimal(n);
    if n < 10 {
      var r := PadStart2(d);
      assert r == ['0', d[0]];
      assert r[..1] == "0";
      assert d[..0] == [];
      assert ParseDecimal(d) == ParseDecimal(d[..0]) * 10 + DigitValue(d[0]);
    } else {
      assert n / 10 < 10;
      assert |d| == |NatToDecimal(n / 10)| + 1;
    }
  }

  /**
   * `r` is minutes `m`, a colon and exactly two digits of seconds below 60, and reading both parts
   * back gives `n` seconds.
   */
  predicate ReadsBackAs(r: string, m: string, n: nat) {
    && (forall i :: 0 <= i < |m| ==> IsDigit(m[i]))
    && |r| == |m| + 3
    && r == m + ":" + r[|m| + 1..]
    && (forall i :: |m| + 1 <= i < |r| ==> IsDigit(r[i]))
    && ParseDecimal(r[|m| + 1..]) < 60
    && ParseDecimal(m) * 60 + ParseDecimal(r[|m| + 1..]) == n
  }

  /**
   * For a non-negative time, the rendering is the decimal whole minutes, a colon and exactly two
   * digits of seconds below 60; reading both parts back gives the whole seconds of the input.
   */
  lemma FormatTimeRoundTrip(t: real)
    requires t >= 0.0
    ensures ReadsBackAs(FormatTime(Finite(t)), NatToDecimal(t.Floor / 60), t.Floor)
  {
    ClockOfWhole(t);
    WholeClockRoundTrip(t.Floor);
  }

  /** The rendering of a non-negative time depends only on its whole seconds. */
  lemma ClockOfWhole(t: real)
    requires t >= 0.0
    ensures FormatTime(Finite(t)) == NatToDecimal(t.Floor / 60) + ":" + PadStart2(NatToDecimal(t.Floor % 60))
  {
    ClockParts(t);
  }

  /** `FormatTimeRoundTrip` for a whole number of seconds `n`. */
  lemma WholeClockRoundTrip(n: nat)
    ensures ReadsBackAs(NatToDecimal(n / 60) + ":" + PadStart2(NatToDecimal(n % 60)), NatToDecimal(n / 60), n)
  {
    var m := NatToDecimal(n / 60);
    var ss := PadStart2(NatToDecimal(n % 60));
    SecondsRoundTrip(n % 60);
    ParseNatToDecimal(n / 60);
    ClockText(m, ss);
    assert ParseDecimal(m) * 60 + ParseDecimal(ss) == (n / 60) * 60 + n % 60 == n;
  }

  /** Minutes, a colon and two digits: the digits are the text after the colon. */
  lemma ClockText(m: string, ss: string)
    requires |ss| == 2 && IsDigit(ss[0]) && IsDigit(ss[1])
    ensures var r := m + ":" + ss;
      && r[|m| + 1..] == ss && |r| == |m| + 3
      && (forall i :: |m| + 1 <= i < |r| ==> IsDigit(r[i]))
  {
  }

  /** For a non-negative time the two parts of the clock are the whole minutes and the whole seconds left over. */
  lemma ClockParts(t: real)
    requires t >= 0.0
    ensures (t / 60.0).Floor == t.Floor / 60
    ensures Rem60(t).Floor == t.Floor % 60
  {
    var n := t.Floor;
    var q := (t / 60.0).Floor;
    assert 60 * q <= n < 60 * q + 60 by {
      assert q as real <= t / 60.0 < q as real + 1.0;
      assert 60.0 * q as real <= t < 60.0 * q as real + 60.0;
    }
    assert q == n / 60;
    assert Rem60(t) == t - 60.0 * q as real;
    assert (n - 60 * q) as real <= t - 60.0 * q as real < (n - 60 * q) as real + 1.0;
  }

  /** Negative times keep JavaScript's rounding: -5 s shows as "-1:-5". */
  lemma NegativeTimeRendering()
    ensures FormatTime(Finite(-5.0)) == "-1:-5"
  {
    assert (-5.0 / 60.0).Floor == -1;
    assert Rem60(-5.0) == -5.0;
    assert IntToDecimal(-1) == "-1";
    assert IntToDecimal(-5) == "-5";
  }
}
