/**
 * The skip buttons of every player: forward moves `seconds` ahead but not past the end,
 * backward moves `seconds` back but not before 0. Each player passes its own notion of the
 * current time and of the end.
 */
module Skips {

  /** The step every skip button uses when none is given. */
  const DefaultSkip: real := 15.0

  function Min(a: real, b: real): real {
    if a <= b then a else b
  }

  function Max(a: real, b: real): real {
    if a >= b then a else b
  }

  /** `Math.min(t + seconds, end)`. */
  function ForwardTarget(t: real, seconds: real, end: real): (r: real)
    ensures r <= end && r <= t + seconds
    ensures r == end || r == t + seconds
  {
    Min(t + seconds, end)
  }

  /** `Math.max(t - seconds, 0)`. */
  function BackwardTarget(t: real, seconds: real): (r: real)
    ensures r >= 0.0 && r >= t - seconds
    ensures r == 0.0 || r == t - seconds
  {
    Max(t - seconds, 0.0)
  }

  /** With the end still unknown (0), skipping forward from any time rewinds to 0. */
  lemma ForwardWithoutDurationRewinds(t: real, seconds: real)
    ensures ForwardTarget(t, seconds, 0.0) <= 0.0
    ensures t + seconds >= 0.0 ==> ForwardTarget(t, seconds, 0.0) == 0.0
  {
  }

  /** A forward skip inside the track is undone by a backward skip of the same size, and vice versa. */
  lemma SkipRoundTrip(t: real, seconds: real, end: real)
    requires 0.0 <= seconds
    ensures t + seconds <= end ==> BackwardTarget(ForwardTarget(t, seconds, end), seconds) == Max(t, 0.0)
    ensures seconds <= t <= end ==> ForwardTarget(BackwardTarget(t, seconds), seconds, end) == t
  {
  }

  /** Forward skips stay within [0, end] once they start there. */
  lemma ForwardStaysInTrack(t: real, seconds: real, end: real)
    requires 0.0 <= t <= end && 0.0 <= seconds
    ensures 0.0 <= ForwardTarget(t, seconds, end) <= end
    ensures t <= ForwardTarget(t, seconds, end)
  {
  }

  /** Backward skips never move forward when the step is non-negative. */
  lemma BackwardNeverAdvances(t: real, seconds: real)
    requires 0.0 <= t && 0.0 <= seconds
    ensures BackwardTarget(t, seconds) <= t
  {
  }

  /** From 10 s in a 60 s track, forward then back returns to 10 s. */
  lemma MiniPlayerExample()
    ensures ForwardTarget(10.0, DefaultSkip, 60.0) == 25.0
    ensures BackwardTarget(ForwardTarget(10.0, DefaultSkip, 60.0), DefaultSkip) == 10.0
  {
  }
}
