/** The jittered requeue that drives the reconciles when nothing else does. Durations are in nanoseconds. */
module Jitter {

  const MILLISECOND: int := 1_000_000
  const MINUTE: int := 60_000 * MILLISECOND
  const DEFAULT_REQUEUE_DURATION: int := 5 * MINUTE
  const MAX_DURATION: int := 0x7fff_ffff_ffff_ffff

  /** Division as the conversions to integer do it, towards zero. */
  function Truncated(a: int, b: int): int
    requires b > 0
  {
    if a < 0 then -((-a) / b) else a / b
  }

  function JitterMillis(t: int, percent: int): int {
    Truncated(Truncated(t, MILLISECOND) * percent, 100)
  }

  function MaxJitter(t: int, percent: int): int {
    JitterMillis(t, percent) * MILLISECOND
  }

  /** Where conversion to a 64-bit integer is defined. */
  predicate FitsInt64(n: int) {
    -MAX_DURATION - 1 <= n <= MAX_DURATION
  }

  /** `Panic`: the random draw takes no range that is not positive. `Unparsable`: the length does not fit a duration. */
  datatype Outcome = Delay(duration: int) | Unparsable | Panic

  /** `draw` is what `rand.Int63n(maxJitter)` gives. */
  function Jittered(t: int, percent: int, draw: nat): Outcome {
    var maxJitter := MaxJitter(t, percent);
    if !FitsInt64(maxJitter) then Unparsable
    else if maxJitter <= 0 then Panic
    else Delay(t - maxJitter + draw % maxJitter)
  }

  function JitterRequeue(defaultDuration: int, percent: int, draw: nat): Outcome {
    var after := Jittered(defaultDuration, percent, draw);
    if after.Unparsable? then Delay(defaultDuration) else after
  }

  /** The delay never exceeds the target: the jitter only takes away, at most the given share. */
  lemma DelayBounds(t: nat, percent: nat, draw: nat)
    requires Jittered(t, percent, draw).Delay?
    ensures t - MaxJitter(t, percent) <= Jittered(t, percent, draw).duration < t
    ensures percent <= 100 ==> 0 <= t - MaxJitter(t, percent)
  {
    if percent <= 100 {
      assert (t / MILLISECOND) * percent <= (t / MILLISECOND) * 100;
      assert JitterMillis(t, percent) <= t / MILLISECOND;
    }
  }

  lemma SmallRemainder(n: nat, m: nat)
    requires n < m
    ensures n % m == n
  {
  }

  lemma DelayFromDraw(t: nat, percent: nat, d: int)
    requires 0 < MaxJitter(t, percent) && FitsInt64(MaxJitter(t, percent))
    requires t - MaxJitter(t, percent) <= d < t
    ensures Jittered(t, percent, d - (t - MaxJitter(t, percent))) == Delay(d)
  {
    var m := MaxJitter(t, percent);
    SmallRemainder(d - (t - m), m);
  }

  /** The delays are exactly those that are less than the target by the maximum jitter at most:
      each comes from a draw. */
  lemma EveryDelayIsDrawn(t: nat, percent: nat, d: int)
    requires 0 < MaxJitter(t, percent) && FitsInt64(MaxJitter(t, percent))
    ensures t - MaxJitter(t, percent) <= d < t <==> exists draw: nat :: Jittered(t, percent, draw) == Delay(d)
  {
    if t - MaxJitter(t, percent) <= d < t {
      DelayFromDraw(t, percent, d);
    }
    if draw: nat :| Jittered(t, percent, draw) == Delay(d) {
      DelayBounds(t, percent, draw);
    }
  }

  /** The maximum jitter of the default duration is the percentage of five minutes. */
  lemma DefaultJitter(percent: nat)
    ensures DEFAULT_REQUEUE_DURATION == 300 * 1_000_000_000
    ensures MaxJitter(DEFAULT_REQUEUE_DURATION, percent) * 100 == percent * 300 * 1_000_000_000
  {
    assert Truncated(DEFAULT_REQUEUE_DURATION, MILLISECOND) == 300_000;
    assert JitterMillis(DEFAULT_REQUEUE_DURATION, percent) == 300_000 * percent / 100 == 3_000 * percent;
  }

  /** Which settings work with the default duration: a reconcile panics instead of requeueing exactly if the percentage
      is not positive and its jitter still fits a duration. */
  lemma DefaultPanicsExactly(percent: int, draw: nat)
    requires FitsInt64(JitterMillis(DEFAULT_REQUEUE_DURATION, percent))
    ensures JitterRequeue(DEFAULT_REQUEUE_DURATION, percent, draw).Panic? <==> -3_074_457_345 <= percent <= 0
    ensures !JitterRequeue(DEFAULT_REQUEUE_DURATION, percent, draw).Unparsable?
  {
    assert Truncated(DEFAULT_REQUEUE_DURATION, MILLISECOND) == 300_000;
    if percent >= 0 {
      assert JitterMillis(DEFAULT_REQUEUE_DURATION, percent) == 300_000 * percent / 100 == 3_000 * percent;
    } else {
      assert JitterMillis(DEFAULT_REQUEUE_DURATION, percent) == -(300_000 * (-percent) / 100) == 3_000 * percent;
    }
  }

  // ---- Successive requeues ---------------------------------------------

  /** When the `n`-th requeue fires. */
  function VisitAt(delays: seq<int>, n: nat): int
    requires n <= |delays|
  {
    if n == 0 then 0 else VisitAt(delays, n - 1) + delays[n - 1]
  }

  /** Delays as `JitterRequeue` gives them. */
  ghost predicate FromJitter(delays: seq<int>, t: nat, percent: nat) {
    forall i | 0 <= i < |delays| :: exists draw: nat :: Jittered(t, percent, draw) == Delay(delays[i])
  }

  lemma {:induction false} VisitsAreSpread(delays: seq<int>, t: nat, percent: nat, n: nat)
    requires FromJitter(delays, t, percent) && n <= |delays|
    ensures n * (t - MaxJitter(t, percent)) <= VisitAt(delays, n) <= n * t
  {
    if n > 0 {
      VisitsAreSpread(delays, t, percent, n - 1);
      var draw: nat :| Jittered(t, percent, draw) == Delay(delays[n - 1]);
      DelayBounds(t, percent, draw);
      var d := t - MaxJitter(t, percent);
      assert n * d == (n - 1) * d + d;
      assert n * t == (n - 1) * t + t;
    }
  }

  /** However the draws fall, there is a visit within every window as long as the target duration. */
  lemma {:induction false} VisitInEveryWindow(delays: seq<int>, t: nat, percent: nat, x: int, n: nat) returns (i: nat)
    requires FromJitter(delays, t, percent) && n <= |delays|
    requires 0 <= x < VisitAt(delays, n)
    ensures i <= n && x < VisitAt(delays, i) <= x + t
  {
    if x < VisitAt(delays, n - 1) {
      i := VisitInEveryWindow(delays, t, percent, x, n - 1);
    } else {
      var draw: nat :| Jittered(t, percent, draw) == Delay(delays[n - 1]);
      DelayBounds(t, percent, draw);
      i := n;
    }
  }
}
