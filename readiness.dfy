/**
 * The readiness score of utils/readiness.ts: three daily metrics are mapped to
 * an integer in [0, 100]. Metrics are exact reals standing for finite
 * JavaScript numbers.
 */
module Readiness {

  /** One day's check-in: hours slept, workout intensity and muscle soreness. */
  datatype Metrics = Metrics(sleep: real, intensity: real, soreness: real)

  /** Hours of sleep that earn the full sleep credit. */
  const FullSleepHours: real := 8.0

  /**
   * JavaScript's `Math.round` on a finite number: the nearest integer, halves
   * rounded towards +infinity (so 2.5 gives 3 and -2.5 gives -2).
   */
  function Round(x: real): (n: int)
    ensures n as real - 0.5 <= x < n as real + 0.5
  {
    (x + 0.5).Floor
  }

  /** `Math.max(lo, Math.min(hi, n))`: `n` pulled into [lo, hi]; `lo` wins when the range is empty. */
  function Clamp(lo: int, hi: int, n: int): (r: int)
    ensures lo <= r
    ensures lo <= hi ==> r <= hi
    ensures lo <= n <= hi ==> r == n
    ensures n < lo ==> r == lo
    ensures lo <= hi < n ==> r == hi
    ensures hi < lo ==> r == lo
  {
    if n > hi then (if hi < lo then lo else hi) else if n < lo then lo else n
  }

  /** Sleep credit: 100 points per 8 hours, capped at 100. */
  function SleepScore(sleep: real): (credit: real)
    ensures credit <= 100.0
    ensures sleep >= FullSleepHours ==> credit == 100.0
    ensures sleep <= FullSleepHours ==> credit == sleep * 12.5
  {
    var scaled := sleep / FullSleepHours * 100.0;
    if scaled < 100.0 then scaled else 100.0
  }

  /** The unrounded score: sleep credit minus 5 per intensity point and 4 per soreness point. */
  function RawScore(m: Metrics): (raw: real)
    ensures raw <= 100.0 - m.intensity * 5.0 - m.soreness * 4.0
    ensures m.sleep >= FullSleepHours ==> raw == 100.0 - m.intensity * 5.0 - m.soreness * 4.0
    ensures m.sleep <= FullSleepHours ==> raw == m.sleep * 12.5 - m.intensity * 5.0 - m.soreness * 4.0
  {
    SleepScore(m.sleep) - m.intensity * 5.0 - m.soreness * 4.0
  }

  /** `calculateReadiness`: the rounded raw score, clamped to [0, 100]. */
  function CalculateReadiness(m: Metrics): (score: int)
    ensures 0 <= score <= 100
  {
    Clamp(0, 100, Round(RawScore(m)))
  }

  /** Rounding never reverses the order of two numbers. */
  lemma RoundMonotone(x: real, y: real)
    requires x <= y
    ensures Round(x) <= Round(y)
  {
  }

  /**
   * The score is the integer nearest to the raw score when that lies inside
   * the range, 0 exactly when the raw score rounds below 1, and 100 exactly
   * when it rounds to 100 or more.
   */
  lemma ScoreIsNearestInRange(m: Metrics)
    ensures var s, raw := CalculateReadiness(m), RawScore(m);
      && (s == 0 <==> raw < 0.5)
      && (s == 100 <==> raw >= 99.5)
      && (0 < s < 100 ==> s as real - 0.5 <= raw < s as real + 0.5)
  {
  }

  /** Sleep beyond eight hours earns nothing more. */
  lemma SleepCreditCapped(m: Metrics)
    requires m.sleep >= FullSleepHours
    ensures CalculateReadiness(m) == CalculateReadiness(m.(sleep := FullSleepHours))
  {
  }

  /** More sleep never lowers the score. */
  lemma MonotoneInSleep(m: Metrics, moreSleep: real)
    requires m.sleep <= moreSleep
    ensures CalculateReadiness(m) <= CalculateReadiness(m.(sleep := moreSleep))
  {
  }

  /** A harder workout never raises the score. */
  lemma AntitoneInIntensity(m: Metrics, moreIntensity: real)
    requires m.intensity <= moreIntensity
    ensures CalculateReadiness(m.(intensity := moreIntensity)) <= CalculateReadiness(m)
  {
  }

  /** More soreness never raises the score. */
  lemma AntitoneInSoreness(m: Metrics, moreSoreness: real)
    requires m.soreness <= moreSoreness
    ensures CalculateReadiness(m.(soreness := moreSoreness)) <= CalculateReadiness(m)
  {
  }

  /** The cases of the repository's unit tests, with their exact values. */
  lemma TestVectors()
    ensures CalculateReadiness(Metrics(8.0, 3.0, 2.0)) == 77
    ensures CalculateReadiness(Metrics(4.0, 9.0, 8.0)) == 0
    ensures CalculateReadiness(Metrics(0.0, 10.0, 10.0)) == 0
    ensures CalculateReadiness(Metrics(12.0, 0.0, 0.0)) == 100
    ensures CalculateReadiness(Metrics(8.0, 0.0, 0.0)) == 100
  {
  }
}
