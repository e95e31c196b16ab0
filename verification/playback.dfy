/**
 The arithmetic behind the player's buttons and seek bar: the ±10 s skips
 clamped to the track, the ±0.25 rate steps clamped to [0.5, 2.0], and the
 two linear maps between a position and the 0–100 seek-bar value.
 Positions, durations and rates are reals (JavaScript's numbers without
 their floating-point rounding).
 */
module Playback {

  const SkipSeconds: real := 10.0
  const RateStep: real := 0.25
  const MinRate: real := 0.5
  const MaxRate: real := 2.0
  const SeekBarMax: real := 100.0

  function Max(a: real, b: real): real { if a >= b then a else b }

  function Min(a: real, b: real): real { if a <= b then a else b }

  predicate InRateRange(rate: real) {
    MinRate <= rate <= MaxRate
  }

  /** The "back 10 s" button: never before the start, never later than before. */
  function SkipBack(pos: real): (r: real)
    ensures r >= 0.0 && r >= pos - SkipSeconds
    ensures r == 0.0 || r == pos - SkipSeconds
    ensures pos >= 0.0 ==> r <= pos
    ensures r == 0.0 <==> pos <= SkipSeconds
  {
    Max(0.0, pos - SkipSeconds)
  }

  /** The "forward 10 s" button: never past the end, never earlier than before. */
  function SkipForward(pos: real, duration: real): (r: real)
    ensures r <= duration && r <= pos + SkipSeconds
    ensures r == duration || r == pos + SkipSeconds
    ensures pos <= duration ==> pos <= r
    ensures r == duration <==> duration <= pos + SkipSeconds
  {
    Min(duration, pos + SkipSeconds)
  }

  /** The slow-down button: one step down, saturating at the minimum rate. */
  function SlowDown(rate: real): (r: real)
    ensures r >= MinRate && r >= rate - RateStep
    ensures r == MinRate || r == rate - RateStep
    ensures InRateRange(rate) ==> InRateRange(r) && r <= rate
    ensures r == MinRate <==> rate <= MinRate + RateStep
  {
    Max(MinRate, rate - RateStep)
  }

  /** The speed-up button: one step up, saturating at the maximum rate. */
  function SpeedUp(rate: real): (r: real)
    ensures r <= MaxRate && r <= rate + RateStep
    ensures r == MaxRate || r == rate + RateStep
    ensures InRateRange(rate) ==> InRateRange(r) && rate <= r
    ensures r == MaxRate <==> MaxRate - RateStep <= rate
  {
    Min(MaxRate, rate + RateStep)
  }

  /** The seek-bar value the `timeupdate` handler shows for a position. */
  function Progress(pos: real, duration: real): (v: real)
    requires duration > 0.0
    ensures 0.0 <= pos <= duration ==> 0.0 <= v <= SeekBarMax
    ensures v == 0.0 <==> pos == 0.0
    ensures v == SeekBarMax <==> pos == duration
  {
    var v := pos / duration * SeekBarMax;
    assert pos == v / SeekBarMax * duration;
    v
  }

  /** The position the seek bar's `input` handler asks for; showing it again gives back the same value. */
  function SeekTime(value: real, duration: real): (pos: real)
    requires duration > 0.0
    ensures 0.0 <= value <= SeekBarMax ==> 0.0 <= pos <= duration
    ensures Progress(pos, duration) == value
  {
    var pos := value / SeekBarMax * duration;
    assert pos / duration == value / SeekBarMax;
    pos
  }

  /** Seeking to the value a position is shown at lands on that position again. */
  lemma ProgressSeekRoundTrip(pos: real, duration: real)
    requires duration > 0.0
    ensures SeekTime(Progress(pos, duration), duration) == pos
  {
  }

  /** Pressing a button several times in a row. */
  function SkipBacks(pos: real, presses: nat): real {
    if presses == 0 then pos else SkipBack(SkipBacks(pos, presses - 1))
  }

  function SkipForwards(pos: real, duration: real, presses: nat): real {
    if presses == 0 then pos else SkipForward(SkipForwards(pos, duration, presses - 1), duration)
  }

  function SlowDowns(rate: real, presses: nat): real {
    if presses == 0 then rate else SlowDown(SlowDowns(rate, presses - 1))
  }

  function SpeedUps(rate: real, presses: nat): real {
    if presses == 0 then rate else SpeedUp(SpeedUps(rate, presses - 1))
  }

  /** `k` presses of "back 10 s" move back `10 k` seconds, stopping at the start. */
  lemma {:induction false} SkipBacksClamp(pos: real, presses: nat)
    requires pos >= 0.0
    ensures SkipBacks(pos, presses) == Max(0.0, pos - presses as real * SkipSeconds)
  {
    if presses > 0 {
      SkipBacksClamp(pos, presses - 1);
    }
  }

  /** `k` presses of "forward 10 s" move on `10 k` seconds, stopping at the end. */
  lemma {:induction false} SkipForwardsClamp(pos: real, duration: real, presses: nat)
    requires pos <= duration
    ensures SkipForwards(pos, duration, presses) == Min(duration, pos + presses as real * SkipSeconds)
  {
    if presses > 0 {
      SkipForwardsClamp(pos, duration, presses - 1);
    }
  }

  /** `k` slow-downs lower the rate by `0.25 k`, stopping at 0.5; six reach 0.5 from anywhere in range. */
  lemma {:induction false} SlowDownsClamp(rate: real, presses: nat)
    requires rate >= MinRate
    ensures SlowDowns(rate, presses) == Max(MinRate, rate - presses as real * RateStep)
    ensures InRateRange(rate) && presses >= 6 ==> SlowDowns(rate, presses) == MinRate
  {
    if presses > 0 {
      SlowDownsClamp(rate, presses - 1);
    }
  }

  /** `k` speed-ups raise the rate by `0.25 k`, stopping at 2.0; six reach 2.0 from anywhere in range. */
  lemma {:induction false} SpeedUpsClamp(rate: real, presses: nat)
    requires rate <= MaxRate
    ensures SpeedUps(rate, presses) == Min(MaxRate, rate + presses as real * RateStep)
    ensures InRateRange(rate) && presses >= 6 ==> SpeedUps(rate, presses) == MaxRate
  {
    if presses > 0 {
      SpeedUpsClamp(rate, presses - 1);
    }
  }

  lemma PlaybackExamples()
    ensures SkipBack(5.0) == 0.0
    ensures SkipForward(95.0, 100.0) == 100.0
    ensures SlowDown(0.5) == 0.5
    ensures SpeedUp(2.0) == 2.0
    ensures SpeedUp(SpeedUp(1.0)) == 1.5
    ensures Progress(25.0, 100.0) == 25.0
    ensures SeekTime(50.0, 200.0) == 100.0
  {
  }
}
