# lecteur-musique in Dafny

A model of the `lecteur-musique` web component, a small audio player with
play/pause, ±10 s skip, ±0.25 rate buttons, a 0–100 seek bar, an `M:SS / M:SS`
time label and a frequency-bar visualizer. The model covers the deterministic
logic under the DOM and Web Audio calls, and it proves properties of that logic:

- `time_format.dfy` (module `TimeFormat`) models `formatTime`, following the
  code as written on real seconds: `Math.floor(s / 60)`, and `Math.floor(s % 60)`
  with JavaScript's truncating `%`. It proves that the result equals a
  whole-second reference, `decimal(s / 60) + ":" + pad2(s % 60)`, where `s` is
  `floor(seconds)`. A parser reads an `M:SS` label back, and the round trip
  gives back `floor(seconds)`.
- `playback.dfy` (module `Playback`) holds the clamps behind the four skip and
  rate buttons, and the two linear maps between a position and the seek-bar
  value. It proves their bounds, their saturation, repeated presses in closed
  form, and that the two maps are inverses when the duration is positive.
- `visualizer.dfy` (module `Visualizer`) models one frame of `drawVisualizer`.
  The loop that advances the accumulator `x` is a method. It is proved equal to
  a closed-form description of the bars, and that description's geometry and
  colour are proved separately.
- `lecteur_musique.dfy` (module `Player`) is the element itself: class
  `LecteurMusique`, with the media element's position, duration, rate and paused
  flag, the seek bar's value, the label, and the lazily created sample buffer.
  It has one method per event handler. Each handler's `modifies` clause names
  only the fields that handler writes. The one exception is `SeekInput`, which
  also sets the seek bar's value: that stands for the user's drag, which the
  range element applies before the `input` handler runs (see the method's doc
  comment).

The code divides by the duration at line 144 and takes `Math.min(duration, …)`
at line 132 without a guard, so the model requires a positive duration
(`Valid()`, and the `requires` of `Progress` and `SeekTime`).

## Model

| member | source | states |
|---|---|---|
| TimeFormat.DecimalString | js/lecteur-musique.js:195 | the minutes as the template literal writes them: at least one decimal digit, a leading '0' only for zero, a single digit exactly below ten |
| TimeFormat.ParseDecimalString | js/lecteur-musique.js:195 | reading the decimal string back gives the number again |
| TimeFormat.Pad2 | js/lecteur-musique.js:195 | the seconds field: digits only; below 100 it is exactly two characters that denote the value |
| TimeFormat.FormatSeconds | js/lecteur-musique.js:192-196 | whole-second reference: the label is the minutes `s / 60` in decimal, a ':', then exactly two digits denoting `s % 60 < 60` |
| TimeFormat.FloorParts | js/lecteur-musique.js:193-194 | for seconds >= 0, `floor(s / 60)` and `floor(s % 60)` with JavaScript's `%` equal `floor(s) / 60` and `floor(s) % 60` |
| TimeFormat.FormatTime | js/lecteur-musique.js:192-196 | `formatTime` as written on real seconds >= 0 equals the whole-second reference on `floor(seconds)`; minutes are unbounded |
| TimeFormat.ParseFormatSeconds | js/lecteur-musique.js:192-196 | parsing a whole-second label back as `M*60 + SS` gives the seconds again |
| TimeFormat.FormatTimeRoundTrip | js/lecteur-musique.js:192-196 | parsing the label back as `M*60 + SS` gives `floor(seconds)` |
| TimeFormat.FormatSecondsInjective | js/lecteur-musique.js:192-196 | two different whole-second values never get the same label |
| TimeFormat.FormatSecondsExamples | js/lecteur-musique.js:192-196 | 0, 59, 60, 125 and 3600 whole seconds give "0:00", "0:59", "1:00", "2:05" and "60:00" |
| TimeFormat.FormatTimeExamples | js/lecteur-musique.js:192-196 | 0 gives "0:00", 59 gives "0:59", 60 gives "1:00", 125.7 gives "2:05", 3600 gives "60:00" |
| Playback.SkipBack | js/lecteur-musique.js:128 | `max(0, pos - 10)`: never negative, never after `pos`, exactly 0 when `pos <= 10` |
| Playback.SkipForward | js/lecteur-musique.js:132 | `min(duration, pos + 10)`: never past the duration, never before `pos` when `pos <= duration`, exactly the duration when `pos + 10 >= duration` |
| Playback.SlowDown | js/lecteur-musique.js:136 | `max(0.5, rate - 0.25)`: keeps the rate in [0.5, 2.0], saturates at 0.5 exactly when `rate <= 0.75` |
| Playback.SpeedUp | js/lecteur-musique.js:140 | `min(2.0, rate + 0.25)`: keeps the rate in [0.5, 2.0], saturates at 2.0 exactly when `rate >= 1.75` |
| Playback.Progress | js/lecteur-musique.js:144 | for a position within a positive duration the seek value lies in [0, 100]; it is 0 exactly at the start and 100 exactly at the end |
| Playback.SeekTime | js/lecteur-musique.js:153 | a value in [0, 100] maps to a position within the track, and mapping that position forward gives the value back |
| Playback.ProgressSeekRoundTrip | js/lecteur-musique.js:144-153 | seeking to the value that a position is shown at lands on that position again |
| Playback.SkipBacksClamp | js/lecteur-musique.js:127-129 | k presses of "back 10 s" give `max(0, pos - 10k)` |
| Playback.SkipForwardsClamp | js/lecteur-musique.js:131-133 | k presses of "forward 10 s" give `min(duration, pos + 10k)` |
| Playback.SlowDownsClamp | js/lecteur-musique.js:135-137 | k slow-downs give `max(0.5, rate - 0.25k)`; six reach 0.5 from any rate in range |
| Playback.SpeedUpsClamp | js/lecteur-musique.js:139-141 | k speed-ups give `min(2.0, rate + 0.25k)`; six reach 2.0 from any rate in range |
| Playback.PlaybackExamples | js/lecteur-musique.js:128-153 | 5 s back gives 0; forward from 95 of 100 gives 100; the rate stays at 0.5 and at 2.0; two speed-ups from 1.0 give 1.5; position 25 of 100 shows 25; value 50 of 200 s seeks to 100 |
| Visualizer.FrameBars | js/lecteur-musique.js:178-188 | a frame has exactly one bar per magnitude |
| Visualizer.LayoutBars | js/lecteur-musique.js:178-189 | the loop with the accumulator `x += barWidth + 1` produces exactly the closed-form bars |
| Visualizer.BarShape | js/lecteur-musique.js:178-188 | each bar is `width / n * 2.5` wide and bar i starts at `i * (barWidth + 1)`; its bottom edge is on the canvas bottom; its height `mag / 2` is at most 127.5; its red channel `mag + 100` is in [100, 355]; the `rgb(...)` string is not clamped, although the canvas clamps the colour to 255 when it paints |
| Visualizer.BarsGap | js/lecteur-musique.js:180-188 | consecutive bars are separated by exactly one pixel |
| Visualizer.FrameOverflowsCanvas | js/lecteur-musique.js:178-188 | the bars span `2.5 * width + n - 1` pixels, so the last bar ends past the right edge |
| Player.LecteurMusique.constructor | js/lecteur-musique.js:99-115 | the player starts paused at position 0 and rate 1, with the seek bar at 0, the "00:00 / 00:00" label, and no pipeline |
| Player.LecteurMusique.Play | js/lecteur-musique.js:119-124 | play un-pauses; the first play creates a 128-byte zeroed buffer, and later plays keep the same one |
| Player.LecteurMusique.SetupAudioContext | js/lecteur-musique.js:158-167 | marks the pipeline created and allocates a fresh zeroed buffer of `fftSize / 2 = 128` bytes |
| Player.LecteurMusique.Pause | js/lecteur-musique.js:125 | pause sets only the paused flag; the pipeline and its buffer are untouched |
| Player.LecteurMusique.SkipBackward | js/lecteur-musique.js:127-129 | only the position changes, to `SkipBack` of the old position |
| Player.LecteurMusique.SkipForward | js/lecteur-musique.js:131-133 | only the position changes, to `SkipForward` of the old position, and it stays within the track |
| Player.LecteurMusique.SlowDown | js/lecteur-musique.js:135-137 | only the rate changes, to `SlowDown` of the old rate, and it stays in [0.5, 2.0] |
| Player.LecteurMusique.SpeedUp | js/lecteur-musique.js:139-141 | only the rate changes, to `SpeedUp` of the old rate, and it stays in [0.5, 2.0] |
| Player.LecteurMusique.TimeUpdate | js/lecteur-musique.js:143-150 | the seek bar shows the position's progress; the label is the formatted position, " / ", then the formatted duration |
| Player.LecteurMusique.SeekInput | js/lecteur-musique.js:152-155 | the position becomes `value / 100 * duration`, within the track, and the seek bar agrees with it |
| Player.LecteurMusique.DrawVisualizer | js/lecteur-musique.js:172-189 | one frame: the buffer is filled with the current magnitudes, and the bars returned are that frame's closed-form bars, 128 of them |

## Left out

- Shadow DOM, markup and CSS (js/lecteur-musique.js:4-97) and the `customElements.define` registration (line 199): no logic.
- The Web Audio graph (`AudioContext`, `createMediaElementSource`, `connect`, lines 159-163): foreign browser calls. Only the pipeline's existence flag and its sample buffer are modelled.
- `getByteFrequencyData` (line 175): the magnitudes it writes into the buffer are an input of `DrawVisualizer`, as bytes.
- The canvas calls `clearRect` and `fillRect` (lines 176, 186): the frame returns bar records instead of painting.
- The self-rescheduling `requestAnimationFrame` loop (line 173), including the first frame that `setupAudioContext` draws at line 169: it is an unbounded, host-driven task. `DrawVisualizer` is one frame, and the host calls it.
- Media output of `audio.play()` and `audio.pause()`: only the paused flag is kept. Playback advancing `currentTime` is done by the host, and so is the order in which events are dispatched.
- The `webaudio-knob` volume control (lines 19-30): an external component that is never wired up.
- Player.LecteurMusique.Valid: a non-finite (NaN, or +Infinity as reported for an unbounded stream) or zero duration is excluded, because `real` has neither NaN nor infinity. With such a duration, line 144 gives NaN or 0, `formatTime` gives "NaN:NaN" or "Infinity:NaN", line 132 does not clamp, and lines 153-154 assign a non-finite `currentTime`. None of this is modelled: the model requires `duration > 0` rather than inventing a guard.
- Floating-point rounding of `currentTime ± 10`, of `rate ± 0.25`, of the divisions, and the rounding that accumulates in `x += barWidth + 1` (line 188): numbers are `real`, so `LayoutBars`' invariant `x == i * (barWidth + 1)` holds exactly only in the model. The 0.25 steps and the rate bounds are exact in binary floating point.
- Player.LecteurMusique.TimeUpdate: the browser rounds the fractional progress assigned at line 145 to the range input's step of 1. The model keeps the exact value, so `SeekBarInSync` is exact equality where the browser holds the rounded value. `SeekInput` reads a value that is already a whole number, which its `real` parameter holds without loss.
- TimeFormat.DecimalString: JavaScript writes numbers from 10^21 upward in exponent notation. That needs more than 6 * 10^22 seconds, and it is not modelled.
- The initial label "00:00 / 00:00" (line 32) is not output of `formatTime`. The model keeps it as a constant and claims no consistency between the two.
