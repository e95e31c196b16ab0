/**
 One frame of the frequency visualizer: for each byte magnitude the frame
 draws one bar, left to right with a one-pixel gap, standing on the bottom
 edge of the canvas, half as tall as the magnitude, with red channel
 `magnitude + 100` (green 50, blue 150). The bars are returned as records
 instead of being painted.
 */
module Visualizer {

  /** An element of the analyser's `Uint8Array`. */
  type Byte = x: int | 0 <= x < 256

  const BarWidthScale: real := 2.5
  const BarGap: real := 1.0
  const RedOffset: int := 100
  const Green: int := 50
  const Blue: int := 150

  /**
   The `rgb(r, g, b)` fill style as the string is built: the channels are not
   clamped to 255 there (the canvas clamps them when it parses the colour).
   */
  datatype Rgb = Rgb(red: int, green: int, blue: int)

  /** One `fillRect(x, y, width, height)` with its fill style. */
  datatype Bar = Bar(x: real, y: real, width: real, height: real, fill: Rgb)

  function BarWidth(canvasWidth: nat, bins: nat): real
    requires bins > 0
  {
    canvasWidth as real / bins as real * BarWidthScale
  }

  /** Reference definition of bar `i`, its left edge given in closed form. */
  function BarAt(canvasWidth: nat, canvasHeight: nat, magnitudes: seq<Byte>, i: nat): Bar
    requires i < |magnitudes|
  {
    var w := BarWidth(canvasWidth, |magnitudes|);
    var h := magnitudes[i] as real / 2.0;
    Bar(i as real * (w + BarGap), canvasHeight as real - h, w, h, Rgb(magnitudes[i] + RedOffset, Green, Blue))
  }

  /** The bars of one frame, one per magnitude. */
  function FrameBars(canvasWidth: nat, canvasHeight: nat, magnitudes: seq<Byte>): (bars: seq<Bar>)
    ensures |bars| == |magnitudes|
  {
    seq(|magnitudes|, i requires 0 <= i < |magnitudes| => BarAt(canvasWidth, canvasHeight, magnitudes, i))
  }

  /**
   The geometry loop of `drawVisualizer`: the left edge `x` is an accumulator
   advanced by `barWidth + 1` after every bar.
   */
  method LayoutBars(canvasWidth: nat, canvasHeight: nat, dataArray: seq<Byte>) returns (bars: seq<Bar>)
    ensures bars == FrameBars(canvasWidth, canvasHeight, dataArray)
  {
    // With no bins `drawVisualizer`'s bar width is not a finite number, but no bar uses it.
    var barWidth := if |dataArray| > 0 then BarWidth(canvasWidth, |dataArray|) else 0.0;
    var x := 0.0;
    bars := [];
    for i := 0 to |dataArray|
      invariant x == i as real * (barWidth + BarGap)
      invariant bars == FrameBars(canvasWidth, canvasHeight, dataArray)[..i]
    {
      var barHeight := dataArray[i];
      var fill := Rgb(barHeight + RedOffset, Green, Blue);
      bars := bars + [Bar(x, canvasHeight as real - barHeight as real / 2.0, barWidth, barHeight as real / 2.0, fill)];
      assert bars[i] == FrameBars(canvasWidth, canvasHeight, dataArray)[i];
      x := x + barWidth + BarGap;
    }
  }

  /**
   What every bar of a frame looks like: all as wide as `width / n * 2.5`,
   bar `i` starting at `i * (barWidth + 1)`, its bottom edge on the canvas
   bottom, its height at most 127.5, its red channel in [100, 355].
   */
  lemma BarShape(canvasWidth: nat, canvasHeight: nat, magnitudes: seq<Byte>, i: nat)
    requires i < |magnitudes|
    ensures var b := FrameBars(canvasWidth, canvasHeight, magnitudes)[i];
      && b.width == canvasWidth as real / |magnitudes| as real * 2.5
      && b.x == i as real * (b.width + 1.0)
      && b.y + b.height == canvasHeight as real
      && 0.0 <= b.height <= 127.5
      && b.height == magnitudes[i] as real / 2.0
      && 100 <= b.fill.red <= 355 && b.fill.red == magnitudes[i] as int + 100
      && b.fill.green == 50 && b.fill.blue == 150
  {
  }

  /** Consecutive bars are separated by exactly one pixel. */
  lemma BarsGap(canvasWidth: nat, canvasHeight: nat, magnitudes: seq<Byte>, i: nat)
    requires i + 1 < |magnitudes|
    ensures var bars := FrameBars(canvasWidth, canvasHeight, magnitudes);
      bars[i].x + bars[i].width + 1.0 == bars[i + 1].x
  {
  }

  /**
   The bars span `2.5 * width + n - 1` pixels, so with a positive width the
   last bar always ends past the right edge of the canvas.
   */
  lemma FrameOverflowsCanvas(canvasWidth: nat, canvasHeight: nat, magnitudes: seq<Byte>)
    requires |magnitudes| > 0 && canvasWidth > 0
    ensures var bars := FrameBars(canvasWidth, canvasHeight, magnitudes);
      var last := bars[|bars| - 1];
      && last.x + last.width == BarWidthScale * canvasWidth as real + (|magnitudes| - 1) as real
      && last.x + last.width > canvasWidth as real
  {
    var n := |magnitudes|;
    var w := BarWidth(canvasWidth, n);
    assert w * n as real == BarWidthScale * canvasWidth as real;
    assert (n - 1) as real * (w + 1.0) + w == w * n as real + (n - 1) as real;
  }
}
