/** The older plain-script renderer of src/js/visualize.js: every frame a
    dark background and 64 bars whose width follows the canvas and whose
    height is relative to the loudest bin; loud bins get a random tint. The
    frequency buffer, the canvas box and the `Math.random()` draws are
    parameters. */
module EarlyScriptRenderer {

  import opened Colour
  import opened Canvas

  /** `analyser.frequencyBinCount` for an `fftSize` of 16384. */
  const BinCount := 8192

  /** How many bars a frame draws. */
  const BarCount := 64

  /** `#1d1d1d`. */
  const Backdrop := Color(29.0, 29.0, 29.0)

  /** The two `Math.random()` draws a bar may use: the first for red above
      120, the second for green above 180. */
  datatype Roll = Roll(red: real, green: real)

  predicate InUnit(u: real) { 0.0 <= u < 1.0 }

  /** `Math.max.apply(Math, dataArray)`. */
  function MaxOf(s: seq<Byte>): (m: Byte)
    requires s != []
    ensures forall i :: 0 <= i < |s| ==> s[i] <= m
    ensures exists i :: 0 <= i < |s| && s[i] == m
  {
    if |s| == 1 then s[0]
    else
      var m := MaxOf(s[..|s| - 1]);
      assert forall i :: 0 <= i < |s| - 1 ==> s[..|s| - 1][i] == s[i];
      if s[|s| - 1] > m then s[|s| - 1] else m
  }

  // ---------------------------------------------------------------------
  // Colour

  /** `Math.floor(Math.random() * (max - min) + min)` with `min = d * 0.95`
      and `max = d * 1.05`. */
  function Jitter(d: Byte, u: real): int
  {
    (u * (d as real * 1.05 - d as real * 0.95) + d as real * 0.95).Floor
  }

  /** The colour of a bar: purple for a bin up to 120; above that a random
      red near the bin's value, and above 180 a random green, half of one
      above 220 and a twentieth of one up to 220. Blue is always 255. */
  function BarColor(d: Byte, roll: Roll): Color
  {
    if d > 120 then
      var g := if d > 220 then 0.50 * Jitter(d, roll.green) as real
               else if d > 180 then 0.05 * Jitter(d, roll.green) as real
               else 0.0;
      Color(Jitter(d, roll.red) as real, g, 255.0)
    else Color(128.0, 0.0, 255.0)
  }

  /** A bin up to 120 is drawn in exactly (128, 0, 255), whatever the draws. */
  lemma QuietBarColor(d: Byte, roll: Roll)
    requires d <= 120
    ensures BarColor(d, roll) == Color(128.0, 0.0, 255.0)
  {
  }

  /** Blue is always 255, and green stays 0 up to 180. */
  lemma BarColorChannels(d: Byte, roll: Roll)
    ensures BarColor(d, roll).b == 255.0
    ensures d <= 180 ==> BarColor(d, roll).g == 0.0
    ensures d > 120 ==> BarColor(d, roll).r == Jitter(d, roll.red) as real
  {
  }

  /** A draw in `[0, 1)` keeps the jitter within 5% of the bin's value:
      from `floor(0.95 d)` up to, but not including, `1.05 d`. */
  lemma JitterBounds(d: Byte, u: real)
    requires d > 0 && InUnit(u)
    ensures (d as real * 0.95).Floor <= Jitter(d, u)
    ensures (Jitter(d, u) as real) < d as real * 1.05
  {
    var low, span := d as real * 0.95, d as real * 1.05 - d as real * 0.95;
    FloorWithin(u, span, low);
    assert Jitter(d, u) == (u * span + low).Floor;
    assert low + span == d as real * 1.05;
  }

  /** A draw in `[0, 1)` stretched over a positive span from `low` floors to
      at least `floor(low)` and stays below the span's end. */
  lemma FloorWithin(u: real, span: real, low: real)
    requires InUnit(u) && span > 0.0
    ensures low.Floor <= (u * span + low).Floor
    ensures ((u * span + low).Floor as real) < low + span
  {
    ProductInSpan(u, span);
    FloorBetween(u * span, span, low);
  }

  /** The floor of a point in `[low, low + span)`. */
  lemma FloorBetween(p: real, span: real, low: real)
    requires 0.0 <= p < span
    ensures low.Floor <= (p + low).Floor
    ensures ((p + low).Floor as real) < low + span
  {
    assert (low.Floor as real) <= low <= p + low;
    assert ((p + low).Floor as real) <= p + low;
  }

  /** A fraction in `[0, 1)` of a positive span lies in `[0, span)`. */
  lemma ProductInSpan(u: real, span: real)
    requires InUnit(u) && span > 0.0
    ensures 0.0 <= u * span < span
  {
    if u > 0.0 {
      PositiveProduct(u, span);
    }
    PositiveProduct(1.0 - u, span);
    assert span - u * span == (1.0 - u) * span;
  }

  lemma PositiveProduct(a: real, b: real)
    requires a > 0.0 && b > 0.0
    ensures a * b > 0.0
  {
  }

  // ---------------------------------------------------------------------
  // Bars

  /** `(canvas.width / dataArray.length) * canvas.height`. */
  function BarWidth(width: nat, height: nat, len: nat): real
    requires len > 0
  {
    (width as real / len as real) * height as real
  }

  /** `(dataArray[i] / max) * 125`: the loudest bin reaches 125 px. */
  function BarHeight(d: Byte, max: Byte): real
    requires max > 0
  {
    (d as real / max as real) * 125.0
  }

  /** A part over its whole lies in `[0, 1]`. */
  lemma RatioAtMostOne(a: real, b: real)
    requires 0.0 <= a <= b && b > 0.0
    ensures 0.0 <= a / b <= 1.0
  {
    assert a / b * b == a;
  }

  /** Heights stay within 125 px, and the loudest bin reaches it. */
  lemma BarHeightBounds(d: Byte, max: Byte)
    requires 0 < max && d <= max
    ensures 0.0 <= BarHeight(d, max) <= 125.0
    ensures d == max ==> BarHeight(d, max) == 125.0
  {
    RatioAtMostOne(d as real, max as real);
  }

  /** Bar `i`: at `x = i * (barWidth + 1)`, standing on the canvas bottom. */
  function Bar(data: seq<Byte>, rolls: seq<Roll>, barWidth: real, height: nat, max: Byte, i: nat): Command
    requires i < |data| && i < |rolls| && max > 0
  {
    var h := BarHeight(data[i], max);
    FillRect(Scaled(i, barWidth + 1.0), height as real - h, barWidth, h, BarColor(data[i], rolls[i]))
  }

  /** The first `n` bars. */
  function Bars(data: seq<Byte>, rolls: seq<Roll>, barWidth: real, height: nat, max: Byte, n: nat): seq<Command>
    requires n <= |data| && n <= |rolls| && max > 0
  {
    if n == 0 then [] else Bars(data, rolls, barWidth, height, max, n - 1) + [Bar(data, rolls, barWidth, height, max, n - 1)]
  }

  /** One more iteration of the bar loop, from its running `x`. */
  lemma BarsStep(data: seq<Byte>, rolls: seq<Roll>, barWidth: real, height: nat, max: Byte, i: nat, x: real)
    requires i < |data| && i < |rolls| && max > 0 && x == Scaled(i, barWidth + 1.0)
    ensures Bars(data, rolls, barWidth, height, max, i + 1) == Bars(data, rolls, barWidth, height, max, i)
      + [FillRect(x, height as real - BarHeight(data[i], max), barWidth, BarHeight(data[i], max), BarColor(data[i], rolls[i]))]
  {
  }

  lemma {:induction false} BarsAt(data: seq<Byte>, rolls: seq<Roll>, barWidth: real, height: nat, max: Byte, n: nat)
    requires n <= |data| && n <= |rolls| && max > 0
    ensures |Bars(data, rolls, barWidth, height, max, n)| == n
    ensures forall i :: 0 <= i < n ==> Bars(data, rolls, barWidth, height, max, n)[i] == Bar(data, rolls, barWidth, height, max, i)
  {
    if n > 0 {
      BarsAt(data, rolls, barWidth, height, max, n - 1);
    }
  }

  /** The 64 bars and their 1 px gaps reach `64 * barWidth + 63` px from the
      left edge, which is `width * height / 128 + 63`: on a canvas at least
      128 px high they run past its right edge. */
  lemma BarsExtent(width: nat, height: nat)
    ensures var barWidth := BarWidth(width, height, BinCount);
      Scaled(BarCount - 1, barWidth + 1.0) + barWidth == 64.0 * barWidth + 63.0
    ensures var barWidth := BarWidth(width, height, BinCount);
      64.0 * barWidth == width as real * height as real / 128.0
    ensures height >= 128 ==> 64.0 * BarWidth(width, height, BinCount) + 63.0 > width as real
  {
    var barWidth := BarWidth(width, height, BinCount);
    ScaledIsProduct(BarCount - 1, barWidth + 1.0);
    var w, h := width as real, height as real;
    assert barWidth == (w / 8192.0) * h;
    assert 64.0 * ((w / 8192.0) * h) == w * h / 128.0;
    if height >= 128 {
      assert w * h >= w * 128.0;
    }
  }

  /** One frame: the canvas resized to its box (the size reads back as
      whole pixels), the background, and, unless every bin is 0 (a 0/0
      height the canvas ignores), the 64 bars. */
  function Frame(data: seq<Byte>, rolls: seq<Roll>, boxWidth: real, boxHeight: real): seq<Command>
    requires |data| == BinCount && |rolls| == BarCount
    requires boxWidth >= 0.0 && boxHeight >= 0.0
  {
    var width := PixelSize(boxWidth);
    var height := PixelSize(boxHeight);
    var max := MaxOf(data);
    [Resize(width, height), FillRect(0.0, 0.0, width as real, height as real, Backdrop)]
    + if max > 0 then Bars(data, rolls, BarWidth(width, height, |data|), height, max, BarCount) else []
  }

  /** Every frame is the background followed by exactly 64 bars: bar `i` is
      `barWidth` wide at `x = i * (barWidth + 1)`, its bottom on the canvas
      height, at most 125 high, coloured by its bin and draws. */
  lemma FrameLayout(data: seq<Byte>, rolls: seq<Roll>, boxWidth: real, boxHeight: real)
    requires |data| == BinCount && |rolls| == BarCount
    requires boxWidth >= 0.0 && boxHeight >= 0.0
    requires MaxOf(data) > 0
    ensures var f := Frame(data, rolls, boxWidth, boxHeight);
      && |f| == 2 + BarCount
      && f[0] == Resize(PixelSize(boxWidth), PixelSize(boxHeight))
      && f[1] == FillRect(0.0, 0.0, PixelSize(boxWidth) as real, PixelSize(boxHeight) as real, Backdrop)
    ensures var f := Frame(data, rolls, boxWidth, boxHeight);
      var barWidth := BarWidth(PixelSize(boxWidth), PixelSize(boxHeight), BinCount);
      forall i :: 0 <= i < BarCount ==>
        && f[2 + i].FillRect?
        && f[2 + i].x == Scaled(i, barWidth + 1.0) && f[2 + i].w == barWidth
        && f[2 + i].y + f[2 + i].h == PixelSize(boxHeight) as real
        && 0.0 <= f[2 + i].h <= 125.0
        && f[2 + i].style == BarColor(data[i], rolls[i])
  {
    var width := PixelSize(boxWidth);
    var height := PixelSize(boxHeight);
    var max := MaxOf(data);
    var barWidth := BarWidth(width, height, |data|);
    BarsAt(data, rolls, barWidth, height, max, BarCount);
    forall i | 0 <= i < BarCount
      ensures 0.0 <= BarHeight(data[i], max) <= 125.0
    {
      BarHeightBounds(data[i], max);
    }
  }

  /** A silent frame (every bin 0) draws the background only. */
  lemma SilentFrame(data: seq<Byte>, rolls: seq<Roll>, boxWidth: real, boxHeight: real)
    requires |data| == BinCount && |rolls| == BarCount
    requires boxWidth >= 0.0 && boxHeight >= 0.0
    requires forall i :: 0 <= i < |data| ==> data[i] == 0
    ensures Frame(data, rolls, boxWidth, boxHeight)
      == [Resize(PixelSize(boxWidth), PixelSize(boxHeight)),
          FillRect(0.0, 0.0, PixelSize(boxWidth) as real, PixelSize(boxHeight) as real, Backdrop)]
  {
    var max := MaxOf(data);
    var k :| 0 <= k < |data| && data[k] == max;
  }

  /** `renderFrame`: resize, background, then the bar loop with its running
      `x`. */
  method RenderFrame(ctx: Context, data: seq<Byte>, rolls: seq<Roll>, boxWidth: real, boxHeight: real)
    requires |data| == BinCount && |rolls| == BarCount
    requires boxWidth >= 0.0 && boxHeight >= 0.0
    modifies ctx
    ensures ctx.log == old(ctx.log) + Frame(data, rolls, boxWidth, boxHeight)
  {
    var width := PixelSize(boxWidth);
    var height := PixelSize(boxHeight);
    ctx.log := ctx.log + [Resize(width, height)];
    var barWidth := BarWidth(width, height, |data|);
    var x := 0.0;
    ctx.log := ctx.log + [FillRect(0.0, 0.0, width as real, height as real, Backdrop)];
    var max := MaxOf(data);
    ghost var head := ctx.log;
    var i := 0;
    while i < BarCount
      invariant 0 <= i <= BarCount
      invariant x == Scaled(i, barWidth + 1.0)
      invariant ctx.log == head + if max > 0 then Bars(data, rolls, barWidth, height, max, i) else []
    {
      var style := BarColor(data[i], rolls[i]);
      if max > 0 {
        BarsStep(data, rolls, barWidth, height, max, i, x);
        var barHeight := BarHeight(data[i], max);
        ctx.log := ctx.log + [FillRect(x, height as real - barHeight, barWidth, barHeight, style)];
      }
      x := x + barWidth + 1.0;
      i := i + 1;
    }
  }
}
