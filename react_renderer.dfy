/** The React renderer of src/AudioVisualizer.tsx: three draw styles on a
    fixed 15 px column, a three-tier colour rule, and the per-frame dispatch
    with the rainbow colour. */
module ReactRenderer {

  import opened Wrappers
  import opened Colour
  import opened Canvas


  // ---------------------------------------------------------------------
  // dataToRgb

  /** The factor the tiers give a byte, stated by ranges. */
  function TierFactor(val: int): real
  {
    if 157 <= val then 0.50
    else if 129 <= val <= 156 then 0.33
    else if 97 <= val <= 128 then 0.25
    else 0.0
  }

  /** The colour `dataToRgb` makes of `val` on `base`: the first tier whose
      threshold `val` exceeds applies its shade, once, and a weak signal
      leaves the base as it is. */
  function TierShade(val: int, base: Color): (c: Color)
    ensures c == Shaded(base, val as real, TierFactor(val))
    ensures val <= 96 ==> c == base
  {
    if val > 156 then Shaded(base, val as real, 0.50)
    else if val > 128 then Shaded(base, val as real, 0.33)
    else if val > 96 then Shaded(base, val as real, 0.25)
    else base
  }

  /** The tier boundaries as the code has them: 156 is still in the 0.33
      tier and 128 in the 0.25 tier. */
  lemma TierBoundaries()
    ensures TierFactor(96) == 0.0 && TierFactor(97) == 0.25 && TierFactor(128) == 0.25
    ensures TierFactor(129) == 0.33 && TierFactor(156) == 0.33 && TierFactor(157) == 0.50
    ensures TierShade(200, Color(128.0, 0.0, 255.0)) == Color(155.5, 27.5, 282.5)
  {
  }

  /** The shared rainbow colour after `dataToRgb` ran on each of `vals`
      in turn, starting from `start`. */
  function After(vals: seq<Byte>, start: Color): Color
    decreases |vals|
  {
    if vals == [] then start else TierShade(vals[|vals| - 1], After(vals[..|vals| - 1], start))
  }

  /** The colour of each sample of a frame. With rainbow on, every call
      shades the same object further; with it off, every call starts from
      a fresh parse of the hex colour. */
  function Palette(data: seq<Byte>, rainbow: bool, cursor: Color, hex: string): (p: seq<Color>)
    ensures |p| == |data|
  {
    seq(|data|, i requires 0 <= i < |data| =>
      if rainbow then After(data[..i + 1], cursor) else TierShade(data[i], HexColor(hex)))
  }

  /** Sample `i`'s colour: with rainbow on, the shared colour as the
      samples before it left it, shaded once more. */
  lemma PaletteAt(data: seq<Byte>, rainbow: bool, cursor: Color, hex: string, i: nat)
    requires i < |data|
    ensures Palette(data, rainbow, cursor, hex)[i]
      == TierShade(data[i], if rainbow then After(data[..i], cursor) else HexColor(hex))
  {
    assert data[..i + 1][..i] == data[..i];
  }

  /** One more call of `dataToRgb` in a draw loop: the colour it returns is
      the palette's next entry, and the shared colour moves on by one
      sample. */
  lemma PaletteStep(data: seq<Byte>, rainbow: bool, cursor: Color, hex: string, i: nat, before: Color)
    requires i < |data|
    requires before == if rainbow then After(data[..i], cursor) else cursor
    ensures Palette(data, rainbow, cursor, hex)[i] == TierShade(data[i], if rainbow then before else HexColor(hex))
    ensures (if rainbow then TierShade(data[i], before) else before)
      == if rainbow then After(data[..i + 1], cursor) else cursor
  {
    assert data[..i + 1][..i] == data[..i];
  }

  /** With rainbow off a sample's colour depends on its value alone. */
  lemma FixedPalette(data: seq<Byte>, cursor: Color, hex: string, i: nat, j: nat)
    requires i < |data| && j < |data| && data[i] == data[j]
    ensures Palette(data, false, cursor, hex)[i] == Palette(data, false, cursor, hex)[j]
    ensures Palette(data, false, cursor, hex)[i] == TierShade(data[i], HexColor(hex))
  {
  }

  /** With rainbow off the shared colour plays no part. */
  lemma FixedPaletteIgnoresCursor(data: seq<Byte>, cursor: Color, other: Color, hex: string)
    ensures Palette(data, false, cursor, hex) == Palette(data, false, other, hex)
  {
  }

  /** With rainbow on, shading accumulates: while the samples stay in the
      shaded tiers (97..254) every colour is strictly brighter than the one
      before it. */
  lemma RainbowAccumulates(data: seq<Byte>, cursor: Color, hex: string, i: nat)
    requires i + 1 < |data| && 97 <= data[i + 1] <= 254
    ensures var p := Palette(data, true, cursor, hex);
      p[i + 1].r > p[i].r && p[i + 1].g > p[i].g && p[i + 1].b > p[i].b
  {
    assert data[..i + 2][..i + 1] == data[..i + 1];
  }

  // ---------------------------------------------------------------------
  // Layout

  /** `data[i] * (height / scaling)` with `scaling` 256; the product is
      written as `Scaled`, and `BarHeightBounds` states it outright. */
  function BarHeight(v: Byte, height: real): real
  {
    Scaled(v, height / 256.0)
  }

  /** The running `y` before sample `i` is drawn: the canvas bottom, then
      the height of the previous sample. */
  function WaveY(data: seq<Byte>, height: real, i: nat): real
    requires i <= |data|
  {
    if i == 0 then height else height - BarHeight(data[i - 1], height)
  }

  /** Left edge of column `i`: every column is 15 px wide, whatever the
      buffer length or canvas width. */
  function Left(i: nat): real { i as real * 15.0 }

  function Bar(data: seq<Byte>, height: real, palette: seq<Color>, i: nat): Command
    requires i < |data| == |palette|
  {
    var h := BarHeight(data[i], height);
    FillRect(Left(i), height - h, 15.0, h, palette[i])
  }

  function SegmentFrom(data: seq<Byte>, height: real, i: nat): Point
    requires i < |data|
  {
    Point(Left(i), WaveY(data, height, i))
  }

  function SegmentTo(data: seq<Byte>, height: real, i: nat): Point
    requires i < |data|
  {
    Point(Left(i) + 15.0, WaveY(data, height, i + 1))
  }

  /** What `drawBars` draws for the first `n` samples. */
  function Bars(data: seq<Byte>, height: real, palette: seq<Color>, n: nat): seq<Command>
    requires n <= |data| == |palette|
  {
    if n == 0 then [] else Bars(data, height, palette, n - 1) + [Bar(data, height, palette, n - 1)]
  }

  /** What `drawWave` draws for the first `n` samples. */
  function Wave(data: seq<Byte>, height: real, palette: seq<Color>, n: nat): seq<Command>
    requires n <= |data| == |palette|
  {
    if n == 0 then []
    else Wave(data, height, palette, n - 1)
         + [Stroke(SegmentFrom(data, height, n - 1), SegmentTo(data, height, n - 1), 4.0, palette[n - 1])]
  }

  /** The area under segment `i`, down to the canvas bottom. */
  function Under(data: seq<Byte>, height: real, i: nat): seq<Point>
    requires i < |data|
  {
    [SegmentFrom(data, height, i), SegmentTo(data, height, i), Point(Left(i) + 15.0, height), Point(Left(i), height)]
  }

  /** What `drawFilledWave` draws for the first `n` samples. */
  function FilledWave(data: seq<Byte>, height: real, palette: seq<Color>, n: nat): seq<Command>
    requires n <= |data| == |palette|
  {
    if n == 0 then []
    else FilledWave(data, height, palette, n - 1)
         + [Stroke(SegmentFrom(data, height, n - 1), SegmentTo(data, height, n - 1), 2.0, palette[n - 1]),
            FillPath(Under(data, height, n - 1), palette[n - 1])]
  }

  lemma {:induction false} BarsAt(data: seq<Byte>, height: real, palette: seq<Color>, n: nat)
    requires n <= |data| == |palette|
    ensures |Bars(data, height, palette, n)| == n
    ensures forall i :: 0 <= i < n ==> Bars(data, height, palette, n)[i] == Bar(data, height, palette, i)
  {
    if n > 0 {
      BarsAt(data, height, palette, n - 1);
    }
  }

  /** A byte scaled by `height / 256` stays within the canvas height. */
  lemma BarHeightBounds(v: Byte, height: real)
    requires height > 0.0
    ensures BarHeight(v, height) == v as real * (height / 256.0)
    ensures 0.0 <= BarHeight(v, height) < height
  {
    var unit := height / 256.0;
    var rest := 256.0 - v as real;
    ScaledIsProduct(v, unit);
    assert rest * unit > 0.0;
    assert v as real * unit >= 0.0;
    assert v as real * unit + rest * unit == height;
  }

  /** A louder sample never gives a shorter bar, and on a canvas with a
      height a strictly louder one gives a strictly taller bar. */
  lemma BarHeightMonotone(v: Byte, w: Byte, height: real)
    requires v <= w && height >= 0.0
    ensures BarHeight(v, height) <= BarHeight(w, height)
    ensures v < w && height > 0.0 ==> BarHeight(v, height) < BarHeight(w, height)
  {
    ScaledMonotone(v, w, height / 256.0);
  }

  /** One more iteration of `drawBars`, as the loop computes it. */
  lemma BarsStep(data: seq<Byte>, height: real, palette: seq<Color>, i: nat)
    requires i < |data| == |palette|
    ensures Bars(data, height, palette, i + 1) == Bars(data, height, palette, i)
      + [FillRect(i as real * 15.0, height - BarHeight(data[i], height), 15.0, BarHeight(data[i], height), palette[i])]
  {
  }

  /** `drawBars` draws one rectangle per sample, whatever the canvas width:
      rectangle `i` is 15 wide at `x = 15i`, stands on the canvas bottom,
      is `data[i] * height / 256` high, and is lower than the canvas when
      the canvas has a height. */
  lemma BarsLayout(data: seq<Byte>, height: real, palette: seq<Color>)
    requires |data| == |palette|
    ensures |Bars(data, height, palette, |data|)| == |data|
    ensures forall i :: 0 <= i < |data| ==>
      var c := Bars(data, height, palette, |data|)[i];
      && c.FillRect? && c.x == 15.0 * i as real && c.w == 15.0 && c.style == palette[i]
      && c.h == BarHeight(data[i], height) && c.y + c.h == height
      && (height > 0.0 ==> 0.0 <= c.h < height)
  {
    BarsAt(data, height, palette, |data|);
    forall i | 0 <= i < |data| && height > 0.0
      ensures 0.0 <= BarHeight(data[i], height) < height
    {
      BarHeightBounds(data[i], height);
    }
  }

  lemma {:induction false} WaveAt(data: seq<Byte>, height: real, palette: seq<Color>, n: nat)
    requires n <= |data| == |palette|
    ensures |Wave(data, height, palette, n)| == n
    ensures forall i :: 0 <= i < n ==>
      Wave(data, height, palette, n)[i] == Stroke(SegmentFrom(data, height, i), SegmentTo(data, height, i), 4.0, palette[i])
  {
    if n > 0 {
      WaveAt(data, height, palette, n - 1);
    }
  }

  /** One more iteration of `drawWave`, as the loop computes it from its
      running `x` and `y`. */
  lemma WaveStep(data: seq<Byte>, height: real, palette: seq<Color>, i: nat, x: real, y: real)
    requires i < |data| == |palette|
    requires x == i as real * 15.0 && y == WaveY(data, height, i)
    ensures WaveY(data, height, i + 1) == height - BarHeight(data[i], height)
    ensures Wave(data, height, palette, i + 1) == Wave(data, height, palette, i)
      + [Stroke(Point(x, y), Point(x + 15.0, height - BarHeight(data[i], height)), 4.0, palette[i])]
  {
  }

  /** One more iteration of `drawFilledWave`, as the loop computes it from
      its running `x` and `y`. */
  lemma FilledWaveStep(data: seq<Byte>, height: real, palette: seq<Color>, i: nat, x: real, y: real)
    requires i < |data| == |palette|
    requires x == i as real * 15.0 && y == WaveY(data, height, i)
    ensures WaveY(data, height, i + 1) == height - BarHeight(data[i], height)
    ensures FilledWave(data, height, palette, i + 1) == FilledWave(data, height, palette, i)
      + [Stroke(Point(x, y), Point(x + 15.0, height - BarHeight(data[i], height)), 2.0, palette[i]),
         FillPath([Point(x, y), Point(x + 15.0, height - BarHeight(data[i], height)),
                   Point(x + 15.0, height), Point(x, height)], palette[i])]
  {
  }

  /** `drawWave` draws one segment per sample, 4 wide: segment `i` runs from
      `(15i, y(i-1))` to `(15i+15, y(i))` where `y(i)` is
      `height - data[i] * height / 256` and `y(-1)` the canvas bottom, so
      each segment starts where the one before it ended. */
  lemma WaveLayout(data: seq<Byte>, height: real, palette: seq<Color>)
    requires |data| == |palette|
    ensures |Wave(data, height, palette, |data|)| == |data|
    ensures forall i :: 0 <= i < |data| ==>
      var c := Wave(data, height, palette, |data|)[i];
      && c.Stroke? && c.lineWidth == 4.0 && c.style == palette[i]
      && c.from.x == 15.0 * i as real && c.to.x == c.from.x + 15.0
      && c.to.y == height - BarHeight(data[i], height)
      && c.from.y == (if i == 0 then height else height - BarHeight(data[i - 1], height))
    ensures forall i :: 0 <= i < |data| - 1 ==> SegmentTo(data, height, i) == SegmentFrom(data, height, i + 1)
  {
    WaveAt(data, height, palette, |data|);
  }

  lemma {:induction false} FilledWaveAt(data: seq<Byte>, height: real, palette: seq<Color>, n: nat)
    requires n <= |data| == |palette|
    ensures |FilledWave(data, height, palette, n)| == 2 * n
    ensures forall i :: 0 <= i < n ==>
      && FilledWave(data, height, palette, n)[2 * i]
         == Stroke(SegmentFrom(data, height, i), SegmentTo(data, height, i), 2.0, palette[i])
      && FilledWave(data, height, palette, n)[2 * i + 1] == FillPath(Under(data, height, i), palette[i])
  {
    if n > 0 {
      FilledWaveAt(data, height, palette, n - 1);
    }
  }

  /** `drawFilledWave` draws, per sample, the `drawWave` segment 2 wide and
      then fills the quadrilateral between it and the canvas bottom in the
      same colour. */
  lemma FilledWaveLayout(data: seq<Byte>, height: real, palette: seq<Color>)
    requires |data| == |palette|
    ensures |FilledWave(data, height, palette, |data|)| == 2 * |data|
    ensures forall i :: 0 <= i < |data| ==>
      var s := FilledWave(data, height, palette, |data|)[2 * i];
      var f := FilledWave(data, height, palette, |data|)[2 * i + 1];
      && s.Stroke? && s.lineWidth == 2.0 && s.style == palette[i]
      && s.from == SegmentFrom(data, height, i) && s.to == SegmentTo(data, height, i)
      && f.FillPath? && f.style == s.style
      && f.points == [s.from, s.to, Point(s.to.x, height), Point(s.from.x, height)]
  {
    FilledWaveAt(data, height, palette, |data|);
  }

  /** The names the `draw` switch has a case for. */
  predicate DrawsStyle(draw: string)
  {
    draw == "bars" || draw == "wave" || draw == "filled-wave"
  }

  /** What the `draw` switch draws with `palette`: one of the three styles,
      and nothing for any other name. */
  function Styled(data: seq<Byte>, draw: string, height: real, palette: seq<Color>): (cs: seq<Command>)
    requires |data| == |palette|
    ensures draw == "bars" || draw == "wave" ==> |cs| == |data|
    ensures draw == "filled-wave" ==> |cs| == 2 * |data|
    ensures !DrawsStyle(draw) ==> cs == []
  {
    if draw == "bars" then BarsAt(data, height, palette, |data|); Bars(data, height, palette, |data|)
    else if draw == "wave" then WaveAt(data, height, palette, |data|); Wave(data, height, palette, |data|)
    else if draw == "filled-wave" then FilledWaveAt(data, height, palette, |data|); FilledWave(data, height, palette, |data|)
    else []
  }

  /** What one `componentDidUpdate` draws after resizing: the rainbow colour
      is rebuilt from the hex colour and stepped once, so every frame starts
      from the same colour. */
  function Frame(data: seq<Byte>, draw: string, rainbow: bool, hex: string, height: real): seq<Command>
  {
    Styled(data, draw, height, Palette(data, rainbow, Cycled(HexColor(hex)), hex))
  }

  /** The component: its props, the fields `componentDidUpdate` writes, and
      the shared rainbow colour. */
  class AudioVisualizer {
    const ctx: Context
    var data: seq<Byte>
    var colorHex: string
    var draw: string
    var rainbow: bool
    var height: real
    var width: real
    var color: Rgb?

    constructor (ctx: Context, data: seq<Byte>, colorHex: string, draw: string, rainbow: bool)
      ensures this.ctx == ctx && this.data == data && this.colorHex == colorHex
      ensures this.draw == draw && this.rainbow == rainbow && color == null
    {
      this.ctx := ctx;
      this.data, this.colorHex, this.draw, this.rainbow := data, colorHex, draw, rainbow;
      height, width := 0.0, 0.0;
      color := null;
    }

    /** The rainbow colour, when there is one. */
    function Cursor(): Color
      reads this, color
    {
      if color == null then Color(0.0, 0.0, 0.0) else color.Value()
    }

    /** Throws for a value outside 0..255. Otherwise shades either a fresh
        parse of the hex colour or, with rainbow on, the shared colour in
        place, and returns the colour whose text becomes the style. */
    method DataToRgb(val: int) returns (res: Result<Color>)
      requires rainbow ==> color != null
      modifies color
      ensures res == if 0 <= val <= 255
        then Ok(TierShade(val, if rainbow then old(Cursor()) else HexColor(colorHex)))
        else Err(IllegalArgument)
      ensures Cursor() == if rainbow && 0 <= val <= 255 then TierShade(val, old(Cursor())) else old(Cursor())
    {
      if val < 0 || val > 255 {
        return Err(IllegalArgument);
      }
      var rgb: Rgb;
      if rainbow {
        rgb := color;
      } else {
        rgb := Rgb.FromHex(colorHex);
      }
      var outcome: Outcome;
      if val > 156 {
        outcome := rgb.Shade(val as real, 0.50);
      } else if val > 128 {
        outcome := rgb.Shade(val as real, 0.33);
      } else if val > 96 {
        outcome := rgb.Shade(val as real, 0.25);
      }
      res := Ok(rgb.Value());
    }

    /** One call of `dataToRgb` in a draw loop, on sample `i` of `data`:
        the colour it returns is the palette's entry `i`, and the shared
        colour moves on past that sample. */
    method NextStyle(data: seq<Byte>, i: nat, ghost start: Color) returns (style: Color)
      requires i < |data| && (rainbow ==> color != null)
      requires Cursor() == if rainbow then After(data[..i], start) else start
      modifies color
      ensures style == Palette(data, rainbow, start, colorHex)[i]
      ensures Cursor() == if rainbow then After(data[..i + 1], start) else start
    {
      ghost var before := Cursor();
      var res := DataToRgb(data[i]);
      PaletteStep(data, rainbow, start, colorHex, i, before);
      style := res.value;
    }

    method DrawBars()
      requires rainbow ==> color != null
      modifies ctx, color
      ensures ctx.log == old(ctx.log) + Bars(data, height, Palette(data, rainbow, old(Cursor()), colorHex), |data|)
      ensures Cursor() == if rainbow then After(data, old(Cursor())) else old(Cursor())
    {
      var data := this.data;
      var height := this.height;
      ghost var start := Cursor();
      ghost var palette := Palette(data, rainbow, start, colorHex);
      var i := 0;
      while i < |data|
        invariant 0 <= i <= |data|
        invariant ctx.log == old(ctx.log) + Bars(data, height, palette, i)
        invariant Cursor() == if rainbow then After(data[..i], start) else start
      {
        var style := NextStyle(data, i, start);
        DrawBar(data, height, palette, i, style, old(ctx.log));
        i := i + 1;
      }
      assert data[..|data|] == data;
    }

    /** One iteration of `drawBars`: the rectangle of sample `i`. */
    method DrawBar(data: seq<Byte>, height: real, ghost palette: seq<Color>, i: nat, style: Color,
                   ghost before: seq<Command>)
      requires i < |data| == |palette| && style == palette[i]
      requires ctx.log == before + Bars(data, height, palette, i)
      modifies ctx
      ensures ctx.log == before + Bars(data, height, palette, i + 1)
    {
      BarsStep(data, height, palette, i);
      var barHeight := BarHeight(data[i], height);
      ctx.log := ctx.log + [FillRect(i as real * 15.0, height - barHeight, 15.0, barHeight, style)];
    }

    method DrawFilledWave()
      requires rainbow ==> color != null
      modifies ctx, color
      ensures ctx.log == old(ctx.log) + FilledWave(data, height, Palette(data, rainbow, old(Cursor()), colorHex), |data|)
      ensures Cursor() == if rainbow then After(data, old(Cursor())) else old(Cursor())
    {
      var data := this.data;
      var height := this.height;
      ghost var start := Cursor();
      ghost var palette := Palette(data, rainbow, start, colorHex);
      var x := 0.0;
      var y := height;
      var i := 0;
      while i < |data|
        invariant 0 <= i <= |data|
        invariant x == i as real * 15.0 && y == WaveY(data, height, i)
        invariant ctx.log == old(ctx.log) + FilledWave(data, height, palette, i)
        invariant Cursor() == if rainbow then After(data[..i], start) else start
      {
        var style := NextStyle(data, i, start);
        y := FillSegment(data, height, palette, i, x, y, style, old(ctx.log));
        x := x + 15.0;
        i := i + 1;
      }
      assert data[..|data|] == data;
    }

    /** One iteration of `drawFilledWave`: the segment from the running
        point, then the area under it, in the sample's colour; returns the
        next running `y`. */
    method FillSegment(data: seq<Byte>, height: real, ghost palette: seq<Color>, i: nat, x: real, y: real, style: Color,
                       ghost before: seq<Command>)
      returns (next: real)
      requires i < |data| == |palette| && style == palette[i]
      requires x == i as real * 15.0 && y == WaveY(data, height, i)
      requires ctx.log == before + FilledWave(data, height, palette, i)
      modifies ctx
      ensures next == WaveY(data, height, i + 1)
      ensures ctx.log == before + FilledWave(data, height, palette, i + 1)
    {
      FilledWaveStep(data, height, palette, i, x, y);
      next := height - BarHeight(data[i], height);
      var from, to := Point(x, y), Point(x + 15.0, next);
      ctx.log := ctx.log + [Stroke(from, to, 2.0, style), FillPath([from, to, Point(x + 15.0, height), Point(x, height)], style)];
    }

    method DrawWave()
      requires rainbow ==> color != null
      modifies ctx, color
      ensures ctx.log == old(ctx.log) + Wave(data, height, Palette(data, rainbow, old(Cursor()), colorHex), |data|)
      ensures Cursor() == if rainbow then After(data, old(Cursor())) else old(Cursor())
    {
      var data := this.data;
      var height := this.height;
      ghost var start := Cursor();
      ghost var palette := Palette(data, rainbow, start, colorHex);
      var x := 0.0;
      var y := height;
      var i := 0;
      while i < |data|
        invariant 0 <= i <= |data|
        invariant x == i as real * 15.0 && y == WaveY(data, height, i)
        invariant ctx.log == old(ctx.log) + Wave(data, height, palette, i)
        invariant Cursor() == if rainbow then After(data[..i], start) else start
      {
        var style := NextStyle(data, i, start);
        y := StrokeSegment(data, height, palette, i, x, y, style, old(ctx.log));
        x := x + 15.0;
        i := i + 1;
      }
      assert data[..|data|] == data;
    }

    /** One iteration of `drawWave`: the segment from the running point in
        the sample's colour; returns the next running `y`. */
    method StrokeSegment(data: seq<Byte>, height: real, ghost palette: seq<Color>, i: nat, x: real, y: real, style: Color,
                         ghost before: seq<Command>)
      returns (next: real)
      requires i < |data| == |palette| && style == palette[i]
      requires x == i as real * 15.0 && y == WaveY(data, height, i)
      requires ctx.log == before + Wave(data, height, palette, i)
      modifies ctx
      ensures next == WaveY(data, height, i + 1)
      ensures ctx.log == before + Wave(data, height, palette, i + 1)
    {
      WaveStep(data, height, palette, i, x, y);
      next := height - BarHeight(data[i], height);
      ctx.log := ctx.log + [Stroke(Point(x, y), Point(x + 15.0, next), 4.0, style)];
    }

    /** One frame: resize the canvas to its layout box, rebuild the rainbow
        colour when rainbow is on, and draw the selected style. */
    method ComponentDidUpdate(boxWidth: real, boxHeight: real)
      requires boxWidth >= 0.0 && boxHeight >= 0.0
      modifies this, ctx, color
      ensures data == old(data) && colorHex == old(colorHex) && draw == old(draw) && rainbow == old(rainbow)
      ensures height == boxHeight && width == boxWidth
      ensures ctx.log == old(ctx.log) + [Resize(PixelSize(boxWidth), PixelSize(boxHeight))]
                         + Frame(data, draw, rainbow, colorHex, boxHeight)
      ensures rainbow ==> fresh(color)
      ensures rainbow ==> Cursor() == if DrawsStyle(draw)
        then After(data, Cycled(HexColor(colorHex))) else Cycled(HexColor(colorHex))
      ensures !rainbow ==> color == old(color) && Cursor() == old(Cursor())
    {
      ctx.log := ctx.log + [Resize(PixelSize(boxWidth), PixelSize(boxHeight))];
      height := boxHeight;
      width := boxWidth;
      if rainbow {
        var base := Rgb.FromHex(colorHex);
        color := Rgb.Random(base);
      } else {
        FixedPaletteIgnoresCursor(data, Cursor(), Cycled(HexColor(colorHex)), colorHex);
      }
      assert Palette(data, rainbow, Cursor(), colorHex) == Palette(data, rainbow, Cycled(HexColor(colorHex)), colorHex);
      DrawSelected();
    }

    /** The `draw` switch: the selected style with the palette the shared
        colour gives, moving the shared colour on past every sample when
        rainbow is on; any other style draws nothing and leaves the shared
        colour as it was. */
    method DrawSelected()
      requires rainbow ==> color != null
      modifies ctx, color
      ensures ctx.log == old(ctx.log) + Styled(data, draw, height, Palette(data, rainbow, old(Cursor()), colorHex))
      ensures Cursor() == if rainbow && DrawsStyle(draw) then After(data, old(Cursor())) else old(Cursor())
    {
      if draw == "bars" {
        DrawBars();
      } else if draw == "wave" {
        DrawWave();
      } else if draw == "filled-wave" {
        DrawFilledWave();
      }
    }
  }
}
