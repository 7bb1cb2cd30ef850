/** The plain-script renderer of src/visualize.js: one colour tier, bars on a
    10 px step, a per-pixel wave, and the oscilloscope with its trigger
    search. The analyser buffers, the colour input's value, the draw-type
    label and the canvas box are parameters. */
module ScriptRenderer {

  import opened Wrappers
  import opened Colour
  import opened Canvas

  function Min(a: int, b: int): (m: int)
    ensures m <= a && m <= b && (m == a || m == b)
  {
    if a <= b then a else b
  }

  /** A typed-array read: past the end it yields `undefined`. */
  function Read(s: seq<Byte>, i: int): (v: Option<Byte>)
    ensures v.Some? <==> 0 <= i < |s|
    ensures v.Some? ==> v.value == s[i]
  {
    if 0 <= i < |s| then Some(s[i]) else None
  }

  /** How many times `for (let x = 0; x < width; ++x)` runs: the integers
      in `[0, width)`. */
  function Columns(width: real): (c: nat)
    ensures width <= 0.0 ==> c == 0
    ensures width > 0.0 ==> (c - 1) as real < width <= c as real
  {
    if width <= 0.0 then 0
    else if width.Floor as real == width then width.Floor
    else width.Floor + 1
  }

  /** A loop counter `n` passes the test `n < width` exactly while it is
      below `Columns(width)`. */
  lemma ColumnsBelow(n: nat, width: real)
    ensures n as real < width <==> n < Columns(width)
  {
  }

  // ---------------------------------------------------------------------
  // hexToRgb and uint8ToRgb

  /** `hexToRgb`: the colour input's value without its first character
      (the `#`), parsed in base 16 and split into bytes. */
  function LegacyBase(colorValue: string): (c: Color)
    ensures Integral(c) && NonNegative(c)
    ensures c.r < 256.0 && c.g < 256.0 && c.b < 256.0
  {
    HexColor(if colorValue == [] then [] else colorValue[1..])
  }

  lemma LegacyBasePurple()
    ensures LegacyBase("#8000ff") == Color(128.0, 0.0, 255.0)
  {
    assert "#8000ff"[1..] == "8000ff";
    HexColorPurple();
  }

  /** `uint8ToRgb`: a single tier over `base`, which is
      `hexToRgb()` of the `color` input's value (every call parses the same
      value within a frame). A sample above 96 brightens every channel by
      `(255 - x) / 2`; a weaker sample, or none at all, leaves the base as
      it is. */
  function Uint8ToRgb(x: Option<Byte>, base: Color): (c: Color)
    ensures x.None? || x.value <= 96 ==> c == base
    ensures x.Some? && x.value > 96 ==>
      var lift := (255 - x.value) as real * 0.50;
      c == Color(base.r + lift, base.g + lift, base.b + lift)
  {
    if x.Some? && x.value > 96 then Shaded(base, x.value as real, 0.50)
    else base
  }

  /** For samples above 156 both renderers use the 0.50 tier, so they agree
      on a colour given with and without its `#`. Below that they part:
      between 97 and 156 this one still adds half of `255 - x`. */
  lemma TopTierAgrees(x: Byte, hex: string)
    ensures x > 156 ==> Uint8ToRgb(Some(x), LegacyBase(['#'] + hex)) == Shaded(HexColor(hex), x as real, 0.50)
    ensures 96 < x <= 156 ==> Uint8ToRgb(Some(x), LegacyBase(['#'] + hex)) != Shaded(HexColor(hex), x as real, 0.33)
  {
    assert (['#'] + hex)[1..] == hex;
  }

  // ---------------------------------------------------------------------
  // drawWave

  /** Where a sample puts the line: `height - x * height / 256` (the
      product is `Scaled`, see `LevelIsProduct`). */
  function Level(v: Byte, height: real): real
  {
    height - Scaled(v, height / 256.0)
  }

  lemma LevelIsProduct(v: Byte, height: real)
    ensures Level(v, height) == height - v as real * (height / 256.0)
  {
    ScaledIsProduct(v, height / 256.0);
  }

  /** The running `y` before column `x`: the canvas bottom, the level of
      the previous sample, or NaN once the previous read was past the end. */
  function PrevY(freqs: seq<Byte>, height: real, x: nat): Option<real>
  {
    if x == 0 then Some(height)
    else if x - 1 < |freqs| then Some(Level(freqs[x - 1], height))
    else None
  }

  /** The vertical stroke of column `x`. */
  function WaveColumn(freqs: seq<Byte>, base: Color, height: real, x: nat): Command
    requires x < |freqs|
  {
    Stroke(Point(x as real, if x == 0 then height else Level(freqs[x - 1], height)),
           Point(x as real, Level(freqs[x], height)), 2.0, Uint8ToRgb(Some(freqs[x]), base))
  }

  /** What `drawWave` draws for the first `n` columns. */
  function Wave(freqs: seq<Byte>, base: Color, height: real, n: nat): seq<Command>
    requires n <= |freqs|
  {
    if n == 0 then [] else Wave(freqs, base, height, n - 1) + [WaveColumn(freqs, base, height, n - 1)]
  }

  lemma {:induction false} WaveAt(freqs: seq<Byte>, base: Color, height: real, n: nat)
    requires n <= |freqs|
    ensures |Wave(freqs, base, height, n)| == n
    ensures forall x :: 0 <= x < n ==> Wave(freqs, base, height, n)[x] == WaveColumn(freqs, base, height, x)
  {
    if n > 0 {
      WaveAt(freqs, base, height, n - 1);
    }
  }

  /** One more column of `drawWave`, as the loop computes it. */
  lemma ScriptWaveStep(freqs: seq<Byte>, base: Color, height: real, x: nat, v: Byte, y: real)
    requires x < |freqs| && v == freqs[x] && PrevY(freqs, height, x) == Some(y)
    ensures PrevY(freqs, height, x + 1) == Some(Level(v, height))
    ensures Wave(freqs, base, height, x + 1) == Wave(freqs, base, height, x)
      + [Stroke(Point(x as real, y), Point(x as real, Level(v, height)), 2.0, Uint8ToRgb(Some(v), base))]
  {
  }

  /** `drawWave` draws one vertical stroke per column, 2 wide, in column
      `x` itself: from the previous sample's level (the bottom for column
      0) to this sample's level, coloured by this sample. */
  lemma WaveLayout(freqs: seq<Byte>, base: Color, height: real, n: nat)
    requires n <= |freqs|
    ensures |Wave(freqs, base, height, n)| == n
    ensures forall x :: 0 <= x < n ==>
      var c := Wave(freqs, base, height, n)[x];
      && c.Stroke? && c.lineWidth == 2.0 && c.from.x == c.to.x == x as real
      && c.to.y == Level(freqs[x], height)
      && c.from.y == (if x == 0 then height else Level(freqs[x - 1], height))
      && c.style == Uint8ToRgb(Some(freqs[x]), base)
  {
    WaveAt(freqs, base, height, n);
  }

  /** The loop of `drawWave`, one column per pixel of width. Past the end
      of the buffer the new `y` is NaN, the canvas ignores the path, and
      nothing is drawn. */
  method DrawWave(ctx: Context, freqs: seq<Byte>, base: Color, width: real, height: real)
    modifies ctx
    ensures ctx.log == old(ctx.log) + Wave(freqs, base, height, Min(Columns(width), |freqs|))
  {
    var y: Option<real> := Some(height);
    var x := 0;
    while x as real < width
      invariant 0 <= x <= Columns(width)
      invariant y == PrevY(freqs, height, x)
      invariant ctx.log == old(ctx.log) + Wave(freqs, base, height, Min(x, |freqs|))
      decreases Columns(width) - x
    {
      ColumnsBelow(x, width);
      var sample := Read(freqs, x);
      var next: Option<real> := None;
      if sample.Some? {
        var v := sample.value;
        ScriptWaveStep(freqs, base, height, x, v, y.value);
        next := Some(Level(v, height));
        ctx.log := ctx.log + [Stroke(Point(x as real, y.value), Point(x as real, next.value), 2.0, Uint8ToRgb(Some(v), base))];
      }
      y := next;
      x := x + 1;
    }
    ColumnsBelow(x, width);
  }

  // ---------------------------------------------------------------------
  // drawBars

  /** How many multiples of 10 lie below `len`. */
  function Tens(len: nat): (t: nat)
    ensures len == 0 ==> t == 0
    ensures len > 0 ==> 10 * (t - 1) < len <= 10 * t
  {
    (len + 9) / 10
  }

  /** Bar `k` reads inside the buffer exactly while `k < Tens(len)`. */
  lemma TensBelow(k: nat, len: nat)
    ensures 10 * k < len <==> k < Tens(len)
  {
  }

  /** Bar `k`, at `x = 10k`. */
  function ScriptBar(freqs: seq<Byte>, base: Color, height: real, k: nat): Command
    requires 10 * k < |freqs|
  {
    var x := 10 * k;
    var v := freqs[x];
    var h := Scaled(v, height / 180.0);
    FillRect(x as real, height - h, 10.0, h, Uint8ToRgb(Some(v), base))
  }

  /** What `drawBars` draws for the first `n` bars. */
  function ScriptBars(freqs: seq<Byte>, base: Color, height: real, n: nat): seq<Command>
    requires n <= Tens(|freqs|)
  {
    if n == 0 then [] else ScriptBars(freqs, base, height, n - 1) + [ScriptBar(freqs, base, height, n - 1)]
  }

  lemma {:induction false} ScriptBarsAt(freqs: seq<Byte>, base: Color, height: real, n: nat)
    requires n <= Tens(|freqs|)
    ensures |ScriptBars(freqs, base, height, n)| == n
    ensures forall k :: 0 <= k < n ==> ScriptBars(freqs, base, height, n)[k] == ScriptBar(freqs, base, height, k)
  {
    if n > 0 {
      ScriptBarsAt(freqs, base, height, n - 1);
    }
  }

  /** One more iteration of `drawBars`, as the loop computes it. */
  lemma ScriptBarsStep(freqs: seq<Byte>, base: Color, height: real, k: nat, x: nat, v: Byte)
    requires x == 10 * k < |freqs| && v == freqs[x]
    ensures k < Tens(|freqs|)
    ensures ScriptBars(freqs, base, height, k + 1) == ScriptBars(freqs, base, height, k)
      + [FillRect(x as real, height - Scaled(v, height / 180.0), 10.0, Scaled(v, height / 180.0),
                  Uint8ToRgb(Some(v), base))]
  {
    TensBelow(k, |freqs|);
    assert ScriptBars(freqs, base, height, k + 1)
      == ScriptBars(freqs, base, height, k) + [ScriptBar(freqs, base, height, k)];
    assert ScriptBar(freqs, base, height, k).x == x as real;
    assert ScriptBar(freqs, base, height, k).h == Scaled(v, height / 180.0);
    assert ScriptBar(freqs, base, height, k).style == Uint8ToRgb(Some(v), base);
  }

  /** Scaling by `height / 180` lets a sample above 180 overshoot the top of
      the canvas; 180 and below stay within it. */
  lemma BarOvershoot(v: Byte, height: real)
    requires height > 0.0
    ensures Scaled(v, height / 180.0) == v as real * (height / 180.0)
    ensures v > 180 ==> Scaled(v, height / 180.0) > height
    ensures v <= 180 ==> 0.0 <= Scaled(v, height / 180.0) <= height
  {
    var unit := height / 180.0;
    ScaledIsProduct(v, unit);
    assert unit > 0.0 && v as real * unit >= 0.0;
    assert v as real * unit - height == (v - 180) as real * unit;
    if v > 180 {
      assert (v - 180) as real * unit > 0.0;
    } else {
      assert (180 - v) as real * unit >= 0.0;
    }
  }

  /** `drawBars` draws bar `k` at `x = 10k`, 10 wide, standing on the canvas
      bottom, `freqs[10k] * height / 180` high, coloured by that sample. */
  lemma ScriptBarsLayout(freqs: seq<Byte>, base: Color, height: real, n: nat)
    requires n <= Tens(|freqs|)
    ensures |ScriptBars(freqs, base, height, n)| == n
    ensures forall k :: 0 <= k < n ==>
      var c := ScriptBars(freqs, base, height, n)[k];
      && c.FillRect? && c.x == 10.0 * k as real && c.w == 10.0 && c.y + c.h == height
      && c.h == Scaled(freqs[10 * k], height / 180.0)
      && c.style == Uint8ToRgb(Some(freqs[10 * k]), base)
  {
    ScriptBarsAt(freqs, base, height, n);
  }

  /** The loop of `drawBars`: `x` steps by 10 while below the width; a read
      past the end gives a NaN height, which the canvas ignores. */
  method DrawBars(ctx: Context, freqs: seq<Byte>, base: Color, width: real, height: real)
    modifies ctx
    ensures ctx.log == old(ctx.log) + ScriptBars(freqs, base, height, Min(Columns(width / 10.0), Tens(|freqs|)))
  {
    var x := 0;
    ghost var k := 0;
    while x as real < width
      invariant x == 10 * k && 0 <= k <= Columns(width / 10.0)
      invariant ctx.log == old(ctx.log) + ScriptBars(freqs, base, height, Min(k, Tens(|freqs|)))
      decreases width.Floor - x
    {
      ColumnsBelow(k, width / 10.0);
      TensBelow(k, |freqs|);
      var sample := Read(freqs, x);
      if sample.Some? {
        var v := sample.value;
        ScriptBarsStep(freqs, base, height, k, x, v);
        assert Min(k, Tens(|freqs|)) == k && Min(k + 1, Tens(|freqs|)) == k + 1;
        var barHeight := Scaled(v, height / 180.0);
        ctx.log := ctx.log + [FillRect(x as real, height - barHeight, 10.0, barHeight, Uint8ToRgb(Some(v), base))];
      } else {
        assert Min(k, Tens(|freqs|)) == Min(k + 1, Tens(|freqs|));
      }
      x, k := x + 10, k + 1;
    }
    ColumnsBelow(k, width / 10.0);
  }

  // ---------------------------------------------------------------------
  // drawOsc

  /** The two trigger scans: first past the samples above the midline,
      then past those less than 5 above it. */
  datatype Phase = Above | Below

  /** A scan's loop test on one sample; NaN compares false. */
  predicate Continues(phase: Phase, sample: Option<Byte>)
  {
    match sample
    case None => false
    case Some(v) => if phase == Above then v - 128 > 0 else v - 128 < 5
  }

  /** Where `while (test(time[r++]) && r <= width);` leaves `r` when it
      starts at `r`. */
  function Scan(time: seq<Byte>, width: real, r: nat, phase: Phase): (s: nat)
    ensures r < s
    decreases width.Floor - r
  {
    if Continues(phase, Read(time, r)) && (r + 1) as real <= width then Scan(time, width, r + 1, phase)
    else r + 1
  }

  /** `if (r >= width) r = 0;` */
  function Reset(r: nat, width: real): (t: nat)
    ensures t == 0 || t as real < width
    ensures r as real < width ==> t == r
  {
    if r as real >= width then 0 else r
  }

  /** The trigger origin `drawOsc` finds: 0 or strictly inside the width. */
  function Origin(time: seq<Byte>, width: real): (o: nat)
    ensures o == 0 || o as real < width
  {
    Reset(Scan(time, width, Reset(Scan(time, width, 0, Above), width), Below), width)
  }

  /** A scan always moves, and stops either because `r` passed the width or
      because the last sample read failed the test. */
  lemma {:induction false} ScanStops(time: seq<Byte>, width: real, r: nat, phase: Phase)
    ensures var s := Scan(time, width, r, phase);
      r < s && (s as real > width || !Continues(phase, Read(time, s - 1)))
    decreases width.Floor - r
  {
    if Continues(phase, Read(time, r)) && (r + 1) as real <= width {
      ScanStops(time, width, r + 1, phase);
    }
  }

  /** A nonzero origin within the buffer sits just after a sample at least
      5 above the midline: the second scan stopped on it. */
  lemma OriginAfterEdge(time: seq<Byte>, width: real)
    requires 0 < Origin(time, width) <= |time|
    ensures time[Origin(time, width) - 1] >= 133
  {
    var first := Reset(Scan(time, width, 0, Above), width);
    ScanStops(time, width, first, Below);
  }

  /** On a silent buffer at least as long as the width the second scan runs
      to the width. */
  lemma {:induction false} SilentScan(time: seq<Byte>, width: real, r: nat)
    requires forall i :: 0 <= i < |time| ==> time[i] == 128
    requires width <= |time| as real
    ensures Scan(time, width, r, Below) as real >= width
    decreases width.Floor - r
  {
    if Continues(Below, Read(time, r)) && (r + 1) as real <= width {
      SilentScan(time, width, r + 1);
    }
  }

  /** The polyline's points: sample `r + k` at `x = k`. */
  function OscPoints(time: seq<Byte>, height: real, r: nat, n: nat): seq<Point>
    requires n > 0 ==> r + n <= |time|
  {
    if n == 0 then [] else OscPoints(time, height, r, n - 1) + [Point((n - 1) as real, Level(time[r + n - 1], height))]
  }

  lemma {:induction false} OscPointsAt(time: seq<Byte>, height: real, r: nat, n: nat)
    requires n > 0 ==> r + n <= |time|
    ensures |OscPoints(time, height, r, n)| == n
    ensures forall k :: 0 <= k < n ==>
      OscPoints(time, height, r, n)[k] == Point(k as real, Level(time[r + k], height))
  {
    if n > 0 {
      OscPointsAt(time, height, r, n - 1);
    }
  }

  /** One more point of the drawing loop, as the loop computes it. */
  lemma OscPointsStep(time: seq<Byte>, height: real, r: nat, x: nat)
    requires r <= x < |time|
    ensures OscPoints(time, height, r, (x + 1) - r)
      == OscPoints(time, height, r, x - r) + [Point((x - r) as real, Level(time[x], height))]
  {
  }

  /** How many points the drawing loop visits from origin `r`. */
  function OscCount(len: nat, r: nat, width: real): (n: nat)
    ensures n > 0 ==> r + n <= len
  {
    if r >= len then 0 else Min(len - r, Columns(width))
  }

  /** What `drawOsc` strokes: one polyline, 2 wide, in the unshaded base
      colour. */
  function Osc(time: seq<Byte>, base: Color, width: real, height: real): (c: Command)
    ensures c.Polyline? && c.lineWidth == 2.0 && c.style == base
  {
    var r := Origin(time, width);
    Polyline(OscPoints(time, height, r, OscCount(|time|, r, width)), 2.0, base)
  }

  /** Silent data (every sample at the midline) no longer than the buffer:
      the origin is 0 and the line is flat at half the height, one point per
      pixel of width. */
  lemma SilentOsc(time: seq<Byte>, base: Color, width: real, height: real)
    requires forall i :: 0 <= i < |time| ==> time[i] == 128
    requires 0.0 <= width <= |time| as real
    ensures Origin(time, width) == 0
    ensures |Osc(time, base, width, height).points| == Columns(width)
    ensures forall k :: 0 <= k < Columns(width) ==> Osc(time, base, width, height).points[k].y == height / 2.0
  {
    SilentScan(time, width, Reset(Scan(time, width, 0, Above), width));
    var n := OscCount(|time|, 0, width);
    if 0 < |time| {
      assert n == Columns(width);
    }
    OscPointsAt(time, height, 0, n);
    LevelIsProduct(128, height);
  }

  /** The trigger search of `drawOsc`: the two post-increment scans, each
      followed by its reset. */
  method RisingEdge(time: seq<Byte>, width: real) returns (r: nat)
    ensures r == Origin(time, width)
    ensures r == 0 || r as real < width
    ensures 0 < r <= |time| ==> time[r - 1] >= 133
  {
    r := 0;
    var sample := Read(time, r);
    r := r + 1;
    while Continues(Above, sample) && r as real <= width
      invariant 1 <= r && sample == Read(time, r - 1)
      invariant Scan(time, width, 0, Above) == Scan(time, width, r - 1, Above)
      decreases width.Floor - r
    {
      sample := Read(time, r);
      r := r + 1;
    }
    if r as real >= width {
      r := 0;
    }
    ghost var first := r;
    sample := Read(time, r);
    r := r + 1;
    while Continues(Below, sample) && r as real <= width
      invariant 1 <= r && sample == Read(time, r - 1)
      invariant Scan(time, width, first, Below) == Scan(time, width, r - 1, Below)
      decreases width.Floor - r
    {
      sample := Read(time, r);
      r := r + 1;
    }
    if r as real >= width {
      r := 0;
    }
    if 0 < r <= |time| {
      OriginAfterEdge(time, width);
    }
  }

  /** `drawOsc`: in the base colour, from the trigger origin, one point per
      sample from the origin while inside the buffer and the width. */
  method DrawOsc(ctx: Context, time: seq<Byte>, base: Color, width: real, height: real)
    modifies ctx
    ensures ctx.log == old(ctx.log) + [Osc(time, base, width, height)]
  {
    var r := RisingEdge(time, width);
    var points := [];
    var x := r;
    while x < |time| && ((x - r) as real) < width
      invariant r <= x && (x <= |time| || x == r) && ctx.log == old(ctx.log)
      invariant x - r <= OscCount(|time|, r, width)
      invariant points == OscPoints(time, height, r, x - r)
      decreases |time| - x
    {
      ColumnsBelow(x - r, width);
      OscPointsStep(time, height, r, x);
      points := points + [Point((x - r) as real, Level(time[x], height))];
      x := x + 1;
    }
    ColumnsBelow(x - r, width);
    assert x - r == OscCount(|time|, r, width);
    ctx.log := ctx.log + [Polyline(points, 2.0, base)];
  }

  // ---------------------------------------------------------------------
  // renderFrame

  /** The background of every frame. */
  const Background := Color(22.0, 22.0, 22.0)

  /** What the selected style draws over the background. */
  function Styled(kind: string, time: seq<Byte>, freqs: seq<Byte>, colorValue: string, width: real, height: real): (cs: seq<Command>)
    ensures kind == "Oscilloscope" ==> |cs| == 1
    ensures kind == "Bar" ==> |cs| == Min(Columns(width / 10.0), Tens(|freqs|))
    ensures kind == "Wave" ==> |cs| == Min(Columns(width), |freqs|)
    ensures kind != "Oscilloscope" && kind != "Bar" && kind != "Wave" ==> cs == []
  {
    var base := LegacyBase(colorValue);
    if kind == "Oscilloscope" then [Osc(time, base, width, height)]
    else if kind == "Bar" then
      var n := Min(Columns(width / 10.0), Tens(|freqs|));
      ScriptBarsAt(freqs, base, height, n);
      ScriptBars(freqs, base, height, n)
    else if kind == "Wave" then
      var n := Min(Columns(width), |freqs|);
      WaveAt(freqs, base, height, n);
      Wave(freqs, base, height, n)
    else []
  }

  /** One frame: size the canvas to its box, fill the background, then draw
      the style the selector names, the oscilloscope from the time-domain
      buffer and the others from the frequency buffer. */
  method RenderFrame(ctx: Context, kind: string, time: seq<Byte>, freqs: seq<Byte>, colorValue: string,
                     boxWidth: real, boxHeight: real)
    requires boxWidth >= 0.0 && boxHeight >= 0.0
    modifies ctx
    ensures ctx.log == old(ctx.log)
      + [Resize(PixelSize(boxWidth), PixelSize(boxHeight)), FillRect(0.0, 0.0, boxWidth, boxHeight, Background)]
      + Styled(kind, time, freqs, colorValue, boxWidth, boxHeight)
  {
    var width := boxWidth;
    var height := boxHeight;
    ctx.log := ctx.log + [Resize(PixelSize(width), PixelSize(height)), FillRect(0.0, 0.0, width, height, Background)];
    var base := LegacyBase(colorValue);
    if kind == "Oscilloscope" {
      DrawOsc(ctx, time, base, width, height);
    } else if kind == "Bar" {
      DrawBars(ctx, freqs, base, width, height);
    } else if kind == "Wave" {
      DrawWave(ctx, freqs, base, width, height);
    }
  }
}
