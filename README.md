# Web audio visualizer — a Dafny model

This project models the drawing core of the web audio visualizer. Every
animation frame the visualizer takes one analyser buffer of unsigned bytes.
It colours each sample with a small colour model and paints bars, a wave, a
filled wave or an oscilloscope trace on a 2D canvas. Around that core sit
the React controls: the style selector and the page's step flow.

The model has one module per source file, plus three shared modules:

| module | file | models |
|---|---|---|
| `Wrappers` | `wrappers.dfy` | `Option`, `Result` and `Outcome`, for `undefined`/`NaN`/`null` and thrown errors |
| `Strings` | `strings.dfy` | the JavaScript string operations the code uses: `toLowerCase`, `includes`, `replace` with a one-character pattern, the decimal text of an integer |
| `Colour` | `colour.dfy` | `src/Rgb.tsx`: `parseInt(s, 16)`, the byte split of `fromHex`, `shade`, `random` and `toString`, as value functions and as the mutable `Rgb` class |
| `Canvas` | `canvas.dfy` | the canvas, as an append-only log of the drawing commands that took effect |
| `ReactRenderer` | `react_renderer.dfy` | `src/AudioVisualizer.tsx`: the three-tier `dataToRgb`, the three draw loops and `componentDidUpdate` |
| `ScriptRenderer` | `script_renderer.dfy` | `src/visualize.js`: `hexToRgb`, `uint8ToRgb`, `drawWave`, `drawBars`, `drawOsc` with its trigger search, and the dispatch of `renderFrame` |
| `EarlyScriptRenderer` | `early_script_renderer.dfy` | `src/js/visualize.js`: the 64-bar `renderFrame` loop |
| `StyleSelector` | `style_selector.dfy` | `src/Visualizer.tsx`: the initial state and the label-to-draw-mode change handler |
| `AppShell` | `app_shell.dfy` | `src/App.tsx`: the four-step flow, the now-playing text, the two streams and the section `renderBody` shows |

Modelling choices:

- **Numbers.** A JavaScript number is a Dafny `real`, so `0.33`, `height / 256` and `(255 - x) * 0.5` are exact. A `Uint8Array` element is a `Byte`.
- **Reads past the end.** A typed-array read past the end yields `undefined` (`Option.None`). Arithmetic on `undefined` gives `NaN`. The canvas ignores a `fillRect` or `lineTo` call with a `NaN` coordinate, so the log gets no command for it.
- **Draw loops.** Each draw loop is a method that appends to `Context.log` and carries invariants. Its postcondition equals a specification function: `Bars`, `Wave`, `FilledWave`, `ScriptBars`, `Osc` or `Frame`. Layout lemmas then say what each command in that function is.
- **Products.** `Canvas.Scaled(v, unit)` writes `v * unit` as repeated addition. This keeps loop proofs linear. `ScaledIsProduct`, `BarHeightBounds`, `LevelIsProduct` and `BarOvershoot` state the product itself.
- **Canvas size.** Assigning a layout size to `canvas.width`/`height` truncates it to whole pixels (`Canvas.PixelSize`). An assignment expression still evaluates to the untruncated right-hand side. So `src/AudioVisualizer.tsx` and `src/visualize.js` draw with the raw box size. `src/js/visualize.js` reads `canvas.width` back and draws with the truncated size.
- **Inputs as parameters.** Everything the browser supplies is a parameter:
  - analyser buffers;
  - the canvas box;
  - the colour input's value;
  - the draw-type label;
  - the `Math.random()` draws (an oracle `rolls`);
  - the files picked;
  - the answer to the microphone request.

Behaviour of the code worth noting:

- `dataToRgb` tests `val > 156` first, so 156 falls in the 0.33 tier and 157 in the 0.50 tier (`src/AudioVisualizer.tsx:142-145`, `ReactRenderer.TierBoundaries`).
- `shade` adds `(255 - diff) * factor` to every channel: 200 on (128, 0, 255) with factor 0.50 gives (155.5, 27.5, 282.5) (`src/Rgb.tsx:14-16`, `ReactRenderer.TierBoundaries`).
- `Rgb.random` runs three `if`s one after another, so one call can take several steps: (1, 0, 0) goes through all three and returns to itself (`src/Rgb.tsx:34-47`, `Colour.CycledExamples`).
- In rainbow mode `componentDidUpdate` rebuilds the colour from the hex value, so every frame starts from the same colour (`src/AudioVisualizer.tsx:117-119`, `ReactRenderer.AudioVisualizer.ComponentDidUpdate`).
- Within a frame `dataToRgb` shades that one object once per sample, so the shading accumulates along the frame (`src/AudioVisualizer.tsx:140-148`, `ReactRenderer.RainbowAccumulates`).
- The oscilloscope's first scan skips the samples above the midline, and the second skips those less than 5 above it (`src/visualize.js:86-90`, `ScriptRenderer.ScanStops`, `ScriptRenderer.OriginAfterEdge`).

## Model

| member | source | states |
|---|---|---|
| Strings.Lower | src/Visualizer.tsx:38 | `toLowerCase` keeps the length and lowercases each character (ASCII letters) |
| Strings.IndexOf | src/Visualizer.tsx:38 | the index found is the first occurrence of the character, or the length when there is none |
| Strings.ReplaceFirst | src/Visualizer.tsx:38 | `replace(' ', '-')` keeps the length and changes exactly the character at the first space; without a space the text is unchanged |
| Strings.IntTextRoundTrip | src/Rgb.tsx:20 | the decimal text of an integer reads back as that integer and holds only a sign and digits |
| Colour.HexValue | src/Rgb.tsx:24 | the value of `k` hex digits is below `16^k` |
| Colour.ParseHex | src/Rgb.tsx:24 | `parseInt(s, 16)`: leading white space, an optional sign, an optional `0x` or `0X` mark, then the longest run of hex digits; `NaN` when that run is empty. `ParseHexDigits`, `ParseHexSkipsSpace`, `ParseHexSigned`, `ParseHexMarked` and `ParseHexNaN` state its cases |
| Colour.ParseHexDigits | src/Rgb.tsx:24 | `parseInt(s, 16)` of a non-empty run of hex digits is their value |
| Colour.ParseHexSkipsSpace | src/Rgb.tsx:24 | leading white space does not change what `parseInt` reads |
| Colour.ParseHexSigned | src/Rgb.tsx:24 | a `-` or `+` sign is taken before the digits |
| Colour.ParseHexMarked | src/Rgb.tsx:24 | a `0x` or `0X` mark, with no sign, a `-` or a `+` before it, is taken before the digits |
| Colour.ParseHexNaN | src/visualize.js:13 | the empty string, `0x` alone and a colour still carrying its `#` are `NaN` |
| Colour.ByteOf | src/Rgb.tsx:26-28 | `(n >> 8k) & 255` lies in 0..255 |
| Colour.HexColor | src/Rgb.tsx:23-31 | `fromHex` gives integral channels in 0..255, whatever the text (`NaN` becomes 0) |
| Colour.BytesRecompose | src/Rgb.tsx:26-28 | bytes 2, 1 and 0 of a 24-bit number recompose it |
| Colour.HexColorSixDigits | src/Rgb.tsx:23-31 | for six hex digits, `r*65536 + g*256 + b` is the parsed number |
| Colour.HexColorPurple | src/Rgb.tsx:23-31 | `fromHex("8000ff")` is (128, 0, 255) |
| Colour.Shaded | src/Rgb.tsx:14-16 | every channel gains the same amount, so channel differences are kept; with `diff <= 255` and `factor >= 0` no channel decreases, and with `diff < 255` and `factor > 0` every channel increases; `diff = 255` or `factor = 0` is the identity |
| Colour.Cycled | src/Rgb.tsx:34-47 | `random` preserves `r + g + b`, and is the identity when all channels are positive or all are zero |
| Colour.CycledKeepsNonNegative | src/Rgb.tsx:34-47 | integral non-negative channels stay integral and non-negative |
| Colour.CycledExamples | src/Rgb.tsx:34-47 | the three `if`s run in sequence: (1,0,0) maps to itself, (128,0,255) to (129,0,254), and (255,0,1) to (256,0,0) |
| Colour.Text | src/Rgb.tsx:19-21 | `rgb(r,g,b)` with the decimal text of each channel; `TextRoundTrip` reads it back |
| Colour.TextRoundTrip | src/Rgb.tsx:19-21 | `rgb(r,g,b)` reads back as the colour itself, channels above 255 or below 0 included |
| Colour.Rgb.constructor | src/Rgb.tsx:3-7 | the new colour has the given channels |
| Colour.Rgb.Shade | src/Rgb.tsx:9-17 | a factor outside [0, 1] throws and leaves every channel as it was; otherwise the channels become `Shaded` of the old ones |
| Colour.Rgb.ToString | src/Rgb.tsx:19-21 | the text reads back as the object's channels |
| Colour.Rgb.FromHex | src/Rgb.tsx:23-31 | a fresh object with the channels `HexColor` gives |
| Colour.Rgb.Random | src/Rgb.tsx:33-50 | steps the given object in place to `Cycled` of its old channels and returns the same object |
| Canvas.ScaledIsProduct | src/AudioVisualizer.tsx:46 | the repeated-addition scaling is the product `v * unit` |
| Canvas.ScaledMonotone | src/AudioVisualizer.tsx:46 | with a non-negative unit, a larger sample scales to at least as much; with a positive unit, to strictly more |
| ReactRenderer.BarHeightMonotone | src/AudioVisualizer.tsx:46 | a louder sample gives a bar at least as high, and strictly higher on a canvas of positive height |
| Canvas.PixelSize | src/js/visualize.js:39-40 | the canvas size is the layout size with the fraction dropped |
| ReactRenderer.TierShade | src/AudioVisualizer.tsx:142-148 | the first tier whose threshold the value exceeds shades once, with factor 0.50 above 156, 0.33 for 129..156 and 0.25 for 97..128; 96 and below leave the base unchanged |
| ReactRenderer.TierBoundaries | src/AudioVisualizer.tsx:142-148 | 96, 97, 128, 129, 156 and 157 sit in the tiers the code gives them; 200 on (128,0,255) gives (155.5, 27.5, 282.5) |
| ReactRenderer.After | src/AudioVisualizer.tsx:140-148 | the shared rainbow colour after `dataToRgb` ran on each value in turn: the tier shade of each value applied to what the previous ones left |
| ReactRenderer.Palette | src/AudioVisualizer.tsx:140 | one colour per sample |
| ReactRenderer.PaletteAt | src/AudioVisualizer.tsx:140-150 | with rainbow on, sample `i` is the shared colour as the samples before it left it, shaded once more; with it off, a fresh parse of the hex colour shaded once |
| ReactRenderer.PaletteStep | src/AudioVisualizer.tsx:140-150 | one more `dataToRgb` call returns the next palette entry, and the shared colour advances by that sample |
| ReactRenderer.FixedPalette | src/AudioVisualizer.tsx:140 | with rainbow off, equal samples get equal colours: their tier shade of the hex colour |
| ReactRenderer.FixedPaletteIgnoresCursor | src/AudioVisualizer.tsx:140 | with rainbow off, the shared colour plays no part |
| ReactRenderer.RainbowAccumulates | src/AudioVisualizer.tsx:140-148 | with rainbow on, a sample in 97..254 is strictly brighter in every channel than the sample before it |
| ReactRenderer.BarHeightBounds | src/AudioVisualizer.tsx:46 | a bar is `data[i] * (height / 256)` high, at least 0 and below the canvas height |
| ReactRenderer.BarsAt | src/AudioVisualizer.tsx:45-49 | one rectangle per sample, in sample order |
| ReactRenderer.BarsStep | src/AudioVisualizer.tsx:45-49 | one iteration appends the rectangle at `15i`, 15 wide, standing on the canvas bottom |
| ReactRenderer.BarsLayout | src/AudioVisualizer.tsx:37-50 | rectangle `i` is at `x = 15i`, 15 wide, as high as its sample scales to, with its bottom on the canvas bottom, below the canvas height, in palette colour `i`, whatever the canvas width |
| ReactRenderer.WaveAt | src/AudioVisualizer.tsx:92-104 | one 4-wide segment per sample, in sample order |
| ReactRenderer.WaveStep | src/AudioVisualizer.tsx:92-104 | one iteration strokes from the running `(x, y)` to `(x + 15, height - data[i] * height / 256)` and moves `y` there |
| ReactRenderer.WaveLayout | src/AudioVisualizer.tsx:82-105 | segment `i` runs from `(15i, y(i-1))` to `(15i + 15, y(i))`, where `y(-1)` is the canvas bottom; each segment starts where the previous one ended |
| ReactRenderer.FilledWaveAt | src/AudioVisualizer.tsx:62-79 | two commands per sample: the 2-wide segment, then the fill under it |
| ReactRenderer.FilledWaveStep | src/AudioVisualizer.tsx:62-79 | one iteration strokes the segment and fills the quadrilateral between it and the canvas bottom |
| ReactRenderer.FilledWaveLayout | src/AudioVisualizer.tsx:52-80 | per sample, the wave segment 2 wide, then the quadrilateral down to the canvas bottom in the same colour |
| ReactRenderer.Styled | src/AudioVisualizer.tsx:121-132 | `bars` and `wave` draw one command per sample, `filled-wave` two, and any other name nothing |
| ReactRenderer.Frame | src/AudioVisualizer.tsx:117-132 | one frame after the resize: the colour rebuilt from the hex value and stepped once by `Rgb.random`, then `Styled` with that frame's palette |
| ReactRenderer.AudioVisualizer.constructor | src/AudioVisualizer.tsx:32-35 | the component holds its props and no rainbow colour yet |
| ReactRenderer.AudioVisualizer.DataToRgb | src/AudioVisualizer.tsx:135-151 | a value outside 0..255 throws; otherwise the tier shade of the shared colour (rainbow, which it updates in place) or of a fresh parse of the hex colour (which leaves the shared colour alone) |
| ReactRenderer.AudioVisualizer.DrawBars | src/AudioVisualizer.tsx:37-50 | appends exactly `Bars` with the frame's palette; the shared colour ends as every sample left it |
| ReactRenderer.AudioVisualizer.DrawFilledWave | src/AudioVisualizer.tsx:52-80 | appends exactly `FilledWave` with the frame's palette; the shared colour ends as every sample left it |
| ReactRenderer.AudioVisualizer.DrawWave | src/AudioVisualizer.tsx:82-105 | appends exactly `Wave` with the frame's palette; the shared colour ends as every sample left it |
| ReactRenderer.AudioVisualizer.ComponentDidUpdate | src/AudioVisualizer.tsx:111-133 | resizes to the box, keeps the raw box size, rebuilds the rainbow colour from the hex value stepped once, then draws the selected style; any other style draws nothing. With rainbow on, the shared colour ends as the frame's samples leave the stepped colour (the stepped colour itself for any other style); with rainbow off it is untouched |
| ReactRenderer.AudioVisualizer.DrawSelected | src/AudioVisualizer.tsx:121-132 | the `draw` switch appends exactly `Styled`: bars, wave or filled wave with the palette of the current shared colour, and nothing for any other name; with rainbow on and one of the three styles the shared colour ends as every sample left it, otherwise it is untouched |
| ScriptRenderer.Min | src/visualize.js:92 | the smaller of two integers |
| ScriptRenderer.Read | src/visualize.js:50 | a read inside the buffer is the sample, one past the end is `undefined` |
| ScriptRenderer.Columns | src/visualize.js:48 | the number of integers in `[0, width)` |
| ScriptRenderer.ColumnsBelow | src/visualize.js:48 | the loop test `x < width` holds exactly for the first `Columns(width)` values of `x` |
| ScriptRenderer.LegacyBase | src/visualize.js:11-24 | `hexToRgb` drops the first character of the colour input's value and gives integral channels in 0..255 for any text |
| ScriptRenderer.LegacyBasePurple | src/visualize.js:11-24 | `hexToRgb` of `#8000ff` drops the `#` and gives (128, 0, 255) |
| ScriptRenderer.Uint8ToRgb | src/visualize.js:26-40 | a sample above 96 lifts every channel of the base by `(255 - x) * 0.5`; a weaker sample or `undefined` leaves the base |
| ScriptRenderer.TopTierAgrees | src/visualize.js:32-37 | above 156 this colour equals the React renderer's top tier for the same colour; between 97 and 156 it differs from the 0.33 tier |
| ScriptRenderer.LevelIsProduct | src/visualize.js:56 | the line's level is `height - x * (height / 256)` |
| ScriptRenderer.WaveAt | src/visualize.js:48-60 | one stroke per column, in column order |
| ScriptRenderer.ScriptWaveStep | src/visualize.js:48-60 | one iteration strokes column `x` from the running `y` to the sample's level and moves `y` there |
| ScriptRenderer.WaveLayout | src/visualize.js:42-61 | stroke `x` is vertical, in column `x`, 2 wide, from the previous sample's level (the bottom for column 0) to this sample's level, coloured by this sample |
| ScriptRenderer.DrawWave | src/visualize.js:42-61 | the loop draws `Wave` for the columns below both the width and the buffer length; past the buffer nothing is drawn |
| ScriptRenderer.Tens | src/visualize.js:67 | the number of multiples of 10 below the buffer length |
| ScriptRenderer.TensBelow | src/visualize.js:67 | bar `k` reads inside the buffer exactly when `k < Tens(len)` |
| ScriptRenderer.ScriptBarsAt | src/visualize.js:67-73 | one rectangle per bar, in bar order |
| ScriptRenderer.ScriptBarsStep | src/visualize.js:67-73 | one iteration appends bar `k` at `x = 10k` with its sample's height and colour |
| ScriptRenderer.BarOvershoot | src/visualize.js:69 | the bar is `x * (height / 180)` high: above 180 it overshoots the canvas top, from 0 to 180 it stays within it |
| ScriptRenderer.ScriptBarsLayout | src/visualize.js:63-74 | bar `k` is at `x = 10k`, 10 wide, stands on the bottom, is `freqs[10k] * height / 180` high, coloured by that sample |
| ScriptRenderer.DrawBars | src/visualize.js:63-74 | the loop draws `ScriptBars` for the bars below both the width and the buffer |
| ScriptRenderer.ScanStops | src/visualize.js:86-89 | a scan moves at least one step, and stops past the width or on a sample that fails its test |
| ScriptRenderer.Scan | src/visualize.js:86-89 | one post-increment scan moves at least one sample |
| ScriptRenderer.Reset | src/visualize.js:87-90 | `r >= width` resets to 0, so the result is 0 or inside the width, and an `r` inside the width is kept |
| ScriptRenderer.Origin | src/visualize.js:86-90 | the trigger origin, where the second scan stops after starting where the first one stopped, is 0 or inside the width |
| ScriptRenderer.OriginAfterEdge | src/visualize.js:89-90 | a nonzero origin within the buffer comes right after a sample at least 5 above the midline (133 or more) |
| ScriptRenderer.SilentScan | src/visualize.js:89 | on a silent buffer the second scan runs to the width |
| ScriptRenderer.OscPointsAt | src/visualize.js:92-95 | point `k` is at `x = k` at the level of sample `origin + k` |
| ScriptRenderer.OscPointsStep | src/visualize.js:92-95 | one iteration appends the next sample's point |
| ScriptRenderer.OscCount | src/visualize.js:92 | the points visited stay inside the buffer |
| ScriptRenderer.Osc | src/visualize.js:76-97 | the trace is one open path, stroked 2 wide in the unshaded base colour |
| ScriptRenderer.SilentOsc | src/visualize.js:76-97 | silent data no shorter than the width gives origin 0 and a flat line at half the height, one point per pixel of width |
| ScriptRenderer.RisingEdge | src/visualize.js:78-90 | the two post-increment scans and resets compute `Origin`: 0 or inside the width, and after a sample of 133 or more when nonzero |
| ScriptRenderer.DrawOsc | src/visualize.js:76-97 | one 2-wide polyline in the unshaded base colour, from the origin, one point per sample while inside the buffer and the width |
| ScriptRenderer.Styled | src/visualize.js:132-156 | `Oscilloscope` draws one polyline; `Bar` one bar per 10 px of width and per 10 bins, as far as both reach; `Wave` one stroke per pixel column and per bin, as far as both reach; any other label nothing |
| ScriptRenderer.RenderFrame | src/visualize.js:124-157 | resize, the `rgb(22,22,22)` background over the raw box, then the oscilloscope (time-domain buffer), bars or wave (frequency buffer) as the label names; any other label draws nothing more |
| EarlyScriptRenderer.MaxOf | src/js/visualize.js:56 | the maximum bounds every bin and is one of them |
| EarlyScriptRenderer.Jitter | src/js/visualize.js:68-71 | `Math.floor(u * (max - min) + min)` with `min = 0.95 d` and `max = 1.05 d` for the draw `u`; `JitterBounds` bounds it |
| EarlyScriptRenderer.BarColor | src/js/visualize.js:62-81 | (128, 0, 255) up to 120; above that a jittered red, a green of half a jitter above 220 and a twentieth of one from 181 to 220, blue 255; `QuietBarColor` and `BarColorChannels` state it |
| EarlyScriptRenderer.QuietBarColor | src/js/visualize.js:62-66 | a bin up to 120 is drawn in (128, 0, 255), whatever the random draws |
| EarlyScriptRenderer.BarColorChannels | src/js/visualize.js:62-81 | blue is always 255, green is 0 up to 180, and above 120 red is the jittered value |
| EarlyScriptRenderer.JitterBounds | src/js/visualize.js:68-71 | a draw in [0, 1) puts the jitter between `floor(0.95 d)` and just below `1.05 d` |
| EarlyScriptRenderer.BarHeightBounds | src/js/visualize.js:60 | `(d / max) * 125` lies in [0, 125], and the loudest bin reaches 125 |
| EarlyScriptRenderer.BarsStep | src/js/visualize.js:84-86 | one iteration fills the bar at the running `x`, `barWidth` wide, standing on the canvas bottom, in the bin's colour |
| EarlyScriptRenderer.BarsAt | src/js/visualize.js:58-87 | one rectangle per bar, in bar order |
| EarlyScriptRenderer.BarsExtent | src/js/visualize.js:43 | the 64 bars with their gaps reach `width * height / 128 + 63` px; on a canvas 128 px or more high they pass its right edge |
| EarlyScriptRenderer.Frame | src/js/visualize.js:58-87 | the resize with whole-pixel sizes, the background, and the 64 bars unless every bin is 0; `FrameLayout` and `SilentFrame` state it |
| EarlyScriptRenderer.FrameLayout | src/js/visualize.js:36-91 | a frame is the resize, the `#1d1d1d` background and, when some bin is nonzero, exactly 64 bars: bar `i` at `x = i * (barWidth + 1)`, `barWidth` wide, at most 125 high, standing on the bottom, coloured by its bin and its draws |
| EarlyScriptRenderer.SilentFrame | src/js/visualize.js:56-60 | when every bin is 0 the heights are `0/0`, and only the background is drawn |
| EarlyScriptRenderer.RenderFrame | src/js/visualize.js:36-91 | the loop with its running `x` draws exactly `Frame` |
| StyleSelector.DrawMode | src/Visualizer.tsx:38 | the mode has the label's length; the first space becomes `-` and every other character is lowercased |
| StyleSelector.SpacelessMode | src/Visualizer.tsx:38 | a label without a space is only lowercased |
| StyleSelector.SpacedMode | src/Visualizer.tsx:38 | a label's first space becomes `-` and the rest is lowercased |
| StyleSelector.OptionModes | src/Visualizer.tsx:49-54 | the four options give `bars`, `wave`, `filled-wave` and `oscilloscope` |
| StyleSelector.OnlyFirstSpace | src/Visualizer.tsx:38 | a second space survives: `Filled Wave Form` gives `filled-wave form` |
| StyleSelector.Visualizer.constructor | src/Visualizer.tsx:20-28 | colour `8000ff`, draw `bars`, rainbow off |
| StyleSelector.Visualizer.HandleChange | src/Visualizer.tsx:30-41 | only the `draw` input changes the state, and only its `draw`; colour and rainbow stay; a known option keeps `draw` one of the four modes |
| AppShell.SourceStep | src/App.tsx:60-61 | the microphone step exactly when the lowercased label contains `direct`, the upload step otherwise |
| AppShell.TogglesInput | src/App.tsx:64 | the click toggles the microphone exactly when the lowercased caption is `direct-input`; `SourceCards` shows neither card's caption is |
| AppShell.Switched | src/App.tsx:77-80 | the switch goes from the microphone step to the upload step and from every other step to the microphone step |
| AppShell.SwitchBack | src/App.tsx:77-80 | switching twice between the two prompts comes back |
| AppShell.SourceCards | src/App.tsx:59-66 | the `Direct Input` card leads to the microphone step and `Sound File` to the upload step; neither click toggles the microphone |
| AppShell.DirectCard | src/App.tsx:140 | `Direct Input` lowercases to text containing `direct` but not to `direct-input` |
| AppShell.SoundCard | src/App.tsx:147 | `Sound File` lowercases to text without `direct` |
| AppShell.App.constructor | src/App.tsx:49-57 | the source-choice step, `No source selected`, no streams, not playing |
| AppShell.App.Valid | src/App.tsx:49-108 | a reachability invariant: the source-choice step is shown only before anything has happened, since no handler leads back to it; the constructor and every handler keep it |
| AppShell.App.IsDirectInput | src/App.tsx:217-219 | true exactly when a live stream is stored |
| AppShell.App.IsNowPlaying | src/App.tsx:221-223 | true exactly when the now-playing text differs from `No source selected` |
| AppShell.App.IsStep | src/App.tsx:225-227 | true exactly for the current step |
| AppShell.App.VisualizerSource | src/App.tsx:189 | the visualizer gets the live stream exactly when there is one, otherwise the uploaded file's URL or `null` |
| AppShell.App.Body | src/App.tsx:195-206 | exactly one section is shown, the current step's |
| AppShell.App.HandleAudioSource | src/App.tsx:59-67 | moves to the step `SourceStep` gives; only a label lowercasing to `direct-input` toggles the microphone |
| AppShell.App.HandleSoundFile | src/App.tsx:69-75 | with a file: its URL, its name as the now-playing text, the visualizer step; with none, a `TypeError` and no change |
| AppShell.App.HandleSwitch | src/App.tsx:77-81 | the step becomes `Switched` of the old one, nothing else changes |
| AppShell.App.GetDirectInput | src/App.tsx:83-95 | a granted stream is stored with `Streaming direct input` and the visualizer step; a refusal changes nothing |
| AppShell.App.StopDirectInput | src/App.tsx:97-100 | drops the stream and keeps the step and the now-playing text; without a stream it throws |
| AppShell.App.ToggleDirectInput | src/App.tsx:102-108 | stops the stream when there is one, asks for one otherwise |

## Left out

- The Web Audio graph, `requestAnimationFrame` scheduling and React's `setState` batching (`src/AudioAnalyser.tsx`, `src/index.tsx`) are not modelled. The buffers, the colour, the draw mode and the rainbow flag are parameters, and a `setState` takes effect at once.
- The `record()` functions in both script files use MediaRecorder, Blob, object URLs and download links; they are browser I/O. The DOM lookups and event wiring are left out the same way, and their values are parameters.
- The `getUserMedia` promise and `track.stop()` are not modelled. The answer to the microphone request is the `grant` parameter, and it applies as soon as it is asked for.
- JSX markup is modelled only as which section `renderBody` shows. The header's play and pause icons are not modelled.
- webpack.config.js and server.js are build and dev-server files; they are not part of this model.
- IEEE-754 rounding is not modelled: reals are exact, so `0.33`, `height / 256` and `d * 1.05 - d * 0.95` carry no rounding error. `parseInt` beyond 2^53 is exact in the model and not in the browser. `ByteOf` is exact for every integer, because the 32-bit wrap of `>>` does not change the low three bytes.
- Colour.Text: formats only integral channels. JavaScript's text for fractional numbers (`155.5`, `0.33` products) is not modelled.
- Colour.Rgb.ToString: requires integral channels for the same reason, although the source formats any number.
- Fill and stroke styles are logged as `Color` values rather than `rgb(...)` text. `Colour.TextRoundTrip` ties the two for integral channels.
- Strings.Lower: lowercases ASCII letters only; other scripts' case mappings are not modelled.
- `Canvas.Scaled` writes `v * unit` as repeated addition so that the loop proofs stay linear. The layout lemmas state heights through it; `ScaledIsProduct` makes it the product.
- ScriptRenderer.RenderFrame: computes `hexToRgb()` of the `color` input's value once per frame and passes it to the draw loops. The source parses it again in every `uint8ToRgb` call, which yields the same value within a frame.
- EarlyScriptRenderer.RenderFrame: takes the buffer at `frequencyBinCount` 8192 (fftSize 16384) and reads the `Math.random()` draws from `rolls`. The random jitter is therefore bounded (`JitterBounds`) but not fixed.
- Concurrency is not modelled: the page is single-threaded and frames run one after another.
