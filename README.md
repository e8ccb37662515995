# WaveView in Dafny

A model of the two Android views of the WaveView library, with proofs about
what each frame draws.

- `WaveLineView` draws four layered sine curves across the view. Their height
  follows a volume that is smoothed frame by frame toward a target the app
  sets. It has two optional extras: an intro, in which two lines sweep in from
  the edges and the curves fade in, and a loading style, in which a bar bounces
  between the edges.
- `RhythmWaveView` draws one wave under a bell-shaped envelope, together with
  its mirror image below the centre line. Its amplitude dies away linearly
  over each turn of an animator that runs the phase from 0 to 2π.

Both views are classes whose methods update their fields in place, as the Java
classes do. An Android `Path` is a sequence of `MoveTo`/`LineTo` commands
(`paths.dfy`). Java's `float` and `double` become `real`. Java's integer `/`
and `%`, the float `% 2` and the `(int)` cast are written out in
`numerics.dfy`, because they truncate toward zero. The fourth powers
`Math.pow(x, 4)` in both decay envelopes are written out as products. `Math.sin`
and `RhythmWaveView`'s `Math.pow(a, 2.5)` are not interpreted: the caller passes
them in as functions.

One call of `WaveLine.WaveLineView.OnDraw` is one frame. It takes three inputs:

- the canvas size;
- the elapsed-time offset `(now - startAt) / offsetSpeed`;
- `sin`.

It returns what was drawn (`Frame`) and whether a next frame is requested,
which stands for `invalidate()`. After it returns, the four paths hold the
frame's curves.

`WaveLine.WaveLineView.Valid` is the view invariant: four paths; a grid, while
there is one, that belongs to the recorded canvas, with the centre line at half
its height and the amplitude a third of it; a cache of exact decays; and the
sensibility and the target in range. The constructor establishes it and every
method that takes it keeps it.

Modules:

- `Numerics`: Java arithmetic.
- `Paths`: path commands.
- `Gradient`: colours and gradient stops, shared by both views.
- `VolumeSmoothing`: the volume smoother, the target filter and the clamps.
- `Waveform`: the sampling grid, the decay envelope and its cache key, the
  sample values, and the layer paths.
- `Animation`: the loading bar, the intro sweep and the fade-in.
- `WaveLine`: the `WaveLineView` class.
- `Rhythm`: the `RhythmWaveView` class.

Where the intended behaviour and the code differ, the model follows the code:

- **No lower clamp on the target.** The volume is documented as lying in
  [0, 100], but `checkVolumeValue` only caps it at 100, so a negative target is
  kept. What the shown volume then does depends on where it stands:
  - from above the band `[t - s, t + s]` around the target `t` (with step `s`)
    it never reaches the target (`VolumeSmoothing.NegativeTargetNeverSettles`),
    and once at `s` or `2 * s` it bounces between the two for ever
    (`VolumeSmoothing.NegativeTargetBounces`);
  - from inside the band it snaps to the negative target on the next frame and
    stays there (`VolumeSmoothing.NegativeTargetSnaps`). This happens, for
    example, when `setVolume(-1)` comes before the first frame: the step is
    still 0, so the target is taken, and the first frame's step of 1.75 puts the
    silent volume inside the band. The curves are then drawn with a negative
    volume, turned over.
- **The cache key truncates.** The decay cache key `(int)(mapX * 1000)`
  truncates rather than rounds. Key 0 therefore covers positions on both sides
  of the centre (`Waveform.KeyZeroStraddlesCentre`).
- **The intro ends one frame later than "half the width" suggests.** The intro
  only ends once the sweep strictly passes half the width. On a 600-pixel
  canvas that takes 31 frames, not 30 (`Animation.LatchOn600`). Below 60
  pixels the intro never ends (`Animation.NarrowIntroNeverEnds`).
- **A frame without a grid does not retry.** A steady frame that finds no
  sampling grid, and cannot build one, ends without `invalidate()`. No further
  frame is requested.
- **Intro frames accumulate.** The intro's sweep lines are appended to paths
  that are not rewound between intro frames.
- **The loading bar reads the fine-line width.** The loading bar's width is
  read from the fine-line-width attribute, with default 0, so by default it is
  a quarter of the view.
- **The intro is never switched on.** The shipped view never sets
  `isOpenPrepareAnim`. Here it is a constructor parameter, so that the intro
  and the fade-in are modelled as well.

## Model

| member | source | states |
|---|---|---|
| WaveLine.DefaultColorsAreTheHexColours | WaveViewlib/src/main/java/com/ashlikun/waveview/WaveLineView.java:57-65 | the seven default colours are the signed ARGB values of the seven hex colours, six-digit ones opaque |
| Gradient.Argb | WaveViewlib/src/main/java/com/ashlikun/waveview/WaveLineView.java:57-65 | a colour's eight hex digits read as a signed 32-bit int: the same value, or that value minus 2^32 |
| WaveLine.WaveLineView.constructor | WaveViewlib/src/main/java/com/ashlikun/waveview/WaveLineView.java:112-125 | each attribute falls back to its default (64 samples, widths 6 and 2, sensibility 5); the loading width comes from the fine-line attribute with default 0; the sensibility is clamped and the target capped; four empty paths; no grid, a canvas of size 0, and centre line, amplitude and smoothing step 0 |
| WaveLine.WaveLineView.CheckVolumeValue | WaveViewlib/src/main/java/com/ashlikun/waveview/WaveLineView.java:251-255 | the target becomes its value capped at 100, and nothing else changes |
| VolumeSmoothing.CapVolume | WaveViewlib/src/main/java/com/ashlikun/waveview/WaveLineView.java:251-255 | the result is at most 100, equals the input up to 100 and is 100 above it; there is no lower bound |
| WaveLine.WaveLineView.CheckSensibilityValue | WaveViewlib/src/main/java/com/ashlikun/waveview/WaveLineView.java:258-265 | the sensibility becomes its old value clamped into [1, 10] |
| VolumeSmoothing.ClampSensibility | WaveViewlib/src/main/java/com/ashlikun/waveview/WaveLineView.java:258-265 | the result lies in [1, 10], keeps an in-range input, and maps anything above to 10 and anything below to 1 |
| WaveLine.WaveLineView.SetSensibility | WaveViewlib/src/main/java/com/ashlikun/waveview/WaveLineView.java:482-485 | the sensibility becomes the argument clamped into [1, 10]; the smoothing step is left alone |
| WaveLine.WaveLineView.SetVolume | WaveViewlib/src/main/java/com/ashlikun/waveview/WaveLineView.java:451-456 | the target becomes `AcceptTarget(old target, v, perVolume)`, and the view invariant (target at most 100) is kept |
| VolumeSmoothing.AcceptTarget | WaveViewlib/src/main/java/com/ashlikun/waveview/WaveLineView.java:451-456 | a value within one step of the target changes nothing; a value further off replaces it, capped at 100; a negative value is kept as it is |
| WaveLine.WaveLineView.SofterChangeVolume | WaveViewlib/src/main/java/com/ashlikun/waveview/WaveLineView.java:270-284 | the shown volume becomes `Soften(old volume, target, perVolume)` |
| VolumeSmoothing.Soften | WaveViewlib/src/main/java/com/ashlikun/waveview/WaveLineView.java:270-284 | inside the band `target ± step` the volume snaps to the target; below it, it rises by one step and stays below the target; above it, it falls by one step and stays above the target, or jumps to `2 * step` when it is under that |
| VolumeSmoothing.IterateLast | WaveViewlib/src/main/java/com/ashlikun/waveview/WaveLineView.java:270-284 | one more frame after `n` frames of smoothing is one `softerChangeVolume` step from where they left off |
| VolumeSmoothing.SettledStaysSettled | WaveViewlib/src/main/java/com/ashlikun/waveview/WaveLineView.java:280-282 | once the volume equals the target, any number of further frames leave it there |
| VolumeSmoothing.ClimbIsLinear | WaveViewlib/src/main/java/com/ashlikun/waveview/WaveLineView.java:272-273 | while far enough below the target, `k` frames add exactly `k` steps |
| VolumeSmoothing.ClimbReachesTarget | WaveViewlib/src/main/java/com/ashlikun/waveview/WaveLineView.java:270-284 | from at or below the target, the volume equals the target once `k` steps cover the distance |
| VolumeSmoothing.ClimbNeverOvershoots | WaveViewlib/src/main/java/com/ashlikun/waveview/WaveLineView.java:270-284 | from at or below the target, the volume never passes the target |
| VolumeSmoothing.StepsFromSilence | WaveViewlib/src/main/java/com/ashlikun/waveview/WaveLineView.java:272-273 | the number of frames a climb from 0 takes is `ceil(target / step)`: enough steps to cover the target, and one fewer is not |
| VolumeSmoothing.FromSilence | WaveViewlib/src/main/java/com/ashlikun/waveview/WaveLineView.java:270-284 | from silence the volume is `k * step` (below the target) after each of the first `ceil(target / step) - 1` frames, and equals the target from then on |
| VolumeSmoothing.DescentReachesTarget | WaveViewlib/src/main/java/com/ashlikun/waveview/WaveLineView.java:274-282 | from above a non-negative target the volume reaches the target once the frames cover the distance plus two steps, the cost of the bounce up to `2 * step` |
| VolumeSmoothing.NegativeTargetNeverSettles | WaveViewlib/src/main/java/com/ashlikun/waveview/WaveLineView.java:270-284 | with a negative target, a volume above `target + step` stays above it on every later frame, so it never equals the target |
| VolumeSmoothing.NegativeTargetBounces | WaveViewlib/src/main/java/com/ashlikun/waveview/WaveLineView.java:274-279 | with a negative target, a volume at `step` or `2 * step` alternates between the two for ever, frame by frame |
| VolumeSmoothing.NegativeTargetSnaps | WaveViewlib/src/main/java/com/ashlikun/waveview/WaveLineView.java:280-282 | with a negative target, a volume inside the band `target ± step` equals the (negative) target after the first frame and on every frame after it |
| VolumeSmoothing.PerVolume | WaveViewlib/src/main/java/com/ashlikun/waveview/WaveLineView.java:390 | the smoothing step `sensibility * 0.35` lies in [0.35, 3.5] for a sensibility in [1, 10], and is positive for any sensibility of at least 1 |
| WaveLine.WaveLineView.AlphaInAnim | WaveViewlib/src/main/java/com/ashlikun/waveview/WaveLineView.java:291-301 | without the intro it returns 1 and changes nothing; with it, the fade level takes one `AlphaStep` (0.02 up while below 1, else set to 1) and is returned |
| Animation.FadeIn | WaveViewlib/src/main/java/com/ashlikun/waveview/WaveLineView.java:291-301 | from 0 the fade level after `k` calls is `0.02 * k` up to 50 calls, and 1 after that |
| WaveLine.PaintAlpha | WaveViewlib/src/main/java/com/ashlikun/waveview/WaveLineView.java:205-211 | at full fade the first layer is painted at alpha 255 and the others at 100 |
| WaveLine.SweepLines | WaveViewlib/src/main/java/com/ashlikun/waveview/WaveLineView.java:313-323 | the loop yields exactly the left sweep line `SweepFromLeft` and the right one `SweepFromRight` |
| Animation.SweepCommands | WaveViewlib/src/main/java/com/ashlikun/waveview/WaveLineView.java:313-323 | each sweep line has `n + 2` commands: a move to its edge, a line to `i * lineAnimX / n` in from that edge for each `i` from 1 to `n`, and a move to the middle |
| Animation.SweepPointsAt | WaveViewlib/src/main/java/com/ashlikun/waveview/WaveLineView.java:316-320 | the `i`-th point of either sweep prefix is the point of sample `i + 1`, mirrored about the middle on the right |
| Animation.SweepReachesLineAnimX | WaveViewlib/src/main/java/com/ashlikun/waveview/WaveLineView.java:316-320 | each sweep line's last point is exactly `lineAnimX` in from its edge |
| WaveLine.WaveLineView.LineAnim | WaveViewlib/src/main/java/com/ashlikun/waveview/WaveLineView.java:309-334 | once the intro has ended, or when it is off, it reports the end and changes nothing; otherwise it appends the two sweep lines to the first two paths, advances the sweep by `width / 60`, and latches the end exactly when the sweep passes `width / 2` |
| Animation.SweepAfter | WaveViewlib/src/main/java/com/ashlikun/waveview/WaveLineView.java:325 | the sweep advances by nothing per frame below 60 pixels, and by at least one pixel per frame from 60 up |
| Animation.LatchFrame | WaveViewlib/src/main/java/com/ashlikun/waveview/WaveLineView.java:325-332 | the frame on which the intro ends is the first whose sweep passes half the width; the frame before it does not pass it |
| Animation.LatchOn600 | WaveViewlib/src/main/java/com/ashlikun/waveview/WaveLineView.java:325-332 | on a 600-pixel canvas the intro ends on the 31st frame; after 30 frames the sweep sits exactly at 300 |
| Animation.NarrowIntroNeverEnds | WaveViewlib/src/main/java/com/ashlikun/waveview/WaveLineView.java:325-332 | below 60 pixels no number of frames passes half the width |
| WaveLine.WaveLineView.ResetPaths | WaveViewlib/src/main/java/com/ashlikun/waveview/WaveLineView.java:339-344 | every path becomes a single move to `(0, centerHeight)` |
| WaveLine.WaveLineView.InitParameters | WaveViewlib/src/main/java/com/ashlikun/waveview/WaveLineView.java:347-352 | the sweep, the fade level and the end latch are reset and the sample positions are set to null, so the grid is missing; the view invariant is kept |
| WaveLine.WaveLineView.StartAnim | WaveViewlib/src/main/java/com/ashlikun/waveview/WaveLineView.java:354-360 | the intro is reset, the sample positions set to null, the animation runs and the loading style is off; the view invariant is kept, so a frame can follow on a fresh view |
| WaveLine.WaveLineView.StartLoaddingAnim | WaveViewlib/src/main/java/com/ashlikun/waveview/WaveLineView.java:362-368 | the intro is reset, the sample positions set to null, the animation runs and the loading style is on; the view invariant is kept, so a frame can follow on a fresh view |
| WaveLine.WaveLineView.StopAnim | WaveViewlib/src/main/java/com/ashlikun/waveview/WaveLineView.java:370-373 | the animation stops and the loading style is off |
| WaveLine.WaveLineView.InitDraw | WaveViewlib/src/main/java/com/ashlikun/waveview/WaveLineView.java:377-409 | called only without a grid, as `onDraw` does; the canvas size is always recorded; with an empty canvas or no samples nothing else changes; otherwise the centre line is `height / 2`, the amplitude `height / 3`, the step `sensibility * 0.35`, and fresh arrays hold the grid `SampleXs`/`MapXs` |
| WaveLine.BuildGrid | WaveViewlib/src/main/java/com/ashlikun/waveview/WaveLineView.java:394-405 | the loop fills fresh arrays with sample `i` at `i * width / n` and its image `(x / width) * 4 - 2` |
| Waveform.GridShape | WaveViewlib/src/main/java/com/ashlikun/waveview/WaveLineView.java:394-405 | the grid has `n + 1` samples from 0 to the width, rising strictly, and their images rise strictly from -2 to 2 |
| WaveLine.WaveLineView.CalcValue | WaveViewlib/src/main/java/com/ashlikun/waveview/WaveLineView.java:420-432 | on a cache hit the cache is unchanged; on a miss exactly the decay at `mapX` is stored under its key; the result is the carrier `sin(PI * mapX - (offset % 2) * PI)` times the cached decay |
| WaveLine.WaveLineView.CachedDecayIsNearby | WaveViewlib/src/main/java/com/ashlikun/waveview/WaveLineView.java:421-429 | what the cache returns for a key is the decay at a position less than 0.002 away, not necessarily at the position asked for |
| WaveLine.WaveLineView.CachedValueBounded | WaveViewlib/src/main/java/com/ashlikun/waveview/WaveLineView.java:418-431 | with a carrier in [-1, 1], every value `calcValue` returns lies in [-1, 1], as its documentation promises |
| Waveform.Decay | WaveViewlib/src/main/java/com/ashlikun/waveview/WaveLineView.java:428 | the decay `4 / (4 + x^4)` lies in (0, 1] and is 1 at the centre |
| Waveform.DecaySymmetric | WaveViewlib/src/main/java/com/ashlikun/waveview/WaveLineView.java:428 | the decay is symmetric about the centre |
| Waveform.Key | WaveViewlib/src/main/java/com/ashlikun/waveview/WaveLineView.java:421 | the key is `mapX * 1000` truncated toward zero |
| Waveform.KeyBucket | WaveViewlib/src/main/java/com/ashlikun/waveview/WaveLineView.java:421 | two positions with the same key lie less than 0.002 apart |
| Waveform.KeyZeroStraddlesCentre | WaveViewlib/src/main/java/com/ashlikun/waveview/WaveLineView.java:421 | key 0 covers positions on both sides of the centre, while ±0.0015 get keys ±1 |
| Waveform.WaveValueSameEntry | WaveViewlib/src/main/java/com/ashlikun/waveview/WaveLineView.java:425-431 | a sample's value depends on the cache only through that sample's own entry |
| Waveform.WaveValueBounded | WaveViewlib/src/main/java/com/ashlikun/waveview/WaveLineView.java:418-431 | a carrier in [-1, 1] times a decay in (0, 1] is in [-1, 1] |
| Waveform.ValuesBounded | WaveViewlib/src/main/java/com/ashlikun/waveview/WaveLineView.java:181-190 | with a carrier in [-1, 1] at every sample and a cache of decays, all of a frame's values, one per mapped sample, lie in [-1, 1] |
| Numerics.FloatRemTwo | WaveViewlib/src/main/java/com/ashlikun/waveview/WaveLineView.java:422 | Java's float `x % 2` keeps the sign of `x`: it lies in [0, 2) for `x >= 0` and in (-2, 0] below, and `x` minus it is an even whole number |
| Numerics.Trunc | WaveViewlib/src/main/java/com/ashlikun/waveview/WaveLineView.java:421 | the `(int)` cast rounds toward zero from either side |
| Numerics.TruncIsNotFloor | WaveViewlib/src/main/java/com/ashlikun/waveview/WaveLineView.java:421 | the cast differs from the floor below zero |
| WaveLine.WaveLineView.AppendSample | WaveViewlib/src/main/java/com/ashlikun/waveview/WaveLineView.java:189-195 | each layer `n` gets exactly one more command, the line to `x` offset by `amplitude * value * pathFuncs[n] * volume / 100` from the centre line |
| Waveform.LayersAreScaledCopies | WaveViewlib/src/main/java/com/ashlikun/waveview/WaveLineView.java:72-74 | all layers share their x positions, each layer deviates from the centre by its coefficient times one common deviation, and the fourth is the third turned over |
| Waveform.LayerDeviationBounded | WaveViewlib/src/main/java/com/ashlikun/waveview/WaveLineView.java:193-194 | with a value in [-1, 1], any layer, the turned-over one with coefficient -0.1 included, strays from the centre line by at most `amplitude` times the absolute values of `coef` and `volume`, over 100, a negative volume included |
| Waveform.LayerPathByPoints | WaveViewlib/src/main/java/com/ashlikun/waveview/WaveLineView.java:176-201 | a path whose rewind point, sample points and closing move are the expected ones is the layer's whole frame `LayerPath` |
| Waveform.TracedStep | WaveViewlib/src/main/java/com/ashlikun/waveview/WaveLineView.java:181-195 | one more sample appended to every layer keeps the sampling loop's progress, as long as the cache only grows |
| Waveform.TracedComplete | WaveViewlib/src/main/java/com/ashlikun/waveview/WaveLineView.java:181-201 | once every sample is traced, the values are the frame's values and each layer, closed by the move to the far edge, is its `LayerPath` |
| WaveLine.WaveLineView.TraceSample | WaveViewlib/src/main/java/com/ashlikun/waveview/WaveLineView.java:181-195 | one pass of the sampling loop extends the loop's progress by sample `i` |
| WaveLine.WaveLineView.TraceLayers | WaveViewlib/src/main/java/com/ashlikun/waveview/WaveLineView.java:181-196 | the loop completes exactly when the grid existed or could be built; when it gives up the grid is missing and every layer is still rewound; the cache only grows; an existing grid and the canvas size it belongs to are kept, and a grid built here takes the canvas size; the centre line, the amplitude and the smoothing step change only when the grid is built here, the step becoming `sensibility * 0.35`; when it completes every key is cached and each layer, with its closing move, is the layer's `LayerPath` over the grid's values |
| WaveLine.WaveLineView.CloseLayers | WaveViewlib/src/main/java/com/ashlikun/waveview/WaveLineView.java:199-201 | every layer gets exactly one more command, the move to `(width, centerHeight)` |
| WaveLine.WaveLineView.FadeLayers | WaveViewlib/src/main/java/com/ashlikun/waveview/WaveLineView.java:204-213 | four paint alphas; without the intro they are 255, 100, 100, 100; with it the fade takes four steps and layer `n` is painted at the level reached after `n + 1` steps |
| WaveLine.WaveLineView.DrawWave | WaveViewlib/src/main/java/com/ashlikun/waveview/WaveLineView.java:175-213 | the volume takes one smoothing step; the frame completes exactly when a grid exists or can be built, and otherwise leaves every layer rewound; an existing grid is kept; the centre line, the amplitude and the smoothing step change only when the grid is built here, the step becoming `sensibility * 0.35`; the cache only grows; a completed frame leaves each layer equal to its `LayerPath` and gives the four paint alphas (255, 100, 100, 100 without the intro, else from four fade steps) |
| WaveLine.WaveLineView.DrawAnimated | WaveViewlib/src/main/java/com/ashlikun/waveview/WaveLineView.java:175-214 | an existing grid is kept, and none is built, so the centre line, the amplitude and the smoothing step are unchanged; the sweep advances by `width / 60` and latches on passing `width / 2` while the intro runs, and stays put after the latch or without the intro; an intro frame exactly while the intro runs, which appends the two sweep lines to the first two paths and leaves the volume, the fade and the cache; otherwise one smoothing step, and the wave is drawn with every layer its `LayerPath` and the four paint alphas of `FadeLayers`, unless the grid is missing, which happens only for an empty canvas or no samples and leaves every layer rewound; the cache only grows |
| WaveLine.WaveLineView.OnDraw | WaveViewlib/src/main/java/com/ashlikun/waveview/WaveLineView.java:158-218 | an existing grid is kept with its canvas size; a missing one is built from the canvas exactly when the canvas and the sampling size are non-empty, and its centre line and amplitude follow from the canvas height (view invariant); the centre line, the amplitude and the smoothing step change only on the frame that builds the grid, the step becoming `sensibility * 0.35`; the loading width changes only on loading frames; a loading frame exactly in the loading style, with the bar in the first path (`LoadingPaths`), one fade step for its paint alpha, and the sweep, the volume and the cache untouched; otherwise the sweep as `lineAnim` leaves it (advanced by `width / 60` while the intro runs, unchanged after the latch), and an intro frame exactly while the intro runs, which appends the sweep lines; otherwise the wave with every layer equal to its `LayerPath` and the paint alphas (255, 100, 100, 100 without the intro), or, exactly when no grid can be built, nothing, with every layer left rewound; the volume is smoothed on wave frames and on frames given up, not on loading or intro frames; the cache only grows; the next frame is requested while the animation runs, except after a frame given up for want of a grid |
| WaveLine.WaveLineView.DrawFrames | WaveViewlib/src/main/java/com/ashlikun/waveview/WaveLineView.java:158-218 | consecutive frames on one canvas after the intro: all are the wave or all are given up, by whether the grid exists or the first frame could build it; the smoothing step is the old one, or `sensibility * 0.35` when the first frame built the grid; after `n` frames the volume is `Iterate` of the old volume, `n` steps toward the target with that step |
| WaveLine.WaveLineView.DrawLoadding | WaveViewlib/src/main/java/com/ashlikun/waveview/WaveLineView.java:223-248 | a bar width of zero or less becomes a quarter of the view; the first path is rewound and gets the bar at `LoadingX` at mid-height; the other paths are only rewound (`LoadingPaths`); the paint alpha follows one fade step; the next frame is requested while the animation runs |
| Animation.EffectiveLoadWidth | WaveViewlib/src/main/java/com/ashlikun/waveview/WaveLineView.java:224-226 | a positive bar width is kept; any other becomes a quarter of the view, rounded down |
| Numerics.JavaDiv | WaveViewlib/src/main/java/com/ashlikun/waveview/WaveLineView.java:234 | Java's integer quotient rounds toward zero: the remainder it leaves has the dividend's sign and is smaller than the divisor |
| Numerics.JavaRem | WaveViewlib/src/main/java/com/ashlikun/waveview/WaveLineView.java:234-239 | Java's remainder completes the quotient to the dividend and has the dividend's sign |
| Numerics.JavaDivMatchesEuclid | WaveViewlib/src/main/java/com/ashlikun/waveview/WaveLineView.java:234-239 | on a non-negative dividend Java's quotient and remainder are the Euclidean ones |
| Animation.LoadingXInRange | WaveViewlib/src/main/java/com/ashlikun/waveview/WaveLineView.java:231-240 | for a non-negative offset the bar's left end lies in `[0, contentWidth]`, so the whole bar fits in the view |
| Animation.LoadingXStartsAtLeftEdge | WaveViewlib/src/main/java/com/ashlikun/waveview/WaveLineView.java:231-240 | the bar starts at the left edge and moves right |
| Animation.LoadingXOnLap | WaveViewlib/src/main/java/com/ashlikun/waveview/WaveLineView.java:234-240 | on lap `q`, `r` pixels in, the bar is at `r` on an even lap and at `contentWidth - r` on an odd one |
| Animation.LoadingXPeriodic | WaveViewlib/src/main/java/com/ashlikun/waveview/WaveLineView.java:231-240 | the bar's motion repeats with period `2 * contentWidth` |
| Animation.LoadingXGlides | WaveViewlib/src/main/java/com/ashlikun/waveview/WaveLineView.java:231-240 | one unit of offset moves the bar by exactly one pixel, including where it turns round |
| Animation.LoadingXNegativeOffset | WaveViewlib/src/main/java/com/ashlikun/waveview/WaveLineView.java:434-443 | with a negative move speed the offset is negative, and Java's remainder sends the bar off the left edge |
| WaveLine.WaveLineView.SetColors | WaveViewlib/src/main/java/com/ashlikun/waveview/WaveLineView.java:458-461 | the colours are replaced |
| WaveLine.WaveLineView.GetLinearGradientPos | WaveViewlib/src/main/java/com/ashlikun/waveview/WaveLineView.java:467-474 | a fresh array of one stop per colour, equal to `Stops` |
| Gradient.FillStops | WaveViewlib/src/main/java/com/ashlikun/waveview/WaveLineView.java:467-474 | the loop fills a fresh array of length `size` with stop `i` at `(i + 1) / size` |
| Gradient.StopsShape | WaveViewlib/src/main/java/com/ashlikun/waveview/RhythmWaveView.java:117-124 | one stop per colour; the stops rise strictly, all lie in (0, 1], and the last is 1 |
| Rhythm.RhythmColorsAreTheHexColours | WaveViewlib/src/main/java/com/ashlikun/waveview/RhythmWaveView.java:42-48 | the four colours are the signed ARGB values of the opaque hex colours `#1500b6`, `#2987ff`, `#6cfdc9`, `#09db8f` |
| Rhythm.RhythmWaveView.constructor | WaveViewlib/src/main/java/com/ashlikun/waveview/RhythmWaveView.java:26-67 | nothing is measured yet; phase, amplitude and heights are 0; both paths are empty; the colours are the default four; the animator is not running |
| Rhythm.RhythmWaveView.OnAnimationUpdate | WaveViewlib/src/main/java/com/ashlikun/waveview/RhythmWaveView.java:75-79 | the phase becomes the animated value, and the amplitude becomes `Amplitude` at that phase |
| Rhythm.AmplitudeEnds | WaveViewlib/src/main/java/com/ashlikun/waveview/RhythmWaveView.java:69-77 | a turn starts at the full height `maxHeight * perHeight` and ends flat at phase 2π |
| Rhythm.AmplitudeDecays | WaveViewlib/src/main/java/com/ashlikun/waveview/RhythmWaveView.java:77 | for a non-negative full height the amplitude never grows over a turn and stays between 0 and the full height |
| Rhythm.RhythmWaveView.SetPerHeight | WaveViewlib/src/main/java/com/ashlikun/waveview/RhythmWaveView.java:88-91 | the height fraction is replaced and the animator runs |
| Rhythm.RhythmWaveView.OnMeasure | WaveViewlib/src/main/java/com/ashlikun/waveview/RhythmWaveView.java:94-103 | the size is recorded; the maximum height is `(height / 2) * 0.9`, halved in integers first; the x range is symmetric, `minX == -maxX`, with `maxX` the width halved and rounded down |
| Numerics.JavaDivNegate | WaveViewlib/src/main/java/com/ashlikun/waveview/RhythmWaveView.java:99-100 | Java's quotient commutes with negating the dividend, which is why `-width / 2` is `-(width / 2)` |
| Rhythm.FScalesWithAmplitude | WaveViewlib/src/main/java/com/ashlikun/waveview/RhythmWaveView.java:147-154 | `f` is linear in the amplitude: scaling `A` scales every height, and `A = 0` gives 0 |
| Rhythm.TracePoints | WaveViewlib/src/main/java/com/ashlikun/waveview/RhythmWaveView.java:157-163 | the loop yields exactly `MainPath` and `MirrorPath` |
| Rhythm.PointsAt | WaveViewlib/src/main/java/com/ashlikun/waveview/RhythmWaveView.java:159-163 | point `i` of the loop's output is at `x = min + i`, at height `f(x, A)` on the main path and `-f(x, A)` on the mirror |
| Rhythm.MirrorShape | WaveViewlib/src/main/java/com/ashlikun/waveview/RhythmWaveView.java:156-165 | both paths have `max - min + 2` commands and start with the same move (the mirror's start is not turned over); then lines at every integer from `min` to `max` in order, the mirror's at the opposite height |
| Rhythm.FlatAtRest | WaveViewlib/src/main/java/com/ashlikun/waveview/RhythmWaveView.java:147-165 | with amplitude 0 every command of both paths lies on the centre line |
| Rhythm.RhythmWaveView.FormPath | WaveViewlib/src/main/java/com/ashlikun/waveview/RhythmWaveView.java:156-165 | the frame's main points are appended to the main path and its mirror points to the mirror path |
| Rhythm.RhythmWaveView.OnDraw | WaveViewlib/src/main/java/com/ashlikun/waveview/RhythmWaveView.java:127-139 | both paths are rewound first, so after a frame they hold exactly that frame's `MainPath` and `MirrorPath` |
| Rhythm.RhythmWaveView.GetLinearGradientPos | WaveViewlib/src/main/java/com/ashlikun/waveview/RhythmWaveView.java:117-124 | a fresh array of one stop per colour, equal to `Stops` |
| Rhythm.RhythmWaveView.SetColors | WaveViewlib/src/main/java/com/ashlikun/waveview/RhythmWaveView.java:180-182 | the colours are replaced |

## Left out

- Drawing is not modelled. That covers `Canvas`, `Paint`, stroke widths, setting alphas on the paint, the `LinearGradient` shader (`handleColor` in both views, and `WaveLineView.onMeasure`), `canvas.translate` and the alphas 255 and 66 in `RhythmWaveView.onDraw`, and `dp()`. These are Android graphics services. The model keeps the paths, the paint alphas `WaveLineView` computes, and the gradient stops.
- Time is an input. `System.currentTimeMillis`, `startAt`, `offsetSpeed` and `setMoveSpeed` come in as the offset argument of `OnDraw`, which is the only way they reach the drawing. `invalidate()` is the `requestNext` result.
- `RhythmWaveView`'s `ValueAnimator` is an `animating` flag. Each tick's value is the argument of `OnAnimationUpdate`.
- Numbers are exact. `float` and `double` rounding, and the `(float)` casts in `onDraw` (`curY`) and in `RhythmWaveView`'s `f` and `formPath`, are not modelled. `Math.PI` is its decimal expansion.
- `sin`, and the `pow` that stands for `Math.pow(a, 2.5)` in `RhythmWaveView.f`, are uninterpreted functions, so nothing is proved about their values. Bounds that need the carrier in [-1, 1] take it as a hypothesis.
- Integers are unbounded. 32-bit overflow is not modelled, for example of `lineAnimX` or of `(int)(offset * 600)` for very large offsets.
- WaveLine.WaveLineView.constructor: the sampling size is a `nat`, so a negative `wlvSamplingSize` attribute is not modelled. With -1, `initDraw` (which only stops on 0) allocates empty arrays, both `i <= samplingSize` loops are skipped, and each layer is just its rewind and its closing move. With -2 or less, allocating the arrays throws.
- WaveLine.WaveLineView.DrawLoadding: requires a positive travel `width - loaddWidth`. Java throws `ArithmeticException` when it is zero. When the bar is wider than the view, the code divides by a negative number, and that case is not modelled either.
- WaveLine.WaveLineView.OnDraw: takes the canvas size to be the view size. `drawLoadding` reads `getWidth()`/`getHeight()`, while `initDraw` reads the canvas.
- Rhythm.RhythmWaveView.OnDraw: requires `minX < maxX`, i.e. a view at least 2 pixels wide. A narrower view divides by zero inside `f` and draws NaN points.
- `getColors` in both views is a plain getter.
- The null check on `pathFuncs` in `isParametersNull` is not modelled, because that array is never null.
- The unused `size` parameter of `formPath` and the unused field `ω` are not modelled.
- The demo activity `app/src/main/java/com/ashlikun/waveview/simple/MainActivity.kt` is not part of this model.
