/** `WaveLineView`: four layered sine curves whose height follows a smoothed
    volume, with an optional intro (two lines sweeping in from the edges and a
    fade-in) and a loading style (a bar bouncing between the edges).

    One call of `OnDraw` is one frame. What Android supplies is passed in: the
    canvas size, the elapsed-time offset `(now - startAt) / offsetSpeed`, and
    `Math.sin`. The recorded `Path`s are the frame's output; the paint alphas
    handed to the canvas are returned. */
module WaveLine {

  import opened Numerics
  import opened Paths
  import opened VolumeSmoothing
  import opened Waveform
  import opened Animation
  import opened Gradient

  datatype Option<T> = None | Some(value: T)

  /** What one frame drew: the loading bar with its paint alpha, an intro frame
      (the sweep lines), the wave with the paint alpha of each layer, or nothing
      because the canvas or the sampling size is empty. */
  datatype Frame = Loading(paintAlpha: int) | Intro | Wave(paintAlphas: seq<int>) | Abandoned

  const DefaultSamplingSize: nat := 64
  const DefaultSensibility: int := 5

  /** The seven default gradient colours, red through violet, as signed ARGB values. */
  const DefaultColors: seq<int> :=
    [871762956, -804589, -1575146, -12717301, -15862033, -16242181, 867633652]

  /** The default colours are `#33F60C0C`, `#F3B913`, `#E7F716`, `#3DF30B`,
      `#0DF6EF`, `#0829FB` and `#33B709F4` (a six-digit colour is opaque). */
  lemma DefaultColorsAreTheHexColours()
    ensures DefaultColors == [Argb(0x33F60C0C), Argb(0xFFF3B913), Argb(0xFFE7F716), Argb(0xFF3DF30B),
                              Argb(0xFF0DF6EF), Argb(0xFF0829FB), Argb(0x33B709F4)]
  {
  }

  /** The two sweep lines of one intro frame, point by point: `i * lineAnimX / n`
      in from each edge for `i` from 1 to `n`, then a move to the middle. */
  method SweepLines(n: nat, lineAnimX: int, w: int, centerHeight: int) returns (l: Path, r: Path)
    ensures l == SweepFromLeft(n, lineAnimX, w, centerHeight)
    ensures r == SweepFromRight(n, lineAnimX, w, centerHeight)
  {
    var ch, wr := centerHeight as real, w as real;
    var lp: Path, rp: Path := [], [];
    var i := 1;
    while i <= n
      invariant 1 <= i <= n + 1
      invariant lp == LeftPoints(i - 1, lineAnimX, n, centerHeight)
      invariant rp == RightPoints(i - 1, lineAnimX, n, w, centerHeight)
    {
      var x := SweepX(i, lineAnimX, n);
      lp, rp := lp + [LineTo(x, ch)], rp + [LineTo(wr - x, ch)];
      i := i + 1;
    }
    l := [MoveTo(0.0, ch)] + lp + [MoveTo(wr / 2.0, ch)];
    r := [MoveTo(wr, ch)] + rp + [MoveTo(wr / 2.0, ch)];
  }

  /** `(int) t.getDimension(attr, default)`: the attribute's pixel size, or the
      default, truncated. */
  function Dimension(attr: Option<real>, default: real): int
  {
    Trunc(if attr.Some? then attr.value else default)
  }

  /** The paint alpha of layer `n` at fade level `alpha`: the thick first line is
      drawn at up to 255, the fine ones at up to 100. */
  function PaintAlpha(n: nat, alpha: real): (a: int)
    ensures alpha == 1.0 ==> a == (if n == 0 then 255 else 100)
  {
    Trunc((if n == 0 then 255.0 else 100.0) * alpha)
  }

  /** The paths after a loading frame: the first is rewound and then holds the
      bar, a move to its left end `LoadingX` at mid-height and a line across its
      width; the others are only rewound. */
  function LoadingPaths(viewWidth: int, viewHeight: int, offset: real, loadWidth: int, thickLineWidth: int,
                        centerHeight: int): seq<Path>
    requires 0 < viewWidth - loadWidth
  {
    var x := LoadingX(Trunc(offset * 600.0), viewWidth - loadWidth);
    var y := JavaDiv(viewHeight - thickLineWidth, 2);
    var rewound := [MoveTo(0.0, centerHeight as real)];
    [rewound + [MoveTo(x as real, y as real), LineTo((x + loadWidth) as real, y as real)], rewound, rewound, rewound]
  }

  /** The sampling loop of `initDraw`: fresh arrays holding each sample's position
      and its image in the envelope's domain. */
  method BuildGrid(w: nat, n: nat) returns (xs: array<real>, ms: array<real>)
    requires 0 < w && 0 < n
    ensures fresh(xs) && fresh(ms)
    ensures xs[..] == SampleXs(w, n) && ms[..] == MapXs(w, n)
  {
    xs := new real[n + 1];
    ms := new real[n + 1];
    for i := 0 to n + 1
      invariant forall k :: 0 <= k < i ==> xs[k] == SampleX(w, n, k)
      invariant forall k :: 0 <= k < i ==> ms[k] == MapX(SampleX(w, n, k), w)
    {
      var x := SampleX(w, n, i);
      xs[i] := x;
      ms[i] := MapX(x, w);
    }
    assert xs[..] == SampleXs(w, n);
  }

  class WaveLineView {
    const samplingSize: nat
    var volume: real
    var targetVolume: int
    var perVolume: real
    var sensibility: int
    const thickLineWidth: int
    const fineLineWidth: int
    var loaddWidth: int
    var isLoadding: bool
    var colors: seq<int>
    var paths: seq<Path>
    var samplingX: array?<real>
    var mapX: array?<real>
    var width: nat
    var height: nat
    var centerHeight: int
    var amplitude: real
    var recessionFuncs: map<int, real>
    /** For each cached key, the position whose decay filled it. */
    ghost var cacheFrom: map<int, real>
    var isPrepareLineAnimEnd: bool
    var lineAnimX: int
    var prepareAlpha: real
    const isOpenPrepareAnim: bool
    var animIsStart: bool

    /** One path per layer; a sampling array, once allocated, holds a point per
        sample plus the end point; a grid, while there is one, is the grid of
        the recorded canvas, with the centre line and the amplitude derived from
        its height; every cached decay is the exact decay of a position with
        that key; the sensibility and the target are in range. */
    ghost predicate Valid()
      reads this, samplingX, mapX
    {
      && |paths| == |LayerCoefficients|
      && (samplingX != null ==> samplingX.Length == samplingSize + 1)
      && (mapX != null ==> mapX.Length == samplingSize + 1)
      && (GridReady() ==>
            && 0 < width && 0 < height && 0 < samplingSize
            && samplingX[..] == SampleXs(width, samplingSize) && mapX[..] == MapXs(width, samplingSize)
            && centerHeight == height / 2 && amplitude == height as real / 3.0)
      && cacheFrom.Keys == recessionFuncs.Keys
      && (forall k :: k in recessionFuncs ==> Key(cacheFrom[k]) == k && recessionFuncs[k] == Decay(cacheFrom[k]))
      && 1 <= sensibility <= 10
      && targetVolume <= 100
      && 0.0 <= perVolume
    }

    /** The negation of `isParametersNull`: both sampling arrays are allocated. */
    predicate GridReady()
      reads this
    {
      samplingX != null && mapX != null
    }

    /** `initAttr`: each attribute falls back to its default. The loading bar's
        width is read from the fine-line-width attribute, with default 0. Whether
        the intro runs is a parameter; the view as shipped always passes false. */
    constructor (samplingSizeAttr: Option<nat>, thickLineAttr: Option<real>, fineLineAttr: Option<real>,
                 sensibilityAttr: Option<int>, openPrepareAnim: bool)
      ensures Valid()
      ensures samplingSize == if samplingSizeAttr.Some? then samplingSizeAttr.value else DefaultSamplingSize
      ensures thickLineWidth == Dimension(thickLineAttr, 6.0)
      ensures fineLineWidth == Dimension(fineLineAttr, 2.0)
      ensures loaddWidth == Dimension(fineLineAttr, 0.0)
      ensures sensibility == ClampSensibility(if sensibilityAttr.Some? then sensibilityAttr.value else DefaultSensibility)
      ensures volume == 0.0 && targetVolume == 50 && perVolume == 0.0
      ensures paths == [[], [], [], []] && colors == DefaultColors
      ensures samplingX == null && mapX == null && recessionFuncs == map[]
      ensures !isLoadding && !animIsStart && !isPrepareLineAnimEnd && lineAnimX == 0 && prepareAlpha == 0.0
      ensures isOpenPrepareAnim == openPrepareAnim
      ensures width == 0 && height == 0 && centerHeight == 0 && amplitude == 0.0
    {
      samplingSize := if samplingSizeAttr.Some? then samplingSizeAttr.value else DefaultSamplingSize;
      thickLineWidth := Dimension(thickLineAttr, 6.0);
      fineLineWidth := Dimension(fineLineAttr, 2.0);
      isOpenPrepareAnim := openPrepareAnim;
      loaddWidth := Dimension(fineLineAttr, 0.0);
      sensibility := ClampSensibility(if sensibilityAttr.Some? then sensibilityAttr.value else DefaultSensibility);
      volume, targetVolume, perVolume := 0.0, CapVolume(50), 0.0;
      isLoadding, animIsStart := false, false;
      colors := DefaultColors;
      samplingX, mapX := null, null;
      width, height, centerHeight, amplitude := 0, 0, 0, 0.0;
      recessionFuncs, cacheFrom := map[], map[];
      isPrepareLineAnimEnd, lineAnimX, prepareAlpha := false, 0, 0.0;
      paths := seq(|LayerCoefficients|, _ => []);
      new;
    }

    /** `checkVolumeValue`: caps the target at 100. */
    method CheckVolumeValue()
      modifies this`targetVolume
      ensures targetVolume == CapVolume(old(targetVolume))
    {
      if targetVolume > 100 {
        targetVolume := 100;
      }
    }

    /** `checkSensibilityValue`: clamps the sensibility into [1, 10]. */
    method CheckSensibilityValue()
      modifies this`sensibility
      ensures sensibility == ClampSensibility(old(sensibility))
    {
      if sensibility > 10 {
        sensibility := 10;
      }
      if sensibility < 1 {
        sensibility := 1;
      }
    }

    /** `softerChangeVolume`: one frame of smoothing toward the target. */
    method SofterChangeVolume()
      modifies this`volume
      ensures volume == Soften(old(volume), targetVolume as real, perVolume)
    {
      if volume < targetVolume as real - perVolume {
        volume := volume + perVolume;
      } else if volume > targetVolume as real + perVolume {
        if volume < perVolume * 2.0 {
          volume := perVolume * 2.0;
        } else {
          volume := volume - perVolume;
        }
      } else {
        volume := targetVolume as real;
      }
    }

    /** `alphaInAnim`: full opacity without the fade-in, else one fade step. */
    method AlphaInAnim() returns (a: real)
      modifies this`prepareAlpha
      ensures !isOpenPrepareAnim ==> a == 1.0 && prepareAlpha == old(prepareAlpha)
      ensures isOpenPrepareAnim ==> prepareAlpha == AlphaStep(old(prepareAlpha)) && a == prepareAlpha
    {
      if !isOpenPrepareAnim {
        return 1.0;
      }
      if prepareAlpha < 1.0 {
        prepareAlpha := prepareAlpha + 0.02;
      } else {
        prepareAlpha := 1.0;
      }
      a := prepareAlpha;
    }

    /** `lineAnim`: one intro frame. Once the intro has ended (or when it is off)
        it reports the end at once. Otherwise it appends the two sweep lines to
        the first two paths (which are not rewound), advances the sweep by
        `width / 60`, and latches the end once the sweep passes half the width. */
    method LineAnim() returns (ended: bool)
      requires |paths| == 4
      modifies this`paths, this`lineAnimX, this`isPrepareLineAnimEnd
      ensures |paths| == 4
      ensures old(isPrepareLineAnimEnd) || !isOpenPrepareAnim ==>
                ended && paths == old(paths) && lineAnimX == old(lineAnimX) && isPrepareLineAnimEnd == old(isPrepareLineAnimEnd)
      ensures !old(isPrepareLineAnimEnd) && isOpenPrepareAnim ==>
                && paths == old(paths)[0 := old(paths[0]) + SweepFromLeft(samplingSize, old(lineAnimX), width, centerHeight)]
                                      [1 := old(paths[1]) + SweepFromRight(samplingSize, old(lineAnimX), width, centerHeight)]
                && lineAnimX == old(lineAnimX) + width / 60
                && ended == (lineAnimX > width / 2)
                && isPrepareLineAnimEnd == ended
    {
      if isPrepareLineAnimEnd || !isOpenPrepareAnim {
        return true;
      }
      var l, r := SweepLines(samplingSize, lineAnimX, width, centerHeight);
      paths := paths[0 := paths[0] + l][1 := paths[1] + r];
      lineAnimX := lineAnimX + width / 60;
      if lineAnimX > width / 2 {
        isPrepareLineAnimEnd := true;
        return true;
      }
      return false;
    }

    /** `resetPaths`: every path is rewound to the left edge at the centre height. */
    method ResetPaths()
      modifies this`paths
      ensures |paths| == |old(paths)|
      ensures forall n :: 0 <= n < |paths| ==> paths[n] == [MoveTo(0.0, centerHeight as real)]
    {
      for n := 0 to |paths|
        invariant |paths| == |old(paths)|
        invariant forall k :: 0 <= k < n ==> paths[k] == [MoveTo(0.0, centerHeight as real)]
      {
        paths := paths[n := [MoveTo(0.0, centerHeight as real)]];
      }
    }

    /** `initParameters`: restarts the intro and drops the sampling positions, so
        that the next frame rebuilds the grid (the mapped positions are kept). */
    method InitParameters()
      requires Valid()
      modifies this`lineAnimX, this`prepareAlpha, this`isPrepareLineAnimEnd, this`samplingX
      ensures Valid()
      ensures lineAnimX == 0 && prepareAlpha == 0.0 && !isPrepareLineAnimEnd && samplingX == null
      ensures !GridReady()
    {
      lineAnimX := 0;
      prepareAlpha := 0.0;
      isPrepareLineAnimEnd := false;
      samplingX := null;
    }

    /** `startAnim`: restarts the intro and runs the wave. */
    method StartAnim()
      modifies this`lineAnimX, this`prepareAlpha, this`isPrepareLineAnimEnd, this`samplingX,
               this`animIsStart, this`isLoadding
      requires Valid()
      ensures Valid()
      ensures lineAnimX == 0 && prepareAlpha == 0.0 && !isPrepareLineAnimEnd && samplingX == null
      ensures animIsStart && !isLoadding
    {
      InitParameters();
      animIsStart := true;
      isLoadding := false;
    }

    /** `startLoaddingAnim`: restarts the intro and runs the loading bar. */
    method StartLoaddingAnim()
      modifies this`lineAnimX, this`prepareAlpha, this`isPrepareLineAnimEnd, this`samplingX,
               this`animIsStart, this`isLoadding
      requires Valid()
      ensures Valid()
      ensures lineAnimX == 0 && prepareAlpha == 0.0 && !isPrepareLineAnimEnd && samplingX == null
      ensures animIsStart && isLoadding
    {
      InitParameters();
      animIsStart := true;
      isLoadding := true;
    }

    /** `stopAnim`: no further frames are requested, and the loading style is left. */
    method StopAnim()
      modifies this`animIsStart, this`isLoadding
      ensures !animIsStart && !isLoadding
    {
      animIsStart := false;
      isLoadding := false;
    }

    /** `initDraw`: takes the canvas size; when it and the sampling size are
        positive, derives the centre line, the amplitude and the smoothing step,
        and builds the sampling grid in fresh arrays. */
    method InitDraw(cw: nat, ch: nat)
      requires Valid() && !GridReady()
      modifies this`width, this`height, this`centerHeight, this`amplitude, this`perVolume, this`samplingX, this`mapX
      ensures Valid()
      ensures width == cw && height == ch
      ensures cw == 0 || ch == 0 || samplingSize == 0 ==>
                && centerHeight == old(centerHeight) && amplitude == old(amplitude) && perVolume == old(perVolume)
                && samplingX == old(samplingX) && mapX == old(mapX)
      ensures 0 < cw && 0 < ch && 0 < samplingSize ==>
                && centerHeight == ch / 2 && amplitude == ch as real / 3.0 && perVolume == PerVolume(sensibility)
                && GridReady() && fresh(samplingX) && fresh(mapX)
                && samplingX[..] == SampleXs(cw, samplingSize) && mapX[..] == MapXs(cw, samplingSize)
    {
      width := cw;
      height := ch;
      if width == 0 || height == 0 || samplingSize == 0 {
        return;
      }
      centerHeight := height / 2;
      amplitude := height as real / 3.0;
      perVolume := PerVolume(sensibility);
      samplingX, mapX := BuildGrid(width, samplingSize);
    }

    /** `calcValue`: the wave's value at a mapped sample. The decay comes from the
        cache when the sample's key is there, and is computed and stored otherwise;
        a stored entry is never replaced. */
    method CalcValue(mx: real, offset: real, sin: real -> real) returns (v: real)
      requires Valid()
      modifies this`recessionFuncs, this`cacheFrom
      ensures Valid()
      ensures Key(mx) in old(recessionFuncs) ==> recessionFuncs == old(recessionFuncs) && cacheFrom == old(cacheFrom)
      ensures Key(mx) !in old(recessionFuncs) ==>
                recessionFuncs == old(recessionFuncs)[Key(mx) := Decay(mx)] && cacheFrom == old(cacheFrom)[Key(mx) := mx]
      ensures Key(mx) in recessionFuncs && v == WaveValue(mx, offset, sin, recessionFuncs)
    {
      var keyX := Trunc(mx * 1000.0);
      var off := FloatRemTwo(offset);
      var sinFunc := sin(Pi * mx - off * Pi);
      var recessionFunc: real;
      if keyX in recessionFuncs {
        recessionFunc := recessionFuncs[keyX];
      } else {
        recessionFunc := Decay(mx);
        recessionFuncs := recessionFuncs[keyX := recessionFunc];
        cacheFrom := cacheFrom[keyX := mx];
      }
      v := sinFunc * recessionFunc;
    }

    /** What the cache holds for a key is the decay at a position less than 0.002
        away, not necessarily at the position asked for. */
    lemma CachedDecayIsNearby(mx: real)
      requires Valid() && Key(mx) in recessionFuncs
      ensures Key(mx) in cacheFrom
      ensures -0.002 < cacheFrom[Key(mx)] - mx < 0.002
      ensures recessionFuncs[Key(mx)] == Decay(cacheFrom[Key(mx)])
    {
      KeyBucket(cacheFrom[Key(mx)], mx);
    }

    /** With a carrier in [-1, 1], every value the cache yields is in [-1, 1]. */
    lemma CachedValueBounded(mx: real, offset: real, sin: real -> real)
      requires Valid() && Key(mx) in recessionFuncs
      requires -1.0 <= sin(Pi * mx - FloatRemTwo(offset) * Pi) <= 1.0
      ensures -1.0 <= WaveValue(mx, offset, sin, recessionFuncs) <= 1.0
    {
      assert 0.0 < recessionFuncs[Key(mx)] <= 1.0 by {
        assert Key(mx) in cacheFrom;
      }
      WaveValueBounded(mx, offset, sin, recessionFuncs);
    }

    /** `setVolume`: a new target is taken only when it differs from the current
        one by more than one smoothing step, and is then capped at 100. */
    method SetVolume(v: int)
      requires Valid()
      modifies this`targetVolume
      ensures Valid()
      ensures targetVolume == AcceptTarget(old(targetVolume), v, perVolume)
    {
      if Abs(targetVolume - v) as real > perVolume {
        targetVolume := v;
        CheckVolumeValue();
      }
    }

    /** `setSensibility`: clamps the new sensibility; the smoothing step is
        derived from it only at the next grid build. */
    method SetSensibility(s: int)
      requires Valid()
      modifies this`sensibility
      ensures Valid()
      ensures sensibility == ClampSensibility(s)
    {
      sensibility := s;
      CheckSensibilityValue();
    }

    /** `setColors`: replaces the gradient colours. */
    method SetColors(c: seq<int>)
      modifies this`colors
      ensures colors == c
    {
      colors := c;
    }

    /** `getLinearGradientPos`: the gradient stops for the current colours. */
    method GetLinearGradientPos() returns (pos: array<real>)
      ensures fresh(pos)
      ensures pos.Length == |colors| && pos[..] == Gradient.Stops(|colors|)
    {
      pos := Gradient.FillStops(|colors|);
    }

    /** `drawLoadding`: the loading bar. The bar's width defaults to a quarter of
        the view; the first path is rewound and gets a move to the bar's left end,
        computed from the offset, and a line across the bar at mid-height. The
        other paths are only rewound. The view asks for the next frame while the
        animation runs. */
    method DrawLoadding(viewWidth: nat, viewHeight: nat, offset: real) returns (paintAlpha: int, requestNext: bool)
      requires Valid()
      requires 0 < viewWidth - EffectiveLoadWidth(viewWidth, loaddWidth)
      modifies this`loaddWidth, this`paths, this`prepareAlpha
      ensures Valid()
      ensures loaddWidth == EffectiveLoadWidth(viewWidth, old(loaddWidth))
      ensures paths == LoadingPaths(viewWidth, viewHeight, offset, loaddWidth, thickLineWidth, centerHeight)
      ensures isOpenPrepareAnim ==> prepareAlpha == AlphaStep(old(prepareAlpha)) && paintAlpha == PaintAlpha(0, prepareAlpha)
      ensures !isOpenPrepareAnim ==> prepareAlpha == old(prepareAlpha) && paintAlpha == 255
      ensures requestNext == animIsStart
    {
      if loaddWidth <= 0 {
        loaddWidth := viewWidth / 4;
      }
      ResetPaths();
      var alpha := AlphaInAnim();
      paintAlpha := PaintAlpha(0, alpha);
      var offsetInt := Trunc(offset * 600.0);
      var contentWidth := viewWidth - loaddWidth;
      var x: int;
      if JavaRem(JavaDiv(offsetInt, contentWidth), 2) == 0 {
        x := JavaRem(offsetInt, contentWidth);
      } else {
        x := contentWidth - JavaRem(offsetInt, contentWidth);
      }
      var y := JavaDiv(viewHeight - thickLineWidth, 2);
      paths := paths[0 := paths[0] + [MoveTo(x as real, y as real), LineTo((x + loaddWidth) as real, y as real)]];
      requestNext := animIsStart;
    }

    /** One sample on every layer: with `curY = amplitude * value`, layer `n` gets
        a line to `x`, offset from the centre line by `curY * pathFuncs[n] * volume / 100`. */
    method AppendSample(x: real, value: real)
      requires |paths| == 4
      modifies this`paths
      ensures |paths| == 4
      ensures forall n :: 0 <= n < 4 ==>
                paths[n] == old(paths[n]) + [LayerPoint(x, value, centerHeight, amplitude, LayerCoefficients[n], volume)]
    {
      var curY := amplitude * value;
      for n := 0 to |paths|
        invariant |paths| == 4
        invariant forall k :: 0 <= k < n ==>
                    paths[k] == old(paths[k]) + [LayerPoint(x, value, centerHeight, amplitude, LayerCoefficients[k], volume)]
        invariant forall k :: n <= k < 4 ==> paths[k] == old(paths[k])
      {
        var realY := curY * LayerCoefficients[n] * volume * 0.01;
        assert LineTo(x, centerHeight as real + realY)
            == LayerPoint(x, value, centerHeight, amplitude, LayerCoefficients[n], volume);
        paths := paths[n := paths[n] + [LineTo(x, centerHeight as real + realY)]];
      }
    }

    /** The sampling loop's progress on the view's own state. */
    ghost predicate TracedView(i: nat, values: seq<real>, startHeight: int, offset: real, sin: real -> real)
      reads this, samplingX, mapX
    {
      && Valid() && GridReady()
      && Traced(paths, samplingX[..], mapX[..], recessionFuncs, i, values, startHeight,
                centerHeight, amplitude, volume, offset, sin)
    }

    /** One pass of the sampling loop: the wave's value at sample `i`, added to every layer. */
    method TraceSample(i: nat, offset: real, sin: real -> real, ghost values: seq<real>, ghost startHeight: int)
      returns (ghost values': seq<real>)
      requires i <= samplingSize && TracedView(i, values, startHeight, offset, sin)
      modifies this`paths, this`recessionFuncs, this`cacheFrom
      ensures TracedView(i + 1, values', startHeight, offset, sin)
      ensures CacheGrows(old(recessionFuncs), recessionFuncs)
    {
      ghost var pathsBefore, cacheBefore := paths, recessionFuncs;
      var x := samplingX[i];
      var value := CalcValue(mapX[i], offset, sin);
      AppendSample(x, value);
      values' := values + [value];
      TracedStep(pathsBefore, paths, samplingX[..], mapX[..], cacheBefore, recessionFuncs, i, values, value,
                 startHeight, centerHeight, amplitude, volume, offset, sin);
    }

    /** The sampling loop of `onDraw`'s steady part: builds the grid first if it
        is missing (giving up on the frame if it still cannot), then traces every
        layer through every sample. Closed by a move to the right edge, each layer
        is then the layer's whole frame. */
    method TraceLayers(cw: nat, ch: nat, offset: real, sin: real -> real) returns (complete: bool)
      requires Valid()
      requires forall n :: 0 <= n < 4 ==> paths[n] == [MoveTo(0.0, centerHeight as real)]
      modifies this`paths, this`recessionFuncs, this`cacheFrom
      modifies this`width, this`height, this`centerHeight, this`amplitude, this`perVolume, this`samplingX, this`mapX
      ensures Valid()
      ensures complete <==> old(GridReady()) || (0 < cw && 0 < ch && 0 < samplingSize)
      ensures !complete ==> !GridReady()
      ensures old(GridReady()) || !GridReady() ==>
                perVolume == old(perVolume) && centerHeight == old(centerHeight) && amplitude == old(amplitude)
      ensures !old(GridReady()) && GridReady() ==> perVolume == PerVolume(sensibility)
      ensures old(GridReady()) ==> samplingX == old(samplingX) && mapX == old(mapX) && width == old(width) && height == old(height)
      ensures !old(GridReady()) ==> width == cw && height == ch
      ensures CacheGrows(old(recessionFuncs), recessionFuncs)
      ensures !complete ==> forall n :: 0 <= n < 4 ==> paths[n] == [MoveTo(0.0, centerHeight as real)]
      ensures complete ==>
                && GridReady()
                && (forall j :: 0 <= j < mapX.Length ==> Key(mapX[j]) in recessionFuncs)
                && forall n :: 0 <= n < 4 ==>
                     paths[n] + [MoveTo(width as real, centerHeight as real)]
                     == LayerPath(samplingX[..], Values(mapX[..], offset, sin, recessionFuncs),
                                  old(centerHeight), centerHeight, amplitude, LayerCoefficients[n], volume, width)
    {
      ghost var startHeight := centerHeight;
      ghost var values: seq<real> := [];
      var i := 0;
      while i <= samplingSize
        invariant 0 <= i <= samplingSize + 1
        invariant Valid()
        invariant 0 < i ==> old(GridReady()) || (0 < cw && 0 < ch && 0 < samplingSize)
        invariant old(GridReady()) ==>
                    && perVolume == old(perVolume) && centerHeight == old(centerHeight) && amplitude == old(amplitude)
                    && samplingX == old(samplingX) && mapX == old(mapX) && width == old(width) && height == old(height)
        invariant i == 0 ==> GridReady() == old(GridReady()) && perVolume == old(perVolume)
                             && centerHeight == old(centerHeight) && amplitude == old(amplitude) && width == old(width)
        invariant 0 < i && !old(GridReady()) ==> perVolume == PerVolume(sensibility)
        invariant i == 0 ==> values == [] && forall n :: 0 <= n < 4 ==> paths[n] == [MoveTo(0.0, startHeight as real)]
        invariant 0 < i ==> TracedView(i, values, startHeight, offset, sin)
        invariant 0 < i && !old(GridReady()) ==> width == cw && height == ch
        invariant CacheGrows(old(recessionFuncs), recessionFuncs)
      {
        if !GridReady() {
          InitDraw(cw, ch);
          if !GridReady() {
            return false;
          }
        }
        values := TraceSample(i, offset, sin, values, startHeight);
        i := i + 1;
      }
      TracedComplete(paths, samplingX[..], mapX[..], recessionFuncs, values, startHeight,
                     centerHeight, amplitude, volume, offset, sin, width);
      complete := true;
    }

    /** The closing `moveTo(width, centerHeight)` of every layer. */
    method CloseLayers()
      requires |paths| == 4
      modifies this`paths
      ensures |paths| == 4
      ensures forall n :: 0 <= n < 4 ==> paths[n] == old(paths[n]) + [MoveTo(width as real, centerHeight as real)]
    {
      for n := 0 to |paths|
        invariant |paths| == 4
        invariant forall k :: 0 <= k < n ==> paths[k] == old(paths[k]) + [MoveTo(width as real, centerHeight as real)]
        invariant forall k :: n <= k < 4 ==> paths[k] == old(paths[k])
      {
        paths := paths[n := paths[n] + [MoveTo(width as real, centerHeight as real)]];
      }
    }

    /** The paint of every layer: one fade step per layer, the first layer opaque
        and the others at 100 of 255 before the fade is applied. */
    method FadeLayers() returns (paintAlphas: seq<int>)
      modifies this`prepareAlpha
      ensures |paintAlphas| == 4
      ensures !isOpenPrepareAnim ==> paintAlphas == [255, 100, 100, 100] && prepareAlpha == old(prepareAlpha)
      ensures isOpenPrepareAnim ==>
                && prepareAlpha == AlphaAfter(old(prepareAlpha), 4)
                && forall n :: 0 <= n < 4 ==> paintAlphas[n] == PaintAlpha(n, AlphaAfter(old(prepareAlpha), n + 1))
    {
      paintAlphas := [];
      for n := 0 to 4
        invariant |paintAlphas| == n
        invariant !isOpenPrepareAnim ==> prepareAlpha == old(prepareAlpha) && paintAlphas == [255, 100, 100, 100][..n]
        invariant isOpenPrepareAnim ==>
                    && prepareAlpha == AlphaAfter(old(prepareAlpha), n)
                    && forall k :: 0 <= k < n ==> paintAlphas[k] == PaintAlpha(k, AlphaAfter(old(prepareAlpha), k + 1))
      {
        var alpha := AlphaInAnim();
        paintAlphas := paintAlphas + [PaintAlpha(n, alpha)];
      }
    }

    /** The steady part of `onDraw`, once the intro has ended: rewinds the paths,
        smooths the volume, traces every layer through every sample, moves each
        layer to the right edge, and takes one fade step per layer for its paint.
        Without a grid the frame ends early. */
    method DrawWave(cw: nat, ch: nat, offset: real, sin: real -> real) returns (complete: bool, paintAlphas: seq<int>)
      requires Valid()
      modifies this`paths, this`volume, this`recessionFuncs, this`cacheFrom, this`prepareAlpha
      modifies this`width, this`height, this`centerHeight, this`amplitude, this`perVolume, this`samplingX, this`mapX
      ensures Valid()
      ensures volume == Soften(old(volume), targetVolume as real, old(perVolume))
      ensures complete <==> old(GridReady()) || (0 < cw && 0 < ch && 0 < samplingSize)
      ensures !complete ==> !GridReady() && prepareAlpha == old(prepareAlpha)
      ensures old(GridReady()) || !GridReady() ==>
                perVolume == old(perVolume) && centerHeight == old(centerHeight) && amplitude == old(amplitude)
      ensures !old(GridReady()) && GridReady() ==> perVolume == PerVolume(sensibility)
      ensures old(GridReady()) ==> samplingX == old(samplingX) && mapX == old(mapX) && width == old(width) && height == old(height)
      ensures !old(GridReady()) ==> width == cw && height == ch
      ensures CacheGrows(old(recessionFuncs), recessionFuncs)
      ensures !complete ==> forall n :: 0 <= n < 4 ==> paths[n] == [MoveTo(0.0, centerHeight as real)]
      ensures complete ==>
                && GridReady()
                && (forall j :: 0 <= j < mapX.Length ==> Key(mapX[j]) in recessionFuncs)
                && forall n :: 0 <= n < 4 ==>
                     paths[n] == LayerPath(samplingX[..], Values(mapX[..], offset, sin, recessionFuncs),
                                           old(centerHeight), centerHeight, amplitude, LayerCoefficients[n], volume, width)
      ensures complete && !isOpenPrepareAnim ==> paintAlphas == [255, 100, 100, 100] && prepareAlpha == old(prepareAlpha)
      ensures complete && isOpenPrepareAnim ==>
                && prepareAlpha == AlphaAfter(old(prepareAlpha), 4)
                && |paintAlphas| == 4
                && forall n :: 0 <= n < 4 ==> paintAlphas[n] == PaintAlpha(n, AlphaAfter(old(prepareAlpha), n + 1))
    {
      ResetPaths();
      SofterChangeVolume();
      complete := TraceLayers(cw, ch, offset, sin);
      if !complete {
        return complete, [];
      }
      CloseLayers();
      paintAlphas := FadeLayers();
    }

    /** `onDraw` past the loading check: an intro frame while the intro runs,
        the wave once it has ended, or nothing when the grid is still missing.
        The frame on which the intro ends both advances the sweep and draws the
        wave, which rewinds the sweep lines away. */
    method DrawAnimated(cw: nat, ch: nat, offset: real, sin: real -> real) returns (frame: Frame)
      requires Valid() && !isLoadding
      requires GridReady() || cw == 0 || ch == 0 || samplingSize == 0
      modifies this`paths, this`volume, this`recessionFuncs, this`cacheFrom, this`prepareAlpha
      modifies this`width, this`height, this`centerHeight, this`amplitude, this`perVolume, this`samplingX, this`mapX
      modifies this`lineAnimX, this`isPrepareLineAnimEnd
      ensures Valid()
      ensures !frame.Loading?
      ensures frame.Intro? <==> isOpenPrepareAnim && !isPrepareLineAnimEnd
      ensures !frame.Intro? ==> (frame.Abandoned? <==> !GridReady())
      ensures frame.Abandoned? ==> cw == 0 || ch == 0 || samplingSize == 0
      // the sweep, as one call of `lineAnim` leaves it
      ensures old(isPrepareLineAnimEnd) || !isOpenPrepareAnim ==>
                lineAnimX == old(lineAnimX) && isPrepareLineAnimEnd == old(isPrepareLineAnimEnd)
      ensures !old(isPrepareLineAnimEnd) && isOpenPrepareAnim ==>
                lineAnimX == old(lineAnimX) + old(width) / 60 && isPrepareLineAnimEnd == (lineAnimX > old(width) / 2)
      ensures GridReady() == old(GridReady())
      ensures perVolume == old(perVolume) && centerHeight == old(centerHeight) && amplitude == old(amplitude)
      ensures old(GridReady()) ==> samplingX == old(samplingX) && mapX == old(mapX) && width == old(width) && height == old(height)
      ensures frame.Intro? ==> width == old(width) && height == old(height)
      ensures !old(GridReady()) && !frame.Intro? ==> width == cw && height == ch
      ensures CacheGrows(old(recessionFuncs), recessionFuncs)
      // an intro frame: the sweep lines are appended, and nothing else is drawn
      ensures frame.Intro? ==>
                && paths == old(paths)[0 := old(paths[0]) + SweepFromLeft(samplingSize, old(lineAnimX), width, centerHeight)]
                                      [1 := old(paths[1]) + SweepFromRight(samplingSize, old(lineAnimX), width, centerHeight)]
                && centerHeight == old(centerHeight)
                && volume == old(volume) && prepareAlpha == old(prepareAlpha) && recessionFuncs == old(recessionFuncs)
      // otherwise one smoothing step, then the wave or nothing
      ensures !frame.Intro? ==> volume == Soften(old(volume), targetVolume as real, perVolume)
      ensures frame.Abandoned? ==> prepareAlpha == old(prepareAlpha)
      ensures frame.Abandoned? ==> forall n :: 0 <= n < 4 ==> paths[n] == [MoveTo(0.0, centerHeight as real)]
      ensures frame.Wave? ==>
                && GridReady()
                && (forall j :: 0 <= j < mapX.Length ==> Key(mapX[j]) in recessionFuncs)
                && forall n :: 0 <= n < 4 ==>
                     paths[n] == LayerPath(samplingX[..], Values(mapX[..], offset, sin, recessionFuncs),
                                           centerHeight, centerHeight, amplitude, LayerCoefficients[n], volume, width)
      ensures frame.Wave? && !isOpenPrepareAnim ==>
                frame.paintAlphas == [255, 100, 100, 100] && prepareAlpha == old(prepareAlpha)
      ensures frame.Wave? && isOpenPrepareAnim ==>
                && prepareAlpha == AlphaAfter(old(prepareAlpha), 4)
                && |frame.paintAlphas| == 4
                && forall n :: 0 <= n < 4 ==> frame.paintAlphas[n] == PaintAlpha(n, AlphaAfter(old(prepareAlpha), n + 1))
    {
      var ended := LineAnim();
      if ended {
        var complete, alphas := DrawWave(cw, ch, offset, sin);
        frame := if complete then Wave(alphas) else Abandoned;
      } else {
        frame := Intro;
      }
    }

    /** `onDraw`: one frame. It builds the grid when it is missing, then draws
        either the loading bar, or an intro frame while the intro runs, or the
        wave once the intro has ended. It asks for the next frame while the
        animation runs, except that a frame given up for want of a grid asks
        for none. The canvas is taken to be as large as the view. */
    method OnDraw(cw: nat, ch: nat, offset: real, sin: real -> real) returns (frame: Frame, requestNext: bool)
      requires Valid()
      requires isLoadding ==> 0 < cw - EffectiveLoadWidth(cw, loaddWidth)
      modifies this`paths, this`volume, this`recessionFuncs, this`cacheFrom, this`prepareAlpha, this`loaddWidth
      modifies this`width, this`height, this`centerHeight, this`amplitude, this`perVolume, this`samplingX, this`mapX
      modifies this`lineAnimX, this`isPrepareLineAnimEnd
      ensures Valid()
      ensures frame.Loading? <==> isLoadding
      ensures !isLoadding ==> (frame.Intro? <==> isOpenPrepareAnim && !isPrepareLineAnimEnd)
      ensures !isLoadding && !frame.Intro? ==> (frame.Abandoned? <==> !GridReady())
      ensures frame.Abandoned? ==> cw == 0 || ch == 0 || samplingSize == 0
      // the grid: kept while there is one, otherwise built from the canvas when it can be
      ensures GridReady() <==> old(GridReady()) || (0 < cw && 0 < ch && 0 < samplingSize)
      ensures old(GridReady()) || !GridReady() ==>
                perVolume == old(perVolume) && centerHeight == old(centerHeight) && amplitude == old(amplitude)
      ensures !old(GridReady()) && GridReady() ==> perVolume == PerVolume(sensibility)
      ensures old(GridReady()) ==> samplingX == old(samplingX) && mapX == old(mapX) && width == old(width) && height == old(height)
      ensures !old(GridReady()) ==> width == cw && height == ch
      ensures CacheGrows(old(recessionFuncs), recessionFuncs)
      ensures !frame.Loading? ==> loaddWidth == old(loaddWidth)
      ensures requestNext == (animIsStart && !frame.Abandoned?)
      // a loading frame: the bar, one fade step, and nothing else
      ensures frame.Loading? ==>
                && loaddWidth == EffectiveLoadWidth(cw, old(loaddWidth))
                && paths == LoadingPaths(cw, ch, offset, loaddWidth, thickLineWidth, centerHeight)
                && (isOpenPrepareAnim ==> prepareAlpha == AlphaStep(old(prepareAlpha)) && frame.paintAlpha == PaintAlpha(0, prepareAlpha))
                && (!isOpenPrepareAnim ==> prepareAlpha == old(prepareAlpha) && frame.paintAlpha == 255)
                && volume == old(volume) && recessionFuncs == old(recessionFuncs)
                && lineAnimX == old(lineAnimX) && isPrepareLineAnimEnd == old(isPrepareLineAnimEnd)
      // the sweep, as one call of `lineAnim` leaves it
      ensures !isLoadding && (old(isPrepareLineAnimEnd) || !isOpenPrepareAnim) ==>
                lineAnimX == old(lineAnimX) && isPrepareLineAnimEnd == old(isPrepareLineAnimEnd)
      ensures !isLoadding && !old(isPrepareLineAnimEnd) && isOpenPrepareAnim ==>
                lineAnimX == old(lineAnimX) + width / 60 && isPrepareLineAnimEnd == (lineAnimX > width / 2)
      // an intro frame: the sweep lines are appended, and nothing else is drawn
      ensures frame.Intro? ==>
                && paths == old(paths)[0 := old(paths[0]) + SweepFromLeft(samplingSize, old(lineAnimX), width, centerHeight)]
                                      [1 := old(paths[1]) + SweepFromRight(samplingSize, old(lineAnimX), width, centerHeight)]
                && volume == old(volume) && prepareAlpha == old(prepareAlpha) && recessionFuncs == old(recessionFuncs)
      // otherwise one smoothing step, then the wave or nothing
      ensures frame.Wave? || frame.Abandoned? ==> volume == Soften(old(volume), targetVolume as real, perVolume)
      ensures !isLoadding && !frame.Intro? && !old(GridReady()) && (cw == 0 || ch == 0 || samplingSize == 0) ==>
                frame.Abandoned?
      ensures frame.Abandoned? ==> prepareAlpha == old(prepareAlpha)
      ensures frame.Abandoned? ==> forall n :: 0 <= n < 4 ==> paths[n] == [MoveTo(0.0, centerHeight as real)]
      ensures frame.Wave? ==>
                && GridReady()
                && (forall j :: 0 <= j < mapX.Length ==> Key(mapX[j]) in recessionFuncs)
                && forall n :: 0 <= n < 4 ==>
                     paths[n] == LayerPath(samplingX[..], Values(mapX[..], offset, sin, recessionFuncs),
                                           centerHeight, centerHeight, amplitude, LayerCoefficients[n], volume, width)
      ensures frame.Wave? && !isOpenPrepareAnim ==>
                frame.paintAlphas == [255, 100, 100, 100] && prepareAlpha == old(prepareAlpha)
      ensures frame.Wave? && isOpenPrepareAnim ==>
                && prepareAlpha == AlphaAfter(old(prepareAlpha), 4)
                && |frame.paintAlphas| == 4
                && forall n :: 0 <= n < 4 ==> frame.paintAlphas[n] == PaintAlpha(n, AlphaAfter(old(prepareAlpha), n + 1))
    {
      if !GridReady() {
        InitDraw(cw, ch);
      }
      if isLoadding {
        var alpha, next := DrawLoadding(cw, ch, offset);
        return Loading(alpha), next;
      }
      frame := DrawAnimated(cw, ch, offset, sin);
      requestNext := animIsStart && !frame.Abandoned?;
    }

    /** Consecutive frames of the wave on a canvas of one size, once the intro is
        over, one per animation offset. Every frame is the wave, or every frame
        is given up for want of a grid, and every frame takes one smoothing step
        of the volume with the same step: the one the first frame leaves in
        place, which is derived from the sensibility when that frame builds the
        grid. */
    method DrawFrames(cw: nat, ch: nat, offsets: seq<real>, sin: real -> real) returns (frames: seq<Frame>)
      requires Valid() && !isLoadding && (isPrepareLineAnimEnd || !isOpenPrepareAnim)
      modifies this`paths, this`volume, this`recessionFuncs, this`cacheFrom, this`prepareAlpha, this`loaddWidth
      modifies this`width, this`height, this`centerHeight, this`amplitude, this`perVolume, this`samplingX, this`mapX
      modifies this`lineAnimX, this`isPrepareLineAnimEnd
      ensures Valid()
      ensures |frames| == |offsets|
      ensures |offsets| == 0 ==> volume == old(volume) && GridReady() == old(GridReady())
      ensures 0 < |offsets| ==>
                && (GridReady() <==> old(GridReady()) || (0 < cw && 0 < ch && 0 < samplingSize))
                && perVolume == (if old(GridReady()) || !GridReady() then old(perVolume) else PerVolume(sensibility))
                && volume == Iterate(old(volume), targetVolume as real, perVolume, |offsets|)
      ensures forall k :: 0 <= k < |frames| ==> (frames[k].Wave? <==> GridReady()) && (frames[k].Abandoned? <==> !GridReady())
    {
      frames := [];
      for i := 0 to |offsets|
        invariant Valid() && !isLoadding && (isPrepareLineAnimEnd || !isOpenPrepareAnim)
        invariant |frames| == i
        invariant i == 0 ==> volume == old(volume) && GridReady() == old(GridReady()) && perVolume == old(perVolume)
        invariant 0 < i ==>
                    && (GridReady() <==> old(GridReady()) || (0 < cw && 0 < ch && 0 < samplingSize))
                    && perVolume == (if old(GridReady()) || !GridReady() then old(perVolume) else PerVolume(sensibility))
                    && volume == Iterate(old(volume), targetVolume as real, perVolume, i)
        invariant forall k :: 0 <= k < i ==> (frames[k].Wave? <==> GridReady()) && (frames[k].Abandoned? <==> !GridReady())
      {
        var frame, _ := OnDraw(cw, ch, offsets[i], sin);
        IterateLast(old(volume), targetVolume as real, perVolume, i);
        frames := frames + [frame];
      }
    }
  }
}
