/** The signal side of `WaveLineView`: the sampling grid, the decay envelope and
    its cache key, the value of the wave at a sample, and the four layered curves
    one steady frame draws. `Math.sin` is not interpreted: callers pass it as the
    function `sin`. */
module Waveform {

  import opened Numerics
  import opened Paths

  /** The layer coefficients `pathFuncs`: two large humps, a small one and its inverse. */
  const LayerCoefficients: seq<real> := [0.6, 0.35, 0.1, -0.1]

  /** Sample `i` of a canvas `w` wide cut into `n` gaps: `i * gap` with `gap = w / n`. */
  function SampleX(w: nat, n: nat, i: int): real
    requires 0 < n
  {
    i as real * (w as real / n as real)
  }

  /** A sample position mapped into the envelope's domain: `(x / w) * 4 - 2`. */
  function MapX(x: real, w: nat): real
    requires 0 < w
  {
    (x / w as real) * 4.0 - 2.0
  }

  /** The sample positions `samplingX`, end points included. */
  function SampleXs(w: nat, n: nat): seq<real>
    requires 0 < n
  {
    seq(n + 1, i requires 0 <= i <= n => SampleX(w, n, i))
  }

  /** The mapped positions `mapX`. */
  function MapXs(w: nat, n: nat): seq<real>
    requires 0 < w && 0 < n
  {
    seq(n + 1, i requires 0 <= i <= n => MapX(SampleX(w, n, i), w))
  }

  /** The grid spans the canvas: the first sample sits at 0, the last at `w`,
      and the samples rise strictly; their images run strictly from -2 to 2. */
  lemma GridShape(w: nat, n: nat)
    requires 0 < w && 0 < n
    ensures |SampleXs(w, n)| == n + 1 == |MapXs(w, n)|
    ensures SampleXs(w, n)[0] == 0.0 && SampleXs(w, n)[n] == w as real
    ensures MapXs(w, n)[0] == -2.0 && MapXs(w, n)[n] == 2.0
    ensures forall i, j :: 0 <= i < j <= n ==> SampleXs(w, n)[i] < SampleXs(w, n)[j]
    ensures forall i, j :: 0 <= i < j <= n ==> MapXs(w, n)[i] < MapXs(w, n)[j]
  {
    var xs, ms := SampleXs(w, n), MapXs(w, n);
    GridEnds(w, n);
    assert xs[n] == SampleX(w, n, n) && ms[n] == MapX(SampleX(w, n, n), w);
    forall i, j | 0 <= i < j <= n
      ensures xs[i] < xs[j] && ms[i] < ms[j]
    {
      assert xs[i] == SampleX(w, n, i) && xs[j] == SampleX(w, n, j);
      SampleXRises(w, n, i, j);
      MapXRises(xs[i], xs[j], w);
    }
  }

  lemma GridEnds(w: nat, n: nat)
    requires 0 < w && 0 < n
    ensures SampleX(w, n, n) == w as real
    ensures MapX(w as real, w) == 2.0
  {
    var gap := w as real / n as real;
    assert n as real * gap == w as real;
    assert w as real / w as real == 1.0;
  }

  lemma SampleXRises(w: nat, n: nat, i: int, j: int)
    requires 0 < w && 0 < n && i < j
    ensures SampleX(w, n, i) < SampleX(w, n, j)
  {
    var gap := w as real / n as real;
    assert 0.0 < gap;
    MulRightStrict(i as real, j as real, gap);
  }

  lemma MapXRises(x: real, y: real, w: nat)
    requires 0 < w && x < y
    ensures MapX(x, w) < MapX(y, w)
  {
    DivRightStrict(x, y, w as real);
  }

  /** The decay envelope `4 / (4 + x^4)`: a bell, 1 at the centre and in (0, 1]. */
  function Decay(x: real): (r: real)
    ensures 0.0 < r <= 1.0
    ensures x == 0.0 ==> r == 1.0
  {
    var p := x * x;
    assert 0.0 <= p * p;
    4.0 / (4.0 + p * p)
  }

  /** The envelope is symmetric about the centre. */
  lemma DecaySymmetric(x: real)
    ensures Decay(-x) == Decay(x)
  {
    assert (-x) * (-x) == x * x;
  }

  /** The cache key `(int)(mapX * 1000)`: truncation toward zero. */
  function Key(x: real): (k: int)
    ensures 0.0 <= x ==> k as real <= x * 1000.0 < k as real + 1.0
    ensures x < 0.0 ==> k as real - 1.0 < x * 1000.0 <= k as real
  {
    Trunc(x * 1000.0)
  }

  /** Two positions share a key only when they lie within 0.002 of each other;
      the bucket of key 0 does reach that width, since it straddles the centre. */
  lemma KeyBucket(x: real, y: real)
    requires Key(x) == Key(y)
    ensures -0.002 < x - y < 0.002
  {
  }

  lemma KeyZeroStraddlesCentre()
    ensures Key(-0.0009) == Key(0.0) == Key(0.0009) == 0
    ensures Key(-0.0015) == -1 && Key(0.0015) == 1
  {
  }

  /** `calcValue` against a cache that holds the sample's key: the carrier
      `sin(PI * mapX - (offset % 2) * PI)` times the cached decay. */
  function WaveValue(mx: real, offset: real, sin: real -> real, cache: map<int, real>): real
    requires Key(mx) in cache
  {
    sin(Pi * mx - FloatRemTwo(offset) * Pi) * cache[Key(mx)]
  }

  /** The value at a sample depends on the cache only through the sample's own entry. */
  lemma WaveValueSameEntry(mx: real, offset: real, sin: real -> real, c1: map<int, real>, c2: map<int, real>)
    requires Key(mx) in c1 && Key(mx) in c2 && c1[Key(mx)] == c2[Key(mx)]
    ensures WaveValue(mx, offset, sin, c1) == WaveValue(mx, offset, sin, c2)
  {
  }

  /** The values of a whole frame: `WaveValue` at every mapped sample. */
  function Values(ms: seq<real>, offset: real, sin: real -> real, cache: map<int, real>): seq<real>
    requires forall i :: 0 <= i < |ms| ==> Key(ms[i]) in cache
  {
    seq(|ms|, i requires 0 <= i < |ms| => WaveValue(ms[i], offset, sin, cache))
  }

  /** With a carrier in [-1, 1] and a cached decay in (0, 1], a sample's value is in [-1, 1]. */
  lemma WaveValueBounded(mx: real, offset: real, sin: real -> real, cache: map<int, real>)
    requires Key(mx) in cache && 0.0 < cache[Key(mx)] <= 1.0
    requires -1.0 <= sin(Pi * mx - FloatRemTwo(offset) * Pi) <= 1.0
    ensures -1.0 <= WaveValue(mx, offset, sin, cache) <= 1.0
  {
    var a, d := sin(Pi * mx - FloatRemTwo(offset) * Pi), cache[Key(mx)];
    ProductBoundedBy(a, d);
    assert WaveValue(mx, offset, sin, cache) == a * d;
  }

  /** Every entry the cache holds is a decay, so in (0, 1]. */
  ghost predicate DecayCache(cache: map<int, real>)
  {
    forall k :: k in cache ==> 0.0 < cache[k] <= 1.0
  }

  /** A whole frame's values lie in [-1, 1] when the carrier does at every
      sample and the cache holds decays. */
  lemma ValuesBounded(ms: seq<real>, offset: real, sin: real -> real, cache: map<int, real>)
    requires forall i :: 0 <= i < |ms| ==> Key(ms[i]) in cache
    requires DecayCache(cache)
    requires forall i :: 0 <= i < |ms| ==> -1.0 <= sin(Pi * ms[i] - FloatRemTwo(offset) * Pi) <= 1.0
    ensures |Values(ms, offset, sin, cache)| == |ms|
    ensures forall i :: 0 <= i < |ms| ==> -1.0 <= Values(ms, offset, sin, cache)[i] <= 1.0
  {
    forall i | 0 <= i < |ms|
      ensures -1.0 <= Values(ms, offset, sin, cache)[i] <= 1.0
    {
      WaveValueBounded(ms[i], offset, sin, cache);
    }
  }

  /** The cache only grows: every key keeps its entry. */
  ghost predicate CacheGrows(cache: map<int, real>, cache': map<int, real>)
  {
    forall k :: k in cache ==> k in cache' && cache'[k] == cache[k]
  }

  /** One sample of one layer as `onDraw` records it:
      `lineTo(x, centerHeight + curY * coef * volume * 0.01)`. */
  function SamplePoint(x: real, curY: real, centerHeight: int, coef: real, volume: real): PathOp
  {
    LineTo(x, centerHeight as real + curY * coef * volume * 0.01)
  }

  /** The same sample in terms of the wave's value: `curY = amplitude * value`. */
  function LayerPoint(x: real, value: real, centerHeight: int, amplitude: real, coef: real, volume: real): PathOp
  {
    SamplePoint(x, amplitude * value, centerHeight, coef, volume)
  }

  /** A layer's whole frame: rewound to `(0, startHeight)`, one point per sample,
      then a move (not a line) to the far edge at the centre height. */
  function LayerPath(xs: seq<real>, values: seq<real>, startHeight: int, centerHeight: int,
                     amplitude: real, coef: real, volume: real, w: int): Path
    requires |xs| == |values|
  {
    [MoveTo(0.0, startHeight as real)]
    + seq(|xs|, i requires 0 <= i < |xs| => LayerPoint(xs[i], values[i], centerHeight, amplitude, coef, volume))
    + [MoveTo(w as real, centerHeight as real)]
  }

  /** A path built command by command equals `LayerPath` once its rewind point,
      every sample point and its closing move are the expected ones. */
  lemma LayerPathByPoints(p: Path, xs: seq<real>, values: seq<real>, startHeight: int, centerHeight: int,
                          amplitude: real, coef: real, volume: real, w: int)
    requires |xs| == |values| && |p| == |xs| + 2
    requires p[0] == MoveTo(0.0, startHeight as real)
    requires forall j :: 0 <= j < |xs| ==> p[j + 1] == LayerPoint(xs[j], values[j], centerHeight, amplitude, coef, volume)
    requires p[|xs| + 1] == MoveTo(w as real, centerHeight as real)
    ensures p == LayerPath(xs, values, startHeight, centerHeight, amplitude, coef, volume, w)
  {
    var q := LayerPath(xs, values, startHeight, centerHeight, amplitude, coef, volume, w);
    forall k | 0 <= k < |p|
      ensures p[k] == q[k]
    {
      if 0 < k <= |xs| {
        assert p[(k - 1) + 1] == LayerPoint(xs[k - 1], values[k - 1], centerHeight, amplitude, coef, volume);
      }
    }
  }

  /** The sampling loop's progress after `i` samples: every layer holds its
      rewind point to `startHeight` and one point per sample, built from the
      sample's value `values[j]`, which is the wave's value there against `cache`. */
  ghost predicate Traced(ps: seq<Path>, xs: seq<real>, ms: seq<real>, cache: map<int, real>, i: nat,
                         values: seq<real>, startHeight: int, centerHeight: int, amplitude: real,
                         volume: real, offset: real, sin: real -> real)
  {
    && |ps| == |LayerCoefficients| && |xs| == |ms| && i <= |xs| && |values| == i
    && (forall n :: 0 <= n < 4 ==> |ps[n]| == i + 1 && ps[n][0] == MoveTo(0.0, startHeight as real))
    && (forall j :: 0 <= j < i ==> Key(ms[j]) in cache && values[j] == WaveValue(ms[j], offset, sin, cache))
    && (forall n, j :: 0 <= n < 4 && 0 <= j < i ==>
          ps[n][j + 1] == LayerPoint(xs[j], values[j], centerHeight, amplitude, LayerCoefficients[n], volume))
  }

  /** One more sample keeps the loop's progress, as long as the cache only grows. */
  lemma TracedStep(ps: seq<Path>, ps': seq<Path>, xs: seq<real>, ms: seq<real>, cache: map<int, real>,
                   cache': map<int, real>, i: nat, values: seq<real>, value: real, startHeight: int,
                   centerHeight: int, amplitude: real, volume: real, offset: real, sin: real -> real)
    requires Traced(ps, xs, ms, cache, i, values, startHeight, centerHeight, amplitude, volume, offset, sin)
    requires i < |xs|
    requires CacheGrows(cache, cache')
    requires Key(ms[i]) in cache' && value == WaveValue(ms[i], offset, sin, cache')
    requires |ps'| == 4
    requires forall n :: 0 <= n < 4 ==>
               ps'[n] == ps[n] + [LayerPoint(xs[i], value, centerHeight, amplitude, LayerCoefficients[n], volume)]
    ensures Traced(ps', xs, ms, cache', i + 1, values + [value], startHeight, centerHeight, amplitude, volume, offset, sin)
  {
    forall j | 0 <= j < i
      ensures Key(ms[j]) in cache' && values[j] == WaveValue(ms[j], offset, sin, cache')
    {
      WaveValueSameEntry(ms[j], offset, sin, cache, cache');
    }
  }

  /** Once every sample is traced, the values are the frame's values and each
      layer, closed by a move to the far edge, is the layer's whole frame. */
  lemma TracedComplete(ps: seq<Path>, xs: seq<real>, ms: seq<real>, cache: map<int, real>,
                       values: seq<real>, startHeight: int, centerHeight: int, amplitude: real,
                       volume: real, offset: real, sin: real -> real, w: int)
    requires Traced(ps, xs, ms, cache, |xs|, values, startHeight, centerHeight, amplitude, volume, offset, sin)
    ensures forall j :: 0 <= j < |ms| ==> Key(ms[j]) in cache
    ensures values == Values(ms, offset, sin, cache)
    ensures forall n :: 0 <= n < 4 ==>
              ps[n] + [MoveTo(w as real, centerHeight as real)]
              == LayerPath(xs, values, startHeight, centerHeight, amplitude, LayerCoefficients[n], volume, w)
  {
    forall n | 0 <= n < 4
      ensures ps[n] + [MoveTo(w as real, centerHeight as real)]
              == LayerPath(xs, values, startHeight, centerHeight, amplitude, LayerCoefficients[n], volume, w)
    {
      LayerPathByPoints(ps[n] + [MoveTo(w as real, centerHeight as real)], xs, values,
                        startHeight, centerHeight, amplitude, LayerCoefficients[n], volume, w);
    }
  }

  /** All layers share their x positions, and each layer's deviation from the
      centre line is the layer's coefficient times one common deviation: the
      layers are scaled copies of one curve, and the last is the third turned over. */
  lemma LayersAreScaledCopies(x: real, value: real, centerHeight: int, amplitude: real, volume: real, n: nat)
    requires n < |LayerCoefficients|
    ensures LayerPoint(x, value, centerHeight, amplitude, LayerCoefficients[n], volume).x == x
    ensures LayerPoint(x, value, centerHeight, amplitude, LayerCoefficients[n], volume).y - centerHeight as real
         == LayerCoefficients[n] * (amplitude * value * volume * 0.01)
    ensures LayerPoint(x, value, centerHeight, amplitude, LayerCoefficients[3], volume).y - centerHeight as real
         == -(LayerPoint(x, value, centerHeight, amplitude, LayerCoefficients[2], volume).y - centerHeight as real)
  {
    var u := amplitude * value;
    var c := LayerCoefficients[n];
    assert u * c * volume * 0.01 == c * (u * volume * 0.01);
    assert u * -0.1 * volume * 0.01 == -(u * 0.1 * volume * 0.01);
  }

  /** A layer never strays from the centre line by more than
      `amplitude * |coef| * |volume| / 100` when the sample value is in [-1, 1],
      whatever the signs of the coefficient and of the volume. */
  lemma LayerDeviationBounded(x: real, value: real, centerHeight: int, amplitude: real, coef: real, volume: real)
    requires -1.0 <= value <= 1.0 && 0.0 <= amplitude
    ensures -(amplitude * RealAbs(coef) * RealAbs(volume) * 0.01)
         <= LayerPoint(x, value, centerHeight, amplitude, coef, volume).y - centerHeight as real
         <= amplitude * RealAbs(coef) * RealAbs(volume) * 0.01
  {
    var m := amplitude * RealAbs(coef) * RealAbs(volume) * 0.01;
    var sign := (if coef < 0.0 then -1.0 else 1.0) * (if volume < 0.0 then -1.0 else 1.0);
    var u := sign * value;
    assert -1.0 <= u <= 1.0;
    assert 0.0 <= m by {
      assert 0.0 <= amplitude * RealAbs(coef);
    }
    var d := LayerPoint(x, value, centerHeight, amplitude, coef, volume).y - centerHeight as real;
    assert d == amplitude * value * coef * volume * 0.01 == u * m;
    ProductBoundedBy(u, m);
    var um := u * m;
    assert -m <= um <= m && d == um;
  }

  lemma ProductBoundedBy(a: real, m: real)
    requires -1.0 <= a <= 1.0 && 0.0 <= m
    ensures -m <= a * m <= m
  {
    if 0.0 <= a {
      assert a * m <= 1.0 * m;
    } else {
      assert (-a) * m <= 1.0 * m;
      assert (-a) * m == -(a * m);
    }
  }
}
