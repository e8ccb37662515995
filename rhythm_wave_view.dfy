/** `RhythmWaveView`: one wave under a bell-shaped envelope, drawn with its
    mirror image below the centre line, whose amplitude dies away linearly over
    each turn of an animator running its phase from 0 to 2 PI.

    The phase arrives as the parameter of `OnAnimationUpdate`, the view size as
    the parameters of `OnMeasure`. The fourth power in the envelope is written out
    as a product; `Math.sin` and `Math.pow(a, 2.5)` are not interpreted: callers
    pass them as the functions `sin` and `pow`. Coordinates are relative
    to the view's centre, to which the canvas is translated before drawing. */
module Rhythm {

  import opened Numerics
  import opened Paths
  import opened Gradient

  /** The four gradient colours `#1500b6`, `#2987ff`, `#6cfdc9` and `#09db8f`,
      as the signed ARGB values `Color.parseColor` returns. */
  const RhythmColors: seq<int> := [-15400778, -14055425, -9634359, -16131185]

  lemma RhythmColorsAreTheHexColours()
    ensures RhythmColors == [Argb(0xFF1500B6), Argb(0xFF2987FF), Argb(0xFF6CFDC9), Argb(0xFF09DB8F)]
  {
  }

  /** The amplitude at phase `phi`: the full height `maxHeight * perHeight`,
      shrinking linearly to nothing over one turn. */
  function Amplitude(maxHeight: real, perHeight: real, phi: real): real
  {
    maxHeight * perHeight * (1.0 - phi / (2.0 * Pi))
  }

  /** A turn starts at the full height and ends flat. */
  lemma AmplitudeEnds(maxHeight: real, perHeight: real)
    ensures Amplitude(maxHeight, perHeight, 0.0) == maxHeight * perHeight
    ensures Amplitude(maxHeight, perHeight, 2.0 * Pi) == 0.0
  {
    assert (2.0 * Pi) / (2.0 * Pi) == 1.0;
  }

  /** For a non-negative full height the amplitude never grows during a turn
      and stays between 0 and the full height. */
  lemma AmplitudeDecays(maxHeight: real, perHeight: real, phi1: real, phi2: real)
    requires 0.0 <= maxHeight * perHeight
    requires 0.0 <= phi1 <= phi2 <= 2.0 * Pi
    ensures Amplitude(maxHeight, perHeight, phi2) <= Amplitude(maxHeight, perHeight, phi1)
    ensures 0.0 <= Amplitude(maxHeight, perHeight, phi2) <= maxHeight * perHeight
  {
    var c := maxHeight * perHeight;
    var u1, u2 := 1.0 - phi1 / (2.0 * Pi), 1.0 - phi2 / (2.0 * Pi);
    assert (2.0 * Pi) / (2.0 * Pi) == 1.0;
    assert 0.0 <= u2 <= u1 <= 1.0;
    ScaleMonotone(c, u2, u1);
    ScaleMonotone(c, 0.0, u2);
    ScaleMonotone(c, u2, 1.0);
    assert c * 0.0 == 0.0 && c * 1.0 == c;
    assert Amplitude(maxHeight, perHeight, phi2) == c * u2;
  }

  lemma ScaleMonotone(c: real, u: real, v: real)
    requires 0.0 <= c && u <= v
    ensures c * u <= c * v
  {
  }

  /** `rad`: degrees to radians. */
  function Rad(deg: real): real
  {
    deg / 180.0 * Pi
  }

  /** The angular frequency `2 PI / (rad(len) / 2)` for a width of `len`. */
  function Omega(len: real): real
    requires 0.0 < len
  {
    assert 0.0 < Rad(len) by {
      MulRightStrict(0.0, len / 180.0, Pi);
    }
    2.0 * Pi / (Rad(len) / 2.0)
  }

  /** The bell envelope `pow(4 / (4 + q^4), 2.5)` with `q = rad(x / PI * 800 / len)`. */
  function Envelope(x: real, len: real, pow: (real, real) -> real): real
    requires 0.0 < len
  {
    var q := Rad(x / Pi * 800.0 / len);
    var p := q * q;
    assert 0.0 <= p * p;
    pow(4.0 / (4.0 + p * p), 2.5)
  }

  /** `f(x, A)`: the envelope times `A` times the carrier
      `sin(omega * rad(x) - phi)`, for a view `len` wide. */
  function F(x: real, amplitude: real, phi: real, len: real, sin: real -> real, pow: (real, real) -> real): real
    requires 0.0 < len
  {
    Envelope(x, len, pow) * amplitude * sin(Omega(len) * Rad(x) - phi)
  }

  /** The curve scales with the amplitude: doubling `A` doubles every height,
      and with `A = 0` the curve is flat. */
  lemma FScalesWithAmplitude(x: real, c: real, amplitude: real, phi: real, len: real,
                             sin: real -> real, pow: (real, real) -> real)
    requires 0.0 < len
    ensures F(x, c * amplitude, phi, len, sin, pow) == c * F(x, amplitude, phi, len, sin, pow)
    ensures F(x, 0.0, phi, len, sin, pow) == 0.0
  {
    var e, s := Envelope(x, len, pow), sin(Omega(len) * Rad(x) - phi);
    assert e * (c * amplitude) * s == c * (e * amplitude * s);
  }

  /** The first `count` points of the main path: `(x, f(x, A))` for `x` from `lo`. */
  function MainPoints(lo: int, count: nat, amplitude: real, phi: real, len: real,
                      sin: real -> real, pow: (real, real) -> real): (p: Path)
    requires 0.0 < len
    ensures |p| == count
    decreases count
  {
    if count == 0 then []
    else MainPoints(lo, count - 1, amplitude, phi, len, sin, pow)
         + [LineTo((lo + count - 1) as real, F((lo + count - 1) as real, amplitude, phi, len, sin, pow))]
  }

  /** The first `count` points of the mirror path: `(x, -f(x, A))` for `x` from `lo`. */
  function MirrorPoints(lo: int, count: nat, amplitude: real, phi: real, len: real,
                        sin: real -> real, pow: (real, real) -> real): (p: Path)
    requires 0.0 < len
    ensures |p| == count
    decreases count
  {
    if count == 0 then []
    else MirrorPoints(lo, count - 1, amplitude, phi, len, sin, pow)
         + [LineTo((lo + count - 1) as real, -F((lo + count - 1) as real, amplitude, phi, len, sin, pow))]
  }

  /** The main path of one frame: a move to the first point, then one line per
      integer `x` from `minX` to `maxX`, at height `f(x, A)`. */
  function MainPath(minX: int, maxX: int, amplitude: real, phi: real, sin: real -> real, pow: (real, real) -> real): Path
    requires minX < maxX
  {
    var len := (maxX - minX) as real;
    [MoveTo(minX as real, F(minX as real, amplitude, phi, len, sin, pow))]
    + MainPoints(minX, maxX - minX + 1, amplitude, phi, len, sin, pow)
  }

  /** The mirror path: the same move, then the same points turned upside down. */
  function MirrorPath(minX: int, maxX: int, amplitude: real, phi: real, sin: real -> real, pow: (real, real) -> real): Path
    requires minX < maxX
  {
    var len := (maxX - minX) as real;
    [MoveTo(minX as real, F(minX as real, amplitude, phi, len, sin, pow))]
    + MirrorPoints(minX, maxX - minX + 1, amplitude, phi, len, sin, pow)
  }

  /** Point `i` of either sequence of points is at `x = lo + i`, the mirror's at
      the opposite height. */
  lemma {:induction false} PointsAt(lo: int, count: nat, amplitude: real, phi: real, len: real,
                                    sin: real -> real, pow: (real, real) -> real)
    requires 0.0 < len
    ensures forall i :: 0 <= i < count ==>
              && MainPoints(lo, count, amplitude, phi, len, sin, pow)[i]
                 == LineTo((lo + i) as real, F((lo + i) as real, amplitude, phi, len, sin, pow))
              && MirrorPoints(lo, count, amplitude, phi, len, sin, pow)[i]
                 == LineTo((lo + i) as real, -F((lo + i) as real, amplitude, phi, len, sin, pow))
    decreases count
  {
    if count > 0 {
      PointsAt(lo, count - 1, amplitude, phi, len, sin, pow);
      var main, mirror := MainPoints(lo, count, amplitude, phi, len, sin, pow), MirrorPoints(lo, count, amplitude, phi, len, sin, pow);
      assert main == MainPoints(lo, count - 1, amplitude, phi, len, sin, pow)
                     + [LineTo((lo + count - 1) as real, F((lo + count - 1) as real, amplitude, phi, len, sin, pow))];
      assert mirror == MirrorPoints(lo, count - 1, amplitude, phi, len, sin, pow)
                       + [LineTo((lo + count - 1) as real, -F((lo + count - 1) as real, amplitude, phi, len, sin, pow))];
    }
  }

  /** Both paths start with the same move to `(minX, f(minX, A))` (the mirror's
      start is not turned over), then visit every integer from `minX` to `maxX`
      in order, the mirror at the opposite height. */
  lemma MirrorShape(minX: int, maxX: int, amplitude: real, phi: real, sin: real -> real, pow: (real, real) -> real)
    requires minX < maxX
    ensures |MainPath(minX, maxX, amplitude, phi, sin, pow)| == maxX - minX + 2
    ensures |MirrorPath(minX, maxX, amplitude, phi, sin, pow)| == maxX - minX + 2
    ensures MainPath(minX, maxX, amplitude, phi, sin, pow)[0] == MirrorPath(minX, maxX, amplitude, phi, sin, pow)[0]
    ensures MainPath(minX, maxX, amplitude, phi, sin, pow)[0].MoveTo?
    ensures forall k :: 1 <= k <= maxX - minX + 1 ==>
              && MainPath(minX, maxX, amplitude, phi, sin, pow)[k].LineTo?
              && MirrorPath(minX, maxX, amplitude, phi, sin, pow)[k].LineTo?
              && MainPath(minX, maxX, amplitude, phi, sin, pow)[k].x == (minX + k - 1) as real
              && MirrorPath(minX, maxX, amplitude, phi, sin, pow)[k].x == (minX + k - 1) as real
              && MirrorPath(minX, maxX, amplitude, phi, sin, pow)[k].y == -MainPath(minX, maxX, amplitude, phi, sin, pow)[k].y
  {
    var main, mirror := MainPath(minX, maxX, amplitude, phi, sin, pow), MirrorPath(minX, maxX, amplitude, phi, sin, pow);
    var len := (maxX - minX) as real;
    PointsAt(minX, maxX - minX + 1, amplitude, phi, len, sin, pow);
    forall k | 1 <= k <= maxX - minX + 1
      ensures main[k] == LineTo((minX + k - 1) as real, F((minX + k - 1) as real, amplitude, phi, len, sin, pow))
      ensures mirror[k] == LineTo((minX + k - 1) as real, -F((minX + k - 1) as real, amplitude, phi, len, sin, pow))
    {
      assert main[k] == MainPoints(minX, maxX - minX + 1, amplitude, phi, len, sin, pow)[k - 1];
      assert mirror[k] == MirrorPoints(minX, maxX - minX + 1, amplitude, phi, len, sin, pow)[k - 1];
    }
  }

  /** With amplitude 0 (the end of a turn) both paths lie flat on the centre line. */
  lemma FlatAtRest(minX: int, maxX: int, phi: real, sin: real -> real, pow: (real, real) -> real)
    requires minX < maxX
    ensures forall k :: 0 <= k < |MainPath(minX, maxX, 0.0, phi, sin, pow)| ==> MainPath(minX, maxX, 0.0, phi, sin, pow)[k].y == 0.0
    ensures forall k :: 0 <= k < |MirrorPath(minX, maxX, 0.0, phi, sin, pow)| ==> MirrorPath(minX, maxX, 0.0, phi, sin, pow)[k].y == 0.0
  {
    var main, mirror := MainPath(minX, maxX, 0.0, phi, sin, pow), MirrorPath(minX, maxX, 0.0, phi, sin, pow);
    var len := (maxX - minX) as real;
    MirrorShape(minX, maxX, 0.0, phi, sin, pow);
    PointsAt(minX, maxX - minX + 1, 0.0, phi, len, sin, pow);
    forall k | 0 <= k < |main|
      ensures main[k].y == 0.0 && mirror[k].y == 0.0
    {
      var x := if k == 0 then minX else minX + k - 1;
      FScalesWithAmplitude(x as real, 0.0, 0.0, phi, len, sin, pow);
      if 0 < k {
        assert main[k] == MainPoints(minX, maxX - minX + 1, 0.0, phi, len, sin, pow)[k - 1];
      }
    }
  }

  /** The loop of `formPath`: the first point, then one point per integer `x`
      from `minX` to `maxX`, on the main path at `f(x, A)` and on the mirror at
      `-f(x, A)`. */
  method TracePoints(minX: int, maxX: int, amplitude: real, phi: real, sin: real -> real, pow: (real, real) -> real)
    returns (main: Path, mirror: Path)
    requires minX < maxX
    ensures main == MainPath(minX, maxX, amplitude, phi, sin, pow)
    ensures mirror == MirrorPath(minX, maxX, amplitude, phi, sin, pow)
  {
    var len := (maxX - minX) as real;
    var y0 := F(minX as real, amplitude, phi, len, sin, pow);
    main, mirror := [MoveTo(minX as real, y0)], [MoveTo(minX as real, y0)];
    var x := minX;
    while x <= maxX
      invariant minX <= x <= maxX + 1
      invariant main == [MoveTo(minX as real, y0)] + MainPoints(minX, x - minX, amplitude, phi, len, sin, pow)
      invariant mirror == [MoveTo(minX as real, y0)] + MirrorPoints(minX, x - minX, amplitude, phi, len, sin, pow)
    {
      var y := F(x as real, amplitude, phi, len, sin, pow);
      assert minX + (x - minX + 1) - 1 == x;
      main, mirror := main + [LineTo(x as real, y)], mirror + [LineTo(x as real, -y)];
      x := x + 1;
    }
  }

  /** The view: its measured size and the derived x range and maximum height,
      the height fraction, the animator's phase and amplitude, the two paths,
      and the gradient colours. */
  class RhythmWaveView {
    var width: nat
    var height: nat
    var maxHeight: real
    var perHeight: real
    var minX: int
    var maxX: int
    var phi: real
    var amplitude: real
    var path: Path
    var reflexPath: Path
    var colors: seq<int>
    var animating: bool

    /** The x range is centred on the view's middle. */
    ghost predicate Valid()
      reads this
    {
      minX == -maxX && 0 <= maxX && 0.0 <= maxHeight
    }

    /** A new view (`init`): nothing measured yet, phase and amplitude 0, empty
        paths, the four default colours, the animator not started. */
    constructor ()
      ensures Valid()
      ensures width == 0 && height == 0 && maxHeight == 0.0 && perHeight == 0.0
      ensures minX == 0 && maxX == 0 && phi == 0.0 && amplitude == 0.0
      ensures path == [] && reflexPath == [] && colors == RhythmColors && !animating
    {
      width, height := 0, 0;
      maxHeight, perHeight := 0.0, 0.0;
      minX, maxX := 0, 0;
      phi, amplitude := 0.0, 0.0;
      path, reflexPath := [], [];
      colors := RhythmColors;
      animating := false;
    }

    /** The animator's update: the phase is the animated value and the
        amplitude follows it down. */
    method OnAnimationUpdate(animatedValue: real)
      modifies this`phi, this`amplitude
      ensures phi == animatedValue
      ensures amplitude == Amplitude(maxHeight, perHeight, animatedValue)
    {
      phi := animatedValue;
      amplitude := maxHeight * perHeight * (1.0 - animatedValue / (2.0 * Pi));
    }

    /** `setPerHeight`: a new height fraction, and the animator (re)starts. */
    method SetPerHeight(p: real)
      modifies this`perHeight, this`animating
      ensures perHeight == p && animating
    {
      perHeight := p;
      animating := true;
    }

    /** `onMeasure`: the x range runs from `-width / 2` (Java's unary minus
        first, then truncating division) to `width / 2`, and the maximum height
        is nine tenths of half the height, halved in integers first. */
    method OnMeasure(w: nat, h: nat)
      modifies this`width, this`height, this`maxHeight, this`minX, this`maxX
      ensures Valid()
      ensures width == w && height == h
      ensures maxHeight == (h / 2) as real * 0.9
      ensures minX == -maxX && 2 * maxX <= w < 2 * maxX + 2
    {
      width := w;
      height := h;
      maxHeight := (height / 2) as real * 0.9;
      minX := JavaDiv(-(width as int), 2);
      maxX := width / 2;
      JavaDivNegate(width, 2);
    }

    /** `formPath`: appends the frame's points to both paths, the mirror at the
        opposite height. */
    method FormPath(sin: real -> real, pow: (real, real) -> real)
      requires minX < maxX
      modifies this`path, this`reflexPath
      ensures path == old(path) + MainPath(minX, maxX, amplitude, phi, sin, pow)
      ensures reflexPath == old(reflexPath) + MirrorPath(minX, maxX, amplitude, phi, sin, pow)
    {
      var main, mirror := TracePoints(minX, maxX, amplitude, phi, sin, pow);
      path := path + main;
      reflexPath := reflexPath + mirror;
    }

    /** `onDraw`: both paths are rewound, so a frame holds only its own points. */
    method OnDraw(sin: real -> real, pow: (real, real) -> real)
      requires minX < maxX
      modifies this`path, this`reflexPath
      ensures path == MainPath(minX, maxX, amplitude, phi, sin, pow)
      ensures reflexPath == MirrorPath(minX, maxX, amplitude, phi, sin, pow)
    {
      path := [];
      reflexPath := [];
      FormPath(sin, pow);
    }

    /** `getLinearGradientPos`: the gradient stops for the current colours. */
    method GetLinearGradientPos() returns (pos: array<real>)
      ensures fresh(pos)
      ensures pos.Length == |colors| && pos[..] == Stops(|colors|)
    {
      pos := FillStops(|colors|);
    }

    /** `setColors`: replaces the gradient colours. */
    method SetColors(c: seq<int>)
      modifies this`colors
      ensures colors == c
    {
      colors := c;
    }
  }
}
