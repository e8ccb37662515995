/** The time-driven parts of `WaveLineView`'s animation: the bouncing loading
    bar, the two sweep lines of the intro, and the fade-in. The elapsed time
    arrives as the loading bar's integer offset (`(int)(offset * 600)`). */
module Animation {

  import opened Numerics
  import opened Paths

  /** The loading bar's width: the configured one, or a quarter of the view
      when none is configured (zero or less). */
  function EffectiveLoadWidth(viewWidth: nat, loaddWidth: int): (r: int)
    ensures 0 < loaddWidth ==> r == loaddWidth
    ensures loaddWidth <= 0 ==> 0 <= r && 4 * r <= viewWidth < 4 * r + 4
  {
    if loaddWidth <= 0 then viewWidth / 4 else loaddWidth
  }

  /** The bar's left end for offset `o` over a travel of `cw` pixels: forward on
      even laps, backward on odd ones, with Java's `/` and `%`. */
  function LoadingX(o: int, cw: int): int
    requires 0 < cw
  {
    if JavaRem(JavaDiv(o, cw), 2) == 0 then JavaRem(o, cw) else cw - JavaRem(o, cw)
  }

  /** For a non-negative offset the bar stays on the canvas: its left end lies in
      [0, cw], so `[x, x + barWidth]` fits a view `cw + barWidth` wide. */
  lemma LoadingXInRange(o: int, cw: int)
    requires 0 <= o && 0 < cw
    ensures 0 <= LoadingX(o, cw) <= cw
  {
    JavaDivMatchesEuclid(o, cw);
  }

  /** The bar starts at the left edge, moving forward. */
  lemma LoadingXStartsAtLeftEdge(cw: int)
    requires 0 < cw
    ensures LoadingX(0, cw) == 0
    ensures LoadingX(1, cw) == 1
  {
  }

  /** On lap `q` at `r` pixels into the lap the bar is at `r` on an even lap and
      `cw - r` on an odd one. */
  lemma LoadingXOnLap(o: int, cw: int, q: int, r: int)
    requires 0 < cw && 0 <= q && 0 <= r < cw && o == cw * q + r
    ensures LoadingX(o, cw) == if q % 2 == 0 then r else cw - r
  {
    assert 0 <= o by {
      assert 0 <= cw * q;
    }
    DivModUnique(o, cw, q, r);
    JavaDivMatchesEuclid(o, cw);
    JavaDivMatchesEuclid(q, 2);
  }

  /** The bar's motion repeats every two laps. */
  lemma LoadingXPeriodic(o: int, cw: int)
    requires 0 <= o && 0 < cw
    ensures LoadingX(o + 2 * cw, cw) == LoadingX(o, cw)
  {
    var q, r := o / cw, o % cw;
    LoadingXOnLap(o, cw, q, r);
    assert o + 2 * cw == cw * (q + 2) + r by {
      assert cw * (q + 2) == cw * q + 2 * cw;
    }
    LoadingXOnLap(o + 2 * cw, cw, q + 2, r);
  }

  /** The bar glides: each unit of offset moves it by exactly one pixel, also
      where it turns round at either end. */
  lemma LoadingXGlides(o: int, cw: int)
    requires 0 <= o && 0 < cw
    ensures LoadingX(o + 1, cw) - LoadingX(o, cw) == 1 || LoadingX(o + 1, cw) - LoadingX(o, cw) == -1
  {
    var q, r := o / cw, o % cw;
    assert o == cw * q + r;
    if r + 1 < cw {
      GlideWithinLap(o, cw, q, r);
    } else {
      GlideAtTurn(o, cw, q);
    }
  }

  lemma GlideWithinLap(o: int, cw: int, q: int, r: int)
    requires 0 < cw && 0 <= q && 0 <= r && r + 1 < cw && o == cw * q + r
    ensures LoadingX(o + 1, cw) - LoadingX(o, cw) == if q % 2 == 0 then 1 else -1
  {
    LoadingXOnLap(o, cw, q, r);
    LoadingXOnLap(o + 1, cw, q, r + 1);
  }

  lemma GlideAtTurn(o: int, cw: int, q: int)
    requires 0 < cw && 0 <= q && o == cw * q + (cw - 1)
    ensures LoadingX(o + 1, cw) - LoadingX(o, cw) == if q % 2 == 0 then 1 else -1
  {
    LoadingXOnLap(o, cw, q, cw - 1);
    assert o + 1 == cw * (q + 1) + 0 by {
      assert cw * (q + 1) == cw * q + cw;
    }
    LoadingXOnLap(o + 1, cw, q + 1, 0);
    NextLapParity(q);
  }

  lemma NextLapParity(q: int)
    ensures (q + 1) % 2 == 0 <==> q % 2 != 0
  {
  }

  /** A negative offset (a negative move speed) sends the bar off the left edge:
      Java's remainder is then negative. */
  lemma LoadingXNegativeOffset(cw: int)
    requires 1 < cw
    ensures LoadingX(-1, cw) == -1
  {
    assert JavaDiv(-1, cw) == 0;
    assert JavaRem(0, 2) == 0;
  }

  lemma DivModUnique(a: int, b: int, q: int, r: int)
    requires 0 < b && 0 <= r < b && a == b * q + r
    ensures a / b == q && a % b == r
  {
    var q' := a / b;
    if q' < q {
      MulGap(b, q', q);
    } else if q < q' {
      MulGap(b, q, q');
    }
  }

  lemma MulGap(b: int, x: int, y: int)
    requires 0 < b && x < y
    ensures b * x + b <= b * y
  {
    assert b * y - b * x == b * (y - x);
    assert b * (y - x) == b * (y - x - 1) + b;
    assert 0 <= b * (y - x - 1);
  }

  /** The x reached by the `i`-th of `n` intro points: `1f * i * lineAnimX / n`. */
  function SweepX(i: int, lineAnimX: int, n: nat): real
    requires 0 < n
  {
    i as real * lineAnimX as real / n as real
  }

  /** The first `k` points of the left sweep line: `SweepX(i)` for `i` from 1 to `k`. */
  function LeftPoints(k: nat, lineAnimX: int, n: nat, centerHeight: int): (p: Path)
    requires k <= n
    ensures |p| == k
    decreases k
  {
    if k == 0 then [] else LeftPoints(k - 1, lineAnimX, n, centerHeight) + [LineTo(SweepX(k, lineAnimX, n), centerHeight as real)]
  }

  /** The first `k` points of the right sweep line, mirrored about the middle. */
  function RightPoints(k: nat, lineAnimX: int, n: nat, w: int, centerHeight: int): (p: Path)
    requires k <= n
    ensures |p| == k
    decreases k
  {
    if k == 0 then [] else RightPoints(k - 1, lineAnimX, n, w, centerHeight) + [LineTo(w as real - SweepX(k, lineAnimX, n), centerHeight as real)]
  }

  /** The left sweep line of one intro frame, drawn from the left edge. */
  function SweepFromLeft(n: nat, lineAnimX: int, w: int, centerHeight: int): Path
  {
    [MoveTo(0.0, centerHeight as real)] + LeftPoints(n, lineAnimX, n, centerHeight) + [MoveTo(w as real / 2.0, centerHeight as real)]
  }

  /** The right sweep line of one intro frame, its mirror image from the right edge. */
  function SweepFromRight(n: nat, lineAnimX: int, w: int, centerHeight: int): Path
  {
    [MoveTo(w as real, centerHeight as real)] + RightPoints(n, lineAnimX, n, w, centerHeight) + [MoveTo(w as real / 2.0, centerHeight as real)]
  }

  /** The `i`-th point of a sweep prefix is the point of the `i + 1`-th sample. */
  lemma {:induction false} SweepPointsAt(k: nat, lineAnimX: int, n: nat, w: int, centerHeight: int)
    requires k <= n
    ensures forall i :: 0 <= i < k ==>
              && LeftPoints(k, lineAnimX, n, centerHeight)[i] == LineTo(SweepX(i + 1, lineAnimX, n), centerHeight as real)
              && RightPoints(k, lineAnimX, n, w, centerHeight)[i] == LineTo(w as real - SweepX(i + 1, lineAnimX, n), centerHeight as real)
    decreases k
  {
    if k > 0 {
      SweepPointsAt(k - 1, lineAnimX, n, w, centerHeight);
      var left, right := LeftPoints(k, lineAnimX, n, centerHeight), RightPoints(k, lineAnimX, n, w, centerHeight);
      assert left == LeftPoints(k - 1, lineAnimX, n, centerHeight) + [LineTo(SweepX(k, lineAnimX, n), centerHeight as real)];
      assert right == RightPoints(k - 1, lineAnimX, n, w, centerHeight) + [LineTo(w as real - SweepX(k, lineAnimX, n), centerHeight as real)];
    }
  }

  /** The commands of the two sweep lines, one by one. */
  lemma SweepCommands(n: nat, lineAnimX: int, w: int, centerHeight: int)
    ensures |SweepFromLeft(n, lineAnimX, w, centerHeight)| == n + 2 == |SweepFromRight(n, lineAnimX, w, centerHeight)|
    ensures SweepFromLeft(n, lineAnimX, w, centerHeight)[0] == MoveTo(0.0, centerHeight as real)
    ensures SweepFromRight(n, lineAnimX, w, centerHeight)[0] == MoveTo(w as real, centerHeight as real)
    ensures forall i :: 1 <= i <= n ==>
              SweepFromLeft(n, lineAnimX, w, centerHeight)[i] == LineTo(SweepX(i, lineAnimX, n), centerHeight as real)
              && SweepFromRight(n, lineAnimX, w, centerHeight)[i] == LineTo(w as real - SweepX(i, lineAnimX, n), centerHeight as real)
    ensures SweepFromLeft(n, lineAnimX, w, centerHeight)[n + 1] == MoveTo(w as real / 2.0, centerHeight as real)
    ensures SweepFromRight(n, lineAnimX, w, centerHeight)[n + 1] == MoveTo(w as real / 2.0, centerHeight as real)
  {
    var left, right := SweepFromLeft(n, lineAnimX, w, centerHeight), SweepFromRight(n, lineAnimX, w, centerHeight);
    SweepPointsAt(n, lineAnimX, n, w, centerHeight);
    forall i | 1 <= i <= n
      ensures left[i] == LineTo(SweepX(i, lineAnimX, n), centerHeight as real)
      ensures right[i] == LineTo(w as real - SweepX(i, lineAnimX, n), centerHeight as real)
    {
      assert left[i] == LeftPoints(n, lineAnimX, n, centerHeight)[i - 1];
      assert right[i] == RightPoints(n, lineAnimX, n, w, centerHeight)[i - 1];
    }
  }

  /** Each sweep line ends, before its closing move, exactly `lineAnimX` in from its edge. */
  lemma SweepReachesLineAnimX(n: nat, lineAnimX: int, w: int, centerHeight: int)
    requires 0 < n
    ensures SweepFromLeft(n, lineAnimX, w, centerHeight)[n] == LineTo(lineAnimX as real, centerHeight as real)
    ensures SweepFromRight(n, lineAnimX, w, centerHeight)[n] == LineTo(w as real - lineAnimX as real, centerHeight as real)
  {
    MulDivCancel(lineAnimX as real, n as real);
    assert SweepX(n, lineAnimX, n) == lineAnimX as real;
    SweepCommands(n, lineAnimX, w, centerHeight);
  }

  lemma MulDivCancel(a: real, n: real)
    requires n != 0.0
    ensures n * a / n == a
  {
  }

  /** The sweep distance after `k` intro frames from 0: `width / 60` per frame. */
  function SweepAfter(k: nat, w: nat): (d: int)
    ensures w < 60 ==> d == 0
    ensures 60 <= w ==> d >= k
  {
    k * (w / 60)
  }

  /** The intro frame on which the sweep first passes half the width and the
      intro latches as finished (`lineAnimX > width / 2`). */
  function LatchFrame(w: nat): (k: nat)
    requires 60 <= w
    ensures SweepAfter(k, w) > w / 2
    ensures SweepAfter(k - 1, w) <= w / 2
  {
    var d := w / 60;
    var k := (w / 2) / d + 1;
    assert d * ((w / 2) / d) <= w / 2 < d * ((w / 2) / d) + d;
    k
  }

  /** On a 600-pixel canvas the intro ends with the 31st frame, not the 30th:
      after 30 frames the sweep is exactly at half the width, which does not pass it. */
  lemma LatchOn600()
    ensures LatchFrame(600) == 31 && SweepAfter(30, 600) == 300
  {
  }

  /** Below 60 pixels the sweep step `width / 60` is zero and the intro never ends. */
  lemma NarrowIntroNeverEnds(k: nat, w: nat)
    requires w < 60
    ensures !(SweepAfter(k, w) > w / 2)
  {
  }

  /** One call of `alphaInAnim` with the fade-in switched on. */
  function AlphaStep(a: real): real
  {
    if a < 1.0 then a + 0.02 else 1.0
  }

  /** `k` calls of `alphaInAnim` with the fade-in switched on. */
  function AlphaAfter(a: real, k: nat): real
    decreases k
  {
    if k == 0 then a else AlphaStep(AlphaAfter(a, k - 1))
  }

  /** From 0 the fade-in rises by 0.02 per call and settles at 1 after 50 calls. */
  lemma {:induction false} FadeIn(k: nat)
    ensures AlphaAfter(0.0, k) == if k <= 50 then k as real * 0.02 else 1.0
    decreases k
  {
    if k > 0 {
      FadeIn(k - 1);
    }
  }
}
