/** The volume side of `WaveLineView`: the per-frame smoother that walks the shown
    volume toward the target, the filter on new targets, and the clamps on the
    target and on the sensibility. Volumes are percentages; the step `s` is
    `perVolume`. */
module VolumeSmoothing {

  import opened Numerics

  /** `softerChangeVolume`: one frame of smoothing of the shown volume `v` toward
      the target `t` with step `s`. Inside the band `[t - s, t + s]` it snaps to the
      target; below it climbs one step without reaching the target; above it
      descends one step, except that it never goes below `2 * s` from there. */
  function Soften(v: real, t: real, s: real): (r: real)
    ensures !(v < t - s) && !(v > t + s) ==> r == t
    ensures v < t - s ==> r == v + s && r < t
    ensures 0.0 <= s && t + s < v && 2.0 * s <= v ==> r == v - s && t < r
    ensures 0.0 <= s && t + s < v < 2.0 * s ==> r == 2.0 * s && v < r
  {
    if v < t - s then v + s
    else if v > t + s then (if v < s * 2.0 then s * 2.0 else v - s)
    else t
  }

  /** `n` consecutive frames of smoothing toward a fixed target. */
  function Iterate(v: real, t: real, s: real, n: nat): real
    decreases n
  {
    if n == 0 then v else Iterate(Soften(v, t, s), t, s, n - 1)
  }

  /** One more frame after `n` frames is one smoothing step of where they left off. */
  lemma {:induction false} IterateLast(v: real, t: real, s: real, n: nat)
    ensures Iterate(v, t, s, n + 1) == Soften(Iterate(v, t, s, n), t, s)
    decreases n
  {
    if n > 0 {
      IterateLast(Soften(v, t, s), t, s, n - 1);
    }
  }

  /** Once the shown volume equals the target, further frames leave it there. */
  lemma {:induction false} SettledStaysSettled(t: real, s: real, n: nat)
    requires 0.0 <= s
    ensures Iterate(t, t, s, n) == t
    decreases n
  {
    if n > 0 {
      assert Soften(t, t, s) == t;
      SettledStaysSettled(t, s, n - 1);
    }
  }

  /** Far below the target the shown volume climbs linearly, one step per frame. */
  lemma {:induction false} ClimbIsLinear(v: real, t: real, s: real, k: nat)
    requires 0.0 < s && v + k as real * s < t
    ensures Iterate(v, t, s, k) == v + k as real * s
    decreases k
  {
    if k > 0 {
      var k' := k - 1;
      assert k as real * s == k' as real * s + s;
      assert v + s + k' as real * s < t;
      assert Soften(v, t, s) == v + s;
      ClimbIsLinear(v + s, t, s, k');
    }
  }

  /** From at or below the target, `k` frames reach the target exactly once
      `k` steps cover the distance. */
  lemma {:induction false} ClimbReachesTarget(v: real, t: real, s: real, k: nat)
    requires 0.0 < s && v <= t && t - v <= k as real * s
    ensures Iterate(v, t, s, k) == t
    decreases k
  {
    if v == t {
      SettledStaysSettled(t, s, k);
    } else {
      assert k != 0;
      var k' := k - 1;
      assert k as real * s == k' as real * s + s;
      if v < t - s {
        ClimbReachesTarget(v + s, t, s, k');
      } else {
        assert Soften(v, t, s) == t;
        SettledStaysSettled(t, s, k');
      }
    }
  }

  /** From at or below the target, the shown volume never passes the target. */
  lemma {:induction false} ClimbNeverOvershoots(v: real, t: real, s: real, k: nat)
    requires 0.0 <= s && v <= t
    ensures Iterate(v, t, s, k) <= t
    decreases k
  {
    if k > 0 {
      ClimbNeverOvershoots(Soften(v, t, s), t, s, k - 1);
    }
  }

  /** The number of frames the climb from silence takes: `ceil(t / s)`. */
  function StepsFromSilence(t: real, s: real): (n: nat)
    requires 0.0 < t && 0.0 < s
    ensures t <= n as real * s
    ensures (n as real - 1.0) * s < t
  {
    var n := -((-(t / s)).Floor);
    CeilBounds(t, s, n as real);
    n
  }

  lemma CeilBounds(t: real, s: real, n: real)
    requires 0.0 < s && n - 1.0 < t / s <= n
    ensures (n - 1.0) * s < t <= n * s
  {
    var q := t / s;
    MulRightStrict(n - 1.0, q, s);
    MulRight(q, n, s);
    assert q * s == t;
  }

  /** From silence toward a positive target the shown volume is `k * s` after
      `k` frames until, after exactly `ceil(t / s)` frames, it equals the target. */
  lemma FromSilence(t: real, s: real, k: nat)
    requires 0.0 < t && 0.0 < s
    ensures k < StepsFromSilence(t, s) ==> Iterate(0.0, t, s, k) == k as real * s < t
    ensures StepsFromSilence(t, s) <= k ==> Iterate(0.0, t, s, k) == t
  {
    var n := StepsFromSilence(t, s);
    if k < n {
      MulRight(k as real, n as real - 1.0, s);
      var climbed, lastBelow := k as real * s, (n as real - 1.0) * s;
      assert climbed <= lastBelow < t;
      ClimbIsLinear(0.0, t, s, k);
    } else {
      MulRight(n as real, k as real, s);
      ClimbReachesTarget(0.0, t, s, k);
    }
  }

  /** From above a non-negative target the shown volume reaches the target
      once `k` steps cover the distance plus two more steps (the extra frames
      pay for the bounce up to `2 * s`). */
  lemma {:induction false} DescentReachesTarget(v: real, t: real, s: real, k: nat)
    requires 0.0 < s && 0.0 <= t <= v && v - t + 2.0 * s <= k as real * s
    ensures Iterate(v, t, s, k) == t
    decreases k
  {
    assert k != 0;
    var k' := k - 1;
    assert k as real * s == k' as real * s + s;
    if v <= t + s {
      assert Soften(v, t, s) == t;
      SettledStaysSettled(t, s, k');
    } else if 2.0 * s <= v {
      DescentReachesTarget(v - s, t, s, k');
    } else {
      // the bounce: v -> 2s -> s -> t
      assert Soften(v, t, s) == 2.0 * s;
      assert Soften(2.0 * s, t, s) == s;
      assert Soften(s, t, s) == t;
      AtLeastThree(k, s, v - t + 2.0 * s);
      SettledStaysSettled(t, s, k - 3);
      assert Iterate(s, t, s, k - 2) == t;
      assert Iterate(2.0 * s, t, s, k - 1) == t;
    }
  }

  lemma AtLeastThree(k: nat, s: real, d: real)
    requires 0.0 < s && 2.0 * s < d && d <= k as real * s
    ensures 3 <= k
  {
    if k < 3 {
      MulRight(k as real, 2.0, s);
    }
  }

  /** Below zero, from anywhere above the band `[t - s, t + s]` the target is
      never reached: every frame leaves the shown volume above `t + s`, since a
      step down from at least `2 * s` lands at `s` or higher and the floor
      `2 * s` itself lies above `t + s`. */
  lemma {:induction false} NegativeTargetNeverSettles(v: real, t: real, s: real, k: nat)
    requires 0.0 <= s && t < 0.0 && t + s < v
    ensures t + s < Iterate(v, t, s, k)
    ensures Iterate(v, t, s, k) != t
    decreases k
  {
    if k > 0 {
      assert t + s < Soften(v, t, s);
      NegativeTargetNeverSettles(Soften(v, t, s), t, s, k - 1);
    }
  }

  /** Once there, the volume bounces between `s` and `2 * s` for ever. */
  lemma {:induction false} NegativeTargetBounces(v: real, t: real, s: real, k: nat)
    requires 0.0 < s && t < 0.0 && (v == s || v == 2.0 * s)
    ensures Iterate(v, t, s, k) == (if (k % 2 == 0) == (v == s) then s else 2.0 * s)
    decreases k
  {
    if k > 0 {
      assert Soften(s, t, s) == 2.0 * s;
      assert Soften(2.0 * s, t, s) == s;
      NegativeTargetBounces(Soften(v, t, s), t, s, k - 1);
    }
  }

  /** From inside the band around a negative target, the volume snaps to the
      target on the first frame and stays there. */
  lemma NegativeTargetSnaps(v: real, t: real, s: real, k: nat)
    requires 0.0 <= s && t < 0.0 && t - s <= v <= t + s && 0 < k
    ensures Iterate(v, t, s, k) == t < 0.0
  {
    assert Soften(v, t, s) == t;
    SettledStaysSettled(t, s, k - 1);
  }

  /** `checkVolumeValue`: only the upper bound of the target is enforced. */
  function CapVolume(v: int): (r: int)
    ensures r <= 100
    ensures v <= 100 ==> r == v
    ensures 100 < v ==> r == 100
  {
    if v > 100 then 100 else v
  }

  /** `setVolume`: a new target `v` replaces the current target `t` only when it
      differs by more than one step; it is then capped at 100 but not raised to 0. */
  function AcceptTarget(t: int, v: int, s: real): (r: int)
    ensures (Abs(t - v) as real <= s) ==> r == t
    ensures (Abs(t - v) as real > s) ==> r == CapVolume(v)
    ensures (Abs(t - v) as real > s) && v < 0 ==> r == v < 0
    ensures t <= 100 ==> r <= 100
  {
    if Abs(t - v) as real > s then CapVolume(v) else t
  }

  /** `checkSensibilityValue`: the sensibility is clamped into [1, 10]. */
  function ClampSensibility(s: int): (r: int)
    ensures 1 <= r <= 10
    ensures 1 <= s <= 10 ==> r == s
    ensures 10 < s ==> r == 10
    ensures s < 1 ==> r == 1
  {
    if s > 10 then 10 else if s < 1 then 1 else s
  }

  /** The smoothing step `perVolume` derived from a sensibility. */
  function PerVolume(sensibility: int): (s: real)
    ensures 1 <= sensibility <= 10 ==> 0.35 <= s <= 3.5
    ensures 1 <= sensibility ==> 0.0 < s
  {
    sensibility as real * 0.35
  }
}
