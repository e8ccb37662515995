/** The colour gradient both views stroke with: colours as Java `int`s, and
    `getLinearGradientPos`, shared verbatim by both views, which places one stop
    per colour, evenly spaced and ending at 1. */
module Gradient {

  import opened Numerics

  /** An ARGB colour written as its eight hex digits, as the signed Java `int`
      `Color.parseColor` returns. */
  function Argb(u: int): (c: int)
    requires 0 <= u < 0x1_0000_0000
    ensures -0x8000_0000 <= c < 0x8000_0000
    ensures c == u || c == u - 0x1_0000_0000
  {
    if u >= 0x8000_0000 then u - 0x1_0000_0000 else u
  }

  /** The stop of colour `i` out of `size`: `(i + 1) / size`. */
  function Stop(i: int, size: nat): real
    requires 0 < size
  {
    (i as real + 1.0) / size as real
  }

  /** The stops of all `size` colours. */
  function Stops(size: nat): seq<real>
  {
    seq(size, i requires 0 <= i < size => Stop(i, size))
  }

  /** The stops rise strictly, all lie in (0, 1], and the last one is 1. */
  lemma StopsShape(size: nat)
    ensures |Stops(size)| == size
    ensures forall i, j :: 0 <= i < j < size ==> Stops(size)[i] < Stops(size)[j]
    ensures forall i :: 0 <= i < size ==> 0.0 < Stops(size)[i] <= 1.0
    ensures 0 < size ==> Stops(size)[size - 1] == 1.0
  {
    var s := Stops(size);
    forall i, j | 0 <= i < j < size
      ensures s[i] < s[j]
    {
      DivRightStrict(i as real + 1.0, j as real + 1.0, size as real);
    }
    forall i | 0 <= i < size
      ensures 0.0 < s[i] <= 1.0
    {
      StopInUnit(i, size);
    }
    if 0 < size {
      StopInUnit(size - 1, size);
    }
  }

  lemma StopInUnit(i: int, size: nat)
    requires 0 <= i < size
    ensures 0.0 < Stop(i, size) <= 1.0
    ensures i == size - 1 ==> Stop(i, size) == 1.0
  {
    var n := size as real;
    DivRightStrict(0.0, i as real + 1.0, n);
    if i + 1 < size {
      DivRightStrict(i as real + 1.0, n, n);
    }
    assert n / n == 1.0;
  }

  /** Fills a fresh array with the stops, as the source's loop does. */
  method FillStops(size: nat) returns (pos: array<real>)
    ensures fresh(pos)
    ensures pos.Length == size && pos[..] == Stops(size)
  {
    pos := new real[size];
    for i := 0 to size
      invariant forall k :: 0 <= k < i ==> pos[k] == Stop(k, size)
    {
      pos[i] := Stop(i, size);
    }
  }
}
