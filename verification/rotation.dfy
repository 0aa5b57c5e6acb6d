/** `rotate_half` and `rotate`: the rotation of adjacent feature pairs by
    per-pair angles, with the tail beyond the angle vector passed through. */
module Rotation {
  import opened TensorOps

  /** Entry `i` of the quarter-turned vector: each pair (a, b) becomes (-b, a). */
  function HalfTurn(x: seq<real>, i: nat): real
    requires |x| % 2 == 0 && i < |x|
  {
    if i % 2 == 0 then -x[i + 1] else x[i - 1]
  }

  /** `rotate_half`: the even-indexed and odd-indexed entries, stacked as
      (-odd, even) and flattened back. Stacking fails on an odd length. */
  function RotateHalf(x: seq<real>): (r: Result<seq<real>>)
    ensures r.Ok? <==> |x| % 2 == 0
    ensures r.Ok? ==> |r.value| == |x|
    ensures r.Ok? ==> forall i :: 0 <= i < |x| ==> r.value[i] == HalfTurn(x, i)
  {
    var x1, x2 := Strided(x, 0), Strided(x, 1);
    var pairs :- Stack(Negate(x2), x1);
    Ok(Flatten(pairs))
  }

  /** Two quarter turns negate every entry. */
  lemma RotateHalfTwice(x: seq<real>)
    requires |x| % 2 == 0
    ensures RotateHalf(x).Ok? && RotateHalf(RotateHalf(x).value) == Ok(Negate(x))
  {
    var once := RotateHalf(x).value;
    HalfTurnTwice(x, once, RotateHalf(once).value);
  }

  lemma HalfTurnTwice(x: seq<real>, once: seq<real>, twice: seq<real>)
    requires |x| % 2 == 0
    requires |once| == |x| && forall i :: 0 <= i < |x| ==> once[i] == HalfTurn(x, i)
    requires |twice| == |x| && forall i :: 0 <= i < |x| ==> twice[i] == HalfTurn(once, i)
    ensures twice == Negate(x)
  {
    forall i | 0 <= i < |x|
      ensures twice[i] == -x[i]
    {
      if i % 2 == 0 {
        assert (i + 1) % 2 == 1;
      } else {
        assert (i - 1) % 2 == 0;
      }
    }
  }

  /** Four quarter turns give the vector back. */
  lemma RotateHalfFourTimes(x: seq<real>)
    requires |x| % 2 == 0
    ensures RotateHalf(x).Ok?
    ensures var twice := RotateHalf(RotateHalf(x).value).value;
      RotateHalf(RotateHalf(twice).value) == Ok(x)
  {
    RotateHalfTwice(x);
    var twice := Negate(x);
    assert |twice| == |x|;
    RotateHalfTwice(twice);
    NegateTwice(x);
  }

  lemma NegateTwice(x: seq<real>)
    ensures Negate(Negate(x)) == x
  {
    assert forall i :: 0 <= i < |x| ==> Negate(Negate(x))[i] == x[i];
  }

  /** The sizes for which `rotate` succeeds: `width` entries in the vector, `count` angles. */
  predicate Rotatable(width: nat, count: nat)
  {
    (count % 2 == 0 && count <= width) || (width == 0 && count == 1)
  }

  /** `rotate`: the first `|frequencies|` entries become
      `x * cos(frequencies) + rotate_half(x) * sin(frequencies)`, the rest are appended unchanged. */
  function Rotate(x: seq<real>, frequencies: seq<real>, cos: real -> real, sin: real -> real): (r: Result<seq<real>>)
    ensures r.Ok? <==> Rotatable(|x|, |frequencies|)
    ensures r.Ok? ==> |r.value| == |x|
    ensures r.Ok? ==> forall i :: |frequencies| <= i < |x| ==> r.value[i] == x[i]
    ensures r.Ok? ==> forall i {:trigger r.value[i]} :: 0 <= i < |frequencies| && i < |x| ==>
      r.value[i] == x[i] * cos(frequencies[i]) + HalfTurn(x[..|frequencies|], i) * sin(frequencies[i])
  {
    var truncate := |frequencies|;
    var head, tail := SliceTo(x, truncate), SliceFrom(x, truncate);
    var c :- Elementwise(Mul, head, MapReal(cos, frequencies));
    var turned :- RotateHalf(head);
    var s := Elementwise(Mul, turned, MapReal(sin, frequencies)).value;
    var sum := Elementwise(Add, c, s).value;
    RotatedEntries(x, frequencies, cos, sin, turned, c, s, sum);
    Ok(sum + tail)
  }

  /** The rotated prefix, entry by entry, from what each elementwise step computes. */
  lemma RotatedEntries(x: seq<real>, frequencies: seq<real>, cos: real -> real, sin: real -> real,
                       turned: seq<real>, c: seq<real>, s: seq<real>, sum: seq<real>)
    requires |frequencies| <= |x| ==> |frequencies| % 2 == 0
    requires |frequencies| <= |x| ==> |turned| == |c| == |s| == |sum| == |frequencies|
    requires |frequencies| <= |x| ==>
      forall i :: 0 <= i < |frequencies| ==> turned[i] == HalfTurn(x[..|frequencies|], i)
    requires |frequencies| <= |x| ==>
      forall i :: 0 <= i < |frequencies| ==> c[i] == Apply(Mul, x[..|frequencies|][i], MapReal(cos, frequencies)[i])
    requires |frequencies| <= |x| ==>
      forall i :: 0 <= i < |frequencies| ==> s[i] == Apply(Mul, turned[i], MapReal(sin, frequencies)[i])
    requires |frequencies| <= |x| ==>
      forall i :: 0 <= i < |frequencies| ==> sum[i] == Apply(Add, c[i], s[i])
    ensures |frequencies| <= |x| ==> forall i {:trigger sum[i]} :: 0 <= i < |frequencies| ==>
      sum[i] == x[i] * cos(frequencies[i]) + HalfTurn(x[..|frequencies|], i) * sin(frequencies[i])
  {
  }

  /** What `rotate` promises of its prefix, as a relation between input and output. */
  ghost predicate RotatedPrefix(x: seq<real>, frequencies: seq<real>, cos: real -> real, sin: real -> real, r: seq<real>)
    requires |frequencies| <= |x| && |frequencies| % 2 == 0
  {
    |r| == |x| &&
    forall i {:trigger r[i]} :: 0 <= i < |frequencies| ==>
      r[i] == x[i] * cos(frequencies[i]) + HalfTurn(x[..|frequencies|], i) * sin(frequencies[i])
  }

  /** A pair that shares one angle is turned by it in the plane:
      (a, b) becomes (a cos θ - b sin θ, b cos θ + a sin θ). */
  lemma RotatePair(x: seq<real>, frequencies: seq<real>, cos: real -> real, sin: real -> real, r: seq<real>, k: nat)
    requires Rotate(x, frequencies, cos, sin) == Ok(r)
    requires 2 * k + 1 < |frequencies| && frequencies[2 * k] == frequencies[2 * k + 1]
    ensures r[2 * k] == x[2 * k] * cos(frequencies[2 * k]) - x[2 * k + 1] * sin(frequencies[2 * k])
    ensures r[2 * k + 1] == x[2 * k + 1] * cos(frequencies[2 * k]) + x[2 * k] * sin(frequencies[2 * k])
  {
    assert |frequencies| <= |x| && |frequencies| % 2 == 0;
    PairTurned(x, frequencies, cos, sin, r, k);
  }

  lemma PairTurned(x: seq<real>, frequencies: seq<real>, cos: real -> real, sin: real -> real, r: seq<real>, k: nat)
    requires |frequencies| <= |x| && |frequencies| % 2 == 0
    requires RotatedPrefix(x, frequencies, cos, sin, r)
    requires 2 * k + 1 < |frequencies| && frequencies[2 * k] == frequencies[2 * k + 1]
    ensures r[2 * k] == x[2 * k] * cos(frequencies[2 * k]) - x[2 * k + 1] * sin(frequencies[2 * k])
    ensures r[2 * k + 1] == x[2 * k + 1] * cos(frequencies[2 * k]) + x[2 * k] * sin(frequencies[2 * k])
  {
    assert (2 * k) % 2 == 0 && (2 * k + 1) % 2 == 1;
    assert HalfTurn(x[..|frequencies|], 2 * k) == -x[2 * k + 1];
    assert HalfTurn(x[..|frequencies|], 2 * k + 1) == x[2 * k];
  }

  /** With every angle 0, and only cos 0 = 1 and sin 0 = 0 assumed of the
      trigonometric functions, `rotate` is the identity. */
  lemma RotateZeroAngles(x: seq<real>, frequencies: seq<real>, cos: real -> real, sin: real -> real)
    requires cos(0.0) == 1.0 && sin(0.0) == 0.0
    requires forall i :: 0 <= i < |frequencies| ==> frequencies[i] == 0.0
    ensures Rotate(x, frequencies, cos, sin).Ok? ==> Rotate(x, frequencies, cos, sin).value == x
  {
    var r := Rotate(x, frequencies, cos, sin);
    if r.Ok? {
      assert forall i :: 0 <= i < |x| ==> r.value[i] == x[i];
    }
  }

  /** cos and sin obey, at each of the `angles`, the identities a rotation needs. */
  ghost predicate UnitAngles(angles: seq<real>, cos: real -> real, sin: real -> real)
  {
    forall j :: 0 <= j < |angles| ==>
      && cos(-angles[j]) == cos(angles[j])
      && sin(-angles[j]) == -sin(angles[j])
      && cos(angles[j]) * cos(angles[j]) + sin(angles[j]) * sin(angles[j]) == 1.0
  }

  /** Turning back by the negated angles undoes `rotate`, when each pair shares
      one angle (as `repeat_interleave` lays them out) and cos and sin obey the
      identities a rotation needs. */
  lemma RotateInverse(x: seq<real>, angles: seq<real>, cos: real -> real, sin: real -> real)
    requires 2 * |angles| <= |x|
    requires UnitAngles(angles, cos, sin)
    ensures Rotate(x, RepeatInterleave(angles), cos, sin).Ok?
    ensures Rotate(Rotate(x, RepeatInterleave(angles), cos, sin).value, Negate(RepeatInterleave(angles)), cos, sin) == Ok(x)
  {
    var frequencies := RepeatInterleave(angles);
    var back := Negate(frequencies);
    RotateMeetsPrefix(x, frequencies, cos, sin);
    var y := Rotate(x, frequencies, cos, sin).value;
    RotateMeetsPrefix(y, back, cos, sin);
    var z := Rotate(y, back, cos, sin).value;
    TurnedBack(x, angles, frequencies, back, cos, sin, y, z);
  }

  /** `rotate` succeeds on an even number of angles that fits the vector, and its result meets `RotatedPrefix`. */
  lemma RotateMeetsPrefix(x: seq<real>, frequencies: seq<real>, cos: real -> real, sin: real -> real)
    requires |frequencies| <= |x| && |frequencies| % 2 == 0
    ensures Rotate(x, frequencies, cos, sin).Ok?
    ensures RotatedPrefix(x, frequencies, cos, sin, Rotate(x, frequencies, cos, sin).value)
    ensures forall i :: |frequencies| <= i < |x| ==> Rotate(x, frequencies, cos, sin).value[i] == x[i]
  {
  }

  lemma TurnedBack(x: seq<real>, angles: seq<real>, frequencies: seq<real>, back: seq<real>,
                   cos: real -> real, sin: real -> real, y: seq<real>, z: seq<real>)
    requires 2 * |angles| <= |x| && |frequencies| == 2 * |angles| && |back| == |frequencies|
    requires forall i :: 0 <= i < |frequencies| ==> frequencies[i] == angles[i / 2]
    requires forall i :: 0 <= i < |back| ==> back[i] == -frequencies[i]
    requires UnitAngles(angles, cos, sin)
    requires RotatedPrefix(x, frequencies, cos, sin, y)
    requires RotatedPrefix(y, back, cos, sin, z)
    requires forall i :: |frequencies| <= i < |x| ==> y[i] == x[i]
    requires forall i :: |frequencies| <= i < |y| ==> z[i] == y[i]
    ensures z == x
  {
    forall i | 0 <= i < |x|
      ensures z[i] == x[i]
    {
      if i < |frequencies| {
        var k := i / 2;
        assert k < |angles| && (i == 2 * k || i == 2 * k + 1);
        PairTurnedBack(x, angles, frequencies, back, cos, sin, y, z, k);
      }
    }
  }

  lemma PairTurnedBack(x: seq<real>, angles: seq<real>, frequencies: seq<real>, back: seq<real>,
                       cos: real -> real, sin: real -> real, y: seq<real>, z: seq<real>, k: nat)
    requires 2 * |angles| <= |x| && |frequencies| == 2 * |angles| && |back| == |frequencies|
    requires forall i :: 0 <= i < |frequencies| ==> frequencies[i] == angles[i / 2]
    requires forall i :: 0 <= i < |back| ==> back[i] == -frequencies[i]
    requires UnitAngles(angles, cos, sin)
    requires RotatedPrefix(x, frequencies, cos, sin, y)
    requires RotatedPrefix(y, back, cos, sin, z)
    requires k < |angles|
    ensures z[2 * k] == x[2 * k] && z[2 * k + 1] == x[2 * k + 1]
  {
    var t := angles[k];
    assert frequencies[2 * k] == frequencies[2 * k + 1] == t;
    assert back[2 * k] == back[2 * k + 1] == -t;
    PairTurned(x, frequencies, cos, sin, y, k);
    PairTurned(y, back, cos, sin, z, k);
    PairBack(x[2 * k], x[2 * k + 1], cos(t), sin(t), y[2 * k], y[2 * k + 1], z[2 * k], z[2 * k + 1]);
  }

  /** One pair turned by (c, s) and back by (c, -s), on a unit circle. */
  lemma PairBack(a: real, b: real, c: real, s: real, y0: real, y1: real, z0: real, z1: real)
    requires c * c + s * s == 1.0
    requires y0 == a * c - b * s && y1 == b * c + a * s
    requires z0 == y0 * c - y1 * -s && z1 == y1 * c + y0 * -s
    ensures z0 == a && z1 == b
  {
    calc {
      z0;
      (a * c - b * s) * c - (b * c + a * s) * -s;
      a * (c * c + s * s);
    }
    calc {
      z1;
      (b * c + a * s) * c + (a * c - b * s) * -s;
      b * (c * c + s * s);
    }
  }
}
