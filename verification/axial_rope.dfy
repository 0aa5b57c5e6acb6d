/** The AxialRoPE module: two per-head log-frequency tables built once by the
    constructor, and `forward`, which turns every head's feature vector at every
    token by angles taken from the token's (x, y) position. One batch element is
    modelled: `x` is indexed [head][token] and `position` by [token]. */
module AxialRope {
  import opened TensorOps
  import opened Rotation
  import opened Frequencies

  /** `forward` given the two frequency tables: build the token-major angle
      table, swap the head and token axes, and rotate each feature vector. */
  function ForwardWith(xTable: seq<seq<real>>, yTable: seq<seq<real>>, x: seq<seq<seq<real>>>, position: seq<seq<real>>,
                       exp: real -> real, cos: real -> real, sin: real -> real)
    : (r: Result<seq<seq<seq<real>>>>)
    ensures r.Ok? <==>
      && (forall l :: 0 <= l < |position| ==> |position[l]| >= 2)
      && |xTable| == |yTable| && |x| == |xTable|
      && (forall h :: 0 <= h < |x| ==> |x[h]| == |position|)
      && (forall h, l :: 0 <= h < |x| && 0 <= l < |x[h]| ==>
            Rotatable(|x[h][l]|, 2 * (|yTable[h]| + |xTable[h]|)))
    ensures r.Ok? ==> |r.value| == |x| && forall h :: 0 <= h < |x| ==> |r.value[h]| == |x[h]|
    ensures r.Ok? ==> forall h, l :: 0 <= h < |x| && 0 <= l < |x[h]| ==> |r.value[h][l]| == |x[h][l]|
    ensures r.Ok? ==> forall h, l :: 0 <= h < |x| && 0 <= l < |x[h]| ==>
      Rotate(x[h][l], AngleVector(position[l][0], position[l][1], xTable[h], yTable[h], exp), cos, sin)
        == Ok(r.value[h][l])
  {
    var angles :- AngleTable(position, xTable, yTable, exp);
    var frequencies := SwapAxes(angles, |xTable|);
    if |x| != |frequencies| || exists h :: 0 <= h < |x| && |x[h]| != |frequencies[h]| then
      Err(ShapeMismatch)
    else if exists h, l :: 0 <= h < |x| && 0 <= l < |x[h]| && !Rotatable(|x[h][l]|, |frequencies[h][l]|) then
      Err(ShapeMismatch)
    else
      Ok(RotateEach(x, frequencies, cos, sin))
  }

  /** `rotate` applied to every head and token, each vector by its own angles. */
  function RotateEach(x: seq<seq<seq<real>>>, frequencies: seq<seq<seq<real>>>, cos: real -> real, sin: real -> real)
    : (r: seq<seq<seq<real>>>)
    requires |x| == |frequencies| && forall h :: 0 <= h < |x| ==> |x[h]| == |frequencies[h]|
    requires forall h, l :: 0 <= h < |x| && 0 <= l < |x[h]| ==> Rotatable(|x[h][l]|, |frequencies[h][l]|)
    ensures |r| == |x| && forall h :: 0 <= h < |x| ==> |r[h]| == |x[h]|
    ensures forall h, l :: 0 <= h < |x| && 0 <= l < |x[h]| ==> Rotate(x[h][l], frequencies[h][l], cos, sin) == Ok(r[h][l])
  {
    seq(|x|, h requires 0 <= h < |x| =>
      seq(|x[h]|, l requires 0 <= l < |x[h]| => Rotate(x[h][l], frequencies[h][l], cos, sin).value))
  }

  /** Every output vector has the length of its input vector, and entries past
      the angle width pass through unchanged. */
  lemma ForwardPassesTail(xTable: seq<seq<real>>, yTable: seq<seq<real>>, x: seq<seq<seq<real>>>, position: seq<seq<real>>,
                          exp: real -> real, cos: real -> real, sin: real -> real, r: seq<seq<seq<real>>>, h: nat, l: nat)
    requires ForwardWith(xTable, yTable, x, position, exp, cos, sin) == Ok(r)
    requires h < |x| && l < |x[h]|
    ensures |r[h][l]| == |x[h][l]|
    ensures forall i :: 2 * (|yTable[h]| + |xTable[h]|) <= i < |x[h][l]| ==> r[h][l][i] == x[h][l][i]
  {
    var angles := AngleVector(position[l][0], position[l][1], xTable[h], yTable[h], exp);
    assert Rotate(x[h][l], angles, cos, sin) == Ok(r[h][l]);
  }

  /** A token at the origin (0, 0) leaves its feature vectors unchanged in
      every head, assuming only cos 0 = 1 and sin 0 = 0. */
  lemma ForwardAtOrigin(xTable: seq<seq<real>>, yTable: seq<seq<real>>, x: seq<seq<seq<real>>>, position: seq<seq<real>>,
                        exp: real -> real, cos: real -> real, sin: real -> real, r: seq<seq<seq<real>>>, l: nat)
    requires ForwardWith(xTable, yTable, x, position, exp, cos, sin) == Ok(r)
    requires cos(0.0) == 1.0 && sin(0.0) == 0.0
    requires l < |position| && |position[l]| >= 2 && position[l][0] == 0.0 && position[l][1] == 0.0
    ensures forall h :: 0 <= h < |x| ==> r[h][l] == x[h][l]
  {
    forall h | 0 <= h < |x|
      ensures r[h][l] == x[h][l]
    {
      var angles := AngleVector(0.0, 0.0, xTable[h], yTable[h], exp);
      AnglesAtOrigin(xTable[h], yTable[h], exp);
      RotateZeroAngles(x[h][l], angles, cos, sin);
    }
  }

  /** `forward` on two tables of `embeddingDimension // 4` columns each
      succeeds exactly when the sizes fit and no feature vector is narrower
      than the angle width. */
  lemma ForwardOnTables(xTable: seq<seq<real>>, yTable: seq<seq<real>>, embeddingDimension: nat,
                        x: seq<seq<seq<real>>>, position: seq<seq<real>>,
                        exp: real -> real, cos: real -> real, sin: real -> real)
    requires |xTable| == |yTable|
    requires forall h :: 0 <= h < |xTable| ==> |xTable[h]| == embeddingDimension / 4 && |yTable[h]| == embeddingDimension / 4
    ensures ForwardWith(xTable, yTable, x, position, exp, cos, sin).Ok? <==>
      && (forall l :: 0 <= l < |position| ==> |position[l]| >= 2)
      && |x| == |xTable|
      && (forall h :: 0 <= h < |x| ==> |x[h]| == |position|)
      && (forall h, l :: 0 <= h < |x| && 0 <= l < |x[h]| ==> AngleWidth(embeddingDimension) <= |x[h][l]|)
  {
    var w := AngleWidth(embeddingDimension);
    forall h | 0 <= h < |xTable|
      ensures 2 * (|yTable[h]| + |xTable[h]|) == w
    {
    }
    forall v: nat
      ensures Rotatable(v, w) <==> w <= v
    {
      assert w % 2 == 0 && w != 1;
    }
  }

  /** On the same tables, the last features past the angle width pass through. */
  lemma ForwardTailOnTables(xTable: seq<seq<real>>, yTable: seq<seq<real>>, embeddingDimension: nat,
                            x: seq<seq<seq<real>>>, position: seq<seq<real>>,
                            exp: real -> real, cos: real -> real, sin: real -> real,
                            r: Result<seq<seq<seq<real>>>>)
    requires |xTable| == |yTable|
    requires forall h :: 0 <= h < |xTable| ==> |xTable[h]| == embeddingDimension / 4 && |yTable[h]| == embeddingDimension / 4
    requires ForwardWith(xTable, yTable, x, position, exp, cos, sin) == r
    ensures r.Ok? ==> forall h, l, i ::
      0 <= h < |x| && 0 <= l < |x[h]| && AngleWidth(embeddingDimension) <= i < |x[h][l]| ==>
        r.value[h][l][i] == x[h][l][i]
  {
    if r.Ok? {
      forall h, l | 0 <= h < |x| && 0 <= l < |x[h]|
        ensures forall i :: AngleWidth(embeddingDimension) <= i < |x[h][l]| ==> r.value[h][l][i] == x[h][l][i]
      {
        assert 2 * (|yTable[h]| + |xTable[h]|) == AngleWidth(embeddingDimension);
        ForwardPassesTail(xTable, yTable, x, position, exp, cos, sin, r.value, h, l);
      }
    }
  }

  /** The entries of a two-dimensional array, row by row. */
  function Rows(a: array2<real>): (t: seq<seq<real>>)
    reads a
    ensures |t| == a.Length0
    ensures forall h :: 0 <= h < a.Length0 ==> |t[h]| == a.Length1
  {
    seq(a.Length0, h requires 0 <= h < a.Length0 reads a =>
      seq(a.Length1, j requires 0 <= j < a.Length1 reads a => a[h, j]))
  }

  /** `.clone()`: a new buffer holding the entries of the table. */
  method Clone(t: seq<seq<real>>, columns: nat) returns (a: array2<real>)
    requires forall h :: 0 <= h < |t| ==> |t[h]| == columns
    ensures fresh(a) && a.Length0 == |t| && a.Length1 == columns
    ensures Rows(a) == t
  {
    a := new real[|t|, columns];
    for h := 0 to |t|
      invariant forall i, j :: 0 <= i < h && 0 <= j < columns ==> a[i, j] == t[i][j]
    {
      for j := 0 to columns
        invariant forall i, k :: 0 <= i < h && 0 <= k < columns ==> a[i, k] == t[i][k]
        invariant forall k :: 0 <= k < j ==> a[h, k] == t[h][k]
      {
        a[h, j] := t[h][j];
      }
    }
    assert forall h :: 0 <= h < |t| ==> Rows(a)[h] == t[h];
  }

  /** `AxialRoPE`, the torch module. */
  class AxialRoPE {
    const embeddingDimension: nat
    const heads: nat
    /** `self.x_frequencies` and `self.y_frequencies`: log-frequencies, one row per head. */
    const xFrequencies: array2<real>
    const yFrequencies: array2<real>

    /** Two separate buffers, each `heads` rows of `embeddingDimension // 4` entries. */
    predicate Valid()
    {
      && xFrequencies != yFrequencies
      && xFrequencies.Length0 == heads && xFrequencies.Length1 == embeddingDimension / 4
      && yFrequencies.Length0 == heads && yFrequencies.Length1 == embeddingDimension / 4
    }

    /** `__init__` on arguments it accepts: both tables start as the same
        initial row broadcast to every head, each in a buffer of its own. */
    constructor (embeddingDimension: nat, heads: nat, highestFrequency: real, log: real -> real)
      requires highestFrequency > 0.0
      ensures this.embeddingDimension == embeddingDimension && this.heads == heads
      ensures Valid() && fresh(xFrequencies) && fresh(yFrequencies)
      ensures Rows(xFrequencies) == Expand(InitialRow(embeddingDimension, highestFrequency, log), heads)
      ensures Rows(yFrequencies) == Rows(xFrequencies)
    {
      var frequencies := Expand(InitialRow(embeddingDimension, highestFrequency, log), heads);
      var xs := Clone(frequencies, embeddingDimension / 4);
      var ys := Clone(frequencies, embeddingDimension / 4);
      this.embeddingDimension := embeddingDimension;
      this.heads := heads;
      xFrequencies := xs;
      yFrequencies := ys;
    }

    /** `forward` for one batch element. When the sizes fit the module, it
        fails only on a feature vector narrower than the angle width, keeps
        every vector's length, and passes the last `E mod 4` entries through. */
    function Forward(x: seq<seq<seq<real>>>, position: seq<seq<real>>,
                     exp: real -> real, cos: real -> real, sin: real -> real)
      : (r: Result<seq<seq<seq<real>>>>)
      reads xFrequencies, yFrequencies
      ensures r.Ok? ==> |r.value| == |x| && forall h :: 0 <= h < |x| ==> |r.value[h]| == |x[h]|
      ensures r.Ok? ==> forall h, l :: 0 <= h < |x| && 0 <= l < |x[h]| ==> |r.value[h][l]| == |x[h][l]|
      ensures Valid() ==> (r.Ok? <==>
        && (forall l :: 0 <= l < |position| ==> |position[l]| >= 2)
        && |x| == heads
        && (forall h :: 0 <= h < |x| ==> |x[h]| == |position|)
        && (forall h, l :: 0 <= h < |x| && 0 <= l < |x[h]| ==> AngleWidth(embeddingDimension) <= |x[h][l]|))
      ensures Valid() && r.Ok? ==> forall h, l, i ::
        0 <= h < |x| && 0 <= l < |x[h]| && AngleWidth(embeddingDimension) <= i < |x[h][l]| ==>
          r.value[h][l][i] == x[h][l][i]
      ensures r.Ok? ==>
        && (forall l :: 0 <= l < |position| ==> |position[l]| >= 2)
        && |x| == xFrequencies.Length0 == yFrequencies.Length0
        && (forall h :: 0 <= h < |x| ==> |x[h]| == |position|)
      ensures r.Ok? ==> forall h, l :: 0 <= h < |x| && 0 <= l < |x[h]| ==>
        Rotate(x[h][l], AngleVector(position[l][0], position[l][1], Rows(xFrequencies)[h], Rows(yFrequencies)[h], exp), cos, sin)
          == Ok(r.value[h][l])
    {
      var xTable, yTable := Rows(xFrequencies), Rows(yFrequencies);
      var r := ForwardWith(xTable, yTable, x, position, exp, cos, sin);
      if Valid() then
        ForwardOnTables(xTable, yTable, embeddingDimension, x, position, exp, cos, sin);
        ForwardTailOnTables(xTable, yTable, embeddingDimension, x, position, exp, cos, sin, r);
        r
      else
        r
    }
  }

  /** `__init__` with its failures: `math.log` of a non-positive
      `highest_frequency · π / 2`, a negative step count for `linspace`, and a
      negative head count for `expand`, checked in that order. */
  method Build(embeddingDimension: int, heads: int, highestFrequency: real, log: real -> real)
    returns (r: Result<AxialRoPE>)
    ensures r.Err? <==> highestFrequency <= 0.0 || embeddingDimension < 0 || heads < 0
    ensures r.Err? ==> r.error == if highestFrequency <= 0.0 then MathDomain else NegativeSize
    ensures r.Ok? ==> && fresh(r.value) && fresh(r.value.xFrequencies) && fresh(r.value.yFrequencies)
                      && r.value.Valid()
                      && r.value.embeddingDimension == embeddingDimension && r.value.heads == heads
                      && Rows(r.value.xFrequencies) == Expand(InitialRow(embeddingDimension, highestFrequency, log), heads)
                      && Rows(r.value.yFrequencies) == Rows(r.value.xFrequencies)
  {
    if highestFrequency * Pi / 2.0 <= 0.0 {
      r := Err(MathDomain);
    } else if embeddingDimension / 4 < 0 {
      r := Err(NegativeSize);
    } else if heads < 0 {
      r := Err(NegativeSize);
    } else {
      var m := new AxialRoPE(embeddingDimension, heads, highestFrequency, log);
      r := Ok(m);
    }
  }
}
