/** The rotation angles: the initial log-frequency row of the constructor and
    the per-head, per-token angle vectors that `forward` lays out before rotating. */
module Frequencies {
  import opened TensorOps

  /** `math.pi`, the double nearest to π. */
  const Pi: real := 3.141592653589793

  /** `torch.linspace(start, end, steps)` on the reals: `steps` evenly spaced
      values from `start` to `end` inclusive; a single step gives `[start]`. */
  function Linspace(start: real, end: real, steps: nat): (r: seq<real>)
    ensures |r| == steps
    ensures steps >= 1 ==> r[0] == start
    ensures steps >= 2 ==> r[steps - 1] == end
  {
    if steps == 0 then []
    else if steps == 1 then [start]
    else
      var step := (end - start) / ((steps - 1) as real);
      LastStep(start, end, steps);
      seq(steps, i requires 0 <= i < steps => start + (i as real) * step)
  }

  lemma LastStep(start: real, end: real, steps: nat)
    requires steps >= 2
    ensures start + ((steps - 1) as real) * ((end - start) / ((steps - 1) as real)) == end
  {
  }

  /** Between its ends, and in order, when `start <= end`. */
  lemma {:induction false} LinspaceOrdered(start: real, end: real, steps: nat, i: nat, j: nat)
    requires start <= end && i <= j < steps
    ensures start <= Linspace(start, end, steps)[i] <= Linspace(start, end, steps)[j] <= end
  {
    if steps >= 2 {
      var n := (steps - 1) as real;
      var step := (end - start) / n;
      LinspaceEntry(start, end, steps, i);
      LinspaceEntry(start, end, steps, j);
      LastStep(start, end, steps);
      StepNonnegative(end - start, n);
      var r := Linspace(start, end, steps);
      EvenlySpaced(start, end, step, i as real, j as real, n, r[i], r[j]);
    }
  }

  lemma LinspaceEntry(start: real, end: real, steps: nat, i: nat)
    requires 2 <= steps && i < steps
    ensures Linspace(start, end, steps)[i] == start + (i as real) * ((end - start) / ((steps - 1) as real))
  {
  }

  lemma StepNonnegative(d: real, n: real)
    requires d >= 0.0 && n > 0.0
    ensures d / n >= 0.0
  {
  }

  /** The points `start + i · step` and `start + j · step`, for 0 <= i <= j <= n, with a non-negative step, are in order up to `end`. */
  lemma EvenlySpaced(start: real, end: real, step: real, i: real, j: real, n: real, ri: real, rj: real)
    requires 0.0 <= i <= j <= n && step >= 0.0 && start + n * step == end
    requires ri == start + i * step && rj == start + j * step
    ensures start <= ri <= rj <= end
  {
    ScaleMonotone(0.0, i, step);
    ScaleMonotone(i, j, step);
    ScaleMonotone(j, n, step);
  }

  lemma ScaleMonotone(a: real, b: real, c: real)
    requires a <= b && c >= 0.0
    ensures a * c <= b * c
  {
  }

  /** The row every head starts from: `linspace(log π, log(highest_frequency · π / 2), E // 4)`. */
  function InitialRow(embeddingDimension: nat, highestFrequency: real, log: real -> real): (r: seq<real>)
    ensures |r| == embeddingDimension / 4
  {
    Linspace(log(Pi), log(highestFrequency * Pi / 2.0), embeddingDimension / 4)
  }

  /** Once exponentiated, every initial log-frequency lies in [π, highest_frequency · π / 2],
      given only that exp is monotone and undoes log at the two ends. */
  lemma InitialFrequencyRange(embeddingDimension: nat, highestFrequency: real, log: real -> real, exp: real -> real, i: nat)
    requires i < embeddingDimension / 4
    requires log(Pi) <= log(highestFrequency * Pi / 2.0)
    requires exp(log(Pi)) == Pi && exp(log(highestFrequency * Pi / 2.0)) == highestFrequency * Pi / 2.0
    requires forall a, b :: a <= b ==> exp(a) <= exp(b)
    ensures Pi <= exp(InitialRow(embeddingDimension, highestFrequency, log)[i]) <= highestFrequency * Pi / 2.0
  {
    var lo, hi := log(Pi), log(highestFrequency * Pi / 2.0);
    LinspaceOrdered(lo, hi, embeddingDimension / 4, i, i);
    var v := InitialRow(embeddingDimension, highestFrequency, log)[i];
    assert exp(lo) <= exp(v) <= exp(hi);
  }

  /** `.expand((heads, -1))`: the same row for every head. */
  function Expand(row: seq<real>, heads: nat): (t: seq<seq<real>>)
    ensures |t| == heads
    ensures forall h :: 0 <= h < heads ==> t[h] == row
  {
    seq(heads, h requires 0 <= h < heads => row)
  }

  /** The number of angles per head and token for embedding dimension E:
      `E // 4` y-angles and `E // 4` x-angles, each repeated twice. */
  function AngleWidth(embeddingDimension: nat): (w: nat)
    ensures w % 4 == 0 && w <= embeddingDimension
    ensures embeddingDimension - w == embeddingDimension % 4
  {
    2 * (embeddingDimension / 4 + embeddingDimension / 4)
  }

  /** The angles one head applies at the token at (px, py): the y-angles
      `py · exp(yRow)` first, then the x-angles `px · exp(xRow)`, each entry
      repeated twice so that one angle turns one adjacent feature pair. */
  function AngleVector(px: real, py: real, xRow: seq<real>, yRow: seq<real>, exp: real -> real): (r: seq<real>)
    ensures |r| == 2 * (|yRow| + |xRow|)
    ensures forall i :: 0 <= i < |r| ==>
      r[i] == if i / 2 < |yRow| then py * exp(yRow[i / 2]) else px * exp(xRow[i / 2 - |yRow|])
  {
    var angles := Scale(py, MapReal(exp, yRow)) + Scale(px, MapReal(exp, xRow));
    assert forall k :: 0 <= k < |angles| ==>
      angles[k] == if k < |yRow| then py * exp(yRow[k]) else px * exp(xRow[k - |yRow|]);
    RepeatInterleave(angles)
  }

  /** Entries 2j and 2j + 1 of an angle vector are one angle: the y-angle of
      frequency j for j < |yRow|, otherwise the x-angle of frequency j - |yRow|. */
  lemma AnglePairs(px: real, py: real, xRow: seq<real>, yRow: seq<real>, exp: real -> real, j: nat)
    requires j < |yRow| + |xRow|
    ensures var r := AngleVector(px, py, xRow, yRow, exp);
      && r[2 * j] == r[2 * j + 1]
      && r[2 * j] == if j < |yRow| then py * exp(yRow[j]) else px * exp(xRow[j - |yRow|])
  {
    PairOfAngles(px, py, xRow, yRow, exp, AngleVector(px, py, xRow, yRow, exp), j);
  }

  lemma PairOfAngles(px: real, py: real, xRow: seq<real>, yRow: seq<real>, exp: real -> real, r: seq<real>, j: nat)
    requires j < |yRow| + |xRow|
    requires |r| == 2 * (|yRow| + |xRow|)
    requires forall i :: 0 <= i < |r| ==>
      r[i] == if i / 2 < |yRow| then py * exp(yRow[i / 2]) else px * exp(xRow[i / 2 - |yRow|])
    ensures r[2 * j] == r[2 * j + 1]
    ensures r[2 * j] == if j < |yRow| then py * exp(yRow[j]) else px * exp(xRow[j - |yRow|])
  {
    HalvesOfPair(j);
  }

  lemma HalvesOfPair(j: nat)
    ensures (2 * j) / 2 == j && (2 * j + 1) / 2 == j
  {
  }

  /** At the origin every angle is 0, whatever the frequencies. */
  lemma AnglesAtOrigin(xRow: seq<real>, yRow: seq<real>, exp: real -> real)
    ensures forall i :: 0 <= i < 2 * (|yRow| + |xRow|) ==> AngleVector(0.0, 0.0, xRow, yRow, exp)[i] == 0.0
  {
  }

  /** The angle vectors of all tokens and heads, token-major as torch builds
      them before the transpose. Indexing a coordinate fails when a token has
      fewer than two; concatenating the two tables fails when their head counts differ. */
  function AngleTable(position: seq<seq<real>>, xTable: seq<seq<real>>, yTable: seq<seq<real>>, exp: real -> real)
    : (r: Result<seq<seq<seq<real>>>>)
    ensures r.Ok? <==> (forall l :: 0 <= l < |position| ==> |position[l]| >= 2) && |xTable| == |yTable|
    ensures r.Ok? ==> |r.value| == |position|
    ensures r.Ok? ==> forall l :: 0 <= l < |position| ==> |r.value[l]| == |xTable|
    ensures r.Ok? ==> forall l, h :: 0 <= l < |position| && 0 <= h < |xTable| ==>
      r.value[l][h] == AngleVector(position[l][0], position[l][1], xTable[h], yTable[h], exp)
  {
    if exists l :: 0 <= l < |position| && |position[l]| < 2 then Err(IndexOutOfRange)
    else if |xTable| != |yTable| then Err(ShapeMismatch)
    else Ok(seq(|position|, l requires 0 <= l < |position| =>
              seq(|xTable|, h requires 0 <= h < |xTable| =>
                AngleVector(position[l][0], position[l][1], xTable[h], yTable[h], exp))))
  }
}
