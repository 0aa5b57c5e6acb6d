/** The torch primitives the axial rotary embedding is built from, each on the
    last axis of a tensor (one feature vector, a `seq<real>`), with the shape
    errors torch raises. */
module TensorOps {

  /** The exceptions the model distinguishes. */
  datatype Error =
    | ShapeMismatch    // torch.stack, torch.cat or broadcasting refuses the sizes
    | IndexOutOfRange  // an index past the end of a dimension
    | NegativeSize     // a negative step count or expanded size
    | MathDomain       // math.log of a number that is not positive

  datatype Result<+T> = Ok(value: T) | Err(error: Error) {
    predicate IsFailure() { Err? }

    function PropagateFailure<U>(): Result<U>
      requires Err?
    {
      Err(error)
    }

    function Extract(): T
      requires Ok?
    {
      value
    }
  }

  function Min(a: nat, b: nat): nat { if a <= b then a else b }

  /** `x[..., :n]`; Python clamps the bound to the length. */
  function SliceTo(x: seq<real>, n: nat): seq<real> { x[..Min(n, |x|)] }

  /** `x[..., n:]`; empty when `n` is past the end. */
  function SliceFrom(x: seq<real>, n: nat): seq<real> { x[Min(n, |x|)..] }

  /** `x[..., start::2]` for `start` 0 (even entries) or 1 (odd entries). */
  function Strided(x: seq<real>, start: nat): seq<real>
    requires start <= 1
  {
    seq((|x| + 1 - start) / 2, k requires 0 <= k < (|x| + 1 - start) / 2 => x[2 * k + start])
  }

  /** Unary minus, entry by entry. */
  function Negate(x: seq<real>): seq<real>
  {
    seq(|x|, i requires 0 <= i < |x| => -x[i])
  }

  /** An elementwise unary tensor method such as `.exp()`, `.cos()` or `.sin()`. */
  function MapReal(fn: real -> real, x: seq<real>): seq<real>
  {
    seq(|x|, i requires 0 <= i < |x| => fn(x[i]))
  }

  /** A scalar times a vector. */
  function Scale(c: real, x: seq<real>): seq<real>
  {
    seq(|x|, i requires 0 <= i < |x| => c * x[i])
  }

  /** `torch.stack((a, b), dim=-1)`: the two vectors must have the same size. */
  function Stack(a: seq<real>, b: seq<real>): (r: Result<seq<(real, real)>>)
    ensures r.Ok? <==> |a| == |b|
    ensures r.Ok? ==> |r.value| == |a|
    ensures r.Ok? ==> forall k :: 0 <= k < |a| ==> r.value[k].0 == a[k] && r.value[k].1 == b[k]
  {
    if |a| != |b| then Err(ShapeMismatch)
    else Ok(seq(|a|, k requires 0 <= k < |a| => (a[k], b[k])))
  }

  /** `rearrange(t, '... d r -> ... (d r)')` with `r` = 2: the pairs laid end to end. */
  function Flatten(pairs: seq<(real, real)>): (r: seq<real>)
    ensures |r| == 2 * |pairs|
    ensures forall i :: 0 <= i < |r| ==>
      r[i] == if i % 2 == 0 then pairs[i / 2].0 else pairs[i / 2].1
  {
    if pairs == [] then []
    else
      var rest := Flatten(pairs[1..]);
      assert forall i :: 2 <= i < 2 * |pairs| ==> (i - 2) / 2 == i / 2 - 1 && (i - 2) % 2 == i % 2;
      [pairs[0].0, pairs[0].1] + rest
  }

  /** `s.repeat_interleave(2, dim=-1)`: every entry twice in a row (not the whole vector twice). */
  function RepeatInterleave(s: seq<real>): (r: seq<real>)
    ensures |r| == 2 * |s|
    ensures forall i :: 0 <= i < |r| ==> r[i] == s[i / 2]
  {
    Flatten(seq(|s|, k requires 0 <= k < |s| => (s[k], s[k])))
  }

  /** The binary elementwise operators the rotation uses. */
  datatype Op = Add | Mul

  function Apply(op: Op, u: real, v: real): real
  {
    match op
    case Add => u + v
    case Mul => u * v
  }

  /** Torch broadcasts two sizes of one axis when they agree or one of them is 1. */
  predicate Broadcastable(m: nat, n: nat) { m == n || m == 1 || n == 1 }

  function BroadcastSize(m: nat, n: nat): nat
    requires Broadcastable(m, n)
  {
    if m == 1 then n else m
  }

  /** Entry `i` of `x` after broadcasting: a vector of size 1 repeats its entry. */
  function Entry(x: seq<real>, i: nat): real
    requires |x| == 1 || i < |x|
  {
    if |x| == 1 then x[0] else x[i]
  }

  /** `a + b` or `a * b` on the last axis, with torch's broadcasting. */
  function Elementwise(op: Op, a: seq<real>, b: seq<real>): (r: Result<seq<real>>)
    ensures r.Ok? <==> Broadcastable(|a|, |b|)
    ensures r.Ok? ==> |r.value| == (if |a| == 1 then |b| else |a|)
    ensures r.Ok? && |a| == |b| ==> forall i :: 0 <= i < |a| ==> r.value[i] == Apply(op, a[i], b[i])
  {
    if !Broadcastable(|a|, |b|) then Err(ShapeMismatch)
    else
      var n := BroadcastSize(|a|, |b|);
      Ok(seq(n, i requires 0 <= i < n => Apply(op, Entry(a, i), Entry(b, i))))
  }

  /** `t.transpose` of the two outer axes of a table whose rows all have `columns` entries. */
  function SwapAxes<T>(t: seq<seq<T>>, columns: nat): (r: seq<seq<T>>)
    requires forall i :: 0 <= i < |t| ==> |t[i]| == columns
    ensures |r| == columns
    ensures forall j :: 0 <= j < columns ==> |r[j]| == |t|
    ensures forall j, i :: 0 <= j < columns && 0 <= i < |t| ==> r[j][i] == t[i][j]
  {
    seq(columns, j requires 0 <= j < columns => seq(|t|, i requires 0 <= i < |t| => t[i][j]))
  }

  /** Swapping the axes twice gives the table back. */
  lemma SwapAxesTwice<T>(t: seq<seq<T>>, columns: nat)
    requires forall i :: 0 <= i < |t| ==> |t[i]| == columns
    ensures SwapAxes(SwapAxes(t, columns), |t|) == t
  {
    var once := SwapAxes(t, columns);
    var twice := SwapAxes(once, |t|);
    forall i | 0 <= i < |t|
      ensures twice[i] == t[i]
    {
      assert forall j :: 0 <= j < columns ==> twice[i][j] == t[i][j];
    }
  }
}
