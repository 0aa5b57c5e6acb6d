# Axial RoPE in Dafny

A model of `axial_rope`, a two-dimensional rotary position embedding for
attention heads. The module keeps two tables of log-frequencies, one per
image axis, each holding `heads` rows of `embedding_dimension // 4` entries.
For a token at position (px, py), head `h` gets the angles `py · exp(y row)`
followed by `px · exp(x row)`. Each angle is repeated twice so that it turns
one adjacent pair of features. `rotate` turns the first `|angles|` features
of the token's vector by those angles and passes the remaining features
through.

The project has four modules:

- `TensorOps` (`tensor_ops.dfy`) holds the torch primitives on the last axis.
  These are strided slicing, `stack`, the `... d r -> ... (d r)` flatten,
  `repeat_interleave`, elementwise `+`/`*` with torch's size-1 broadcasting,
  and the transpose of two outer axes. `Stack` and `Elementwise` fail with
  the shape error torch raises; the others are total on the shapes used here.
- `Rotation` (`rotation.dfy`) holds `rotate_half` and `rotate`, with their
  algebraic laws.
- `Frequencies` (`frequencies.dfy`) holds `linspace`, the initial row, the
  angle width and the per-head, per-token angle vectors.
- `AxialRope` (`axial_rope.dfy`) holds the pure `forward` over explicit
  tables, and the class `AxialRoPE`. The class keeps its two tables in
  separate `array2<real>` buffers, which the constructor fills by a copying
  loop. `Build` models `__init__` together with its failures.

`exp`, `cos`, `sin` and `log` are arguments of type `real -> real`. Any
identity a lemma needs of them, such as cos² + sin² = 1 at the angles used,
is stated in that lemma's `requires`. π is the decimal constant of
`math.pi`. Integer `//` by 4 is Dafny's `/`, which agrees with Python's
floor division for every integer.

Places where the code's behaviour is modelled as written:

- A position with more than two coordinates is accepted; only coordinates 0
  and 1 are read. Fewer than two gives `IndexOutOfRange`.
- An embedding dimension that is not a multiple of 4 is silently truncated
  to `4 · (E // 4)` angles. The last `E mod 4` features pass through
  unrotated (`Frequencies.AngleWidth`, `AxialRope.AxialRoPE.Forward`).
- `rotate` also succeeds on an empty vector with a single angle, because
  torch broadcasts size 0 against size 1 (`Rotation.Rotatable`).
- `highest_frequency ≤ 0` makes `math.log` fail before anything else.
- A negative embedding dimension gives `linspace` a negative step count.
- A negative head count makes `expand` fail.

## Model

| member | source | states |
|---|---|---|
| TensorOps.Stack | axial_rope/__init__.py:4 | succeeds exactly on equal lengths; entry k is the pair (a[k], b[k]) |
| TensorOps.Flatten | axial_rope/__init__.py:5 | twice the length; entry i is the first or second half of pair i/2 according to the parity of i |
| TensorOps.RepeatInterleave | axial_rope/__init__.py:89 | twice the length; entry i is s[i/2], so every entry appears twice in a row |
| TensorOps.Elementwise | axial_rope/__init__.py:18 | succeeds exactly when the sizes broadcast (equal, or one is 1); gives the broadcast length; equal sizes combine entry by entry |
| TensorOps.SwapAxes | axial_rope/__init__.py:90 | a rectangular table transposed: sizes swapped and r[j][i] = t[i][j] |
| TensorOps.SwapAxesTwice | axial_rope/__init__.py:90 | transposing twice gives the table back |
| Rotation.RotateHalf | axial_rope/__init__.py:1-7 | succeeds exactly on even lengths; keeps the length; every pair (a, b) becomes (-b, a) |
| Rotation.RotateHalfTwice | axial_rope/__init__.py:1-7 | two quarter turns negate every entry |
| Rotation.RotateHalfFourTimes | axial_rope/__init__.py:1-7 | four quarter turns give the vector back |
| Rotation.Rotate | axial_rope/__init__.py:10-21 | succeeds exactly when the angle count is even and at most the width (or the vector is empty and there is one angle); keeps the length; entries past the angles pass through; entry i of the prefix is x[i]·cos f[i] + (quarter-turned prefix)[i]·sin f[i] |
| Rotation.RotatePair | axial_rope/__init__.py:17-18 | a pair sharing one angle θ is turned by the 2×2 rotation: (a cos θ − b sin θ, b cos θ + a sin θ) |
| Rotation.RotateZeroAngles | axial_rope/__init__.py:10-21 | with every angle 0 (and cos 0 = 1, sin 0 = 0), `rotate` returns its input |
| Rotation.RotateInverse | axial_rope/__init__.py:10-21 | rotating by repeat-interleaved angles and then by their negation gives the vector back, when cos is even, sin odd and cos² + sin² = 1 at those angles |
| Frequencies.Linspace | axial_rope/__init__.py:60-63 | `steps` values whose first is `start` and whose last is `end` |
| Frequencies.LinspaceOrdered | axial_rope/__init__.py:60-63 | for start ≤ end, the values lie between the ends and are in non-decreasing order |
| Frequencies.InitialRow | axial_rope/__init__.py:60-63 | the initial row has `embedding_dimension // 4` entries |
| Frequencies.InitialFrequencyRange | axial_rope/__init__.py:60-63 | once exponentiated, every initial frequency lies in [π, highest_frequency · π / 2], for a monotone exp that undoes log at the two ends |
| Frequencies.Expand | axial_rope/__init__.py:64 | `heads` rows, each equal to the given row |
| Frequencies.AngleWidth | axial_rope/__init__.py:88-89 | the angle count 2·(E//4 + E//4) is a multiple of 4, at most E, and leaves exactly E mod 4 features over |
| Frequencies.AngleVector | axial_rope/__init__.py:85-89 | length 2·(y count + x count); entry i is py·exp(y[i/2]) for the first y-count pairs, then px·exp(x[i/2 − y count]) |
| Frequencies.AnglePairs | axial_rope/__init__.py:88-89 | entries 2j and 2j+1 hold the same angle: the y-angle j when j is below the y count, the x-angle j − y count after it |
| Frequencies.AnglesAtOrigin | axial_rope/__init__.py:85-86 | at position (0, 0) every angle is 0 |
| Frequencies.AngleTable | axial_rope/__init__.py:85-88 | succeeds exactly when every position has at least two coordinates and the tables have the same number of heads; entry [l][h] is the angle vector of head h at token l |
| AxialRope.ForwardWith | axial_rope/__init__.py:85-94 | succeeds exactly when the positions, heads, tokens and widths fit; output vector [h][l] is `rotate` of input [h][l] by the angle vector of head h at token l |
| AxialRope.ForwardPassesTail | axial_rope/__init__.py:94 | each output vector has its input's length, and entries past the angle width are unchanged |
| AxialRope.ForwardAtOrigin | axial_rope/__init__.py:85-94 | a token at (0, 0) keeps its feature vectors in every head |
| AxialRope.ForwardOnTables | axial_rope/__init__.py:85-94 | with tables of E//4 columns, forward succeeds exactly when the positions, heads and tokens fit and no feature vector is narrower than the angle width |
| AxialRope.ForwardTailOnTables | axial_rope/__init__.py:85-94 | with tables of E//4 columns, every output vector keeps its length and the features past the angle width pass through |
| AxialRope.Clone | axial_rope/__init__.py:66-67 | a fresh buffer of the table's shape holding exactly its entries |
| AxialRope.AxialRoPE.constructor | axial_rope/__init__.py:60-67 | for a positive highest_frequency, both tables are `heads` × E//4, hold the expanded initial row, and live in two distinct fresh buffers |
| AxialRope.AxialRoPE.Forward | axial_rope/__init__.py:69-96 | keeps the shape of x; output [h][l] is `rotate` of input [h][l] by the angle vector of head h at token l built from the module's tables; on a constructed module succeeds exactly when the sizes fit and every vector is at least the angle width, and the last E mod 4 features pass through |
| AxialRope.Build | axial_rope/__init__.py:60-67 | fails exactly when highest_frequency ≤ 0 (MathDomain, checked first), E < 0 or heads < 0 (NegativeSize); otherwise a fresh module as the constructor makes it |

## Left out

- Floating point: values are reals. exp, cos, sin and log are uninterpreted functions, and rounding in `linspace` and in the rotation is not modelled.
- The batch axis: one batch element is modelled. `x` is indexed [head][token][feature] and `position` is indexed [token][coordinate].
- Size-1 broadcasting of the head and token axes: those axes must match exactly, and a mismatch is `ShapeMismatch`. Size-1 broadcasting is modelled only on the feature axis.
- With zero heads or zero tokens, nested sequences carry no feature width, so width errors torch would still raise on empty tensors are not seen.
- `nn.Parameter` registration, autograd and changes to the tables made by training: the tables are read-only after construction.
- Norm preservation and the relative-position property of the rotation need trigonometric identities beyond those the lemmas assume, and are not stated.
- TensorOps.Elementwise: the entries are stated only for equal sizes; for a size-1 operand, only the length is stated.
- AxialRope.AxialRoPE.Forward: the exact success condition and the tail are stated only for a module whose tables have the constructor's shape (`Valid`).
