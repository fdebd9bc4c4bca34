# Complex plane sampling and Julia-set escape times

This project models `cplane_np.py`, which has two parts:

- `ComplexPlaneNP`, a complex plane sampled on a grid. It keeps the bounds and
  sample counts of both axes (`xmin`, `xmax`, `xlen`, `ymin`, `ymax`, `ylen`),
  a transformation `f` and the grid `plane`. `refresh` rebuilds `plane` as the
  `ylen × xlen` grid of `f(x_j + y_i*1j)`, where `x_j` and `y_i` are inclusive
  `linspace` samples. `zoom` replaces the geometry and refreshes. `set_f`
  replaces `f` and refreshes. The constructor only stores its arguments.
- `julia(c, max=100)`, a factory. It returns the classifier `func(z)`, which
  iterates `z <- z**2 + c`. If `abs(z) > 2` before any update it returns the
  sentinel `1`. Otherwise it counts updates until `abs(z) > 2` and returns that
  count, unless the count reaches `max`, even on the update that escapes, in
  which case it returns `0`.

Files:

- `complex.dfy` (module `ComplexNumbers`): complex numbers as pairs of exact
  reals, with sum, FOIL product, square and squared magnitude.
- `escape.dfy` (module `EscapeTime`): the orbit `Orbit(z, c, k)`, the
  loop-free reference definition `EscapeCount`, the factory `Julia`, and the
  loop `Classify`, which is proved equal to `EscapeCount`. The lemmas
  characterise the result: the sentinel, first escape, the cap, the range, and
  the ambiguity of `1`.
- `plane.dfy` (module `Plane`): `Linspace`, `Meshgrid`, `X + Y*1j`
  (`ComplexGrid`), the vectorised call (`Apply`) and their composition
  `Render`. It also holds the class `ComplexPlane` with `Refresh`, `Zoom` and
  `SetF`, and a client method showing the identity plane, repeated `SetF`,
  and a plane holding escape counts.

Modelling choices:

- `abs(z) > 2` is stated as `re*re + im*im > 4`. Over the reals the two are
  equivalent.
- `z**2` is the FOIL product `z*z`.
- Python's dynamic typing lets `set_f` change the element type of `plane`
  (complex numbers under the identity, integers under a classifier). Here the
  class is generic in the result type `T` of `f`, so `T` is fixed per object.
  The default `f = lambda x: x` is the function `Identity`, which the caller
  passes when `T` is `Complex`.
- The default `plane=[]` is modelled as an explicit `plane` argument. The
  client passes `[]`. The list is only ever replaced, never mutated, so the
  shared default list has no observable effect.
- `xlen` and `ylen` are `nat`. `np.linspace` needs a non-negative count and
  returns no samples for a count of `0`. `Linspace` does the same, so a zero
  length gives an empty axis. The source validates nothing and raises no error
  of its own, so the model has no error path.
- `max` is any `int`, as in the source. For `max <= 1` the first update
  already reaches the cap, so every start inside the radius gives `0`.

Behaviour of the code that its own comments leave open:

- The constructor (cplane_np.py:45-52) only stores its arguments. It does not
  refresh, so `plane` holds whatever was passed until the first `refresh`.
  Nothing validates the bounds or the lengths.
- The docstring of `julia` (cplane_np.py:98) says `0` is returned when the
  count "exceed[s] max times". The code sets `n = 0` as soon as `n >= max`
  (line 108), before the escape test on the updated point. So an orbit whose
  first escape is at update `max` also gives `0` (`EscapeAtCapReadsAsZero`).
- The sentinel `1` for a start outside the radius (line 104) is the same value
  as an escape on the first update (`ResultOneIsAmbiguous`,
  `SentinelCollision`).

## Model

| member | source | states |
|---|---|---|
| EscapeTime.Classify | cplane_np.py:101-111 | the loop of `func` returns exactly the reference value `EscapeCount(z0, c, max)`; it performs at most `max` updates (at most 1 when `max < 1`) and none for a start outside the radius |
| EscapeTime.Julia | cplane_np.py:95-112 | the classifier the factory returns gives `1` on every start outside the radius, is never negative, stays below `max` when `max >= 2`, and for `max <= 1` gives `1` outside the radius and `0` inside |
| EscapeTime.EscapeFromSpec | cplane_np.py:105-110 | the search from update `k` returns `0` or the first index in `[k, max)` whose orbit point is outside the radius, and returns `0` exactly when no orbit point with index in `[k, max)` is outside |
| EscapeTime.PreEscapeSentinel | cplane_np.py:103-104 | a start point with `abs(z) > 2` gives exactly `1` |
| EscapeTime.InBoundsNonzero | cplane_np.py:105-111 | for a start inside the radius, a nonzero result `n` satisfies `1 <= n < max`, the points `z_0 .. z_{n-1}` are inside and `z_n` is outside |
| EscapeTime.FirstEscapeIsReported | cplane_np.py:105-111 | conversely, a first escape at update `e` with `1 <= e < max` is exactly the result |
| EscapeTime.InBoundsZeroIff | cplane_np.py:105-110 | for a start inside the radius, the result is `0` exactly when `z_0 .. z_{max-1}` all stay inside |
| EscapeTime.EscapeCountRange | cplane_np.py:102-111 | the result is never negative, is at most `max - 1` when `max >= 2`, and is `0` for every start inside the radius when `max <= 1` |
| EscapeTime.ResultOneIsAmbiguous | cplane_np.py:103-111 | the result is `1` exactly when the start was outside, or `max >= 2` and the first update left the radius |
| EscapeTime.SentinelCollision | cplane_np.py:103-111 | for every `c` outside the radius and every `max >= 2`, both the start `c` (already outside) and the start `0` (inside, escapes on the first update) give `1` |
| EscapeTime.EscapeAtCapReadsAsZero | cplane_np.py:106-110 | an orbit whose first escape is at update `max` is reported as `0`, because the cap test comes before the escape test |
| Plane.Linspace | cplane_np.py:60-61 | `n` samples; the first is `lo`; the last is `hi` when `n >= 2`; a single sample is exactly `lo`; consecutive samples differ by `(hi - lo)/(n - 1)`; every sample lies in `[lo, hi]` when `lo <= hi` |
| Plane.Meshgrid | cplane_np.py:62 | both grids have `len(y)` rows of `len(x)` columns; `X[i][j] == x[j]` and `Y[i][j] == y[i]` |
| Plane.ComplexGrid | cplane_np.py:63 | `X + Y*1j` has the shape of its operands, and its entry at `[i][j]` is `X[i][j] + Y[i][j]*1j` |
| Plane.Apply | cplane_np.py:65-66 | for an element-wise `f` (the identity, or `julia`'s vectorised classifier), the call on the whole grid keeps the grid's shape, and each entry is `f` of the corresponding entry on its own |
| Plane.RenderAt | cplane_np.py:60-66 | the grid `refresh` computes has `ylen` rows of `xlen` entries, and entry `[i][j]` is `f(x_j + y_i*1j)` for the linspace samples |
| Plane.RenderCorners | cplane_np.py:60-66 | entry `[0][0]` is `f(xmin + ymin*1j)`; with two or more samples on each axis the last entry is `f(xmax + ymax*1j)`; a one-sample x axis puts `xmin` in every column |
| Plane.IdentityPlane | cplane_np.py:60-66 | with the default `f = lambda x: x` of line 32, the rendered grid is the grid of sample points `x_j + y_i*1j`; a one-sample x axis gives real part `xmin` in every row, a one-sample y axis imaginary part `ymin` in every column |
| Plane.JuliaPlane | cplane_np.py:86-112 | for every `max`, a plane whose transformation is `julia(c, max)` holds the escape count of each sample point; every entry is non-negative, and below `max` when `max >= 2` |
| Plane.ComplexPlane.constructor | cplane_np.py:45-52 | stores the six geometry values, `plane` and `f` exactly as given, with no refresh |
| Plane.ComplexPlane.Refresh | cplane_np.py:54-67 | `plane` becomes the `ylen × xlen` grid of `f(x_j + y_i*1j)`; geometry and `f` are unchanged; returns `0` |
| Plane.ComplexPlane.Zoom | cplane_np.py:69-84 | the six geometry fields become the arguments, `f` is unchanged, `plane` is the grid rendered from the new geometry and the old `f`; returns `0` |
| Plane.ComplexPlane.SetF | cplane_np.py:86-93 | `f` becomes the argument, the geometry is unchanged, `plane` is the grid rendered from the old geometry and the new `f`; returns `0` |
| Plane.SetFTwice | cplane_np.py:86-93 | for every plane and every `g`, calling `set_f(g)` twice leaves `f`, the geometry and `plane` as one call does |

## Left out

- Numba's `@nb.vectorize` typing (`int32` results, `complex128` inputs) and numpy array mechanics are not modelled. Their effect is modelled as plain functions: elementwise map (`Apply`), `linspace` and `meshgrid`.
- The unused `pandas` import is not modelled.
- IEEE double rounding, overflow, NaN and infinity are not modelled. The model uses exact reals. The last sample of `Linspace` is `hi` exactly; numpy also sets the last sample to `stop` when there are two or more.
- The `int32` result type is not modelled. Results lie in `[0, max - 1]`, so they fit for any sensible `max`.
- The literal expectations of `test_julia1`–`test_julia4` (`0`, `20`, `13`, `10`) are left out. They depend on floating-point rounding over many iterations, and exact-real evaluation over 20–100 squarings is out of reach.
- The module-level test calls and the commented-out print test are left out.
- The base class `AbsComplexPlane` is not part of this model, and neither is the inheritance relationship.
- Plane.ComplexPlane: the element type of `plane` is fixed per object, so `set_f` cannot change it as Python's dynamic typing allows.
- Plane.Apply: the source passes the whole array to `f` in one call (cplane_np.py:65-66). The model assumes `f` acts element by element, as the identity and `julia`'s `@nb.vectorize` classifier do. An `f` that reduces the array, returns a scalar or rejects an array is not modelled.
- Plane.ComplexPlane: the lengths are `nat`, so negative lengths are not modelled. In the source, `__init__` and `zoom` store a negative length. `np.linspace` then raises `ValueError` inside `refresh`, so `zoom` leaves the new geometry stored and `plane` out of date.
