/**
 * The escape-time classifier returned by `julia(c, max)`: for a start point `z`
 * it iterates `z <- z**2 + c` and reports when `abs(z)` first exceeds 2, with a
 * pre-loop sentinel `1` and a cap that turns the counter into `0`.
 */
module EscapeTime {
  import opened ComplexNumbers

  /** One update of the quadratic map: `z**2 + c`. */
  function Step(z: Complex, c: Complex): Complex
  {
    Add(Square(z), c)
  }

  /** The orbit point `z_k`: the start point after `k` updates. */
  function Orbit(z: Complex, c: Complex, k: nat): Complex
  {
    if k == 0 then z else Step(Orbit(z, c, k - 1), c)
  }

  /** `abs(z) > 2`, stated on the squared magnitude. */
  predicate Escaped(z: Complex)
  {
    NormSq(z) > 4.0
  }

  /**
   * The counter the loop ends with once the orbit has passed the first `k - 1`
   * updates inside the radius: the cap test on `k` comes first, then the
   * escape test on `z_k`.
   */
  function EscapeFrom(z: Complex, c: Complex, k: nat, max: int): int
    decreases max - k
  {
    if k >= max then 0
    else if Escaped(Orbit(z, c, k)) then k
    else EscapeFrom(z, c, k + 1, max)
  }

  /** The value `julia(c, max)(z)`: `1` for a start outside the radius, else the search from the first update. */
  function EscapeCount(z: Complex, c: Complex, max: int): int
  {
    if Escaped(z) then 1 else EscapeFrom(z, c, 1, max)
  }

  /**
   * The factory `julia(c, max=100)`: the classifier it returns is the pure
   * function `z => EscapeCount(z, c, max)`, with `c` and `max` captured.
   */
  function Julia(c: Complex, max: int := 100): (func: Complex -> int)
    ensures forall z :: Escaped(z) ==> func(z) == 1
    ensures forall z :: func(z) >= 0
    ensures max >= 2 ==> forall z :: func(z) < max
    ensures max <= 1 ==> forall z :: func(z) == (if Escaped(z) then 1 else 0)
  {
    forall z ensures EscapeCount(z, c, max) >= 0 && (max >= 2 ==> EscapeCount(z, c, max) < max)
                  && (max <= 1 && !Escaped(z) ==> EscapeCount(z, c, max) == 0) {
      EscapeCountRange(z, c, max);
    }
    z => EscapeCount(z, c, max)
  }

  /**
   * The inner `func(z)`: the pre-loop bailout, then the counting loop with the
   * cap test after each update. `updates` counts the updates performed.
   */
  method Classify(c: Complex, max: int, z0: Complex) returns (n: int, ghost updates: nat)
    ensures n == EscapeCount(z0, c, max)
    ensures updates <= if max >= 1 then max else 1
    ensures Escaped(z0) ==> updates == 0
  {
    n, updates := 0, 0;
    var z := z0;
    if NormSq(z) > 4.0 {
      return 1, 0;
    }
    while NormSq(z) <= 4.0
      invariant 0 <= n && updates == n && z == Orbit(z0, c, n)
      invariant n >= 1 ==> n < max
      invariant EscapeCount(z0, c, max) == EscapeFrom(z0, c, if n == 0 then 1 else n, max)
      decreases if n < max then max - n else 0
    {
      n, updates := n + 1, updates + 1;
      z := Add(Square(z), c);
      if n >= max {
        n := 0;
        break;
      }
    }
  }

  /**
   * What the search from update `k` finds: either `0`, or the first index in
   * `[k, max)` whose orbit point is outside the radius; and `0` exactly when
   * every orbit point with index in `[k, max)` is inside.
   */
  lemma {:induction false} EscapeFromSpec(z: Complex, c: Complex, k: nat, max: int)
    requires k >= 1
    ensures var r := EscapeFrom(z, c, k, max);
      r == 0 || (k <= r < max && Escaped(Orbit(z, c, r))
                 && forall j :: k <= j < r ==> !Escaped(Orbit(z, c, j)))
    ensures EscapeFrom(z, c, k, max) == 0 <==> forall j :: k <= j < max ==> !Escaped(Orbit(z, c, j))
    decreases max - k
  {
    if k < max && !Escaped(Orbit(z, c, k)) {
      EscapeFromSpec(z, c, k + 1, max);
    }
  }

  /** A start point outside the radius gives exactly `1`, with no update. */
  lemma PreEscapeSentinel(z: Complex, c: Complex, max: int)
    requires Escaped(z)
    ensures EscapeCount(z, c, max) == 1
  {
  }

  /**
   * For a start inside the radius, a nonzero result `n` is the first escape:
   * `1 <= n < max`, the points `z_0 .. z_{n-1}` are inside and `z_n` is outside.
   */
  lemma InBoundsNonzero(z: Complex, c: Complex, max: int)
    requires !Escaped(z) && EscapeCount(z, c, max) != 0
    ensures var n := EscapeCount(z, c, max);
      1 <= n < max && Escaped(Orbit(z, c, n))
      && forall j :: 0 <= j < n ==> !Escaped(Orbit(z, c, j))
  {
    EscapeFromSpec(z, c, 1, max);
  }

  /**
   * The converse: a first escape at index `e` with `1 <= e < max` is exactly
   * what the classifier reports.
   */
  lemma FirstEscapeIsReported(z: Complex, c: Complex, max: int, e: nat)
    requires 1 <= e < max && Escaped(Orbit(z, c, e))
    requires forall j :: 0 <= j < e ==> !Escaped(Orbit(z, c, j))
    ensures EscapeCount(z, c, max) == e
  {
    assert !Escaped(Orbit(z, c, 0));
    EscapeFromSpec(z, c, 1, max);
    var r := EscapeFrom(z, c, 1, max);
    if r == 0 || r > e {
      assert !Escaped(Orbit(z, c, e));
    }
  }

  /**
   * For a start inside the radius the result is `0` exactly when the points
   * `z_0 .. z_{max-1}` all stay inside; the point `z_max` is never tested.
   */
  lemma InBoundsZeroIff(z: Complex, c: Complex, max: int)
    requires !Escaped(z)
    ensures EscapeCount(z, c, max) == 0 <==> forall j :: 0 <= j < max ==> !Escaped(Orbit(z, c, j))
  {
    EscapeFromSpec(z, c, 1, max);
    assert Orbit(z, c, 0) == z;
  }

  /**
   * The range of the classifier: never negative; at most `max - 1` when
   * `max >= 2`; for `max <= 1` an in-bounds start always gives `0`.
   */
  lemma EscapeCountRange(z: Complex, c: Complex, max: int)
    ensures EscapeCount(z, c, max) >= 0
    ensures max >= 2 ==> EscapeCount(z, c, max) < max
    ensures max <= 1 && !Escaped(z) ==> EscapeCount(z, c, max) == 0
  {
    EscapeFromSpec(z, c, 1, max);
  }

  /**
   * A result of `1` cannot tell the two cases apart: the start was already
   * outside, or it was inside and the first update left the radius.
   */
  lemma ResultOneIsAmbiguous(z: Complex, c: Complex, max: int)
    ensures EscapeCount(z, c, max) == 1 <==> Escaped(z) || (max >= 2 && Escaped(Orbit(z, c, 1)))
  {
    if !Escaped(z) {
      EscapeFromSpec(z, c, 2, max);
    }
  }

  /** From the origin, the first update lands on `c`. */
  lemma StepFromOrigin(z: Complex, c: Complex)
    requires z == Complex(0.0, 0.0)
    ensures Step(z, c) == c
  {
    assert z.re * z.re == 0.0;
    assert z.im * z.im == 0.0;
    assert z.re * z.im == 0.0;
  }

  /**
   * Both causes of a `1` occur for every `c` outside the radius and every
   * `max >= 2`: the start `z = c` is already outside, and the start `z = 0`,
   * which is inside, leaves on its first update. (With `max = 1` the cap turns
   * the second case into `0`.)
   */
  lemma SentinelCollision(c: Complex, max: int)
    requires Escaped(c) && max >= 2
    ensures EscapeCount(c, c, max) == 1
    ensures EscapeCount(Complex(0.0, 0.0), c, max) == 1
  {
    StepFromOrigin(Complex(0.0, 0.0), c);
    assert Orbit(Complex(0.0, 0.0), c, 1) == c;
  }

  /**
   * The cap is tested before the escape: an orbit whose first escape is at
   * update `max` is reported as `0`, not `max`.
   */
  lemma EscapeAtCapReadsAsZero(z: Complex, c: Complex, max: nat)
    requires max >= 1 && Escaped(Orbit(z, c, max))
    requires forall j :: 0 <= j < max ==> !Escaped(Orbit(z, c, j))
    ensures EscapeCount(z, c, max) == 0
  {
    assert Orbit(z, c, 0) == z;
    InBoundsZeroIff(z, c, max);
  }
}
