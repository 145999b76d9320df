/** What the three recursive statistics share: the error conditions, the
    argument checks, Python's indexing from the end, integer powers and the
    two variance clamps that guard the HOS denominator. */
module Rhos {

  /** The exceptions the computations can raise. */
  datatype Error =
    | DecayOutOfRange     // ValueError: C must be in the [0, 1] interval
    | UnknownDefinition   // ValueError: definition must be either 0 or 1
    | ZeroDivision        // float division by zero in int(1./C)
    | IndexOutOfRange     // a burn-in window longer than the signal

  datatype Result<T> = Ok(value: T) | Err(error: Error)

  /** The positive stand-in for a zero variance (1e-9). */
  const Eps: real := 0.000000001

  /** The default variance floor, which no variance is below. */
  const DefaultVarMin: real := -1.0

  predicate ValidDecay(C: real)
  {
    0.0 <= C <= 1.0
  }

  predicate ValidDefinition(definition: int)
  {
    definition == 0 || definition == 1
  }

  /** The slot that `a[k]` reads in a Python sequence of length n:
      a negative index counts from the end. */
  function PyIndex(k: int, n: nat): (j: nat)
    requires 0 <= n + k && k < n
    ensures j < n
    ensures k >= 0 ==> j == k
    ensures k < 0 ==> j == n + k
  {
    if k < 0 then n + k else k
  }

  /** x raised to the natural power e, as Python's `**` with an integral exponent. */
  function Pow(x: real, e: nat): (r: real)
    ensures x != 0.0 ==> r != 0.0
    ensures x > 0.0 ==> r > 0.0
    ensures e > 0 && x == 0.0 ==> r == 0.0
    ensures e % 2 == 0 ==> r >= 0.0
  {
    if e == 0 then 1.0
    else
      var p := Pow(x, e - 1);
      assert x > 0.0 ==> x * p > 0.0;
      assert x != 0.0 ==> x * p != 0.0;
      assert e % 2 == 0 ==> x * p >= 0.0 by {
        if e % 2 == 0 {
          assert p == x * Pow(x, e - 2);
          if x < 0.0 { assert x * Pow(x, e - 2) <= 0.0; }
        }
      }
      x * p
  }

  /** x**2: non-negative, and zero only for zero. */
  function Sq(x: real): (r: real)
    ensures r >= 0.0
    ensures r == 0.0 <==> x == 0.0
  {
    Pow(x, 2)
  }

  lemma SqIsProduct(x: real)
    ensures Sq(x) == x * x
  {
    assert Pow(x, 1) == x * Pow(x, 0);
  }

  /** Two more factors of x multiply the power by the square. */
  lemma PowTwoMore(x: real, e: nat)
    ensures Pow(x, e + 2) == Sq(x) * Pow(x, e)
  {
    var p := Pow(x, e);
    assert Pow(x, e + 2) == x * (x * p);
    SqIsProduct(x);
  }

  /** An even power depends only on the square: x and -x, or any two
      values with the same square, give the same x**e. */
  lemma {:induction false} EvenPowOfSquare(a: real, b: real, e: nat)
    requires e % 2 == 0 && Sq(a) == Sq(b)
    ensures Pow(a, e) == Pow(b, e)
  {
    if e > 0 {
      EvenPowOfSquare(a, b, e - 2);
      PowTwoMore(a, e - 2);
      PowTwoMore(b, e - 2);
    }
  }

  /** int(1./C): the number of samples of the burn-in window. */
  function WindowLength(C: real): (w: int)
    requires 0.0 < C <= 1.0
    ensures w >= 1
    ensures w <= 1 ==> C > 0.5
  {
    assert 1.0 / C >= 1.0 by {
      assert C * (1.0 / C) == 1.0;
    }
    (1.0 / C).Floor
  }

  /** The denominator rule of the reference HOS: var_min when the variance
      is not above it, otherwise the variance, or Eps when that is zero. */
  function ReferenceClamp(v: real, varMin: real): (d: real)
    ensures d >= varMin
    ensures v > varMin && v != 0.0 ==> d == v
    ensures v <= varMin ==> d == varMin
    ensures v >= 0.0 ==> (d == 0.0 <==> v == 0.0 && varMin == 0.0)
  {
    if v > varMin then (if v == 0.0 then Eps else v) else varMin
  }

  /** The denominator rule of the fast HOS: a zero variance becomes Eps first,
      then anything below var_min becomes var_min. */
  function FastClamp(v: real, varMin: real): (d: real)
    ensures d >= varMin
    ensures v >= varMin && v != 0.0 ==> d == v
    ensures v >= 0.0 ==> d > 0.0
  {
    var w := if v == 0.0 then Eps else v;
    if w < varMin then varMin else w
  }

  /** For a non-negative variance the two clamps differ exactly when the
      variance is zero and var_min lies in [0, Eps). */
  lemma ClampRulesAgree(v: real, varMin: real)
    requires v >= 0.0
    ensures ReferenceClamp(v, varMin) == FastClamp(v, varMin) <==> !(v == 0.0 && 0.0 <= varMin < Eps)
  {
  }

  /** With the default floor both clamps keep every non-negative variance
      positive, and they agree. */
  lemma DefaultClampPositive(v: real)
    requires v >= 0.0
    ensures ReferenceClamp(v, DefaultVarMin) > 0.0
    ensures ReferenceClamp(v, DefaultVarMin) == FastClamp(v, DefaultVarMin)
  {
  }

  /** Squares of a sequence, elementwise. */
  function Squares(e: seq<real>): (r: seq<real>)
    ensures |r| == |e|
    ensures forall k :: 0 <= k < |e| ==> r[k] == Sq(e[k])
  {
    seq(|e|, k requires 0 <= k < |e| => Sq(e[k]))
  }

  /** Powers of a sequence, elementwise. */
  function Powers(e: seq<real>, order: nat): (r: seq<real>)
    ensures |r| == |e|
    ensures forall k :: 0 <= k < |e| ==> r[k] == Pow(e[k], order)
  {
    seq(|e|, k requires 0 <= k < |e| => Pow(e[k], order))
  }

  lemma ProductPositive(a: real, b: real)
    requires a > 0.0 && b > 0.0
    ensures a * b > 0.0
  {
  }

  lemma ProductNonnegative(a: real, b: real)
    requires a >= 0.0 && b >= 0.0
    ensures a * b >= 0.0
  {
  }
}
