/**
 * The numerical primitives the reliability engine calls but does not define:
 * the C math library's `exp` and `log`, and `loggamma` and `findQuantile`
 * from the numerical support library. They are carried as opaque function
 * values in a `Lib` record, so that every result of the model holds for any
 * implementation of them; the few laws a proof needs are stated as
 * predicates on the record and appear only in the `requires` of lemmas.
 */
module NumLib {

  datatype Lib = Lib(
    exp: real -> real,
    log: real -> real,
    logGamma: real -> real,
    // root-finder: the argument at which the given monotone function
    // reaches the target value
    findQuantile: (real, (real -> real)) -> real,
    // what a floating-point division by zero yields (an infinity or NaN)
    divByZero: real -> real)

  ghost predicate ExpPositive(lib: Lib) {
    forall x :: lib.exp(x) > 0.0
  }

  ghost predicate ExpIncreasing(lib: Lib) {
    forall x, y :: x < y ==> lib.exp(x) < lib.exp(y)
  }

  ghost predicate LogIncreasing(lib: Lib) {
    forall x, y :: 0.0 < x < y ==> lib.log(x) < lib.log(y)
  }

  /** exp undoes log on the positive reals. */
  ghost predicate ExpInvertsLog(lib: Lib) {
    forall z :: z > 0.0 ==> lib.exp(lib.log(z)) == z
  }

  /** The laws of `exp` the kernel lemmas rely on. */
  ghost predicate ExpLaws(lib: Lib) {
    ExpPositive(lib) && ExpIncreasing(lib) && lib.exp(0.0) == 1.0
  }

  /** Floating-point division: exact where the divisor is non-zero. */
  function Div(lib: Lib, x: real, y: real): real {
    if y != 0.0 then x / y else lib.divByZero(x)
  }

  lemma DivCancel(x: real, d: real)
    requires d != 0.0
    ensures (x * d) / d == x
  {
  }

  function Abs(x: real): real {
    if x < 0.0 then -x else x
  }

  /** The sum of the first j elements, accumulated left to right as `t += time[i]` does. */
  function Cumulative(s: seq<real>, j: nat): real
    requires j <= |s|
  {
    if j == 0 then 0.0 else Cumulative(s, j - 1) + s[j - 1]
  }

  /** The first j elements of a sequence and of any longer prefix of it have the same cumulative sum. */
  lemma {:induction false} CumulativePrefix(s: seq<real>, m: nat, j: nat)
    requires j <= m <= |s|
    ensures Cumulative(s[..m], j) == Cumulative(s, j)
  {
    if j > 0 {
      CumulativePrefix(s, m, j - 1);
    }
  }

  /** A cumulative sum of non-negative elements never decreases as j grows. */
  lemma {:induction false} CumulativeMonotone(s: seq<real>, i: nat, j: nat)
    requires i <= j <= |s|
    requires forall k :: 0 <= k < |s| ==> s[k] >= 0.0
    ensures Cumulative(s, i) <= Cumulative(s, j)
    decreases j - i
  {
    if i < j {
      CumulativeMonotone(s, i, j - 1);
    }
  }

  /** The first element bounds every non-empty cumulative sum from below. */
  lemma CumulativePositive(s: seq<real>, j: nat)
    requires 1 <= j <= |s|
    requires s[0] > 0.0
    requires forall k :: 0 <= k < |s| ==> s[k] >= 0.0
    ensures Cumulative(s, j) > 0.0
  {
    CumulativeMonotone(s, 1, j);
  }
}
