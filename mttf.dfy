/**
 * The MTTF estimator: the integral of the conditional-reliability integrand
 * over [0, b], where b is found by inverting the mean value function, by
 * trapezoid refinement that doubles the number of subintervals each round
 * and evaluates the integrand only at the new (odd-indexed) points. The
 * round limit and the relative tolerance, compile-time constants of the
 * engine, are the parameters `maxIte` and `eps`.
 */
module Mttf {
  import opened NumLib
  import opened Kernel

  function Pow2(k: nat): (r: nat)
    ensures r >= 1
  {
    if k == 0 then 1 else 2 * Pow2(k - 1)
  }

  /** The integrand at grid point i of the grid of step h from a. */
  function Node(f: real -> real, a: real, h: real, i: nat): real {
    f(a + (i as real) * h)
  }

  /** The integrand summed over the grid points i = 1 .. m. */
  function InnerSum(f: real -> real, a: real, h: real, m: nat): real {
    if m == 0 then 0.0 else InnerSum(f, a, h, m - 1) + Node(f, a, h, m)
  }

  /** The integrand summed over the odd grid points i = 1, 3, .., 2m - 1. */
  function OddSum(f: real -> real, a: real, h: real, m: nat): real {
    if m == 0 then 0.0 else OddSum(f, a, h, m - 1) + Node(f, a, h, 2 * m - 1)
  }

  /** The mean of the integrand at the two ends. */
  function Ends(f: real -> real, a: real, b: real): real {
    (f(a) + f(b)) / 2.0
  }

  /** The composite trapezoid rule for f over [a, b] with n equal subintervals. */
  function Trapezoid(f: real -> real, a: real, b: real, n: nat): real
    requires n >= 1
  {
    var h := (b - a) / (n as real);
    h * (Ends(f, a, b) + InnerSum(f, a, h, n - 1))
  }

  /** The estimate after k refinement rounds: 2^k subintervals. */
  function Estimate(f: real -> real, a: real, b: real, k: nat): real {
    Trapezoid(f, a, b, Pow2(k))
  }

  /** The early-exit test: relative change below eps. */
  predicate Converged(tn: real, t: real, eps: real) {
    Abs(tn - t) < eps * Abs(t)
  }

  predicate StopsAt(f: real -> real, a: real, b: real, eps: real, k: nat)
    requires k >= 1
  {
    Converged(Estimate(f, a, b, k), Estimate(f, a, b, k - 1), eps)
  }

  /**
   * The round at which the refinement stops, searching from round k: the
   * first round whose test fires, or maxIte if none does.
   */
  function StopRound(f: real -> real, a: real, b: real, eps: real, maxIte: nat, k: nat): (r: nat)
    requires 1 <= k <= maxIte
    ensures k <= r <= maxIte
    ensures r < maxIte ==> StopsAt(f, a, b, eps, r)
    ensures forall j :: k <= j < r ==> !StopsAt(f, a, b, eps, j)
    decreases maxIte - k
  {
    if k == maxIte || StopsAt(f, a, b, eps, k) then k else StopRound(f, a, b, eps, maxIte, k + 1)
  }

  /** A round k with no earlier firing test, and whose own test fires or that is the last, is the stopping round. */
  lemma StopRoundIs(f: real -> real, a: real, b: real, eps: real, maxIte: nat, k: nat)
    requires 1 <= k <= maxIte
    requires forall j :: 1 <= j < k ==> !StopsAt(f, a, b, eps, j)
    requires k == maxIte || StopsAt(f, a, b, eps, k)
    ensures StopRound(f, a, b, eps, maxIte, 1) == k
  {
  }

  /** Grid point i of the grid of step 2*hh is grid point 2i of the grid of step hh. */
  lemma NodeDouble(f: real -> real, a: real, h: real, hh: real, i: nat)
    requires h == 2.0 * hh
    ensures Node(f, a, h, i) == Node(f, a, hh, 2 * i)
  {
    assert (i as real) * h == ((2 * i) as real) * hh;
  }

  /**
   * The inner points of a grid of step hh with 2n subintervals split into the
   * inner points of the grid of step h = 2*hh and the odd-indexed new points.
   */
  lemma {:induction false} InnerSumSplit(f: real -> real, a: real, h: real, hh: real, n: nat)
    requires n >= 1 && h == 2.0 * hh
    ensures InnerSum(f, a, hh, 2 * n - 1) == InnerSum(f, a, h, n - 1) + OddSum(f, a, hh, n)
  {
    if n > 1 {
      InnerSumSplit(f, a, h, hh, n - 1);
      var m: nat := n - 1;
      var k: nat := 2 * m;
      assert InnerSum(f, a, hh, k + 1) == InnerSum(f, a, hh, k) + Node(f, a, hh, k + 1);
      assert InnerSum(f, a, hh, k) == InnerSum(f, a, hh, k - 1) + Node(f, a, hh, k);
      NodeDouble(f, a, h, hh, m);
      assert InnerSum(f, a, h, m) == InnerSum(f, a, h, m - 1) + Node(f, a, h, m);
    }
  }

  /**
   * One doubling round is exact: half the previous estimate plus the new
   * step times the sum at the new odd points is the trapezoid rule with
   * twice as many subintervals.
   */
  lemma RefineStep(f: real -> real, a: real, b: real, n: nat)
    requires n >= 1
    ensures var hh := (b - a) / ((2 * n) as real);
      Trapezoid(f, a, b, 2 * n) == Trapezoid(f, a, b, n) / 2.0 + hh * OddSum(f, a, hh, n)
  {
    var h := (b - a) / (n as real);
    var hh := (b - a) / ((2 * n) as real);
    assert h == 2.0 * hh;
    InnerSumSplit(f, a, h, hh, n);
    var e, inner, odd := Ends(f, a, b), InnerSum(f, a, h, n - 1), OddSum(f, a, hh, n);
    assert Trapezoid(f, a, b, 2 * n) == hh * (e + (inner + odd));
    assert Trapezoid(f, a, b, n) == h * (e + inner);
    assert h * (e + inner) == 2.0 * (hh * (e + inner));
    assert hh * (e + (inner + odd)) == hh * (e + inner) + hh * odd;
  }

  /**
   * Round k of the refinement: from the estimate of round k - 1, the new step
   * h = (b - a) / 2^k (twice the n = 2^(k-1) of the previous round) and the sum s at the new points, t/2 + h*s is the
   * estimate of round k.
   */
  lemma RoundEstimate(f: real -> real, a: real, b: real, k: nat, n: nat, t: real, h: real, s: real)
    requires k >= 1 && n == Pow2(k - 1)
    requires t == Estimate(f, a, b, k - 1)
    requires h == (b - a) / ((2 * n) as real)
    requires s == OddSum(f, a, h, n)
    ensures t / 2.0 + h * s == Estimate(f, a, b, k)
  {
    assert Pow2(k) == 2 * n;
    RefineStep(f, a, b, n);
  }

  /**
   * The inner loop of a refinement round: the integrand summed over the
   * points a + i*h of the finer grid with odd i in [1, n - 1], which are
   * exactly the points the coarser grid lacks.
   */
  method NewPointSum(f: real -> real, a: real, h: real, n: nat) returns (s: real)
    requires n % 2 == 0
    ensures s == OddSum(f, a, h, n / 2)
  {
    s := 0.0;
    var i := 1;
    while i <= n - 1
      invariant 1 <= i <= n + 1 && i % 2 == 1
      invariant s == OddSum(f, a, h, (i - 1) / 2)
    {
      s := s + Node(f, a, h, i);
      i := i + 2;
    }
  }

  // ---------------------------------------------------------------------
  // The integration set-up: expected faults by the current time, the
  // probability of no further fault ever, the upper bound, the integrand.

  function StartMean(lib: Lib, stime: real, para: seq<real>): real
    requires |para| >= 3
  {
    Mvf(lib, stime, para[0], para[2], para[1])
  }

  function NoMoreFaults(lib: Lib, stime: real, para: seq<real>): real
    requires |para| >= 3
  {
    lib.exp(-(para[0] - StartMean(lib, stime, para)))
  }

  /** The unconditional reliability at which the integration ends: r of the way from no-more-faults to 1. */
  function ReliabilityLevel(lib: Lib, stime: real, r: real, para: seq<real>): real
    requires |para| >= 3
  {
    r + (1.0 - r) * NoMoreFaults(lib, stime, para)
  }

  /** The expected-fault level whose inverse ends the integration. */
  function TargetLevel(lib: Lib, stime: real, r: real, para: seq<real>): real
    requires |para| >= 3
  {
    StartMean(lib, stime, para) - lib.log(ReliabilityLevel(lib, stime, r, para))
  }

  function UpperBound(lib: Lib, stime: real, r: real, npara: int, para: seq<real>): real
    requires |para| >= 3
  {
    InverseMvf(lib, TargetLevel(lib, stime, r, para), npara, para) - stime
  }

  function Integrand(lib: Lib, stime: real, para: seq<real>): real -> real
    requires |para| >= 3
  {
    CreliOf(lib, stime, para[0], para[2], para[1], StartMean(lib, stime, para), NoMoreFaults(lib, stime, para))
  }

  /** The integrand at offset x past s only depends on the absolute time u = x + s. */
  lemma CreliShifted(lib: Lib, x: real, s: real, u: real, omega: real, shape: real, scale: real,
                     sval: real, ffp: real)
    requires x + s == u
    ensures Creli(lib, x, s, omega, shape, scale, sval, ffp)
         == Div(lib, lib.exp(-(Mvf(lib, u, omega, shape, scale) - sval)) - ffp, 1.0 - ffp)
  {
  }

  /**
   * The integration ends where the conditional reliability has fallen to r:
   * with an exact root-finder, the integrand at the upper bound is r. This
   * needs para[1] == para[2], because the root-finder reads the parameter
   * vector with shape and scale swapped.
   */
  lemma IntegrandAtUpperBound(lib: Lib, stime: real, r: real, npara: int, para: seq<real>)
    requires |para| >= 3 && para[0] != 0.0 && para[1] == para[2]
    requires ExpPositive(lib) && ExpInvertsLog(lib)
    requires 0.0 <= r <= 1.0 && NoMoreFaults(lib, stime, para) != 1.0
    requires QuantileExact(lib, TargetLevel(lib, stime, r, para), npara, para)
    ensures Integrand(lib, stime, para)(UpperBound(lib, stime, r, npara, para)) == r
  {
    var sval, ffp := StartMean(lib, stime, para), NoMoreFaults(lib, stime, para);
    var rev := TargetLevel(lib, stime, r, para);
    var x := InverseMvf(lib, rev, npara, para);
    var b := UpperBound(lib, stime, r, npara, para);
    InverseMvfRoundTrip(lib, rev, npara, para);
    assert b + stime == x;
    var z := ReliabilityLevel(lib, stime, r, para);
    assert ffp > 0.0;
    assert z == r + (1.0 - r) * ffp;
    assert z > 0.0 by {
      if r < 1.0 {
        assert (1.0 - r) * ffp > 0.0;
      }
    }
    CreliShifted(lib, b, stime, x, para[0], para[2], para[1], sval, ffp);
    assert Mvf(lib, x, para[0], para[2], para[1]) == rev;
    assert rev == sval - lib.log(z);
    var tmp := Mvf(lib, x, para[0], para[2], para[1]) - sval;
    assert tmp == -lib.log(z);
    assert lib.exp(-tmp) == z;
    var d := 1.0 - ffp;
    assert d != 0.0;
    assert z - ffp == r * d;
    assert Integrand(lib, stime, para)(b) == Div(lib, z - ffp, d);
    DivCancel(r, d);
  }

  /**
   * One refinement round k: doubles n, halves h and adds the integrand at
   * the new odd-indexed points to half the previous estimate, giving the
   * estimate of round k.
   */
  method RefineRound(f: real -> real, a: real, b: real, k: nat, n: nat, h: real, t: real)
    returns (n': nat, h': real, tn: real)
    requires k >= 1 && n == Pow2(k - 1) && h == (b - a) / (n as real)
    requires t == Estimate(f, a, b, k - 1)
    ensures n' == Pow2(k) && h' == (b - a) / (n' as real)
    ensures tn == Estimate(f, a, b, k)
  {
    n' := 2 * n;
    h' := h / 2.0;
    assert h' == (b - a) / (n' as real);
    var s := NewPointSum(f, a, h', n');
    assert n' / 2 == n;
    tn := t / 2.0 + h' * s;
    RoundEstimate(f, a, b, k, n, t, h', s);
  }

  /**
   * The refinement loop: starting from the one-interval trapezoid, each round
   * doubles n, halves h and adds the new odd-indexed points; it returns the
   * estimate of the round whose relative-change test fires first, or of
   * round maxIte. That estimate is the composite trapezoid rule with 2^k
   * subintervals for that round k.
   */
  method Integrate(f: real -> real, a: real, b: real, maxIte: nat, eps: real) returns (tn: real)
    requires maxIte >= 1
    ensures tn == Estimate(f, a, b, StopRound(f, a, b, eps, maxIte, 1))
  {
    var n: nat := 1;
    var h := b - a;
    var t := h * (f(a) + f(b)) / 2.0;
    assert t == Estimate(f, a, b, 0);
    tn := t;
    var k := 1;
    while k <= maxIte
      invariant 1 <= k <= maxIte + 1
      invariant n == Pow2(k - 1) && h == (b - a) / (n as real)
      invariant t == Estimate(f, a, b, k - 1)
      invariant k > 1 ==> tn == t
      invariant forall j :: 1 <= j < k ==> !StopsAt(f, a, b, eps, j)
    {
      n, h, tn := RefineRound(f, a, b, k, n, h, t);
      if Converged(tn, t, eps) {
        StopRoundIs(f, a, b, eps, maxIte, k);
        return;
      }
      t := tn;
      k := k + 1;
    }
    StopRoundIs(f, a, b, eps, maxIte, maxIte);
  }

  /**
   * The MTTF estimate: 0 when the parameter count is not 3; otherwise the
   * composite trapezoid rule for the integrand over [0, b] with 2^k
   * subintervals, k the round at which the refinement stops.
   */
  method Mttf(lib: Lib, stime: real, r: real, npara: int, para: seq<real>, maxIte: nat, eps: real)
    returns (ss: real)
    requires npara == 3 ==> |para| >= 3
    requires maxIte >= 1
    ensures npara != 3 ==> ss == 0.0
    ensures npara == 3 ==>
      var f, b := Integrand(lib, stime, para), UpperBound(lib, stime, r, npara, para);
      ss == Estimate(f, 0.0, b, StopRound(f, 0.0, b, eps, maxIte, 1))
  {
    if npara != 3 {
      ss := 0.0;
      return;
    }
    var omega, shape, scale := para[0], para[2], para[1];
    var sval := StartMean(lib, stime, para);
    var ffp := NoMoreFaults(lib, stime, para);
    var rev := TargetLevel(lib, stime, r, para);
    var b := InverseMvf(lib, rev, npara, para);
    b := b - stime;
    var f := CreliOf(lib, stime, omega, shape, scale, sval, ffp);
    assert f == Integrand(lib, stime, para);
    assert b == UpperBound(lib, stime, r, npara, para);
    ss := Integrate(f, 0.0, b, maxIte, eps);
  }
}
