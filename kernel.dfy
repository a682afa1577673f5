/**
 * The distribution kernel of the log-extreme-value-minimum law: density,
 * distribution function, mean value function, the parameter-vector form of
 * the distribution function handed to the root-finder, the inverse of the
 * mean value function, and the conditional-reliability integrand of the
 * MTTF estimate. Every quantity is an exact real; `exp`, `log` and the
 * root-finder come from `NumLib.Lib`.
 */
module Kernel {
  import opened NumLib

  /** The substitution y = exp((log t + scale) / shape) shared by the kernel. */
  function Y(lib: Lib, t: real, shape: real, scale: real): real {
    lib.exp(Div(lib, lib.log(t) + scale, shape))
  }

  /** Density: y exp(-y) / shape / t. */
  function Pdf(lib: Lib, t: real, shape: real, scale: real): real {
    var y := Y(lib, t, shape, scale);
    Div(lib, Div(lib, y * lib.exp(-y), shape), t)
  }

  /** Distribution function: 1 - exp(-y). */
  function Cdf(lib: Lib, t: real, shape: real, scale: real): real {
    1.0 - lib.exp(-Y(lib, t, shape, scale))
  }

  /** Mean value function: the expected number of faults by time t. */
  function Mvf(lib: Lib, t: real, omega: real, shape: real, scale: real): real {
    omega * Cdf(lib, t, shape, scale)
  }

  /**
   * The distribution function read from a parameter vector, as handed to the
   * root-finder. It takes para[1] as the shape and para[2] as the scale,
   * the reverse of the layout every other routine of the engine uses.
   */
  function CdfV(lib: Lib, t: real, npara: int, para: seq<real>): real
    requires |para| >= 3
  {
    Cdf(lib, t, para[1], para[2])
  }

  function CdfVOf(lib: Lib, npara: int, para: seq<real>): real -> real
    requires |para| >= 3
  {
    t => CdfV(lib, t, npara, para)
  }

  /** The time at which the mean value function reaches `value`: the root of CdfV = value / para[0]. */
  function InverseMvf(lib: Lib, value: real, npara: int, para: seq<real>): real
    requires |para| >= 3
  {
    lib.findQuantile(Div(lib, value, para[0]), CdfVOf(lib, npara, para))
  }

  /** Normalised conditional reliability at offset x past time s. */
  function Creli(lib: Lib, x: real, s: real, omega: real, shape: real, scale: real,
                 sval: real, ffp: real): real
  {
    var tmp := Mvf(lib, x + s, omega, shape, scale) - sval;
    Div(lib, lib.exp(-tmp) - ffp, 1.0 - ffp)
  }

  function CreliOf(lib: Lib, s: real, omega: real, shape: real, scale: real,
                   sval: real, ffp: real): real -> real
  {
    x => Creli(lib, x, s, omega, shape, scale, sval, ffp)
  }

  /** The root-finder solved the query that InverseMvf puts to it exactly. */
  ghost predicate QuantileExact(lib: Lib, value: real, npara: int, para: seq<real>)
    requires |para| >= 3
  {
    CdfV(lib, InverseMvf(lib, value, npara, para), npara, para) == Div(lib, value, para[0])
  }

  // ---------------------------------------------------------------------
  // Properties of the kernel

  lemma YPositive(lib: Lib, t: real, shape: real, scale: real)
    requires ExpPositive(lib)
    ensures Y(lib, t, shape, scale) > 0.0
  {
  }

  /** The distribution function lies strictly between 0 and 1. */
  lemma CdfBounds(lib: Lib, t: real, shape: real, scale: real)
    requires ExpLaws(lib)
    ensures 0.0 < Cdf(lib, t, shape, scale) < 1.0
  {
    var y := Y(lib, t, shape, scale);
    YPositive(lib, t, shape, scale);
    assert lib.exp(-y) < lib.exp(0.0);
    assert lib.exp(-y) > 0.0;
  }

  /** y grows strictly with t when the shape is positive. */
  lemma YIncreasing(lib: Lib, t1: real, t2: real, shape: real, scale: real)
    requires ExpIncreasing(lib) && LogIncreasing(lib)
    requires 0.0 < t1 < t2 && shape > 0.0
    ensures Y(lib, t1, shape, scale) < Y(lib, t2, shape, scale)
  {
    var u1, u2 := lib.log(t1) + scale, lib.log(t2) + scale;
    assert u1 < u2;
    assert u1 / shape < u2 / shape by {
      assert u2 / shape - u1 / shape == (u2 - u1) / shape;
    }
  }

  /** The distribution function is strictly increasing in t. */
  lemma CdfIncreasing(lib: Lib, t1: real, t2: real, shape: real, scale: real)
    requires ExpIncreasing(lib) && LogIncreasing(lib)
    requires 0.0 < t1 < t2 && shape > 0.0
    ensures Cdf(lib, t1, shape, scale) < Cdf(lib, t2, shape, scale)
  {
    YIncreasing(lib, t1, t2, shape, scale);
    var y1, y2 := Y(lib, t1, shape, scale), Y(lib, t2, shape, scale);
    assert -y2 < -y1;
    assert lib.exp(-y2) < lib.exp(-y1);
  }

  /** With omega > 0 the mean value function inherits the strict ordering. */
  lemma MvfIncreasing(lib: Lib, t1: real, t2: real, omega: real, shape: real, scale: real)
    requires ExpIncreasing(lib) && LogIncreasing(lib)
    requires 0.0 < t1 < t2 && shape > 0.0 && omega > 0.0
    ensures Mvf(lib, t1, omega, shape, scale) < Mvf(lib, t2, omega, shape, scale)
  {
    CdfIncreasing(lib, t1, t2, shape, scale);
    var c1, c2 := Cdf(lib, t1, shape, scale), Cdf(lib, t2, shape, scale);
    assert omega * c2 - omega * c1 == omega * (c2 - c1);
  }

  /** The non-strict form, for time points that may coincide. */
  lemma MvfNondecreasing(lib: Lib, t1: real, t2: real, omega: real, shape: real, scale: real)
    requires ExpIncreasing(lib) && LogIncreasing(lib)
    requires 0.0 < t1 <= t2 && shape > 0.0 && omega >= 0.0
    ensures Mvf(lib, t1, omega, shape, scale) <= Mvf(lib, t2, omega, shape, scale)
  {
    if t1 < t2 {
      CdfIncreasing(lib, t1, t2, shape, scale);
      var c1, c2 := Cdf(lib, t1, shape, scale), Cdf(lib, t2, shape, scale);
      assert omega * c2 - omega * c1 == omega * (c2 - c1);
    }
  }

  /** The density is positive at every positive time. */
  lemma PdfPositive(lib: Lib, t: real, shape: real, scale: real)
    requires ExpPositive(lib)
    requires t > 0.0 && shape > 0.0
    ensures Pdf(lib, t, shape, scale) > 0.0
  {
    var y := Y(lib, t, shape, scale);
    YPositive(lib, t, shape, scale);
    var e := lib.exp(-y);
    assert y * e > 0.0;
    assert (y * e) / shape > 0.0;
  }

  /**
   * Round trip of the inverse: when the root-finder answers its query
   * exactly, the mean value function at the returned time is `value` --
   * in the layout CdfV reads (shape = para[1], scale = para[2]).
   */
  lemma InverseMvfRoundTrip(lib: Lib, value: real, npara: int, para: seq<real>)
    requires |para| >= 3 && para[0] != 0.0
    requires QuantileExact(lib, value, npara, para)
    ensures Mvf(lib, InverseMvf(lib, value, npara, para), para[0], para[1], para[2]) == value
  {
    var time := InverseMvf(lib, value, npara, para);
    assert Cdf(lib, time, para[1], para[2]) == value / para[0];
  }

  /** The integrand starts at 1: no reliability is lost at offset 0. */
  lemma CreliAtZero(lib: Lib, s: real, omega: real, shape: real, scale: real, ffp: real)
    requires lib.exp(0.0) == 1.0 && ffp != 1.0
    ensures Creli(lib, 0.0, s, omega, shape, scale, Mvf(lib, s, omega, shape, scale), ffp) == 1.0
  {
    assert 0.0 + s == s;
    var sval := Mvf(lib, s, omega, shape, scale);
    assert Mvf(lib, 0.0 + s, omega, shape, scale) - sval == 0.0;
    var tmp := Mvf(lib, 0.0 + s, omega, shape, scale) - sval;
    assert lib.exp(-tmp) == 1.0;
    var d := 1.0 - ffp;
    assert d != 0.0;
    assert d / d == 1.0;
  }
}
