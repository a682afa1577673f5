/**
 * One EM step for the log-extreme-value-minimum growth model on grouped
 * fault data: the E-step is a single forward pass over the records that
 * carries the previous and current triples (g0, g1, g2) of the distribution
 * at the cumulative time points and accumulates en1, en2, en3 and the
 * log-likelihood; a tail term for the faults still to come follows; the
 * M-step then writes the new (omega, scale, shape) and their changes into
 * the caller's arrays. Parameter layout: para[0] = omega, para[1] = scale,
 * para[2] = shape.
 */
module Em {
  import opened NumLib
  import opened Kernel

  /** The triple (g0, g1, g2) of the distribution at one time point. */
  datatype Triple = Triple(g0: real, g1: real, g2: real)

  /** The triple used as "previous" for the first record, the value at time 0. */
  function Origin(lib: Lib, shape: real, scale: real): Triple {
    Triple(1.0, lib.exp(Div(lib, -scale, shape)), 1.0)
  }

  /** The triple at the time point whose substitution value is y. */
  function TripleAt(lib: Lib, y: real, shape: real, scale: real): Triple {
    var e := lib.exp(-y);
    Triple(e, lib.exp(Div(lib, -scale, shape)) * (1.0 + y) * e, e * (1.0 + y * lib.log(y)))
  }

  /** The time point the E-step stands at: cumulative time, y, previous and current triple. */
  datatype Point = Point(t: real, y: real, prev: Triple, cur: Triple)

  /** The first record's time point, always taken as fresh, with the origin as previous triple. */
  function Start(lib: Lib, t0: real, shape: real, scale: real): Point {
    var y := Y(lib, t0, shape, scale);
    Point(t0, y, Origin(lib, shape, scale), TripleAt(lib, y, shape, scale))
  }

  /** A later record's span: a non-zero span moves to a new time point, a zero span stays. */
  function Advance(lib: Lib, p: Point, span: real, shape: real, scale: real): Point {
    if span != 0.0 then
      var t := p.t + span;
      var y := Y(lib, t, shape, scale);
      Point(t, y, p.cur, TripleAt(lib, y, shape, scale))
    else
      p
  }

  /** The time point after the first j records (spans T). */
  function Points(lib: Lib, T: seq<real>, shape: real, scale: real, j: nat): Point
    requires 1 <= j <= |T|
  {
    if j == 1 then Start(lib, T[0], shape, scale)
    else Advance(lib, Points(lib, T, shape, scale, j - 1), T[j - 1], shape, scale)
  }

  /** The data of one EM call: spans, counts and types of its records. */
  predicate Data(T: seq<real>, X: seq<real>, K: seq<int>) {
    1 <= |T| && |X| == |T| && |K| == |T|
  }

  // What record j - 1 adds to each accumulator, standing at time point p
  // with count x and type typ: a non-zero count adds its interval term, an
  // exact failure time (type 1) adds its point term.

  function Add1(x: real, typ: int): real {
    (if x != 0.0 then x else 0.0) + (if typ == 1 then 1.0 else 0.0)
  }

  function Add2(lib: Lib, p: Point, x: real, typ: int, shape: real): real {
    (if x != 0.0 then Div(lib, x * (p.prev.g1 - p.cur.g1), p.prev.g0 - p.cur.g0) else 0.0)
    + (if typ == 1 then lib.exp(Div(lib, lib.log(p.t), shape)) else 0.0)
  }

  function Add3(lib: Lib, p: Point, x: real, typ: int, shape: real, scale: real): real {
    (if x != 0.0 then Div(lib, x * (p.prev.g2 - p.cur.g2), p.prev.g0 - p.cur.g0) else 0.0)
    + (if typ == 1 then Div(lib, -(lib.log(p.t) + scale), shape) * (1.0 - p.y) else 0.0)
  }

  function AddLlf(lib: Lib, p: Point, x: real, typ: int, shape: real, scale: real): real {
    (if x != 0.0 then x * lib.log(p.prev.g0 - p.cur.g0) - lib.logGamma(x + 1.0) else 0.0)
    + (if typ == 1 then lib.log(Pdf(lib, p.t, shape, scale)) else 0.0)
  }

  /** en1 after the first j records. */
  function En1(X: seq<real>, K: seq<int>, j: nat): real
    requires j <= |X| && |K| == |X|
  {
    if j == 0 then 0.0 else En1(X, K, j - 1) + Add1(X[j - 1], K[j - 1])
  }

  /** en2 after the first j records. */
  function En2(lib: Lib, T: seq<real>, X: seq<real>, K: seq<int>, shape: real, scale: real, j: nat): real
    requires Data(T, X, K) && j <= |T|
  {
    if j == 0 then 0.0
    else En2(lib, T, X, K, shape, scale, j - 1) + Add2(lib, Points(lib, T, shape, scale, j), X[j - 1], K[j - 1], shape)
  }

  /** en3 after the first j records. */
  function En3(lib: Lib, T: seq<real>, X: seq<real>, K: seq<int>, shape: real, scale: real, j: nat): real
    requires Data(T, X, K) && j <= |T|
  {
    if j == 0 then 0.0
    else En3(lib, T, X, K, shape, scale, j - 1) + Add3(lib, Points(lib, T, shape, scale, j), X[j - 1], K[j - 1], shape, scale)
  }

  /** The log-likelihood accumulated over the first j records. */
  function Llf(lib: Lib, T: seq<real>, X: seq<real>, K: seq<int>, shape: real, scale: real, j: nat): real
    requires Data(T, X, K) && j <= |T|
  {
    if j == 0 then 0.0
    else Llf(lib, T, X, K, shape, scale, j - 1) + AddLlf(lib, Points(lib, T, shape, scale, j), X[j - 1], K[j - 1], shape, scale)
  }

  /** The first record is read even when dsize < 1. */
  function Records(dsize: int): nat {
    if dsize < 1 then 1 else dsize
  }

  /** The accumulators en1, en2, en3 and the log-likelihood. */
  datatype Sums = Sums(en1: real, en2: real, en3: real, llf: real)

  /** The accumulators after one more record with count x and type typ, standing at time point p. */
  function Accumulate(lib: Lib, s: Sums, p: Point, x: real, typ: int, shape: real, scale: real): Sums {
    Sums(s.en1 + Add1(x, typ), s.en2 + Add2(lib, p, x, typ, shape),
         s.en3 + Add3(lib, p, x, typ, shape, scale), s.llf + AddLlf(lib, p, x, typ, shape, scale))
  }

  /** The accumulators after the first j records. */
  function SumsAt(lib: Lib, T: seq<real>, X: seq<real>, K: seq<int>, shape: real, scale: real, j: nat): Sums
    requires Data(T, X, K) && j <= |T|
  {
    Sums(En1(X, K, j), En2(lib, T, X, K, shape, scale, j),
         En3(lib, T, X, K, shape, scale, j), Llf(lib, T, X, K, shape, scale, j))
  }

  /** Record j adds its terms, at the time point it stands on, to the accumulators of the first j records. */
  lemma SumsStep(lib: Lib, T: seq<real>, X: seq<real>, K: seq<int>, shape: real, scale: real, j: nat)
    requires Data(T, X, K) && j < |T|
    ensures SumsAt(lib, T, X, K, shape, scale, j + 1)
      == Accumulate(lib, SumsAt(lib, T, X, K, shape, scale, j), Points(lib, T, shape, scale, j + 1),
                    X[j], K[j], shape, scale)
  {
  }

  /** The accumulators after all records of the pass. */
  function PassSums(lib: Lib, T: seq<real>, X: seq<real>, K: seq<int>, shape: real, scale: real): Sums
    requires Data(T, X, K)
  {
    SumsAt(lib, T, X, K, shape, scale, |T|)
  }

  /** The log-likelihood completed by log(omega) per fault seen and the no-more-faults term -omega (1 - g0). */
  function TailLlf(lib: Lib, llf: real, en1: real, omega: real, g0: real): real {
    llf + lib.log(omega) * en1 + -omega * (1.0 - g0)
  }

  /**
   * The tail terms for the faults still to come after the last time point,
   * whose triple is g: en1, en2, en3 gain omega times g, and the
   * log-likelihood its tail terms.
   */
  function Complete(lib: Lib, s: Sums, g: Triple, omega: real): Sums {
    Sums(s.en1 + omega * g.g0, s.en2 + omega * g.g1, s.en3 + omega * g.g2,
         TailLlf(lib, s.llf, s.en1, omega, g.g0))
  }

  /**
   * The expectations of the E-step: en1 is the expected total number of
   * faults and llf the log-likelihood under the current parameters.
   */
  function Expected(lib: Lib, T: seq<real>, X: seq<real>, K: seq<int>, omega: real, shape: real, scale: real): Sums
    requires Data(T, X, K)
  {
    Complete(lib, PassSums(lib, T, X, K, shape, scale), Points(lib, T, shape, scale, |T|).cur, omega)
  }

  /** The parameter vector in the engine's layout. */
  datatype Params = Params(omega: real, scale: real, shape: real)

  /** The closed-form M-step from the expectations. */
  function MStep(lib: Lib, e: Sums, shape: real): Params {
    Params(e.en1, -shape * lib.log(Div(lib, e.en2, e.en1)), Div(lib, shape * e.en3, e.en1))
  }

  /** Number of records whose type is 1 (an exact failure time). */
  function ExactCount(K: seq<int>, j: nat): nat
    requires j <= |K|
  {
    if j == 0 then 0 else ExactCount(K, j - 1) + (if K[j - 1] == 1 then 1 else 0)
  }

  // ---------------------------------------------------------------------
  // The E-step pass and the EM step

  /**
   * The forward pass over the first Records(dsize) records: it returns the
   * final time point and the accumulators, each the function of the data
   * that specifies it.
   */
  method EPass(lib: Lib, dsize: int, time: array<real>, num: array<real>, types: array<int>,
               shape: real, scale: real) returns (p: Point, sums: Sums)
    requires Records(dsize) <= time.Length && Records(dsize) <= num.Length
    requires Records(dsize) <= types.Length
    ensures var m := Records(dsize);
      var T, X, K := time[..m], num[..m], types[..m];
      && p == Points(lib, T, shape, scale, m)
      && sums == PassSums(lib, T, X, K, shape, scale)
  {
    ghost var m := Records(dsize);
    ghost var T, X, K := time[..m], num[..m], types[..m];
    p := Start(lib, time[0], shape, scale);
    var x, typ := num[0], types[0];
    assert p == Points(lib, T, shape, scale, 1) && x == X[0] && typ == K[0];
    sums := Sums(0.0, 0.0, 0.0, 0.0);
    sums := Accumulate(lib, sums, p, x, typ, shape, scale);
    SumsStep(lib, T, X, K, shape, scale, 0);
    var j := 1;
    while j < dsize
      invariant 1 <= j <= m
      invariant p == Points(lib, T, shape, scale, j)
      invariant sums == SumsAt(lib, T, X, K, shape, scale, j)
    {
      x, typ := num[j], types[j];
      assert time[j] == T[j] && x == X[j] && typ == K[j];
      p := Advance(lib, p, time[j], shape, scale);
      assert p == Points(lib, T, shape, scale, j + 1);
      SumsStep(lib, T, X, K, shape, scale, j);
      assert Accumulate(lib, sums, p, x, typ, shape, scale) == SumsAt(lib, T, X, K, shape, scale, j + 1);
      sums := Accumulate(lib, sums, p, x, typ, shape, scale);
      j := j + 1;
    }
  }

  /**
   * One EM step. With a parameter count other than 3 it only zeroes the
   * log-likelihood. Otherwise it overwrites para[0..3] with the new
   * parameters and pdiff[0..3] with new minus old, and returns the
   * log-likelihood under the old parameters and the expected total number
   * of faults. `total0` is the caller's *total on entry.
   */
  method EmStep(lib: Lib, dsize: int, time: array<real>, num: array<real>, types: array<int>,
                npara: int, para: array<real>, pdiff: array<real>, total0: real)
    returns (retllf: real, total: real)
    requires npara == 3 ==>
      && Records(dsize) <= time.Length && Records(dsize) <= num.Length
      && Records(dsize) <= types.Length && para.Length >= 3 && pdiff.Length >= 3
    requires para != pdiff
    modifies para, pdiff
    ensures npara != 3 ==>
      && retllf == 0.0 && total == total0
      && para[..] == old(para[..]) && pdiff[..] == old(pdiff[..])
    ensures npara == 3 ==>
      var m := Records(dsize);
      var T, X, K := old(time[..m]), old(num[..m]), old(types[..m]);
      var omega, shape, scale := old(para[0]), old(para[2]), old(para[1]);
      var e := Expected(lib, T, X, K, omega, shape, scale);
      var next := MStep(lib, e, shape);
      && para[0] == next.omega && para[1] == next.scale && para[2] == next.shape
      && pdiff[0] == para[0] - old(para[0])
      && pdiff[1] == para[1] - old(para[1])
      && pdiff[2] == para[2] - old(para[2])
      && para[3..] == old(para[3..]) && pdiff[3..] == old(pdiff[3..])
      && retllf == e.llf && total == e.en1 && para[0] == total
  {
    if npara != 3 {
      retllf, total := 0.0, total0;
      return;
    }
    var omega, shape, scale := para[0], para[2], para[1];

    // E-step: the pass, then the tail terms
    var p, sums := EPass(lib, dsize, time, num, types, shape, scale);
    var e := Complete(lib, sums, p.cur, omega);
    total := e.en1;

    // M-step
    var next := MStep(lib, e, shape);
    pdiff[0] := next.omega - para[0];
    pdiff[2] := next.shape - para[2];
    pdiff[1] := next.scale - para[1];
    para[0] := next.omega;
    para[2] := next.shape;
    para[1] := next.scale;
    retllf := e.llf;
  }

  // ---------------------------------------------------------------------
  // Properties of the E-step pass

  /**
   * After j records the pass stands at the cumulative time
   * T[0] + ... + T[j-1], and y and the current triple are those of that time.
   */
  lemma {:induction false} PointAtCumulativeTime(lib: Lib, T: seq<real>, shape: real, scale: real, j: nat)
    requires 1 <= j <= |T|
    ensures var p := Points(lib, T, shape, scale, j);
      && p.t == Cumulative(T, j)
      && p.y == Y(lib, p.t, shape, scale)
      && p.cur == TripleAt(lib, p.y, shape, scale)
  {
    if j > 1 {
      PointAtCumulativeTime(lib, T, shape, scale, j - 1);
    }
  }

  /** The last record before record j (in 1 .. j-1) with a non-zero span, or 0 if there is none. */
  function LastStep(T: seq<real>, j: nat): (r: nat)
    requires 1 <= j <= |T|
    ensures r < j && (r > 0 ==> T[r] != 0.0)
    ensures forall i :: r < i < j ==> T[i] == 0.0
  {
    if j == 1 then 0 else if T[j - 1] != 0.0 then j - 1 else LastStep(T, j - 1)
  }

  /**
   * The previous triple after j records is the triple at the previous
   * distinct time point: the cumulative time before the last record with a
   * non-zero span, or the origin when no later record moved the time.
   */
  lemma {:induction false} PointPrevious(lib: Lib, T: seq<real>, shape: real, scale: real, j: nat)
    requires 1 <= j <= |T|
    ensures var m := LastStep(T, j);
      Points(lib, T, shape, scale, j).prev
        == if m == 0 then Origin(lib, shape, scale)
           else TripleAt(lib, Y(lib, Cumulative(T, m), shape, scale), shape, scale)
  {
    if j > 1 {
      if T[j - 1] != 0.0 {
        PointAtCumulativeTime(lib, T, shape, scale, j - 1);
      } else {
        PointPrevious(lib, T, shape, scale, j - 1);
      }
    }
  }

  /**
   * Record j (j >= 1) with a zero span keeps the time point and both
   * triples; with a non-zero span the old current triple becomes the
   * previous one and the current one is recomputed at the advanced time.
   */
  lemma ZeroSpanReusesTriples(lib: Lib, T: seq<real>, shape: real, scale: real, j: nat)
    requires 1 <= j < |T|
    ensures var before, after := Points(lib, T, shape, scale, j), Points(lib, T, shape, scale, j + 1);
      if T[j] == 0.0 then
        after == before
      else
        && after.t == before.t + T[j]
        && after.prev == before.cur
        && after.cur == TripleAt(lib, Y(lib, after.t, shape, scale), shape, scale)
  {
  }

  /** en1 after j records is exactly the faults counted plus the exact failure times seen. */
  lemma {:induction false} En1Counts(X: seq<real>, K: seq<int>, j: nat)
    requires j <= |X| && |K| == |X|
    ensures En1(X, K, j) == Cumulative(X, j) + (ExactCount(K, j) as real)
  {
    if j > 0 {
      En1Counts(X, K, j - 1);
    }
  }

  /** After the last record the current triple is the triple at the total time. */
  lemma FinalTriple(lib: Lib, T: seq<real>, shape: real, scale: real)
    requires 1 <= |T|
    ensures Points(lib, T, shape, scale, |T|).cur
         == TripleAt(lib, Y(lib, Cumulative(T, |T|), shape, scale), shape, scale)
  {
    PointAtCumulativeTime(lib, T, shape, scale, |T|);
  }

  /** The expected total is the pass's en1 plus omega times g0 of the last current triple g. */
  lemma ExpectedEn1(lib: Lib, T: seq<real>, X: seq<real>, K: seq<int>, omega: real, shape: real, scale: real,
                    g: Triple)
    requires Data(T, X, K) && g == Points(lib, T, shape, scale, |T|).cur
    ensures Expected(lib, T, X, K, omega, shape, scale).en1 == En1(X, K, |T|) + omega * g.g0
  {
    var sums := PassSums(lib, T, X, K, shape, scale);
    assert sums.en1 == En1(X, K, |T|);
    assert Expected(lib, T, X, K, omega, shape, scale) == Complete(lib, sums, g, omega);
  }

  /** The log-likelihood is the pass's plus the tail terms with the last current triple g. */
  lemma ExpectedLlf(lib: Lib, T: seq<real>, X: seq<real>, K: seq<int>, omega: real, shape: real, scale: real,
                    g: Triple)
    requires Data(T, X, K) && g == Points(lib, T, shape, scale, |T|).cur
    ensures var n := |T|;
      Expected(lib, T, X, K, omega, shape, scale).llf
        == TailLlf(lib, Llf(lib, T, X, K, shape, scale, n), En1(X, K, n), omega, g.g0)
  {
    var sums := PassSums(lib, T, X, K, shape, scale);
    assert sums.en1 == En1(X, K, |T|) && sums.llf == Llf(lib, T, X, K, shape, scale, |T|);
    assert Expected(lib, T, X, K, omega, shape, scale) == Complete(lib, sums, g, omega);
  }

  /**
   * The expected total number of faults returned by the EM step: every
   * fault counted, plus every exact failure time, plus omega times g0 of
   * the triple g at the total time. The EM step also writes it as the new
   * omega.
   */
  lemma EmTotal(lib: Lib, T: seq<real>, X: seq<real>, K: seq<int>, omega: real, shape: real, scale: real,
                g: Triple)
    requires Data(T, X, K)
    requires g == TripleAt(lib, Y(lib, Cumulative(T, |T|), shape, scale), shape, scale)
    ensures Expected(lib, T, X, K, omega, shape, scale).en1
         == Cumulative(X, |X|) + (ExactCount(K, |K|) as real) + omega * g.g0
  {
    FinalTriple(lib, T, shape, scale);
    ExpectedEn1(lib, T, X, K, omega, shape, scale, g);
    En1Counts(X, K, |X|);
  }

  /** With no count and no exact time among the first j records, the pass counts no fault, adds nothing to en2 or en3 and no likelihood. */
  lemma {:induction false} PassQuiet(lib: Lib, T: seq<real>, X: seq<real>, K: seq<int>,
                                     shape: real, scale: real, j: nat)
    requires Data(T, X, K) && j <= |T|
    requires forall i :: 0 <= i < |T| ==> X[i] == 0.0 && K[i] != 1
    ensures En1(X, K, j) == 0.0 && Llf(lib, T, X, K, shape, scale, j) == 0.0
    ensures En2(lib, T, X, K, shape, scale, j) == 0.0 && En3(lib, T, X, K, shape, scale, j) == 0.0
  {
    if j > 0 {
      PassQuiet(lib, T, X, K, shape, scale, j - 1);
    }
  }

  /** Data without any observed fault: the expected total is omega * g0 at the total time. */
  lemma NoObservationsTotal(lib: Lib, T: seq<real>, X: seq<real>, K: seq<int>,
                            omega: real, shape: real, scale: real, g: Triple)
    requires Data(T, X, K)
    requires forall i :: 0 <= i < |T| ==> X[i] == 0.0 && K[i] != 1
    requires g == TripleAt(lib, Y(lib, Cumulative(T, |T|), shape, scale), shape, scale)
    ensures Expected(lib, T, X, K, omega, shape, scale).en1 == omega * g.g0
  {
    PassQuiet(lib, T, X, K, shape, scale, |T|);
    FinalTriple(lib, T, shape, scale);
    ExpectedEn1(lib, T, X, K, omega, shape, scale, g);
  }

  /** A pass that counts no fault and no likelihood leaves only the no-more-faults term -omega (1 - g0). */
  lemma QuietLikelihood(lib: Lib, T: seq<real>, X: seq<real>, K: seq<int>, omega: real, shape: real, scale: real,
                        g: Triple)
    requires Data(T, X, K) && g == Points(lib, T, shape, scale, |T|).cur
    requires En1(X, K, |T|) == 0.0 && Llf(lib, T, X, K, shape, scale, |T|) == 0.0
    ensures Expected(lib, T, X, K, omega, shape, scale).llf == -omega * (1.0 - g.g0)
  {
    ExpectedLlf(lib, T, X, K, omega, shape, scale, g);
    assert TailLlf(lib, 0.0, 0.0, omega, g.g0) == -omega * (1.0 - g.g0);
  }

  /**
   * Data without any observed fault: the log-likelihood is -omega * (1 - g0),
   * the log-probability of seeing no fault by the total time.
   */
  lemma NoObservationsLikelihood(lib: Lib, T: seq<real>, X: seq<real>, K: seq<int>,
                                 omega: real, shape: real, scale: real, g: Triple)
    requires Data(T, X, K)
    requires forall i :: 0 <= i < |T| ==> X[i] == 0.0 && K[i] != 1
    requires g == TripleAt(lib, Y(lib, Cumulative(T, |T|), shape, scale), shape, scale)
    ensures Expected(lib, T, X, K, omega, shape, scale).llf == -omega * (1.0 - g.g0)
  {
    PassQuiet(lib, T, X, K, shape, scale, |T|);
    FinalTriple(lib, T, shape, scale);
    QuietLikelihood(lib, T, X, K, omega, shape, scale, g);
  }
}
