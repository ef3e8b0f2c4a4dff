// What the numbers reported for a link mean: every coefficient of the reconstructed state is the
// mean of a product of outcomes, the state gives these means back, and every error rate tells its
// own pattern of outcomes.
module Reconstruction {
  import opened Tomography

  // ---- means of outcomes -------------------------------------------------------------------------

  predicate InBases(r: Record, mine: char, theirs: char) {
    r.myBasis == mine && r.partnerBasis == theirs
  }

  /** The outcomes as +1 and -1, multiplied; an outcome that does not take part is +1. */
  function Sign(r: Record, useMine: bool, useTheirs: bool): int {
    (if useMine && !r.myPlus then -1 else 1) * (if useTheirs && !r.partnerPlus then -1 else 1)
  }

  function SignSum(rs: seq<Record>, mine: char, theirs: char, useMine: bool, useTheirs: bool): int {
    if rs == [] then 0
    else SignSum(rs[1..], mine, theirs, useMine, useTheirs) + if InBases(rs[0], mine, theirs) then Sign(rs[0], useMine, useTheirs) else 0
  }

  function Trials(rs: seq<Record>, mine: char, theirs: char): nat {
    if rs == [] then 0 else Trials(rs[1..], mine, theirs) + if InBases(rs[0], mine, theirs) then 1 else 0
  }

  /** The mean product of the outcomes measured in these two bases. */
  function Mean(rs: seq<Record>, mine: char, theirs: char, useMine: bool, useTheirs: bool): real
    requires Trials(rs, mine, theirs) > 0
  {
    SignSum(rs, mine, theirs, useMine, useTheirs) as real / Trials(rs, mine, theirs) as real
  }

  lemma {:induction false} SumSnoc(rs: seq<Record>, r: Record, m: char, t: char, u: bool, v: bool)
    ensures SignSum(rs + [r], m, t, u, v) == SignSum(rs, m, t, u, v) + if InBases(r, m, t) then Sign(r, u, v) else 0
    ensures Trials(rs + [r], m, t) == Trials(rs, m, t) + if InBases(r, m, t) then 1 else 0
  {
    if rs == [] {
      assert (rs + [r])[1..] == [];
    } else {
      assert (rs + [r])[1..] == rs[1..] + [r];
      SumSnoc(rs[1..], r, m, t, u, v);
    }
  }

  /** The four counters of a combination give the sums. */
  lemma {:induction false} TallyGives(rs: seq<Record>, m: char, t: char)
    ensures var y := TallyOf(rs, [m, t]);
            && y.total == Trials(rs, m, t)
            && SignSum(rs, m, t, false, false) == y.plusPlus + y.plusMinus + y.minusPlus + y.minusMinus
            && SignSum(rs, m, t, false, true) == y.plusPlus - y.plusMinus + y.minusPlus - y.minusMinus
            && SignSum(rs, m, t, true, false) == y.plusPlus + y.plusMinus - y.minusPlus - y.minusMinus
            && SignSum(rs, m, t, true, true) == y.plusPlus - y.plusMinus - y.minusPlus + y.minusMinus
  {
    if rs != [] {
      var front, last := rs[..|rs| - 1], rs[|rs| - 1];
      assert rs == front + [last];
      TallyGives(front, m, t);
      SumSnoc(front, last, m, t, false, false);
      SumSnoc(front, last, m, t, false, true);
      SumSnoc(front, last, m, t, true, false);
      SumSnoc(front, last, m, t, true, true);
      assert Combination(last) == [m, t] <==> InBases(last, m, t) by { Bases(last, m, t); }
      hide SignSum, Trials, Combination;
    }
  }

  lemma Bases(r: Record, m: char, t: char)
    ensures Combination(r) == [m, t] <==> InBases(r, m, t)
  {
    var c := Combination(r);
    assert c[0] == r.myBasis && c[1] == r.partnerBasis && |c| == 2;
  }

  lemma SignedIsSum(t: Tally, pm: real, mp: real, mm: real)
    requires t.total > 0
    ensures Signed(t, pm, mp, mm)
         == (t.plusPlus as real + pm * t.plusMinus as real + mp * t.minusPlus as real + mm * t.minusMinus as real) / t.total as real
  {
    var n, a, b, c, d := t.total as real, t.plusPlus as real, t.plusMinus as real, t.minusPlus as real, t.minusMinus as real;
    Scaled(pm, b, n);
    Scaled(mp, c, n);
    Scaled(mm, d, n);
    Summed(a, pm * b, mp * c, mm * d, n);
    assert Signed(t, pm, mp, mm) == a / n + pm * (b / n) + mp * (c / n) + mm * (d / n);
  }

  lemma Scaled(k: real, a: real, n: real)
    requires n > 0.0
    ensures k * (a / n) == (k * a) / n
  {
    var q := a / n;
    assert q * n == a;
    assert k * q * n == k * a;
  }

  lemma Summed(a: real, b: real, c: real, d: real, n: real)
    requires n > 0.0
    ensures a / n + b / n + c / n + d / n == (a + b + c + d) / n
  {
  }

  /** The signed frequencies of a combination are sums of whole numbers over the total. */
  lemma SignedForms(t: Tally)
    requires t.total > 0
    ensures Signed(t, 1.0, 1.0, 1.0) == (t.plusPlus + t.plusMinus + t.minusPlus + t.minusMinus) as real / t.total as real
    ensures Signed(t, -1.0, 1.0, -1.0) == (t.plusPlus - t.plusMinus + t.minusPlus - t.minusMinus) as real / t.total as real
    ensures Signed(t, 1.0, -1.0, -1.0) == (t.plusPlus + t.plusMinus - t.minusPlus - t.minusMinus) as real / t.total as real
    ensures Signed(t, -1.0, -1.0, 1.0) == (t.plusPlus - t.plusMinus - t.minusPlus + t.minusMinus) as real / t.total as real
  {
    SignedIsSum(t, 1.0, 1.0, 1.0);
    SignedIsSum(t, -1.0, 1.0, -1.0);
    SignedIsSum(t, 1.0, -1.0, -1.0);
    SignedIsSum(t, -1.0, -1.0, 1.0);
    hide Signed;
    var a, b, c, d := t.plusPlus as real, t.plusMinus as real, t.minusPlus as real, t.minusMinus as real;
    assert a + 1.0 * b + 1.0 * c + 1.0 * d == (t.plusPlus + t.plusMinus + t.minusPlus + t.minusMinus) as real;
    assert a + -1.0 * b + 1.0 * c + -1.0 * d == (t.plusPlus - t.plusMinus + t.minusPlus - t.minusMinus) as real;
    assert a + 1.0 * b + -1.0 * c + -1.0 * d == (t.plusPlus + t.plusMinus - t.minusPlus - t.minusMinus) as real;
    assert a + -1.0 * b + -1.0 * c + 1.0 * d == (t.plusPlus - t.plusMinus - t.minusPlus + t.minusMinus) as real;
  }

  /** The signed frequencies of a combination are the means of its products of outcomes. */
  lemma SignedIsMean(rs: seq<Record>, m: char, t: char)
    requires TallyOf(rs, [m, t]).total > 0
    ensures var y := TallyOf(rs, [m, t]);
            && Trials(rs, m, t) == y.total
            && Signed(y, 1.0, 1.0, 1.0) == Mean(rs, m, t, false, false)
            && Signed(y, -1.0, 1.0, -1.0) == Mean(rs, m, t, false, true)
            && Signed(y, 1.0, -1.0, -1.0) == Mean(rs, m, t, true, false)
            && Signed(y, -1.0, -1.0, 1.0) == Mean(rs, m, t, true, true)
  {
    TallyGives(rs, m, t);
    SignedForms(TallyOf(rs, [m, t]));
    hide Signed, TallyOf, SignSum, Trials;
  }

  predicate AllBases(rs: seq<Record>) {
    forall m, t :: m in {'X', 'Y', 'Z'} && t in {'X', 'Y', 'Z'} ==> Trials(rs, m, t) > 0
  }

  lemma MeasuredIsAllBases(rs: seq<Record>)
    ensures Measured(rs) <==> AllBases(rs)
  {
    forall m, t ensures Occurrences(rs, [m, t]) == Trials(rs, m, t) {
      TallyGives(rs, m, t);
    }
    hide Trials, Occurrences;
    if Measured(rs) {
      forall m, t | m in {'X', 'Y', 'Z'} && t in {'X', 'Y', 'Z'} ensures Trials(rs, m, t) > 0 {
        assert [m, t] in Combinations();
      }
    }
    if AllBases(rs) {
      forall b | b in Combinations() ensures Occurrences(rs, b) > 0 {
        assert b == [b[0], b[1]];
        assert b[0] in {'X', 'Y', 'Z'} && b[1] in {'X', 'Y', 'Z'};
      }
    }
  }

  /** The two-sided coefficients are the means of the products of both outcomes, each in its own bases. */
  lemma Correlations(rs: seq<Record>)
    requires Measured(rs)
    ensures AllBases(rs)
    ensures var c := CoefficientsOf(rs);
            && c.s11 == Mean(rs, 'X', 'X', true, true) && c.s12 == Mean(rs, 'X', 'Y', true, true) && c.s13 == Mean(rs, 'X', 'Z', true, true)
            && c.s21 == Mean(rs, 'Y', 'X', true, true) && c.s22 == Mean(rs, 'Y', 'Y', true, true) && c.s23 == Mean(rs, 'Y', 'Z', true, true)
            && c.s31 == Mean(rs, 'Z', 'X', true, true) && c.s32 == Mean(rs, 'Z', 'Y', true, true) && c.s33 == Mean(rs, 'Z', 'Z', true, true)
  {
    MeasuredIsAllBases(rs);
    forall m, t | m in {'X', 'Y', 'Z'} && t in {'X', 'Y', 'Z'}
      ensures Trials(rs, m, t) == TallyOf(rs, [m, t]).total > 0 && Correlation(TallyOf(rs, [m, t])) == Mean(rs, m, t, true, true)
    {
      SignedIsMean(rs, m, t);
    }
    hide Signed, TallyOf, SignSum, Trials, Mean, Correlation;
  }

  /** The one-sided ones are the means of one node's outcomes, taken where both measured in the same basis;
      the coefficient of the identity is 1. */
  lemma Marginals(rs: seq<Record>)
    requires Measured(rs)
    ensures AllBases(rs)
    ensures var c := CoefficientsOf(rs);
            && c.s == 1.0
            && c.s01 == Mean(rs, 'X', 'X', false, true) && c.s10 == Mean(rs, 'X', 'X', true, false)
            && c.s02 == Mean(rs, 'Y', 'Y', false, true) && c.s20 == Mean(rs, 'Y', 'Y', true, false)
            && c.s03 == Mean(rs, 'Z', 'Z', false, true) && c.s30 == Mean(rs, 'Z', 'Z', true, false)
  {
    MeasuredIsAllBases(rs);
    SignedIsMean(rs, 'X', 'X');
    SignedIsMean(rs, 'Y', 'Y');
    SignedIsMean(rs, 'Z', 'Z');
    assert "XX" in Combinations();
    CorrelationBounds(rs, "XX");
    hide Signed, TallyOf, SignSum, Trials, Mean, Correlation;
  }

  // ---- error rates -------------------------------------------------------------------------------

  /** In these bases the two outcomes were always equal, or always different. */
  predicate Always(rs: seq<Record>, basis: char, equal: bool) {
    forall i :: 0 <= i < |rs| && InBases(rs[i], basis, basis) ==> ((rs[i].myPlus == rs[i].partnerPlus) == equal)
  }

  lemma {:induction false} SumBounds(rs: seq<Record>, b: char)
    ensures 0 - Trials(rs, b, b) <= SignSum(rs, b, b, true, true) <= Trials(rs, b, b)
    ensures SignSum(rs, b, b, true, true) == Trials(rs, b, b) <==> Always(rs, b, true)
    ensures SignSum(rs, b, b, true, true) == 0 - Trials(rs, b, b) <==> Always(rs, b, false)
  {
    if rs != [] {
      SumBounds(rs[1..], b);
      AlwaysMore(rs, b, true);
      AlwaysMore(rs, b, false);
      hide Always;
    }
  }

  lemma AlwaysMore(rs: seq<Record>, b: char, equal: bool)
    requires rs != []
    ensures Always(rs, b, equal) <==>
              Always(rs[1..], b, equal) && (InBases(rs[0], b, b) ==> ((rs[0].myPlus == rs[0].partnerPlus) == equal))
  {
    if Always(rs[1..], b, equal) {
      assert forall i :: 1 <= i < |rs| ==> rs[i] == rs[1..][i - 1];
    }
  }

  lemma MeanBounds(rs: seq<Record>, b: char)
    requires Trials(rs, b, b) > 0
    ensures -1.0 <= Mean(rs, b, b, true, true) <= 1.0
    ensures Mean(rs, b, b, true, true) == 1.0 <==> Always(rs, b, true)
    ensures Mean(rs, b, b, true, true) == -1.0 <==> Always(rs, b, false)
  {
    SumBounds(rs, b);
    Ratio(SignSum(rs, b, b, true, true), Trials(rs, b, b));
    hide SignSum, Trials, Always;
  }

  lemma Ratio(a: int, n: nat)
    requires n > 0 && 0 - n <= a <= n
    ensures -1.0 <= a as real / n as real <= 1.0
    ensures a as real / n as real == 1.0 <==> a == n
    ensures a as real / n as real == -1.0 <==> a == 0 - n
  {
    assert -(n as real) <= a as real <= n as real;
    assert a as real == -(n as real) <==> a == 0 - n;
    Quotient(a as real, n as real);
  }

  lemma Quotient(x: real, y: real)
    requires y > 0.0 && -y <= x <= y
    ensures -1.0 <= x / y <= 1.0 && (x / y == 1.0 <==> x == y) && (x / y == -1.0 <==> x == -y)
  {
    var q := x / y;
    assert q * y == x;
  }

  /** Fidelity and error rates are sums of the three correlations, each rate with its own signs. */
  lemma RatesAreSums(rs: seq<Record>)
    requires Measured(rs)
    ensures AllBases(rs)
    ensures var c, x, y, z := CoefficientsOf(rs), Mean(rs, 'X', 'X', true, true), Mean(rs, 'Y', 'Y', true, true), Mean(rs, 'Z', 'Z', true, true);
            && Fidelity(c) == (1.0 + x - y + z) / 4.0
            && XRate(c) == (1.0 + x + y - z) / 4.0
            && ZRate(c) == (1.0 - x + y + z) / 4.0
            && YRate(c) == (1.0 - x - y - z) / 4.0
  {
    Correlations(rs);
    Marginals(rs);
    RatesAreCorrelations(CoefficientsOf(rs));
    hide CoefficientsOf, Mean, Fidelity, XRate, ZRate, YRate;
  }

  /** Each rate is at most 1, and 1 exactly for its own pattern: the fidelity when X and Z outcomes always
      agreed and Y outcomes never did, the X rate when X and Y outcomes always agreed and Z outcomes never
      did, the Z rate when Y and Z outcomes always agreed and X outcomes never did, the Y rate when no
      outcomes ever agreed. */
  lemma RatePatterns(rs: seq<Record>)
    requires Measured(rs)
    ensures var c := CoefficientsOf(rs);
            && Fidelity(c) <= 1.0 && XRate(c) <= 1.0 && ZRate(c) <= 1.0 && YRate(c) <= 1.0
            && (Fidelity(c) == 1.0 <==> Always(rs, 'X', true) && Always(rs, 'Y', false) && Always(rs, 'Z', true))
            && (XRate(c) == 1.0 <==> Always(rs, 'X', true) && Always(rs, 'Y', true) && Always(rs, 'Z', false))
            && (ZRate(c) == 1.0 <==> Always(rs, 'X', false) && Always(rs, 'Y', true) && Always(rs, 'Z', true))
            && (YRate(c) == 1.0 <==> Always(rs, 'X', false) && Always(rs, 'Y', false) && Always(rs, 'Z', false))
  {
    RatesAreSums(rs);
    MeanBounds(rs, 'X');
    MeanBounds(rs, 'Y');
    MeanBounds(rs, 'Z');
    hide CoefficientsOf, Mean, Fidelity, XRate, ZRate, YRate, Always;
  }

  // ---- the state gives the means back ------------------------------------------------------------

  predicate IsPauli(p: Pauli) {
    p == I2() || p == X2() || p == Y2() || p == Z2()
  }

  /** The real part of row i of trace(density * (a (x) b)). */
  function RowTrace(c: Coefficients, a: Pauli, b: Pauli, i: nat): real
    requires IsPauli(a) && IsPauli(b) && i < 4
  {
    Density(c, i, 0) * RealKron(a, b, 0, i) - DensityImag(c, i, 0) * ImagKron(a, b, 0, i)
    + Density(c, i, 1) * RealKron(a, b, 1, i) - DensityImag(c, i, 1) * ImagKron(a, b, 1, i)
    + Density(c, i, 2) * RealKron(a, b, 2, i) - DensityImag(c, i, 2) * ImagKron(a, b, 2, i)
    + Density(c, i, 3) * RealKron(a, b, 3, i) - DensityImag(c, i, 3) * ImagKron(a, b, 3, i)
  }

  /** What measuring a and b on the reconstructed state would give on average. */
  function Expected(c: Coefficients, a: Pauli, b: Pauli): real
    requires IsPauli(a) && IsPauli(b)
  {
    RowTrace(c, a, b, 0) + RowTrace(c, a, b, 1) + RowTrace(c, a, b, 2) + RowTrace(c, a, b, 3)
  }

  lemma Row0(c: Coefficients)
    ensures Density(c, 0, 0) == (c.s + c.s03 + c.s30 + c.s33) / 4.0 && DensityImag(c, 0, 0) == 0.0
    ensures Density(c, 0, 1) == (c.s01 + c.s31) / 4.0 && DensityImag(c, 0, 1) == -(c.s02 + c.s32) / 4.0
    ensures Density(c, 0, 2) == (c.s10 + c.s13) / 4.0 && DensityImag(c, 0, 2) == -(c.s20 + c.s23) / 4.0
    ensures Density(c, 0, 3) == (c.s11 - c.s22) / 4.0 && DensityImag(c, 0, 3) == -(c.s12 + c.s21) / 4.0
  {
  }

  lemma Row1(c: Coefficients)
    ensures Density(c, 1, 0) == (c.s01 + c.s31) / 4.0 && DensityImag(c, 1, 0) == (c.s02 + c.s32) / 4.0
    ensures Density(c, 1, 1) == (c.s - c.s03 + c.s30 - c.s33) / 4.0 && DensityImag(c, 1, 1) == 0.0
    ensures Density(c, 1, 2) == (c.s11 + c.s22) / 4.0 && DensityImag(c, 1, 2) == (c.s12 - c.s21) / 4.0
    ensures Density(c, 1, 3) == (c.s10 - c.s13) / 4.0 && DensityImag(c, 1, 3) == -(c.s20 - c.s23) / 4.0
  {
  }

  lemma Row2(c: Coefficients)
    ensures Density(c, 2, 0) == (c.s10 + c.s13) / 4.0 && DensityImag(c, 2, 0) == (c.s20 + c.s23) / 4.0
    ensures Density(c, 2, 1) == (c.s11 + c.s22) / 4.0 && DensityImag(c, 2, 1) == -(c.s12 - c.s21) / 4.0
    ensures Density(c, 2, 2) == (c.s + c.s03 - c.s30 - c.s33) / 4.0 && DensityImag(c, 2, 2) == 0.0
    ensures Density(c, 2, 3) == (c.s01 - c.s31) / 4.0 && DensityImag(c, 2, 3) == -(c.s02 - c.s32) / 4.0
  {
  }

  lemma Row3(c: Coefficients)
    ensures Density(c, 3, 0) == (c.s11 - c.s22) / 4.0 && DensityImag(c, 3, 0) == (c.s12 + c.s21) / 4.0
    ensures Density(c, 3, 1) == (c.s10 - c.s13) / 4.0 && DensityImag(c, 3, 1) == (c.s20 - c.s23) / 4.0
    ensures Density(c, 3, 2) == (c.s01 - c.s31) / 4.0 && DensityImag(c, 3, 2) == (c.s02 - c.s32) / 4.0
    ensures Density(c, 3, 3) == (c.s - c.s03 - c.s30 + c.s33) / 4.0 && DensityImag(c, 3, 3) == 0.0
  {
  }

  /** The reconstructed matrix is Hermitian. */
  lemma Hermitian(c: Coefficients, i: nat, j: nat)
    requires i < 4 && j < 4
    ensures Density(c, i, j) == Density(c, j, i) && DensityImag(c, i, j) == -DensityImag(c, j, i)
  {
    Row0(c);
    Row1(c);
    Row2(c);
    Row3(c);
    hide Density, DensityImag;
    assert i == 0 || i == 1 || i == 2 || i == 3;
    assert j == 0 || j == 1 || j == 2 || j == 3;
  }

  lemma ExpectedI(c: Coefficients)
    ensures Expected(c, I2(), I2()) == c.s && Expected(c, I2(), X2()) == c.s01
    ensures Expected(c, I2(), Y2()) == c.s02 && Expected(c, I2(), Z2()) == c.s03
  {
    Row0(c);
    Row1(c);
    Row2(c);
    Row3(c);
    hide Density, DensityImag;
  }

  lemma ExpectedX(c: Coefficients)
    ensures Expected(c, X2(), I2()) == c.s10 && Expected(c, X2(), X2()) == c.s11
    ensures Expected(c, X2(), Y2()) == c.s12 && Expected(c, X2(), Z2()) == c.s13
  {
    Row0(c);
    Row1(c);
    Row2(c);
    Row3(c);
    hide Density, DensityImag;
  }

  lemma ExpectedY(c: Coefficients)
    ensures Expected(c, Y2(), I2()) == c.s20 && Expected(c, Y2(), X2()) == c.s21
    ensures Expected(c, Y2(), Y2()) == c.s22 && Expected(c, Y2(), Z2()) == c.s23
  {
    Row0(c);
    Row1(c);
    Row2(c);
    Row3(c);
    hide Density, DensityImag;
  }

  lemma ExpectedZ(c: Coefficients)
    ensures Expected(c, Z2(), I2()) == c.s30 && Expected(c, Z2(), X2()) == c.s31
    ensures Expected(c, Z2(), Y2()) == c.s32 && Expected(c, Z2(), Z2()) == c.s33
  {
    Row0(c);
    Row1(c);
    Row2(c);
    Row3(c);
    hide Density, DensityImag;
  }

  function Letter(p: char): Pauli {
    if p == 'X' then X2() else if p == 'Y' then Y2() else Z2()
  }

  /** Tomography is exact: for every two bases the reconstructed state predicts the mean product of outcomes
      that was measured in them. */
  lemma StateFitsData(rs: seq<Record>, m: char, t: char)
    requires Measured(rs) && m in {'X', 'Y', 'Z'} && t in {'X', 'Y', 'Z'}
    ensures Trials(rs, m, t) > 0
    ensures Expected(CoefficientsOf(rs), Letter(m), Letter(t)) == Mean(rs, m, t, true, true)
  {
    Correlations(rs);
    ExpectedX(CoefficientsOf(rs));
    ExpectedY(CoefficientsOf(rs));
    ExpectedZ(CoefficientsOf(rs));
    hide Expected, CoefficientsOf, Mean, Trials;
  }
}
