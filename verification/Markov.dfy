// The error processes of memories and fibres: transition matrices, their powers, and the
// cumulative ceilings a random draw is compared with.  Numbers are exact reals.
module Markov {

  type Row = seq<real>
  type Matrix = seq<seq<real>>

  function Sum(v: Row): real {
    if v == [] then 0.0 else Sum(v[..|v| - 1]) + v[|v| - 1]
  }

  function Zero(n: nat): Row {
    seq(n, _ => 0.0)
  }

  function Axpy(a: real, c: real, b: real): real {
    a + c * b
  }

  function AddScaled(u: Row, c: real, w: Row): (r: Row)
    requires |u| == |w|
    ensures |r| == |u| && forall j :: 0 <= j < |r| ==> r[j] == Axpy(u[j], c, w[j])
  {
    seq(|u|, j requires 0 <= j < |u| => Axpy(u[j], c, w[j]))
  }

  predicate Square(m: Matrix, n: nat) {
    |m| == n && forall i :: 0 <= i < n ==> |m[i]| == n
  }

  /** The first k terms of the row vector v times m. */
  function Combine(v: Row, m: Matrix, n: nat, k: nat): (r: Row)
    requires Square(m, n) && |v| == n && k <= n
    ensures |r| == n
  {
    if k == 0 then Zero(n) else AddScaled(Combine(v, m, n, k - 1), v[k - 1], m[k - 1])
  }

  function Times(v: Row, m: Matrix, n: nat): (r: Row)
    requires Square(m, n) && |v| == n
    ensures |r| == n
  {
    Combine(v, m, n, n)
  }

  function Mul(a: Matrix, b: Matrix, n: nat): (r: Matrix)
    requires Square(a, n) && Square(b, n)
    ensures Square(r, n) && forall i :: 0 <= i < n ==> r[i] == Times(a[i], b, n)
  {
    seq(n, i requires 0 <= i < n => Times(a[i], b, n))
  }

  function Unit(n: nat, i: nat): (r: Row)
    ensures |r| == n
  {
    seq(n, j requires 0 <= j < n => if j == i then 1.0 else 0.0)
  }

  function Identity(n: nat): (r: Matrix)
    ensures Square(r, n)
  {
    seq(n, i requires 0 <= i < n => Unit(n, i))
  }

  function Power(m: Matrix, n: nat, k: nat): (r: Matrix)
    requires Square(m, n)
    ensures Square(r, n)
  {
    if k == 0 then Identity(n) else Mul(Power(m, n, k - 1), m, n)
  }

  // ---- rows of probabilities ---------------------------------------------------------------------

  predicate Stochastic(v: Row) {
    (forall j :: 0 <= j < |v| ==> v[j] >= 0.0) && Sum(v) == 1.0
  }

  predicate RowStochastic(m: Matrix) {
    forall i :: 0 <= i < |m| ==> Stochastic(m[i])
  }

  lemma {:induction false} SumLinear(u: Row, c: real, w: Row)
    requires |u| == |w|
    ensures Sum(AddScaled(u, c, w)) == Axpy(Sum(u), c, Sum(w))
  {
    hide Axpy;
    var r := AddScaled(u, c, w);
    if u == [] {
      AxpyZero(c);
    } else {
      var h := |u| - 1;
      assert r[..h] == AddScaled(u[..h], c, w[..h]);
      SumLinear(u[..h], c, w[..h]);
      Distribute(Sum(u[..h]), u[h], c, Sum(w[..h]), w[h]);
    }
  }

  lemma AxpyZero(c: real)
    ensures Axpy(0.0, c, 0.0) == 0.0
  {
  }

  lemma Distribute(a: real, b: real, c: real, d: real, e: real)
    ensures Axpy(a, c, d) + Axpy(b, c, e) == Axpy(a + b, c, d + e)
  {
  }

  lemma {:induction false} SumZero(n: nat)
    ensures Sum(Zero(n)) == 0.0
  {
    if n > 0 {
      assert Zero(n)[..n - 1] == Zero(n - 1);
      SumZero(n - 1);
    }
  }

  lemma {:induction false} SumCombine(v: Row, m: Matrix, n: nat, k: nat)
    requires Square(m, n) && |v| == n && k <= n && RowStochastic(m)
    ensures Sum(Combine(v, m, n, k)) == Sum(v[..k])
  {
    if k == 0 {
      SumZero(n);
    } else {
      SumCombine(v, m, n, k - 1);
      SumLinear(Combine(v, m, n, k - 1), v[k - 1], m[k - 1]);
      assert v[..k][..k - 1] == v[..k - 1];
      assert Stochastic(m[k - 1]);
    }
  }

  lemma {:induction false} CombineNonNegative(v: Row, m: Matrix, n: nat, k: nat)
    requires Square(m, n) && |v| == n && k <= n && RowStochastic(m) && Stochastic(v)
    ensures forall j :: 0 <= j < n ==> Combine(v, m, n, k)[j] >= 0.0
  {
    if k > 0 {
      CombineNonNegative(v, m, n, k - 1);
      assert Stochastic(m[k - 1]);
      forall j | 0 <= j < n ensures Combine(v, m, n, k)[j] >= 0.0 {
        NonNegative(v[k - 1], m[k - 1][j]);
      }
    }
  }

  lemma NonNegative(a: real, b: real)
    requires a >= 0.0 && b >= 0.0
    ensures a * b >= 0.0
  {
  }

  lemma TimesStochastic(v: Row, m: Matrix, n: nat)
    requires Square(m, n) && |v| == n && RowStochastic(m) && Stochastic(v)
    ensures Stochastic(Times(v, m, n))
  {
    SumCombine(v, m, n, n);
    CombineNonNegative(v, m, n, n);
    assert v[..n] == v;
  }

  lemma {:induction false} UnitStochastic(n: nat, i: nat)
    requires i < n
    ensures Stochastic(Unit(n, i))
  {
    if i < n - 1 {
      UnitStochastic(n - 1, i);
      assert Unit(n, i)[..n - 1] == Unit(n - 1, i);
    } else {
      assert Unit(n, i)[..n - 1] == Zero(n - 1);
      SumZero(n - 1);
    }
  }

  /** Every power of a row-stochastic matrix is row-stochastic. */
  lemma {:induction false} PowerStochastic(m: Matrix, n: nat, k: nat)
    requires Square(m, n) && RowStochastic(m)
    ensures RowStochastic(Power(m, n, k))
  {
    forall i | 0 <= i < n ensures Stochastic(Power(m, n, k)[i]) {
      if k == 0 {
        UnitStochastic(n, i);
      } else {
        PowerStochastic(m, n, k - 1);
        TimesStochastic(Power(m, n, k - 1)[i], m, n);
      }
    }
  }

  // ---- waiting twice is waiting once -----------------------------------------------------------

  lemma {:induction false} CombineLinear(u: Row, x: real, w: Row, m: Matrix, n: nat, k: nat)
    requires Square(m, n) && |u| == n && |w| == n && k <= n
    ensures Combine(AddScaled(u, x, w), m, n, k) == AddScaled(Combine(u, m, n, k), x, Combine(w, m, n, k))
  {
    hide Axpy;
    var t := AddScaled(u, x, w);
    if k == 0 {
      AxpyZero(x);
    } else {
      CombineLinear(u, x, w, m, n, k - 1);
      var a, b := Combine(u, m, n, k - 1), Combine(w, m, n, k - 1);
      assert Combine(t, m, n, k) == AddScaled(AddScaled(a, x, b), t[k - 1], m[k - 1]);
      forall j | 0 <= j < n
        ensures Combine(t, m, n, k)[j] == AddScaled(Combine(u, m, n, k), x, Combine(w, m, n, k))[j]
      {
        Regroup(a[j], x, b[j], u[k - 1], w[k - 1], m[k - 1][j]);
      }
    }
  }

  lemma Regroup(a: real, x: real, b: real, p: real, q: real, c: real)
    ensures Axpy(Axpy(a, x, b), Axpy(p, x, q), c) == Axpy(Axpy(a, p, c), x, Axpy(b, q, c))
  {
    assert (p + x * q) * c == p * c + x * (q * c);
    assert x * (b + q * c) == x * b + x * (q * c);
  }

  lemma {:induction false} CombineZero(m: Matrix, n: nat, k: nat)
    requires Square(m, n) && k <= n
    ensures Combine(Zero(n), m, n, k) == Zero(n)
  {
    if k > 0 {
      CombineZero(m, n, k - 1);
    }
  }

  lemma {:induction false} CombineTwice(v: Row, a: Matrix, b: Matrix, n: nat, k: nat)
    requires Square(a, n) && Square(b, n) && |v| == n && k <= n
    ensures Times(Combine(v, a, n, k), b, n) == Combine(v, Mul(a, b, n), n, k)
  {
    if k == 0 {
      CombineZero(b, n, n);
    } else {
      CombineTwice(v, a, b, n, k - 1);
      CombineLinear(Combine(v, a, n, k - 1), v[k - 1], a[k - 1], b, n, n);
    }
  }

  lemma MulAssociative(a: Matrix, b: Matrix, c: Matrix, n: nat)
    requires Square(a, n) && Square(b, n) && Square(c, n)
    ensures Mul(Mul(a, b, n), c, n) == Mul(a, Mul(b, c, n), n)
  {
    forall i | 0 <= i < n ensures Mul(Mul(a, b, n), c, n)[i] == Mul(a, Mul(b, c, n), n)[i] {
      CombineTwice(a[i], b, c, n, n);
    }
  }

  lemma {:induction false} CombineIdentity(v: Row, n: nat, k: nat)
    requires |v| == n && k <= n
    ensures forall j :: 0 <= j < n ==> Combine(v, Identity(n), n, k)[j] == if j < k then v[j] else 0.0
  {
    if k > 0 {
      CombineIdentity(v, n, k - 1);
      assert Identity(n)[k - 1] == Unit(n, k - 1);
    }
  }

  lemma MulIdentity(m: Matrix, n: nat)
    requires Square(m, n)
    ensures Mul(m, Identity(n), n) == m
  {
    forall i | 0 <= i < n ensures Mul(m, Identity(n), n)[i] == m[i] {
      CombineIdentity(m[i], n, n);
    }
  }

  /** Updating an error twice, after a and then b units of time, is updating it once after a+b. */
  lemma {:induction false} PowersCompose(m: Matrix, n: nat, a: nat, b: nat)
    requires Square(m, n)
    ensures Power(m, n, a + b) == Mul(Power(m, n, a), Power(m, n, b), n)
  {
    if b == 0 {
      MulIdentity(Power(m, n, a), n);
    } else {
      PowersCompose(m, n, a, b - 1);
      MulAssociative(Power(m, n, a), Power(m, n, b - 1), m, n);
    }
  }

  lemma {:induction false} CombineUnit(i: nat, m: Matrix, n: nat, k: nat)
    requires Square(m, n) && i < n && k <= n
    ensures Combine(Unit(n, i), m, n, k) == if i < k then m[i] else Zero(n)
  {
    if k > 0 {
      CombineUnit(i, m, n, k - 1);
    }
  }

  // ---- the two matrices ------------------------------------------------------------------------------

  /** States in the order I, X, Z, Y: bit 0 is the X error, bit 1 the Z error. */
  function Xor(i: nat, j: nat): (r: nat)
    requires i < 4 && j < 4
    ensures r < 4
  {
    if i == j then 0 else if i == 0 then j else if j == 0 then i else 6 - i - j
  }

  lemma XorGroup(i: nat, j: nat, k: nat)
    requires i < 4 && j < 4 && k < 4
    ensures Xor(0, i) == i && Xor(i, i) == 0 && Xor(i, j) == Xor(j, i) && Xor(Xor(i, j), k) == Xor(i, Xor(j, k))
  {
  }

  datatype Rates = Rates(x: real, y: real, z: real, ex: real, re: real, cm: real)

  predicate Proper(r: Rates) {
    && r.x >= 0.0 && r.y >= 0.0 && r.z >= 0.0 && r.ex >= 0.0 && r.re >= 0.0 && r.cm >= 0.0
    && r.x + r.y + r.z + r.ex + r.re + r.cm <= 1.0
  }

  function Memory(r: Rates): (m: Matrix)
    ensures Square(m, 7)
  {
    var e := r.x + r.y + r.z + r.ex + r.re + r.cm;
    [[1.0 - e, r.x, r.z, r.y, r.ex, r.re, r.cm],
     [r.x, 1.0 - e, r.y, r.z, r.ex, r.re, r.cm],
     [r.z, r.y, 1.0 - e, r.x, r.ex, r.re, r.cm],
     [r.y, r.z, r.x, 1.0 - e, r.ex, r.re, r.cm],
     [0.0, 0.0, 0.0, 0.0, 1.0 - r.re - r.cm, r.re, r.cm],
     [0.0, 0.0, 0.0, 0.0, r.ex, 1.0 - r.ex - r.cm, r.cm],
     [0.0, 0.0, 0.0, 0.0, r.ex, r.re, 1.0 - r.ex - r.re]]
  }

  function Fibre(x: real, y: real, z: real, loss: real): (m: Matrix)
    ensures Square(m, 5)
  {
    var e := x + y + z + loss;
    [[1.0 - e, x, z, y, loss],
     [x, 1.0 - e, y, z, loss],
     [z, y, 1.0 - e, x, loss],
     [y, z, x, 1.0 - e, loss],
     [0.0, 0.0, 0.0, 0.0, 1.0]]
  }

  /** From a state that is not a Pauli state there is no way back to one. */
  predicate ZeroBlock(m: Matrix, n: nat) {
    Square(m, n) && forall i, j :: 4 <= i < n && 0 <= j < 4 && j < n ==> m[i][j] == 0.0
  }

  /** On the Pauli states only the difference of the two states matters. */
  predicate XorForm(m: Matrix, n: nat) {
    && n >= 4 && Square(m, n)
    && (forall i, j :: 0 <= i < 4 && 0 <= j < 4 ==> m[i][j] == m[0][Xor(i, j)])
    && (forall i, j :: 0 <= i < 4 && 4 <= j < n ==> m[i][j] == m[0][j])
  }

  lemma SumSeven(v: Row)
    requires |v| == 7
    ensures Sum(v) == v[0] + v[1] + v[2] + v[3] + v[4] + v[5] + v[6]
  {
    SumFive(v[..5]);
    assert v[..6][..5] == v[..5];
    assert Sum(v[..6]) == Sum(v[..5]) + v[5];
  }

  lemma SumFive(v: Row)
    requires |v| == 5
    ensures Sum(v) == v[0] + v[1] + v[2] + v[3] + v[4]
  {
    assert v[..4][..3] == v[..3] && v[..3][..2] == v[..2] && v[..2][..1] == v[..1] && v[..1][..0] == [];
    assert Sum(v[..1]) == v[0];
    assert Sum(v[..2]) == v[0] + v[1];
    assert Sum(v[..3]) == v[0] + v[1] + v[2];
    assert Sum(v[..4]) == v[0] + v[1] + v[2] + v[3];
  }

  lemma MemoryRow(r: Rates, i: nat)
    requires Proper(r) && i < 7
    ensures Stochastic(Memory(r)[i])
  {
    SumSeven(Memory(r)[i]);
  }

  lemma MemoryForm(r: Rates)
    ensures ZeroBlock(Memory(r), 7) && XorForm(Memory(r), 7)
  {
    var m := Memory(r);
    forall i, j | 0 <= i < 4 && 0 <= j < 4 ensures m[i][j] == m[0][Xor(i, j)] {
      if i == 0 {
      } else if i == 1 {
      } else if i == 2 {
      }
    }
  }

  lemma MemoryIs(r: Rates)
    requires Proper(r)
    ensures RowStochastic(Memory(r)) && ZeroBlock(Memory(r), 7) && XorForm(Memory(r), 7)
  {
    hide Memory, Stochastic;
    MemoryForm(r);
    forall i | 0 <= i < 7 ensures Stochastic(Memory(r)[i]) {
      MemoryRow(r, i);
    }
  }

  predicate ProperLoss(x: real, y: real, z: real, loss: real) {
    x >= 0.0 && y >= 0.0 && z >= 0.0 && loss >= 0.0 && x + y + z + loss <= 1.0
  }

  lemma FibreRow(x: real, y: real, z: real, loss: real, i: nat)
    requires ProperLoss(x, y, z, loss) && i < 5
    ensures Stochastic(Fibre(x, y, z, loss)[i])
  {
    SumFive(Fibre(x, y, z, loss)[i]);
  }

  lemma FibreForm(x: real, y: real, z: real, loss: real)
    ensures ZeroBlock(Fibre(x, y, z, loss), 5) && XorForm(Fibre(x, y, z, loss), 5)
  {
    var m := Fibre(x, y, z, loss);
    forall i, j | 0 <= i < 4 && 0 <= j < 4 ensures m[i][j] == m[0][Xor(i, j)] {
      if i == 0 {
      } else if i == 1 {
      } else if i == 2 {
      }
    }
  }

  lemma FibreIs(x: real, y: real, z: real, loss: real)
    requires ProperLoss(x, y, z, loss)
    ensures RowStochastic(Fibre(x, y, z, loss)) && ZeroBlock(Fibre(x, y, z, loss), 5) && XorForm(Fibre(x, y, z, loss), 5)
  {
    hide Fibre, Stochastic;
    FibreForm(x, y, z, loss);
    forall i | 0 <= i < 5 ensures Stochastic(Fibre(x, y, z, loss)[i]) {
      FibreRow(x, y, z, loss, i);
    }
  }

  /** What one unit of time does to a photon: X, Z and Y errors are added at their own rates, whatever errors
      it has, it is lost at the loss rate, and a lost one stays lost. */
  lemma FibreStep(x: real, y: real, z: real, loss: real, state: nat)
    requires state < 5
    ensures var out := Times(Unit(5, state), Fibre(x, y, z, loss), 5);
            if state == 4 then out == Unit(5, 4)
            else out[Xor(state, 1)] == x && out[Xor(state, 2)] == z && out[Xor(state, 3)] == y && out[4] == loss
                 && out[state] == 1.0 - (x + y + z + loss)
  {
    CombineUnit(state, Fibre(x, y, z, loss), 5, 5);
    hide Combine;
    assert state == 0 || state == 1 || state == 2 || state == 3 || state == 4;
  }

  /** What one unit of time does to a memory qubit: Pauli errors are added at their own rates, excitation,
      relaxation and complete mixing come at theirs from every other state. */
  lemma MemoryStep(r: Rates, state: nat)
    requires state < 7
    ensures var out := Times(Unit(7, state), Memory(r), 7);
            && (state < 4 ==> out[Xor(state, 1)] == r.x && out[Xor(state, 2)] == r.z && out[Xor(state, 3)] == r.y)
            && (state != 4 ==> out[4] == r.ex) && (state != 5 ==> out[5] == r.re) && (state != 6 ==> out[6] == r.cm)
            && (state >= 4 ==> out[0] == out[1] == out[2] == out[3] == 0.0)
            && out[state] == 1.0 - (if state < 4 then r.x + r.y + r.z else 0.0) - (if state == 4 then 0.0 else r.ex)
                                 - (if state == 5 then 0.0 else r.re) - (if state == 6 then 0.0 else r.cm)
  {
    CombineUnit(state, Memory(r), 7, 7);
    hide Combine;
    assert state == 0 || state == 1 || state == 2 || state == 3 || state == 4 || state == 5 || state == 6;
  }

  // ---- what powers keep ----------------------------------------------------------------------------

  function Term(c: real, b: real): real {
    c * b
  }

  lemma AxpyTerm(a: real, c: real, b: real)
    ensures Axpy(a, c, b) == a + Term(c, b)
    ensures c == 0.0 || b == 0.0 ==> Axpy(a, c, b) == a
  {
  }

  lemma HeadFour(v: Row, m: Matrix, n: nat, j: nat)
    requires n >= 4 && Square(m, n) && |v| == n && j < n
    ensures Combine(v, m, n, 4)[j] == Term(v[0], m[0][j]) + Term(v[1], m[1][j]) + Term(v[2], m[2][j]) + Term(v[3], m[3][j])
  {
    hide Axpy, Term;
    var c1, c2, c3 := Combine(v, m, n, 1)[j], Combine(v, m, n, 2)[j], Combine(v, m, n, 3)[j];
    assert Combine(v, m, n, 0)[j] == 0.0;
    assert c1 == Axpy(0.0, v[0], m[0][j]) && c2 == Axpy(c1, v[1], m[1][j]) && c3 == Axpy(c2, v[2], m[2][j]);
    AxpyTerm(0.0, v[0], m[0][j]);
    AxpyTerm(c1, v[1], m[1][j]);
    AxpyTerm(c2, v[2], m[2][j]);
    AxpyTerm(c3, v[3], m[3][j]);
  }

  lemma {:induction false} TailZero(v: Row, m: Matrix, n: nat, k: nat, j: nat)
    requires ZeroBlock(m, n) && |v| == n && 4 <= k <= n && j < 4
    ensures Combine(v, m, n, k)[j] == Combine(v, m, n, 4)[j]
  {
    if k > 4 {
      TailZero(v, m, n, k - 1, j);
      AxpyTerm(Combine(v, m, n, k - 1)[j], v[k - 1], m[k - 1][j]);
    }
  }

  lemma {:induction false} TailSame(u: Row, v: Row, m: Matrix, n: nat, k: nat, j: nat)
    requires Square(m, n) && |u| == n && |v| == n && 4 <= k <= n && j < n
    requires forall i :: 4 <= i < n ==> u[i] == v[i]
    ensures Combine(u, m, n, k)[j] - Combine(u, m, n, 4)[j] == Combine(v, m, n, k)[j] - Combine(v, m, n, 4)[j]
  {
    hide Axpy;
    if k > 4 {
      TailSame(u, v, m, n, k - 1, j);
      AxpyTerm(Combine(u, m, n, k - 1)[j], u[k - 1], m[k - 1][j]);
      AxpyTerm(Combine(v, m, n, k - 1)[j], v[k - 1], m[k - 1][j]);
    }
  }

  lemma {:induction false} ZeroTerms(v: Row, m: Matrix, n: nat, k: nat, j: nat)
    requires ZeroBlock(m, n) && |v| == n && k <= n && j < 4 && j < n
    requires forall i :: 0 <= i < 4 && i < n ==> v[i] == 0.0
    ensures Combine(v, m, n, k)[j] == 0.0
  {
    if k > 0 {
      ZeroTerms(v, m, n, k - 1, j);
      AxpyTerm(Combine(v, m, n, k - 1)[j], v[k - 1], m[k - 1][j]);
    }
  }

  lemma ZeroBlockMul(a: Matrix, b: Matrix, n: nat)
    requires ZeroBlock(a, n) && ZeroBlock(b, n)
    ensures ZeroBlock(Mul(a, b, n), n)
  {
    forall i, j | 4 <= i < n && 0 <= j < 4 && j < n ensures Mul(a, b, n)[i][j] == 0.0 {
      ZeroTerms(a[i], b, n, n, j);
    }
  }

  /** Composing two error distributions on the four Pauli states. */
  function Convolve(a: Row, b: Row, x: nat): real
    requires |a| >= 4 && |b| >= 4 && x < 4
  {
    Term(a[0], b[x]) + Term(a[1], b[Xor(1, x)]) + Term(a[2], b[Xor(2, x)]) + Term(a[3], b[Xor(3, x)])
  }

  lemma PauliEntry(a: Matrix, b: Matrix, n: nat, i: nat, j: nat)
    requires XorForm(a, n) && XorForm(b, n) && ZeroBlock(b, n) && i < 4 && j < 4
    ensures Mul(a, b, n)[i][j] == Convolve(a[0], b[0], Xor(i, j))
  {
    TailZero(a[i], b, n, n, j);
    HeadFour(a[i], b, n, j);
    hide Term, Combine;
    assert a[i][0] == a[0][Xor(i, 0)] && a[i][1] == a[0][Xor(i, 1)] && a[i][2] == a[0][Xor(i, 2)] && a[i][3] == a[0][Xor(i, 3)];
    assert b[0][j] == b[0][Xor(0, j)] && b[1][j] == b[0][Xor(1, j)] && b[2][j] == b[0][Xor(2, j)] && b[3][j] == b[0][Xor(3, j)];
    if i == 0 {
    } else if i == 1 {
    } else if i == 2 {
    }
  }

  lemma OtherEntry(a: Matrix, b: Matrix, n: nat, i: nat, j: nat)
    requires XorForm(a, n) && XorForm(b, n) && i < 4 && 4 <= j < n
    ensures Mul(a, b, n)[i][j] == Mul(a, b, n)[0][j]
  {
    HeadFour(a[i], b, n, j);
    HeadFour(a[0], b, n, j);
    TailSame(a[i], a[0], b, n, n, j);
    hide Combine;
    assert a[i][0] == a[0][Xor(i, 0)] && a[i][1] == a[0][Xor(i, 1)] && a[i][2] == a[0][Xor(i, 2)] && a[i][3] == a[0][Xor(i, 3)];
    assert b[1][j] == b[0][j] && b[2][j] == b[0][j] && b[3][j] == b[0][j];
    hide Term;
    if i == 0 {
    } else if i == 1 {
    } else if i == 2 {
    }
  }

  lemma XorFormMul(a: Matrix, b: Matrix, n: nat)
    requires XorForm(a, n) && XorForm(b, n) && ZeroBlock(b, n)
    ensures XorForm(Mul(a, b, n), n)
  {
    hide Combine, Convolve;
    var m := Mul(a, b, n);
    forall i, j | 0 <= i < 4 && 0 <= j < 4 ensures m[i][j] == m[0][Xor(i, j)] {
      PauliEntry(a, b, n, i, j);
      PauliEntry(a, b, n, 0, Xor(i, j));
      XorGroup(Xor(i, j), 0, 0);
    }
    forall i, j | 0 <= i < 4 && 4 <= j < n ensures m[i][j] == m[0][j] {
      OtherEntry(a, b, n, i, j);
    }
  }

  lemma IdentityForm(n: nat)
    requires n >= 4
    ensures ZeroBlock(Identity(n), n) && XorForm(Identity(n), n)
  {
  }

  /** Every power keeps the zero block and the xor form. */
  lemma {:induction false} PowerForm(m: Matrix, n: nat, k: nat)
    requires ZeroBlock(m, n) && XorForm(m, n)
    ensures ZeroBlock(Power(m, n, k), n) && XorForm(Power(m, n, k), n)
  {
    FormSize(m, n);
    hide ZeroBlock, XorForm;
    if k == 0 {
      IdentityForm(n);
    } else {
      PowerForm(m, n, k - 1);
      ZeroBlockMul(Power(m, n, k - 1), m, n);
      XorFormMul(Power(m, n, k - 1), m, n);
    }
  }

  lemma FormSize(m: Matrix, n: nat)
    requires XorForm(m, n)
    ensures n >= 4 && Square(m, n)
  {
  }

  // ---- choosing a branch ---------------------------------------------------------------------------

  /** The memory's comparisons: 0..3 Pauli errors, 4 excitation, 5 relaxation, 6 complete mixing. */
  function MemoryBranch(out: Row, rand: real): (b: nat)
    requires |out| == 7
    ensures b < 7
  {
    var none := out[0];
    var x := none + out[1];
    var z := x + out[2];
    var y := z + out[3];
    var ex := y + out[4];
    var re := ex + out[5];
    if rand < none then 0
    else if none <= rand && rand < x && none != x then 1
    else if x <= rand && rand < z && x != z then 2
    else if z <= rand && rand < y && z != y then 3
    else if y <= rand && rand < ex && y != ex then 4
    else if ex <= rand && rand < re && ex != re then 5
    else 6
  }

  /** The fibre's comparisons: 0..3 Pauli errors, 4 the photon is lost. */
  function FibreBranch(out: Row, rand: real): (b: nat)
    requires |out| == 5
    ensures b < 5
  {
    var none := out[0];
    var x := none + out[1];
    var z := x + out[2];
    var y := z + out[3];
    if rand < none then 0
    else if none <= rand && rand < x && none != x then 1
    else if x <= rand && rand < z && x != z then 2
    else if z <= rand && rand < y && z != y then 3
    else 4
  }

  /** Branch b owns the interval of length out[b] that starts where the earlier branches end. */
  predicate Owns(out: Row, b: nat, rand: real)
    requires b < |out|
  {
    Sum(out[..b]) <= rand < Sum(out[..b]) + out[b]
  }

  lemma Prefixes(out: Row)
    requires |out| >= 5
    ensures Sum(out[..0]) == 0.0 && Sum(out[..1]) == out[0] && Sum(out[..2]) == out[0] + out[1]
    ensures Sum(out[..3]) == out[0] + out[1] + out[2] && Sum(out[..4]) == out[0] + out[1] + out[2] + out[3]
    ensures Sum(out[..5]) == out[0] + out[1] + out[2] + out[3] + out[4]
  {
    SumFive(out[..5]);
    assert out[..5][..4] == out[..4] && out[..4][..3] == out[..3] && out[..3][..2] == out[..2];
    assert out[..2][..1] == out[..1] && out[..1][..0] == [];
    assert Sum(out[..1]) == out[0];
    assert Sum(out[..2]) == out[0] + out[1];
    assert Sum(out[..3]) == out[0] + out[1] + out[2];
  }

  /** The memory takes exactly the branch whose interval holds the draw, never one of probability zero. */
  lemma MemoryChoice(out: Row, rand: real)
    requires |out| == 7 && Stochastic(out) && 0.0 <= rand < 1.0
    ensures forall b :: 0 <= b < 7 ==> (MemoryBranch(out, rand) == b <==> Owns(out, b, rand))
    ensures out[MemoryBranch(out, rand)] > 0.0
  {
    Prefixes(out);
    SumSeven(out);
    assert out[..6][..5] == out[..5];
    assert Sum(out[..6]) == Sum(out[..5]) + out[5];
    hide Sum;
    forall b | 0 <= b < 7 ensures MemoryBranch(out, rand) == b <==> Owns(out, b, rand) {
      assert b == 0 || b == 1 || b == 2 || b == 3 || b == 4 || b == 5 || b == 6;
    }
  }

  lemma FibreChoice(out: Row, rand: real)
    requires |out| == 5 && Stochastic(out) && 0.0 <= rand < 1.0
    ensures forall b :: 0 <= b < 5 ==> (FibreBranch(out, rand) == b <==> Owns(out, b, rand))
    ensures out[FibreBranch(out, rand)] > 0.0
  {
    Prefixes(out);
    SumFive(out);
    hide Sum;
    forall b | 0 <= b < 5 ensures FibreBranch(out, rand) == b <==> Owns(out, b, rand) {
      assert b == 0 || b == 1 || b == 2 || b == 3 || b == 4;
    }
  }

  /** After t units of time, from any state, one branch is taken and it had positive probability. */
  lemma MemoryRun(r: Rates, t: nat, state: nat, rand: real)
    requires Proper(r) && state < 7 && 0.0 <= rand < 1.0
    ensures var out := Times(Unit(7, state), Power(Memory(r), 7, t), 7);
            && out == Power(Memory(r), 7, t)[state]
            && Stochastic(out) && out[MemoryBranch(out, rand)] > 0.0
            && (state >= 4 ==> MemoryBranch(out, rand) >= 4)
  {
    hide Memory, MemoryBranch;
    var p := Power(Memory(r), 7, t);
    MemoryIs(r);
    PowerStochastic(Memory(r), 7, t);
    PowerForm(Memory(r), 7, t);
    CombineUnit(state, p, 7, 7);
    MemoryChoice(p[state], rand);
  }

  // ---- photons in a fibre ----------------------------------------------------------------------------

  class Photon {
    var xError: bool
    var zError: bool
    var lost: bool

    /** I, X, Z, Y or lost. */
    function State(): (s: nat)
      reads this
      ensures s < 5
    {
      if lost then 4 else (if xError then 1 else 0) + (if zError then 2 else 0)
    }

    constructor ()
      ensures State() == 0
    {
      xError, zError, lost := false, false, false;
    }

    /** The photon leaves a fibre whose transition matrix over its whole length is q.  The drawn state is
        applied as a change, so it is reached exactly from a clean photon or by loss. */
    method Pass(q: Matrix, rand: real)
      requires Square(q, 5)
      modifies this
      ensures FibreBranch(q[old(State())], rand) == 4 ==> State() == 4
      ensures old(State()) < 4 ==>
                (State() == FibreBranch(q[old(State())], rand) <==> old(State()) == 0 || FibreBranch(q[old(State())], rand) == 4)
      ensures FibreBranch(q[old(State())], rand) < 4 && old(State()) < 4 ==>
                State() == Xor(old(State()), FibreBranch(q[old(State())], rand))
    {
      CombineUnit(State(), q, 5, 5);
      var out := Times(Unit(5, State()), q, 5);
      var branch := FibreBranch(out, rand);
      if branch == 1 {
        xError := !xError;
      } else if branch == 2 {
        zError := !zError;
      } else if branch == 3 {
        xError := !xError;
        zError := !zError;
      } else if branch == 4 {
        lost := true;
      }
    }
  }

  /** A lost photon stays lost. */
  lemma LostStaysLost(x: real, y: real, z: real, loss: real, length: nat, rand: real)
    requires ProperLoss(x, y, z, loss) && 0.0 <= rand < 1.0
    ensures FibreBranch(Power(Fibre(x, y, z, loss), 5, length)[4], rand) == 4
  {
    hide Fibre;
    FibreIs(x, y, z, loss);
    var p := Power(Fibre(x, y, z, loss), 5, length);
    PowerStochastic(Fibre(x, y, z, loss), 5, length);
    PowerForm(Fibre(x, y, z, loss), 5, length);
    FibreChoice(p[4], rand);
    assert p[4][0] == 0.0 && p[4][1] == 0.0 && p[4][2] == 0.0 && p[4][3] == 0.0;
  }

  // ---- the shortcut for rates that are exactly one ---------------------------------------------------

  predicate HasOne(row: Row) {
    exists j :: 0 <= j < |row| && row[j] == 1.0
  }

  /** The matrix the memory uses for k units of time: no exponentiation when row 0 holds a one. */
  function Dynamic(m: Matrix, n: nat, k: nat): Matrix
    requires Square(m, n) && n > 0
  {
    if HasOne(m[0]) then m else Power(m, n, k)
  }

  lemma {:induction false} IdempotentPower(m: Matrix, n: nat, k: nat)
    requires Square(m, n) && Mul(m, m, n) == m && k >= 1
    ensures Power(m, n, k) == m
  {
    if k == 1 {
      MulIdentityLeft(m, n);
    } else {
      IdempotentPower(m, n, k - 1);
    }
  }

  lemma MulIdentityLeft(m: Matrix, n: nat)
    requires Square(m, n)
    ensures Mul(Identity(n), m, n) == m
  {
    forall i | 0 <= i < n ensures Mul(Identity(n), m, n)[i] == m[i] {
      CombineUnit(i, m, n, n);
    }
  }

  lemma {:induction false} InvolutionPower(m: Matrix, n: nat, k: nat)
    requires Square(m, n) && Mul(m, m, n) == Identity(n)
    ensures Power(m, n, k) == if k % 2 == 0 then Identity(n) else m
  {
    if k > 0 {
      InvolutionPower(m, n, k - 1);
      MulIdentityLeft(m, n);
    }
  }

  /** Every state goes to a certain state. */
  predicate Certain(m: Matrix, n: nat, f: seq<nat>) {
    Square(m, n) && |f| == n && forall i :: 0 <= i < n ==> f[i] < n && m[i] == Unit(n, f[i])
  }

  lemma CertainSquare(m: Matrix, n: nat, f: seq<nat>)
    requires Certain(m, n, f)
    ensures (forall i :: 0 <= i < n ==> f[f[i]] == f[i]) ==> Mul(m, m, n) == m
    ensures (forall i :: 0 <= i < n ==> f[f[i]] == i) ==> Mul(m, m, n) == Identity(n)
  {
    forall i | 0 <= i < n ensures Mul(m, m, n)[i] == Unit(n, f[f[i]]) {
      CombineUnit(f[i], m, n, n);
    }
  }

  /** Where state i goes when row 0 holds a one. */
  function Goes(r: Rates, i: nat): (j: nat)
    requires i < 7
    ensures j < 7
  {
    if r.ex == 1.0 then 4
    else if r.re == 1.0 then 5
    else if r.cm == 1.0 then 6
    else if i >= 4 then i
    else Xor(i, if r.x == 1.0 then 1 else if r.z == 1.0 then 2 else if r.y == 1.0 then 3 else 0)
  }

  lemma MemoryHead(r: Rates)
    ensures Memory(r)[0] == [1.0 - (r.x + r.y + r.z + r.ex + r.re + r.cm), r.x, r.z, r.y, r.ex, r.re, r.cm]
  {
  }

  lemma MemoryOther(r: Rates)
    ensures Memory(r)[4] == [0.0, 0.0, 0.0, 0.0, 1.0 - r.re - r.cm, r.re, r.cm]
    ensures Memory(r)[5] == [0.0, 0.0, 0.0, 0.0, r.ex, 1.0 - r.ex - r.cm, r.cm]
    ensures Memory(r)[6] == [0.0, 0.0, 0.0, 0.0, r.ex, r.re, 1.0 - r.ex - r.re]
  {
  }

  lemma OneRate(r: Rates)
    requires Proper(r) && HasOne(Memory(r)[0])
    ensures || (r.x == 0.0 && r.y == 0.0 && r.z == 0.0 && r.ex == 0.0 && r.re == 0.0 && r.cm == 0.0)
            || r.x == 1.0 || r.y == 1.0 || r.z == 1.0 || r.ex == 1.0 || r.re == 1.0 || r.cm == 1.0
  {
    MemoryHead(r);
    hide Memory;
    var row := Memory(r)[0];
    var j :| 0 <= j < 7 && row[j] == 1.0;
    assert j == 0 || j == 1 || j == 2 || j == 3 || j == 4 || j == 5 || j == 6;
  }

  lemma HeadOne(r: Rates)
    requires Proper(r) && HasOne(Memory(r)[0])
    ensures Memory(r)[0][Goes(r, 0)] == 1.0
  {
    OneRate(r);
    MemoryHead(r);
    hide Memory;
  }

  lemma GoesXor(r: Rates, i: nat)
    requires i < 4
    ensures Goes(r, i) < 4 ==> Xor(i, Goes(r, i)) == Goes(r, 0)
    ensures Goes(r, i) >= 4 ==> Goes(r, i) == Goes(r, 0)
  {
  }

  lemma EntryOnePauli(r: Rates, i: nat)
    requires Proper(r) && HasOne(Memory(r)[0]) && i < 4
    ensures Memory(r)[i][Goes(r, i)] == 1.0
  {
    HeadOne(r);
    GoesXor(r, i);
    MemoryForm(r);
    hide Memory, Goes, Xor, HasOne;
  }

  lemma EntryOneOther(r: Rates, i: nat)
    requires Proper(r) && HasOne(Memory(r)[0]) && 4 <= i < 7
    ensures Memory(r)[i][Goes(r, i)] == 1.0
  {
    OneRate(r);
    MemoryOther(r);
    hide Memory;
    if i == 4 {
    } else if i == 5 {
    }
  }

  lemma {:induction false} EntryBelowSum(v: Row, j: nat)
    requires j < |v| && forall i :: 0 <= i < |v| ==> v[i] >= 0.0
    ensures Sum(v) >= v[j]
    ensures Sum(v) == v[j] ==> forall i :: 0 <= i < |v| && i != j ==> v[i] == 0.0
  {
    var front := v[..|v| - 1];
    if j < |v| - 1 {
      EntryBelowSum(front, j);
      assert front[j] == v[j];
      assert Sum(v) == v[j] ==> v[|v| - 1] == 0.0 && forall i :: 0 <= i < |front| && i != j ==> front[i] == 0.0;
    } else {
      SumNonNegative(front);
    }
  }

  lemma {:induction false} SumNonNegative(v: Row)
    requires forall i :: 0 <= i < |v| ==> v[i] >= 0.0
    ensures Sum(v) >= 0.0
    ensures Sum(v) == 0.0 ==> forall i :: 0 <= i < |v| ==> v[i] == 0.0
  {
    if v != [] {
      SumNonNegative(v[..|v| - 1]);
      assert forall i :: 0 <= i < |v| - 1 ==> v[i] == v[..|v| - 1][i];
    }
  }

  /** A row of probabilities holding a one holds nothing else. */
  lemma OneInRow(v: Row, j: nat)
    requires Stochastic(v) && j < |v| && v[j] == 1.0
    ensures v == Unit(|v|, j)
  {
    EntryBelowSum(v, j);
  }

  lemma CertainRow(r: Rates, i: nat)
    requires Proper(r) && HasOne(Memory(r)[0]) && i < 7
    ensures Memory(r)[i] == Unit(7, Goes(r, i))
  {
    hide Memory;
    if i < 4 {
      EntryOnePauli(r, i);
    } else {
      EntryOneOther(r, i);
    }
    MemoryRow(r, i);
    OneInRow(Memory(r)[i], Goes(r, i));
  }

  lemma GoesTwice(r: Rates, i: nat)
    requires Proper(r) && i < 7
    ensures if r.x == 1.0 || r.y == 1.0 || r.z == 1.0 then Goes(r, Goes(r, i)) == i && Goes(r, 0) > 0
            else Goes(r, Goes(r, i)) == Goes(r, i)
  {
  }

  /** The shortcut is exact for every positive time, except when a Pauli rate is one and the time is
      even: then the memory applies the error where an even number of them cancels. */
  lemma ShortcutExact(r: Rates, k: nat)
    requires Proper(r) && k >= 1
    ensures Dynamic(Memory(r), 7, k) == Power(Memory(r), 7, k) <==>
              !((r.x == 1.0 || r.y == 1.0 || r.z == 1.0) && k % 2 == 0)
  {
    var m := Memory(r);
    if HasOne(m[0]) {
      ShortcutCertain(r, k);
    } else {
      assert m[0][1] == r.x && m[0][2] == r.z && m[0][3] == r.y;
    }
  }

  lemma ShortcutCertain(r: Rates, k: nat)
    requires Proper(r) && k >= 1 && HasOne(Memory(r)[0])
    ensures Memory(r) == Power(Memory(r), 7, k) <==> !((r.x == 1.0 || r.y == 1.0 || r.z == 1.0) && k % 2 == 0)
  {
    hide Memory, Power, Mul, Unit, HasOne, Goes;
    var m, f: seq<nat> := Memory(r), seq(7, i requires 0 <= i < 7 => Goes(r, i));
    forall i | 0 <= i < 7 ensures f[i] < 7 && m[i] == Unit(7, f[i]) {
      CertainRow(r, i);
    }
    forall i | 0 <= i < 7 ensures f[f[i]] == if r.x == 1.0 || r.y == 1.0 || r.z == 1.0 then i else f[i] {
      GoesTwice(r, i);
    }
    CertainSquare(m, 7, f);
    if r.x == 1.0 || r.y == 1.0 || r.z == 1.0 {
      InvolutionPower(m, 7, k);
      GoesTwice(r, 0);
      NotIdentity(f);
    } else {
      IdempotentPower(m, 7, k);
    }
  }

  lemma NotIdentity(f: seq<nat>)
    requires |f| == 7 && 0 < f[0] < 7
    ensures Unit(7, f[0]) != Identity(7)[0]
  {
    assert Unit(7, f[0])[0] == 0.0 && Identity(7)[0][0] == 1.0;
  }
}
