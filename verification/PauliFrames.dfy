// Error flags of any number of qubits under any list of Hadamard and CNOT gates, with the
// random gate errors as insertions before each gate.
module PauliFrames {
  import opened Circuits

  /** The error flags of n qubits. */
  type Frame = seq<Pauli>

  datatype Gate = H(qubit: nat) | CX(control: nat, target: nat)

  predicate Fit(g: Gate, n: nat) {
    match g
    case H(q) => q < n
    case CX(c, t) => c < n && t < n
  }

  predicate AllFit(gates: seq<Gate>, n: nat) {
    forall i :: 0 <= i < |gates| ==> Fit(gates[i], n)
  }

  /** A CNOT has two qubits; the code does not ask for that. */
  predicate TwoQubits(g: Gate) {
    g.CX? ==> g.control != g.target
  }

  predicate AllTwoQubits(gates: seq<Gate>) {
    forall i :: 0 <= i < |gates| ==> TwoQubits(gates[i])
  }

  /** A CNOT changes the target's X flag, then the control's Z flag, in place. */
  function Apply(g: Gate, f: Frame): (r: Frame)
    requires Fit(g, |f|)
    ensures |r| == |f|
  {
    match g
    case H(q) => f[q := Hadamard(f[q])]
    case CX(c, t) =>
      var flipped := if f[c].x then f[t := Pauli(!f[t].x, f[t].z)] else f;
      if flipped[t].z then flipped[c := Pauli(flipped[c].x, !flipped[c].z)] else flipped
  }

  /** On two qubits that is the gate of the purification circuits. */
  lemma ApplyIsCnot(c: nat, t: nat, f: Frame)
    requires c < |f| && t < |f| && c != t
    ensures var gate := Cnot(f[t], f[c]);
            Apply(CX(c, t), f) == f[t := gate.0][c := gate.1]
  {
  }

  /** On one qubit it erases that qubit's errors. */
  lemma SelfCnotErases(q: nat, f: Frame)
    requires q < |f|
    ensures Apply(CX(q, q), f) == f[q := CLEAN]
  {
  }

  function Propagate(gates: seq<Gate>, f: Frame): (r: Frame)
    requires AllFit(gates, |f|)
    ensures |r| == |f|
    decreases |gates|
  {
    if gates == [] then f else Propagate(gates[1..], Apply(gates[0], f))
  }

  function Add(f: Frame, g: Frame): (r: Frame)
    requires |f| == |g|
    ensures |r| == |f|
  {
    seq(|f|, i requires 0 <= i < |f| => Xor(f[i], g[i]))
  }

  function Clean(n: nat): (r: Frame)
    ensures |r| == n
  {
    seq(n, _ => CLEAN)
  }

  function Backwards(gates: seq<Gate>): (r: seq<Gate>)
    ensures |r| == |gates|
  {
    if gates == [] then [] else Backwards(gates[1..]) + [gates[0]]
  }

  // ---- linearity -----------------------------------------------------------------------------------

  lemma GateLinear(g: Gate, a: Frame, b: Frame)
    requires |a| == |b| && Fit(g, |a|)
    ensures Apply(g, Add(a, b)) == Add(Apply(g, a), Apply(g, b))
  {
    if g.CX? && g.control == g.target {
      SelfCnotErases(g.control, Add(a, b));
      SelfCnotErases(g.control, a);
      SelfCnotErases(g.control, b);
    } else if g.CX? {
      ApplyIsCnot(g.control, g.target, Add(a, b));
      ApplyIsCnot(g.control, g.target, a);
      ApplyIsCnot(g.control, g.target, b);
    }
  }

  /** Propagation is linear over exclusive or. */
  lemma {:induction false} PropagateLinear(gates: seq<Gate>, a: Frame, b: Frame)
    requires |a| == |b| && AllFit(gates, |a|)
    ensures Propagate(gates, Add(a, b)) == Add(Propagate(gates, a), Propagate(gates, b))
    decreases |gates|
  {
    if gates != [] {
      GateLinear(gates[0], a, b);
      PropagateLinear(gates[1..], Apply(gates[0], a), Apply(gates[0], b));
    }
  }

  // ---- undoing -------------------------------------------------------------------------------------

  lemma GateTwice(g: Gate, f: Frame)
    requires Fit(g, |f|) && TwoQubits(g)
    ensures Apply(g, Apply(g, f)) == f
  {
    if g.CX? {
      ApplyIsCnot(g.control, g.target, f);
      ApplyIsCnot(g.control, g.target, Apply(g, f));
    }
  }

  /** A gate undoes itself on every frame exactly when it is not a CNOT of a qubit with itself. */
  lemma UndoesItself(g: Gate, n: nat)
    requires Fit(g, n)
    ensures (forall f: Frame :: |f| == n ==> Apply(g, Apply(g, f)) == f) <==> TwoQubits(g)
  {
    if TwoQubits(g) {
      forall f: Frame | |f| == n ensures Apply(g, Apply(g, f)) == f {
        GateTwice(g, f);
      }
    } else {
      var f := Clean(n)[g.target := Pauli(true, false)];
      SelfCnotErases(g.target, f);
      SelfCnotErases(g.target, Apply(g, f));
      assert Apply(g, Apply(g, f))[g.target] != f[g.target];
    }
  }

  lemma {:induction false} BackwardsFit(gates: seq<Gate>, n: nat)
    requires AllFit(gates, n)
    ensures AllFit(Backwards(gates), n)
  {
    if gates != [] {
      BackwardsFit(gates[1..], n);
    }
  }

  lemma {:induction false} PropagateAppend(a: seq<Gate>, b: seq<Gate>, f: Frame)
    requires AllFit(a, |f|) && AllFit(b, |f|)
    ensures AllFit(a + b, |f|) && Propagate(a + b, f) == Propagate(b, Propagate(a, f))
    decreases |a|
  {
    if a == [] {
      assert a + b == b;
    } else {
      assert (a + b)[1..] == a[1..] + b;
      PropagateAppend(a[1..], b, Apply(a[0], f));
    }
  }

  /** The reversed list undoes any circuit. */
  lemma {:induction false} ReverseUndoes(gates: seq<Gate>, f: Frame)
    requires AllFit(gates, |f|) && AllTwoQubits(gates)
    ensures AllFit(Backwards(gates), |f|) && Propagate(Backwards(gates), Propagate(gates, f)) == f
    decreases |gates|
  {
    BackwardsFit(gates, |f|);
    if gates != [] {
      var g := Apply(gates[0], f);
      ReverseUndoes(gates[1..], g);
      PropagateAppend(Backwards(gates[1..]), [gates[0]], Propagate(gates[1..], g));
      PropagateOne(gates[0], g);
      GateTwice(gates[0], f);
    }
  }

  lemma PropagateOne(g: Gate, f: Frame)
    requires Fit(g, |f|)
    ensures Propagate([g], f) == Apply(g, f)
  {
    assert [g][1..] == [];
  }

  // ---- commutation -----------------------------------------------------------------------------------

  /** Whether two errors on one qubit anticommute. */
  function Twist(a: Pauli, b: Pauli): bool {
    (a.x && b.z) != (a.z && b.x)
  }

  /** Whether two frames anticommute: the symplectic product. */
  function Product(a: Frame, b: Frame): bool
    requires |a| == |b|
  {
    if a == [] then false else Twist(a[0], b[0]) != Product(a[1..], b[1..])
  }

  lemma {:induction false} ProductUpdate(a: Frame, b: Frame, i: nat, p: Pauli, q: Pauli)
    requires |a| == |b| && i < |a|
    ensures Product(a[i := p], b[i := q]) == (Product(a, b) != (Twist(a[i], b[i]) != Twist(p, q)))
  {
    if i == 0 {
      assert a[0 := p][1..] == a[1..] && b[0 := q][1..] == b[1..];
    } else {
      assert a[i := p][1..] == a[1..][i - 1 := p] && b[i := q][1..] == b[1..][i - 1 := q];
      ProductUpdate(a[1..], b[1..], i - 1, p, q);
    }
  }

  lemma GateKeepsProduct(g: Gate, a: Frame, b: Frame)
    requires |a| == |b| && Fit(g, |a|) && TwoQubits(g)
    ensures Product(Apply(g, a), Apply(g, b)) == Product(a, b)
  {
    match g
    case H(q) =>
      ProductUpdate(a, b, q, Hadamard(a[q]), Hadamard(b[q]));
    case CX(c, t) =>
      var (ta, ca) := Cnot(a[t], a[c]);
      var (tb, cb) := Cnot(b[t], b[c]);
      ApplyIsCnot(c, t, a);
      ApplyIsCnot(c, t, b);
      ProductUpdate(a, b, t, ta, tb);
      ProductUpdate(a[t := ta], b[t := tb], c, ca, cb);
      hide Product;
  }

  /** No circuit changes whether two errors commute. */
  lemma {:induction false} CircuitKeepsProduct(gates: seq<Gate>, a: Frame, b: Frame)
    requires |a| == |b| && AllFit(gates, |a|) && AllTwoQubits(gates)
    ensures Product(Propagate(gates, a), Propagate(gates, b)) == Product(a, b)
    decreases |gates|
  {
    if gates != [] {
      GateKeepsProduct(gates[0], a, b);
      CircuitKeepsProduct(gates[1..], Apply(gates[0], a), Apply(gates[0], b));
    }
  }

  // ---- gate errors -----------------------------------------------------------------------------------

  predicate NoiseFor(noise: seq<Frame>, gates: seq<Gate>, n: nat) {
    |noise| == |gates| && forall i :: 0 <= i < |noise| ==> |noise[i]| == n
  }

  /** Every gate first suffers its random error, then propagates. */
  function Noisy(gates: seq<Gate>, noise: seq<Frame>, f: Frame): (r: Frame)
    requires AllFit(gates, |f|) && NoiseFor(noise, gates, |f|)
    ensures |r| == |f|
    decreases |gates|
  {
    if gates == [] then f else Noisy(gates[1..], noise[1..], Apply(gates[0], Add(f, noise[0])))
  }

  /** The insertions, each propagated through the gates after it, added up. */
  function Contribution(gates: seq<Gate>, noise: seq<Frame>, n: nat): (r: Frame)
    requires AllFit(gates, n) && NoiseFor(noise, gates, n)
    ensures |r| == n
    decreases |gates|
  {
    if gates == [] then Clean(n)
    else Add(Propagate(gates, noise[0]), Contribution(gates[1..], noise[1..], n))
  }

  lemma AddClean(f: Frame)
    ensures Add(f, Clean(|f|)) == f
  {
  }

  lemma AddAssociates(a: Frame, b: Frame, c: Frame)
    requires |a| == |b| == |c|
    ensures Add(Add(a, b), c) == Add(a, Add(b, c))
  {
  }

  /** A noisy run is the noise-free run plus the propagated insertions. */
  lemma {:induction false} NoiseAdds(gates: seq<Gate>, noise: seq<Frame>, f: Frame)
    requires AllFit(gates, |f|) && NoiseFor(noise, gates, |f|)
    ensures Noisy(gates, noise, f) == Add(Propagate(gates, f), Contribution(gates, noise, |f|))
    decreases |gates|
  {
    var n := |f|;
    if gates == [] {
      AddClean(f);
    } else {
      var hit := Apply(gates[0], Add(f, noise[0]));
      NoiseAdds(gates[1..], noise[1..], hit);
      PropagateLinear(gates, f, noise[0]);
      assert Propagate(gates[1..], hit) == Propagate(gates, Add(f, noise[0]));
      AddAssociates(Propagate(gates, f), Propagate(gates, noise[0]), Contribution(gates[1..], noise[1..], n));
    }
  }

  // ---- the purification circuits ---------------------------------------------------------------------

  /** Kept half, then tool, after the gates of an X purification and of a Z purification. */
  function XGates(): seq<Gate> { [CX(0, 1)] }
  function ZGates(): seq<Gate> { [CX(1, 0), H(1)] }

  lemma NoisyTwo(g: Gate, f: Frame, a: Frame)
    requires Fit(g, 2) && |f| == |a| == 2
    ensures Noisy([g], [a], f) == Apply(g, Add(f, a))
  {
    assert [g][1..] == [] && [a][1..] == [];
    assert AllFit([g], 2) && NoiseFor([a], [g], 2);
  }

  /** A purification with gate errors is such a noisy run of its gates, then the reading error on the tool. */
  lemma XPurifyIsNoisy(tool: Pauli, kept: Pauli, n: Noise)
    ensures var r, p := Noisy(XGates(), [[n.kept, n.tool]], [kept, tool]), NoisyXPurify(tool, kept, n);
            p.kept == r[0] && p.tool == Xor(r[1], n.measure) && p.outcome == !p.tool.x
  {
    var f, a := [kept, tool], [n.kept, n.tool];
    NoisyTwo(CX(0, 1), f, a);
    var g := Add(f, a);
    assert g[0] == Xor(kept, n.kept) && g[1] == Xor(tool, n.tool);
    ApplyIsCnot(0, 1, g);
  }

  lemma ZPurifyIsNoisy(tool: Pauli, kept: Pauli, n: Noise)
    ensures var r, p := Noisy(ZGates(), [[n.kept, n.tool], [CLEAN, n.gate]], [kept, tool]), NoisyZPurify(tool, kept, n);
            p.kept == r[0] && p.tool == Xor(r[1], n.measure) && p.outcome == !p.tool.x
  {
    var f, a, b := [kept, tool], [n.kept, n.tool], [CLEAN, n.gate];
    var gates, noise := ZGates(), [a, b];
    assert gates[0] == CX(1, 0) && gates[1..] == [H(1)] && noise[0] == a && noise[1..] == [b];
    assert AllFit(gates, 2) && NoiseFor(noise, gates, 2);
    var g := Add(f, a);
    assert g[0] == Xor(kept, n.kept) && g[1] == Xor(tool, n.tool);
    ApplyIsCnot(1, 0, g);
    var u := Apply(CX(1, 0), g);
    NoisyTwo(H(1), u, b);
    assert Noisy(gates, noise, f) == Apply(H(1), Add(u, b));
    assert Add(u, b)[0] == u[0] && Add(u, b)[1] == Xor(u[1], n.gate);
  }
}
