// The error bits a purification circuit sees.  Each half of a Bell pair carries an X and
// a Z error flag; gates and measurement move the flags, and a round is accepted when the
// two nodes' outcomes agree.
module Circuits {

  datatype Pauli = Pauli(x: bool, z: bool)

  const CLEAN := Pauli(false, false)

  function Xor(a: Pauli, b: Pauli): Pauli {
    Pauli(a.x != b.x, a.z != b.z)
  }

  function Hadamard(q: Pauli): Pauli {
    Pauli(q.z, q.x)
  }

  /** Target and control after a CNOT: X goes from control to target, Z from target to control. */
  function Cnot(target: Pauli, control: Pauli): (Pauli, Pauli) {
    (Pauli(if control.x then !target.x else target.x, target.z),
     Pauli(control.x, if target.z then !control.z else control.z))
  }

  datatype Purified = Purified(outcome: bool, tool: Pauli, kept: Pauli)

  function XPurify(tool: Pauli, kept: Pauli): Purified {
    var (t, k) := Cnot(tool, kept);
    Purified(!t.x, t, k)
  }

  function ZPurify(tool: Pauli, kept: Pauli): Purified {
    var (k, t) := Cnot(kept, tool);
    var t' := Hadamard(t);
    Purified(!t'.x, t', k)
  }

  /** The errors the gates of one purification draw: on tool and kept qubit before the CNOT, on the tool
      before the Hadamard, and on the tool before the measurement. */
  datatype Noise = Noise(tool: Pauli, kept: Pauli, gate: Pauli, measure: Pauli)

  const QUIET := Noise(CLEAN, CLEAN, CLEAN, CLEAN)

  function NoisyXPurify(tool: Pauli, kept: Pauli, n: Noise): Purified {
    var (t, k) := Cnot(Xor(tool, n.tool), Xor(kept, n.kept));
    var t' := Xor(t, n.measure);
    Purified(!t'.x, t', k)
  }

  function NoisyZPurify(tool: Pauli, kept: Pauli, n: Noise): Purified {
    var (k, t) := Cnot(Xor(kept, n.kept), Xor(tool, n.tool));
    var t' := Xor(Hadamard(Xor(t, n.gate)), n.measure);
    Purified(!t'.x, t', k)
  }

  /** The four purification actions of the link RuleSets: X or Z with one tool, X then Z or Z then X with two. */
  datatype Round = X | Z | XZ | ZX

  function Arity(r: Round): nat {
    if r.X? || r.Z? then 2 else 3
  }

  datatype Action = Action(kept: Pauli, outcome: seq<bool>)

  /** One action at one node: inputs are the kept half, the (X) tool and, with two tools, the Z tool. */
  function RunAction(r: Round, inputs: seq<Pauli>): Action
    requires |inputs| == Arity(r)
  {
    match r
    case X => var p := XPurify(inputs[1], inputs[0]); Action(p.kept, [p.outcome])
    case Z => var p := ZPurify(inputs[1], inputs[0]); Action(p.kept, [p.outcome])
    case XZ =>
      var p := XPurify(inputs[1], inputs[0]);
      var q := ZPurify(inputs[2], p.kept);
      Action(q.kept, [p.outcome, q.outcome])
    case ZX =>
      var q := ZPurify(inputs[2], inputs[0]);
      var p := XPurify(inputs[1], q.kept);
      Action(p.kept, [p.outcome, q.outcome])
  }

  /** The same with the errors drawn by the X and the Z purification. */
  function NoisyAction(r: Round, inputs: seq<Pauli>, nx: Noise, nz: Noise): Action
    requires |inputs| == Arity(r)
  {
    match r
    case X => var p := NoisyXPurify(inputs[1], inputs[0], nx); Action(p.kept, [p.outcome])
    case Z => var p := NoisyZPurify(inputs[1], inputs[0], nz); Action(p.kept, [p.outcome])
    case XZ =>
      var p := NoisyXPurify(inputs[1], inputs[0], nx);
      var q := NoisyZPurify(inputs[2], p.kept, nz);
      Action(q.kept, [p.outcome, q.outcome])
    case ZX =>
      var q := NoisyZPurify(inputs[2], inputs[0], nz);
      var p := NoisyXPurify(inputs[1], q.kept, nx);
      Action(p.kept, [p.outcome, q.outcome])
  }

  /** Gates that draw no error run the circuit. */
  lemma QuietAction(r: Round, inputs: seq<Pauli>)
    requires |inputs| == Arity(r)
    ensures NoisyAction(r, inputs, QUIET, QUIET) == RunAction(r, inputs)
  {
  }

  // ---- pairs as trees of base pairs ------------------------------------------------------

  /** A base pair with the error flags of its two halves, or the pair kept by an action. */
  datatype Tree = Leaf(left: Pauli, right: Pauli) | Fuse(inputs: seq<Tree>)

  /** A full tree whose actions at height i+1 are rounds[i]. */
  predicate Fits(t: Tree, rounds: seq<Round>) {
    match t
    case Leaf(_, _) => rounds == []
    case Fuse(inputs) =>
      && rounds != []
      && |inputs| == Arity(rounds[|rounds| - 1])
      && forall i :: 0 <= i < |inputs| ==> Fits(inputs[i], rounds[..|rounds| - 1])
  }

  function Top(rounds: seq<Round>): Round
    requires rounds != []
  {
    rounds[|rounds| - 1]
  }

  function Below(rounds: seq<Round>): seq<Round>
    requires rounds != []
  {
    rounds[..|rounds| - 1]
  }

  /** Error flags of the half kept at one node. */
  function Half(t: Tree, rounds: seq<Round>, atLeft: bool): Pauli
    requires Fits(t, rounds)
  {
    match t
    case Leaf(l, r) => if atLeft then l else r
    case Fuse(_) => RunAction(Top(rounds), Halves(t.inputs, Below(rounds), atLeft)).kept
  }

  function Halves(ts: seq<Tree>, rounds: seq<Round>, atLeft: bool): (ps: seq<Pauli>)
    requires forall i :: 0 <= i < |ts| ==> Fits(ts[i], rounds)
    ensures |ps| == |ts|
    ensures forall i :: 0 <= i < |ts| ==> ps[i] == Half(ts[i], rounds, atLeft)
  {
    if ts == [] then [] else [Half(ts[0], rounds, atLeft)] + Halves(ts[1..], rounds, atLeft)
  }

  /** Every action in the tree had agreeing outcomes. */
  predicate Accepted(t: Tree, rounds: seq<Round>)
    requires Fits(t, rounds)
  {
    match t
    case Leaf(_, _) => true
    case Fuse(_) =>
      && (forall i :: 0 <= i < |t.inputs| ==> Accepted(t.inputs[i], Below(rounds)))
      && RunAction(Top(rounds), Halves(t.inputs, Below(rounds), true)).outcome
         == RunAction(Top(rounds), Halves(t.inputs, Below(rounds), false)).outcome
  }

  /** The error of the pair: where its two halves differ. */
  function Parity(t: Tree, rounds: seq<Round>): Pauli
    requires Fits(t, rounds)
  {
    Xor(Half(t, rounds, true), Half(t, rounds, false))
  }

  /** Number of base pairs with an error. */
  function Faults(t: Tree): nat {
    match t
    case Leaf(l, r) => if l == r then 0 else 1
    case Fuse(inputs) => FaultsIn(inputs)
  }

  function FaultsIn(ts: seq<Tree>): nat {
    if ts == [] then 0 else Faults(ts[0]) + FaultsIn(ts[1..])
  }

  // ---- parity algebra --------------------------------------------------------------------

  /** What an action does to the parities of its input pairs. */
  function ParityOut(r: Round, e: seq<Pauli>): Pauli
    requires |e| == Arity(r)
  {
    match r
    case X => Pauli(e[0].x, e[0].z != e[1].z)
    case Z => Pauli(e[0].x != e[1].x, e[0].z)
    case _ => Pauli(e[0].x != e[2].x, e[0].z != e[1].z)
  }

  /** When the two nodes' outcomes agree, in terms of parities. */
  predicate ParityAccepts(r: Round, e: seq<Pauli>)
    requires |e| == Arity(r)
  {
    match r
    case X => e[0].x == e[1].x
    case Z => e[0].z == e[1].z
    case XZ => e[0].x == e[1].x && (e[0].z != e[1].z) == e[2].z
    case ZX => e[0].z == e[2].z && (e[0].x != e[2].x) == e[1].x
  }

  /** The circuits run separately at the two nodes compute the parity algebra. */
  lemma ActionParity(r: Round, a: seq<Pauli>, b: seq<Pauli>, e: seq<Pauli>)
    requires |a| == |b| == |e| == Arity(r)
    requires forall i :: 0 <= i < |e| ==> e[i] == Xor(a[i], b[i])
    ensures Xor(RunAction(r, a).kept, RunAction(r, b).kept) == ParityOut(r, e)
    ensures RunAction(r, a).outcome == RunAction(r, b).outcome <==> ParityAccepts(r, e)
  {
    var u, v := RunAction(r, a).outcome, RunAction(r, b).outcome;
    assert |u| == |v| && (|u| == 1 || |u| == 2);
    assert u == v <==> u[0] == v[0] && (|u| == 2 ==> u[1] == v[1]);
  }

  // ---- gate errors -----------------------------------------------------------------------

  /** X purification bit by bit: an odd number of X errors before the reading turns the outcome, Z errors
      of the tool reach the kept half. */
  lemma NoisyXBits(tool: Pauli, kept: Pauli, n: Noise)
    ensures var p := NoisyXPurify(tool, kept, n);
            && p.outcome == (((tool.x != n.tool.x) != (kept.x != n.kept.x)) == n.measure.x)
            && p.kept.x == (kept.x != n.kept.x)
            && p.kept.z == ((kept.z != n.kept.z) != (tool.z != n.tool.z))
            && p.tool.x == !p.outcome && p.tool.z == ((tool.z != n.tool.z) != n.measure.z)
  {
  }

  /** Z purification bit by bit: Z errors up to the Hadamard gate and X errors after it turn the outcome,
      X errors of the tool reach the kept half. */
  lemma NoisyZBits(tool: Pauli, kept: Pauli, n: Noise)
    ensures var p := NoisyZPurify(tool, kept, n);
            && p.outcome == (((tool.z != n.tool.z) != (kept.z != n.kept.z)) == (n.gate.z != n.measure.x))
            && p.kept.z == (kept.z != n.kept.z)
            && p.kept.x == ((kept.x != n.kept.x) != (tool.x != n.tool.x))
            && p.tool.x == !p.outcome && p.tool.z == (((tool.x != n.tool.x) != n.gate.x) != n.measure.z)
  {
  }

  function Differ(a: Noise, b: Noise): Noise {
    Noise(Xor(a.tool, b.tool), Xor(a.kept, b.kept), Xor(a.gate, b.gate), Xor(a.measure, b.measure))
  }

  /** What turns the reading of a Z purification after its CNOT. */
  function Reading(n: Noise): Pauli {
    Pauli(false, n.gate.z != n.measure.x)
  }

  /** Inputs that carry the errors of the gates: those before a CNOT stay where they are, a wrong reading
      is an error of the tool, and an error of the kept half between the two purifications is one at the
      start together with one of the first tool that hides it from the first reading. */
  function Absorbed(r: Round, q: seq<Pauli>, nx: Noise, nz: Noise): (t: seq<Pauli>)
    requires |q| == Arity(r)
    ensures |t| == Arity(r)
  {
    match r
    case X =>
      [Xor(q[0], nx.kept), Xor(Xor(q[1], nx.tool), Pauli(nx.measure.x, false))]
    case Z =>
      [Xor(q[0], nz.kept), Xor(Xor(q[1], nz.tool), Reading(nz))]
    case XZ =>
      [Xor(Xor(q[0], nx.kept), nz.kept),
       Xor(Xor(q[1], nx.tool), Pauli(nx.measure.x != nz.kept.x, false)),
       Xor(Xor(q[2], nz.tool), Reading(nz))]
    case ZX =>
      [Xor(Xor(q[0], nx.kept), nz.kept),
       Xor(Xor(q[1], nx.tool), Pauli(nx.measure.x, false)),
       Xor(Xor(q[2], nz.tool), Pauli(false, Reading(nz).z != nx.kept.z))]
  }

  /** One purification, when another error d hits the kept half afterwards. */
  lemma XAbsorbs(tool: Pauli, kept: Pauli, n: Noise, d: Pauli)
    ensures var p := NoisyXPurify(tool, kept, n);
            var q := XPurify(Xor(Xor(tool, n.tool), Pauli(n.measure.x != d.x, false)), Xor(Xor(kept, n.kept), d));
            q.outcome == p.outcome && q.kept == Xor(p.kept, d)
  {
  }

  lemma ZAbsorbs(tool: Pauli, kept: Pauli, n: Noise, d: Pauli)
    ensures var p := NoisyZPurify(tool, kept, n);
            var q := ZPurify(Xor(Xor(tool, n.tool), Pauli(false, Reading(n).z != d.z)), Xor(Xor(kept, n.kept), d));
            q.outcome == p.outcome && q.kept == Xor(p.kept, d)
  {
  }

  lemma XorAlgebra(a: Pauli, b: Pauli, c: Pauli, d: Pauli)
    ensures Xor(a, CLEAN) == a && Xor(Xor(a, b), c) == Xor(Xor(a, c), b)
    ensures Xor(Xor(a, b), Xor(c, d)) == Xor(Xor(a, c), Xor(b, d))
  {
  }

  /** An action with gate errors is the error-free action on those inputs. */
  lemma NoiseIsInputError(r: Round, q: seq<Pauli>, nx: Noise, nz: Noise)
    requires |q| == Arity(r)
    ensures NoisyAction(r, q, nx, nz) == RunAction(r, Absorbed(r, q, nx, nz))
  {
    hide NoisyXPurify, NoisyZPurify, XPurify, ZPurify, Xor;
    XorAlgebra(Xor(q[0], nx.kept), CLEAN, CLEAN, CLEAN);
    XorAlgebra(Xor(q[0], nz.kept), CLEAN, CLEAN, CLEAN);
    XorAlgebra(q[0], nx.kept, nz.kept, CLEAN);
    match r
    case X =>
      XAbsorbs(q[1], q[0], nx, CLEAN);
      XorAlgebra(NoisyXPurify(q[1], q[0], nx).kept, CLEAN, CLEAN, CLEAN);
    case Z =>
      ZAbsorbs(q[1], q[0], nz, CLEAN);
      XorAlgebra(NoisyZPurify(q[1], q[0], nz).kept, CLEAN, CLEAN, CLEAN);
    case XZ =>
      XAbsorbs(q[1], q[0], nx, nz.kept);
      var k := NoisyXPurify(q[1], q[0], nx).kept;
      ZAbsorbs(q[2], k, nz, CLEAN);
      XorAlgebra(Xor(k, nz.kept), CLEAN, CLEAN, CLEAN);
      XorAlgebra(NoisyZPurify(q[2], k, nz).kept, CLEAN, CLEAN, CLEAN);
    case ZX =>
      ZAbsorbs(q[2], q[0], nz, nx.kept);
      var k := NoisyZPurify(q[2], q[0], nz).kept;
      XAbsorbs(q[1], k, nx, CLEAN);
      XorAlgebra(Xor(k, nx.kept), CLEAN, CLEAN, CLEAN);
      XorAlgebra(NoisyXPurify(q[1], k, nx).kept, CLEAN, CLEAN, CLEAN);
  }

  /** Two nodes with gate errors of their own: output parity and acceptance are those of the pairs' parities
      with the difference of the two nodes' errors added. */
  lemma NoisyParity(r: Round, a: seq<Pauli>, b: seq<Pauli>, e: seq<Pauli>, ax: Noise, az: Noise, bx: Noise, bz: Noise)
    requires |a| == |b| == |e| == Arity(r)
    requires forall i :: 0 <= i < |e| ==> e[i] == Xor(a[i], b[i])
    ensures var u, v := NoisyAction(r, a, ax, az), NoisyAction(r, b, bx, bz);
            var f := Absorbed(r, e, Differ(ax, bx), Differ(az, bz));
            Xor(u.kept, v.kept) == ParityOut(r, f) && (u.outcome == v.outcome <==> ParityAccepts(r, f))
  {
    NoiseIsInputError(r, a, ax, az);
    NoiseIsInputError(r, b, bx, bz);
    var f := Absorbed(r, e, Differ(ax, bx), Differ(az, bz));
    AbsorbedDiffer(r, a, b, e, ax, az, bx, bz);
    hide NoisyAction, RunAction, Absorbed, ParityOut, ParityAccepts;
    ActionParity(r, Absorbed(r, a, ax, az), Absorbed(r, b, bx, bz), f);
  }

  lemma AbsorbedDiffer(r: Round, a: seq<Pauli>, b: seq<Pauli>, e: seq<Pauli>, ax: Noise, az: Noise, bx: Noise, bz: Noise)
    requires |a| == |b| == |e| == Arity(r)
    requires forall i :: 0 <= i < |e| ==> e[i] == Xor(a[i], b[i])
    ensures var f, u, v := Absorbed(r, e, Differ(ax, bx), Differ(az, bz)), Absorbed(r, a, ax, az), Absorbed(r, b, bx, bz);
            forall i :: 0 <= i < |f| ==> f[i] == Xor(u[i], v[i])
  {
    hide Xor;
    assert e[0] == Xor(a[0], b[0]) && e[1] == Xor(a[1], b[1]) && (|e| == 3 ==> e[2] == Xor(a[2], b[2]));
    var xa, xb, za, zb := Pauli(ax.measure.x, false), Pauli(bx.measure.x, false), Reading(az), Reading(bz);
    match r
    case X =>
      XorSums(a[0], b[0], ax.kept, bx.kept, CLEAN, CLEAN);
      FlipSums(ax.measure, bx.measure, CLEAN, CLEAN);
      XorSums(a[1], b[1], ax.tool, bx.tool, xa, xb);
    case Z =>
      XorSums(a[0], b[0], az.kept, bz.kept, CLEAN, CLEAN);
      ReadingSums(az, bz, CLEAN, CLEAN);
      XorSums(a[1], b[1], az.tool, bz.tool, za, zb);
    case XZ =>
      XorSums(a[0], b[0], ax.kept, bx.kept, az.kept, bz.kept);
      FlipSums(ax.measure, bx.measure, az.kept, bz.kept);
      XorSums(a[1], b[1], ax.tool, bx.tool, Pauli(ax.measure.x != az.kept.x, false), Pauli(bx.measure.x != bz.kept.x, false));
      ReadingSums(az, bz, CLEAN, CLEAN);
      XorSums(a[2], b[2], az.tool, bz.tool, za, zb);
    case ZX =>
      XorSums(a[0], b[0], ax.kept, bx.kept, az.kept, bz.kept);
      FlipSums(ax.measure, bx.measure, CLEAN, CLEAN);
      XorSums(a[1], b[1], ax.tool, bx.tool, xa, xb);
      ReadingSums(az, bz, ax.kept, bx.kept);
      XorSums(a[2], b[2], az.tool, bz.tool, Pauli(false, za.z != ax.kept.z), Pauli(false, zb.z != bx.kept.z));
  }

  lemma FlipSums(m: Pauli, n: Pauli, k: Pauli, l: Pauli)
    ensures Xor(Pauli(m.x, false), Pauli(n.x, false)) == Pauli(Xor(m, n).x, false)
    ensures Xor(Pauli(m.x != k.x, false), Pauli(n.x != l.x, false)) == Pauli(Xor(m, n).x != Xor(k, l).x, false)
  {
  }

  lemma ReadingSums(m: Noise, n: Noise, k: Pauli, l: Pauli)
    ensures Xor(Reading(m), Reading(n)) == Reading(Differ(m, n))
    ensures Xor(Pauli(false, Reading(m).z != k.z), Pauli(false, Reading(n).z != l.z)) == Pauli(false, Reading(Differ(m, n)).z != Xor(k, l).z)
  {
  }

  lemma XorSums(a: Pauli, b: Pauli, c: Pauli, d: Pauli, m: Pauli, n: Pauli)
    ensures Xor(Xor(a, b), Xor(c, d)) == Xor(Xor(a, c), Xor(b, d))
    ensures Xor(Xor(Xor(a, b), Xor(c, d)), Xor(m, n)) == Xor(Xor(Xor(a, c), m), Xor(Xor(b, d), n))
  {
    XorAlgebra(a, b, c, d);
    XorAlgebra(Xor(a, c), Xor(b, d), m, n);
    hide Xor;
  }

  /** Reading errors leave the kept half alone; the action is accepted all the same exactly when no X error
      hit a reading it makes. */
  lemma ReadingErrors(r: Round, q: seq<Pauli>, nx: Noise, nz: Noise)
    requires |q| == Arity(r)
    requires nx.(measure := CLEAN) == QUIET && nz.(measure := CLEAN) == QUIET
    ensures var u, v := NoisyAction(r, q, nx, nz), NoisyAction(r, q, QUIET, QUIET);
            && u.kept == v.kept
            && (u.outcome == v.outcome <==> (r.Z? || !nx.measure.x) && (r.X? || !nz.measure.x))
  {
    var e := seq(Arity(r), _ => CLEAN);
    NoisyParity(r, q, q, e, nx, nz, QUIET, QUIET);
    hide NoisyAction;
  }

  function Parities(ts: seq<Tree>, rounds: seq<Round>): (es: seq<Pauli>)
    requires forall i :: 0 <= i < |ts| ==> Fits(ts[i], rounds)
    ensures |es| == |ts|
    ensures forall i :: 0 <= i < |ts| ==> es[i] == Parity(ts[i], rounds)
  {
    if ts == [] then [] else [Parity(ts[0], rounds)] + Parities(ts[1..], rounds)
  }

  lemma FuseParity(t: Tree, rounds: seq<Round>)
    requires t.Fuse? && Fits(t, rounds)
    ensures Parity(t, rounds) == ParityOut(Top(rounds), Parities(t.inputs, Below(rounds)))
    ensures Accepted(t, rounds) <==>
              && (forall i :: 0 <= i < |t.inputs| ==> Accepted(t.inputs[i], Below(rounds)))
              && ParityAccepts(Top(rounds), Parities(t.inputs, Below(rounds)))
  {
    ActionParity(Top(rounds), Halves(t.inputs, Below(rounds), true), Halves(t.inputs, Below(rounds), false),
                 Parities(t.inputs, Below(rounds)));
  }

  lemma FaultsOf(ts: seq<Tree>)
    requires |ts| == 2 || |ts| == 3
    ensures FaultsIn(ts) == Faults(ts[0]) + Faults(ts[1]) + if |ts| == 3 then Faults(ts[2]) else 0
  {
    assert FaultsIn(ts[1..]) == Faults(ts[1]) + FaultsIn(ts[1..][1..]);
    if |ts| == 3 {
      assert FaultsIn(ts[1..][1..]) == Faults(ts[2]) + FaultsIn(ts[1..][1..][1..]);
    }
  }

  /** The same for inputs whose parities are known. */
  lemma Fused(ts: seq<Tree>, rounds: seq<Round>, e: seq<Pauli>)
    requires Fits(Fuse(ts), rounds) && |e| == |ts|
    requires forall i :: 0 <= i < |ts| ==> Accepted(ts[i], Below(rounds)) && Parity(ts[i], Below(rounds)) == e[i]
    ensures Parity(Fuse(ts), rounds) == ParityOut(Top(rounds), e)
    ensures Accepted(Fuse(ts), rounds) <==> ParityAccepts(Top(rounds), e)
    ensures FaultsIn(ts) == Faults(ts[0]) + Faults(ts[1]) + if |ts| == 3 then Faults(ts[2]) else 0
  {
    FuseParity(Fuse(ts), rounds);
    assert Parities(ts, Below(rounds)) == e;
    FaultsOf(ts);
  }

  // ---- distance --------------------------------------------------------------------------

  /** Rounds that make an undetected X error of the output twice as expensive; the others do so for Z. */
  predicate GuardsX(r: Round) {
    r.X? || r.ZX?
  }

  /** Least number of faulty base pairs behind an accepted pair with an X (a Z) error. */
  function Weight(rounds: seq<Round>, x: bool): nat {
    if rounds == [] then 1
    else if GuardsX(Top(rounds)) == x then 2 * Weight(Below(rounds), x)
    else Weight(Below(rounds), x)
  }

  lemma {:induction false} WeightPositive(rounds: seq<Round>, x: bool)
    ensures Weight(rounds, x) >= 1
  {
    if rounds != [] {
      WeightPositive(Below(rounds), x);
    }
  }

  /** Distance: an accepted pair with an X (Z) error contains at least 2^(rounds guarding X (Z)) faulty base pairs. */
  lemma {:induction false} Distance(t: Tree, rounds: seq<Round>)
    requires Fits(t, rounds) && Accepted(t, rounds)
    ensures Parity(t, rounds).x ==> Faults(t) >= Weight(rounds, true)
    ensures Parity(t, rounds).z ==> Faults(t) >= Weight(rounds, false)
    decreases t
  {
    match t
    case Leaf(_, _) =>
    case Fuse(_) =>
      FuseParity(t, rounds);
      FaultsOf(t.inputs);
      forall i | 0 <= i < |t.inputs|
        ensures Parity(t.inputs[i], Below(rounds)).x ==> Faults(t.inputs[i]) >= Weight(Below(rounds), true)
        ensures Parity(t.inputs[i], Below(rounds)).z ==> Faults(t.inputs[i]) >= Weight(Below(rounds), false)
      {
        Distance(t.inputs[i], Below(rounds));
      }
  }

  lemma {:induction false} NoFaultsClean(t: Tree, rounds: seq<Round>)
    requires Fits(t, rounds) && Faults(t) == 0
    ensures Parity(t, rounds) == CLEAN && Accepted(t, rounds)
    decreases t
  {
    match t
    case Leaf(_, _) =>
    case Fuse(ts) =>
      FaultsOf(ts);
      forall i | 0 <= i < |ts|
        ensures Parity(ts[i], Below(rounds)) == CLEAN && Accepted(ts[i], Below(rounds))
      {
        NoFaultsClean(ts[i], Below(rounds));
      }
      hide Accepted, Parity;
      Fused(ts, rounds, seq(|ts|, _ => CLEAN));
  }

  /** One fault never hides: the pair it is accepted into carries an error. */
  lemma {:induction false} SingleFaultShows(t: Tree, rounds: seq<Round>)
    requires Fits(t, rounds) && Accepted(t, rounds) && Faults(t) == 1
    ensures Parity(t, rounds) != CLEAN
    decreases t
  {
    match t
    case Leaf(_, _) =>
    case Fuse(ts) =>
      FaultsOf(ts);
      FuseParity(t, rounds);
      hide Accepted, Parity, RunAction, ParityOut, ParityAccepts, Half, Halves;
      var e := Parities(ts, Below(rounds));
      forall i | 0 <= i < |ts| ensures Faults(ts[i]) <= 1 ==> (e[i] == CLEAN <==> Faults(ts[i]) == 0) {
        if Faults(ts[i]) == 0 {
          NoFaultsClean(ts[i], Below(rounds));
        } else if Faults(ts[i]) == 1 {
          SingleFaultShows(ts[i], Below(rounds));
        }
      }
      OneDirty(Top(rounds), e);
  }

  /** An accepted action with one faulty input shows it. */
  lemma OneDirty(r: Round, e: seq<Pauli>)
    requires |e| == Arity(r) && ParityAccepts(r, e)
    requires (if e[0] == CLEAN then 0 else 1) + (if e[1] == CLEAN then 0 else 1) + (if |e| == 3 && e[2] != CLEAN then 1 else 0) == 1
    ensures ParityOut(r, e) != CLEAN
  {
  }
}
