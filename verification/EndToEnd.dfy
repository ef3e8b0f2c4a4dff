// The pipeline and the circuits together: every pair the tomography measures is the root
// of an accepted purification tree over base pairs, the same tree at both nodes.
module EndToEnd {
  import opened Basics
  import opened Pipeline
  import opened PipelineInvariant
  import opened PipelineTheorems
  import opened Circuits
  import opened Detection

  /** Error flags of the two halves of each base pair of the stream. */
  type Base = nat -> (Pauli, Pauli)

  /** First action that kept half q, or |taken|. */
  function KeptBy(taken: seq<seq<nat>>, q: nat): (i: nat)
    ensures i <= |taken|
    ensures i < |taken| ==> taken[i] != [] && taken[i][0] == q
    ensures forall j :: 0 <= j < i && taken[j] != [] ==> taken[j][0] != q
  {
    if taken == [] || (taken[0] != [] && taken[0][0] == q) then 0 else 1 + KeptBy(taken[1..], q)
  }

  /** What pair q is made of when it is placed in rule r, according to one node's actions. */
  function Provenance(base: Base, taken: seq<seq<seq<nat>>>, r: nat, q: nat): Tree
    decreases r, 0
  {
    var leaf := Leaf(base(q).0, base(q).1);
    if r == 0 || r > |taken| then leaf else
    var i := KeptBy(taken[r - 1], q);
    if i == |taken[r - 1]| then leaf else Fuse(Provenances(base, taken, r - 1, taken[r - 1][i]))
  }

  function Provenances(base: Base, taken: seq<seq<seq<nat>>>, r: nat, qs: seq<nat>): (ts: seq<Tree>)
    ensures |ts| == |qs|
    ensures forall u :: 0 <= u < |qs| ==> ts[u] == Provenance(base, taken, r, qs[u])
    decreases r, 1, |qs|
  {
    if qs == [] then [] else [Provenance(base, taken, r, qs[0])] + Provenances(base, taken, r, qs[1..])
  }

  predicate Matches(c: Config, rounds: seq<Round>) {
    && ValidConfig(c)
    && |rounds| == |c.inputs|
    && forall r :: 0 <= r < |rounds| ==> c.inputs[r] == Arity(rounds[r])
  }

  predicate AllFit(ts: seq<Tree>, rounds: seq<Round>) {
    forall u :: 0 <= u < |ts| ==> Fits(ts[u], rounds)
  }

  /** Gates, memories and measurements of one node added no error: each outcome is the circuit's. */
  predicate NoiseFree(c: Config, rounds: seq<Round>, base: Base, h: Hist, atLeft: bool)
    requires HistShape(c, h) && Matches(c, rounds)
  {
    forall r, i :: 0 <= r < |rounds| && 0 <= i < |h.outs[r]| && i < |h.taken[r]| ==>
      var ts := Provenances(base, h.taken, r, h.taken[r][i]);
      |ts| == Arity(rounds[r]) && AllFit(ts, rounds[..r]) ==>
        h.outs[r][i] == RunAction(rounds[r], Halves(ts, rounds[..r], atLeft)).outcome
  }

  // ---- where a placed pair comes from ----------------------------------------------------

  lemma {:induction false} PromotedFromAction(taken: seq<seq<nat>>, mine: seq<Outcome>, theirs: seq<Outcome>, n: nat, q: nat) returns (i: nat)
    requires n <= |taken| && n <= |mine| && n <= |theirs|
    requires forall j :: 0 <= j < n ==> |taken[j]| >= 1
    requires q in Promoted(taken, mine, theirs, n)
    ensures i < n && taken[i][0] == q && mine[i] == theirs[i]
    decreases n
  {
    if q in Promoted(taken, mine, theirs, n - 1) {
      i := PromotedFromAction(taken, mine, theirs, n - 1, q);
    } else {
      i := n - 1;
    }
  }

  lemma LaterChunksLarger(taken: seq<seq<nat>>, k: nat, placed: seq<nat>, j: nat, u: nat, i: nat)
    requires k >= 1 && Chunked(taken, k) && Flat(taken) <= placed && Increasing(placed) && j < i < |taken| && u < k
    ensures taken[j][u] < taken[i][0]
  {
    ChunkSlice(taken, k, placed, j);
    ChunkSlice(taken, k, placed, i);
    OffsetStep(k, j, i);
    assert placed[Offset(k, j) + u] == taken[j][u] && placed[Offset(k, i)] == taken[i][0];
  }

  /** Pair numbers in increasing chunks occur once. */
  lemma KeptByUnique(taken: seq<seq<nat>>, k: nat, placed: seq<nat>, i: nat)
    requires k >= 1 && Chunked(taken, k) && Flat(taken) <= placed && Increasing(placed) && i < |taken|
    ensures KeptBy(taken, taken[i][0]) == i
  {
    var j := KeptBy(taken, taken[i][0]);
    if j < i {
      LaterChunksLarger(taken, k, placed, j, 0, i);
    }
  }

  lemma InPlaced(taken: seq<seq<nat>>, k: nat, placed: seq<nat>, i: nat, u: nat)
    requires Chunked(taken, k) && Flat(taken) <= placed && i < |taken| && u < k
    ensures taken[i][u] in placed
  {
    ChunkSlice(taken, k, placed, i);
    assert taken[i][u] == placed[Offset(k, i) + u];
  }

  /** The accepted action that put pair q in rule r + 1 at the left node; the right node ran it on the same pairs. */
  lemma Origin(c: Config, t: Traced, r: nat, q: nat) returns (i: nat)
    requires Inv(c, t) && r < |c.inputs|
    requires HistShape(c, t.left) && HistShape(c, t.right)
    requires q in t.left.placed[r + 1]
    ensures i < |t.left.taken[r]| && i == KeptBy(t.left.taken[r], q)
    ensures i < |t.left.outs[r]| && i < |t.right.outs[r]| && t.left.outs[r][i] == t.right.outs[r][i]
    ensures i < |t.right.taken[r]| && t.right.taken[r][i] == t.left.taken[r][i]
    ensures |t.left.taken[r][i]| == c.inputs[r] >= 1
    ensures forall u :: 0 <= u < c.inputs[r] ==> t.left.taken[r][i][u] in t.left.placed[r] && t.left.taken[r][i][u] in t.right.placed[r]
  {
    hide Inv;
    RuleFacts(c, t, r);
    PlacedIncreasing(c, t, r);
    PlacedComparable(c, t, r);
    var k, l, h := c.inputs[r], t.left, t.right;
    i := PromotedFromAction(l.taken[r], l.outs[r], h.outs[r], Min(l.own[r], l.peer[r]), q);
    OriginRight(k, t.sys.right.rules[r], h.placed[r], h.taken[r], h.outs[r], h.own[r], h.peer[r], h.kept[r], l.outs[r]);
    OriginRight(k, t.sys.left.rules[r], l.placed[r], l.taken[r], l.outs[r], l.own[r], l.peer[r], l.kept[r], h.outs[r]);
    hide RuleOk;
    KeptByUnique(l.taken[r], k, l.placed[r], i);
    SameChunks(l.taken[r], h.taken[r], k, l.placed[r], h.placed[r], i);
    forall u | 0 <= u < k ensures l.taken[r][i][u] in l.placed[r] && l.taken[r][i][u] in h.placed[r] {
      InPlaced(l.taken[r], k, l.placed[r], i, u);
      InPlaced(h.taken[r], k, h.placed[r], i, u);
    }
  }

  lemma OriginRight(k: nat, rule: Rule, placed: seq<nat>, taken: seq<seq<nat>>, mine: seq<Outcome>,
                    own: nat, peer: nat, kept: seq<bool>, theirs: seq<Outcome>)
    requires RuleOk(k, rule, placed, taken, mine, own, peer, kept, theirs)
    ensures k >= 1 && Chunked(taken, k) && |taken| == |mine| && Flat(taken) <= placed
  {
  }

  // ---- both nodes see the same trees -----------------------------------------------------

  /** The right node's record of the action that kept pair q. */
  lemma OriginSame(c: Config, t: Traced, r: nat, q: nat, i: nat)
    requires Inv(c, t) && r < |c.inputs|
    requires HistShape(c, t.left) && HistShape(c, t.right)
    requires i < |t.right.taken[r]| && |t.right.taken[r][i]| >= 1 && t.right.taken[r][i][0] == q
    ensures KeptBy(t.right.taken[r], q) == i
  {
    hide Inv;
    RuleFacts(c, t, r);
    var k, h := c.inputs[r], t.right;
    OriginRight(k, t.sys.right.rules[r], h.placed[r], h.taken[r], h.outs[r], h.own[r], h.peer[r], h.kept[r], t.left.outs[r]);
    hide RuleOk;
    FlipInv(c, t);
    PlacedIncreasing(c, Flip(t), r);
    KeptByUnique(h.taken[r], k, h.placed[r], i);
  }

  lemma {:induction false} SameTrees(c: Config, t: Traced, base: Base, r: nat, q: nat)
    requires Inv(c, t) && r <= |c.inputs|
    requires HistShape(c, t.left) && HistShape(c, t.right)
    requires q in t.left.placed[r]
    ensures Provenance(base, t.left.taken, r, q) == Provenance(base, t.right.taken, r, q)
    decreases r
  {
    hide Inv;
    if r > 0 {
      var i := Origin(c, t, r - 1, q);
      OriginSame(c, t, r - 1, q, i);
      var qs := t.left.taken[r - 1][i];
      forall u | 0 <= u < |qs|
        ensures Provenance(base, t.left.taken, r - 1, qs[u]) == Provenance(base, t.right.taken, r - 1, qs[u])
      {
        SameTrees(c, t, base, r - 1, qs[u]);
      }
      assert Provenances(base, t.left.taken, r - 1, qs) == Provenances(base, t.right.taken, r - 1, qs);
    }
  }

  /** A pair placed in rule r is the root of an accepted tree of height r; t.left is the node `atLeft` names. */
  lemma {:induction false} PlacedAccepted(c: Config, t: Traced, rounds: seq<Round>, base: Base, atLeft: bool, r: nat, q: nat)
    requires Inv(c, t) && r <= |c.inputs| && Matches(c, rounds)
    requires HistShape(c, t.left) && HistShape(c, t.right)
    requires NoiseFree(c, rounds, base, t.left, atLeft) && NoiseFree(c, rounds, base, t.right, !atLeft)
    requires q in t.left.placed[r]
    ensures Fits(Provenance(base, t.left.taken, r, q), rounds[..r])
    ensures Accepted(Provenance(base, t.left.taken, r, q), rounds[..r])
    decreases r
  {
    hide Inv;
    if r > 0 {
      var i := Origin(c, t, r - 1, q);
      var qs := t.left.taken[r - 1][i];
      var ts := Provenances(base, t.left.taken, r - 1, qs);
      forall u | 0 <= u < |qs|
        ensures Fits(ts[u], rounds[..r - 1]) && Accepted(ts[u], rounds[..r - 1])
        ensures ts[u] == Provenance(base, t.right.taken, r - 1, qs[u])
      {
        PlacedAccepted(c, t, rounds, base, atLeft, r - 1, qs[u]);
        SameTrees(c, t, base, r - 1, qs[u]);
      }
      assert ts == Provenances(base, t.right.taken, r - 1, qs);
      assert Below(rounds[..r]) == rounds[..r - 1] && Top(rounds[..r]) == rounds[r - 1];
      assert AllFit(ts, rounds[..r - 1]);
      assert Provenance(base, t.left.taken, r, q) == Fuse(ts);
    }
  }

  // ---- the base pairs of a tree are distinct ---------------------------------------------

  function Leaves(taken: seq<seq<seq<nat>>>, r: nat, q: nat): seq<nat>
    decreases r, 0
  {
    if r == 0 || r > |taken| then [q] else
    var i := KeptBy(taken[r - 1], q);
    if i == |taken[r - 1]| then [q] else LeavesOf(taken, r - 1, taken[r - 1][i])
  }

  function LeavesOf(taken: seq<seq<seq<nat>>>, r: nat, qs: seq<nat>): seq<nat>
    decreases r, 1, |qs|
  {
    if qs == [] then [] else Leaves(taken, r, qs[0]) + LeavesOf(taken, r, qs[1..])
  }

  function Faulty(base: Base, leaves: seq<nat>): nat {
    if leaves == [] then 0 else (if base(leaves[0]).0 == base(leaves[0]).1 then 0 else 1) + Faulty(base, leaves[1..])
  }

  lemma {:induction false} FaultyAppend(base: Base, a: seq<nat>, b: seq<nat>)
    ensures Faulty(base, a + b) == Faulty(base, a) + Faulty(base, b)
  {
    if a == [] {
      assert a + b == b;
    } else {
      assert (a + b)[1..] == a[1..] + b;
      FaultyAppend(base, a[1..], b);
    }
  }

  /** The faults of a provenance tree are the faulty ones among its base pairs. */
  lemma {:induction false} FaultsAreLeaves(base: Base, taken: seq<seq<seq<nat>>>, r: nat, q: nat)
    ensures Faults(Provenance(base, taken, r, q)) == Faulty(base, Leaves(taken, r, q))
    decreases r, 0
  {
    assert Faulty(base, [q]) == (if base(q).0 == base(q).1 then 0 else 1) + Faulty(base, []);
    if 0 < r <= |taken| && KeptBy(taken[r - 1], q) < |taken[r - 1]| {
      FaultsAreLeavesOf(base, taken, r - 1, taken[r - 1][KeptBy(taken[r - 1], q)]);
    }
  }

  lemma {:induction false} FaultsAreLeavesOf(base: Base, taken: seq<seq<seq<nat>>>, r: nat, qs: seq<nat>)
    ensures FaultsIn(Provenances(base, taken, r, qs)) == Faulty(base, LeavesOf(taken, r, qs))
    decreases r, 1, |qs|
  {
    if qs != [] {
      FaultsAreLeaves(base, taken, r, qs[0]);
      FaultsAreLeavesOf(base, taken, r, qs[1..]);
      FaultyAppend(base, Leaves(taken, r, qs[0]), LeavesOf(taken, r, qs[1..]));
      assert Provenances(base, taken, r, qs)[1..] == Provenances(base, taken, r, qs[1..]);
    }
  }

  /** s is increasing, starts with q, and stays below every pair of `placed` after `last`. */
  predicate Span(s: seq<nat>, q: nat, last: nat, placed: seq<nat>) {
    && s != [] && s[0] == q && Increasing(s)
    && forall b, x :: b in placed && last < b && x in s ==> x < b
  }

  lemma SpanJoin(a: seq<nat>, b: seq<nat>, p: nat, q: nat, last: nat, placed: seq<nat>)
    requires Span(a, p, p, placed) && Span(b, q, last, placed) && q in placed && p < q <= last
    ensures Span(a + b, p, last, placed)
  {
    var s := a + b;
    forall i, j | 0 <= i < j < |s| ensures s[i] < s[j] {
      if i < |a| <= j {
        assert s[i] in a && s[i] < q;
      }
    }
  }

  lemma {:induction false} LeavesSpan(c: Config, t: Traced, r: nat, q: nat)
    requires Inv(c, t) && r <= |c.inputs|
    requires HistShape(c, t.left) && HistShape(c, t.right) && q in t.left.placed[r]
    ensures Span(Leaves(t.left.taken, r, q), q, q, t.left.placed[r])
    decreases r, 0
  {
    hide Inv;
    if r > 0 {
      var taken := t.left.taken[r - 1];
      var i := Origin(c, t, r - 1, q);
      var qs := taken[i];
      assert qs[0] == q;
      ChunkOrdered(c, t, r - 1, i);
      LeavesOfSpan(c, t, r - 1, qs);
      forall b | b in t.left.placed[r] && q < b ensures b in t.left.placed[r - 1] && qs[|qs| - 1] < b {
        var j := Origin(c, t, r - 1, b);
        assert taken[j][0] == b;
        if j < i {
          ChunksOrdered(c, t, r - 1, j, 0, i);
        } else if i < j {
          ChunksOrdered(c, t, r - 1, i, |qs| - 1, j);
        }
      }
    }
  }

  lemma {:induction false} LeavesOfSpan(c: Config, t: Traced, r: nat, qs: seq<nat>)
    requires Inv(c, t) && r <= |c.inputs| && qs != [] && Increasing(qs)
    requires HistShape(c, t.left) && HistShape(c, t.right) && forall x :: x in qs ==> x in t.left.placed[r]
    ensures Span(LeavesOf(t.left.taken, r, qs), qs[0], qs[|qs| - 1], t.left.placed[r])
    decreases r, 1, |qs|
  {
    hide Inv;
    LeavesSpan(c, t, r, qs[0]);
    var a := Leaves(t.left.taken, r, qs[0]);
    if |qs| == 1 {
      assert LeavesOf(t.left.taken, r, qs[1..]) == [] && a + [] == a;
    } else {
      LeavesOfSpan(c, t, r, qs[1..]);
      SpanJoin(a, LeavesOf(t.left.taken, r, qs[1..]), qs[0], qs[1], qs[|qs| - 1], t.left.placed[r]);
    }
  }

  lemma ChunksOrdered(c: Config, t: Traced, r: nat, j: nat, u: nat, i: nat)
    requires Inv(c, t) && r < |c.inputs| && HistShape(c, t.left) && j < i < |t.left.taken[r]| && u < c.inputs[r]
    ensures u < |t.left.taken[r][j]| && t.left.taken[r][i] != []
    ensures t.left.taken[r][j][u] < t.left.taken[r][i][0]
  {
    hide Inv, Flat;
    TakenFacts(c, t, r);
    PlacedIncreasing(c, t, r);
    LaterChunksLarger(t.left.taken[r], c.inputs[r], t.left.placed[r], j, u, i);
  }

  lemma ChunkOrdered(c: Config, t: Traced, r: nat, i: nat)
    requires Inv(c, t) && r < |c.inputs| && HistShape(c, t.left) && i < |t.left.taken[r]|
    ensures Increasing(t.left.taken[r][i])
  {
    hide Inv, Flat;
    TakenFacts(c, t, r);
    PlacedIncreasing(c, t, r);
    ChunkSlice(t.left.taken[r], c.inputs[r], t.left.placed[r], i);
    var o, k, p := Offset(c.inputs[r], i), c.inputs[r], t.left.placed[r];
    assert forall u :: 0 <= u < k ==> t.left.taken[r][i][u] == p[o + u];
  }

  // ---- theorems --------------------------------------------------------------------------

  /** Every pair either node measures: accepted under the whole schedule, and the same pair with the same
      history under the same count id at the other node. */
  lemma MeasuredAccepted(c: Config, rounds: seq<Round>, base: Base, es: seq<(bool, Event)>, left: bool, m: nat)
    requires Matches(c, rounds)
    requires NoiseFree(c, rounds, base, Run(c, es).left, true) && NoiseFree(c, rounds, base, Run(c, es).right, false)
    requires m < |Side(Run(c, es), left).measured|
    ensures var run := Run(c, es); var q := Side(run, left).measured[m];
            var t := Provenance(base, SideHist(run, left).taken, |rounds|, q);
            && Fits(t, rounds) && Accepted(t, rounds)
            && (m < |Side(run, !left).measured| ==>
                 Side(run, !left).measured[m] == q && Provenance(base, SideHist(run, !left).taken, |rounds|, q) == t)
  {
    hide Inv, NoiseFree;
    RunInv(c, es);
    TomographyPairs(c, es);
    FromInv(c, Run(c, es), left);
    MeasuredTree(c, rounds, base, From(Run(c, es), left), left, m);
  }

  lemma SameMeasured(c: Config, rounds: seq<Round>, run: Traced, m: nat)
    requires Matches(c, rounds) && Comparable(run.sys.left.measured, run.sys.right.measured) && m < |run.sys.left.measured|
    ensures m < |run.sys.right.measured| ==> run.sys.right.measured[m] == run.sys.left.measured[m]
    ensures |c.inputs| == |rounds| && rounds[..|rounds|] == rounds
  {
  }

  lemma MeasuredTree(c: Config, rounds: seq<Round>, base: Base, run: Traced, atLeft: bool, m: nat)
    requires Matches(c, rounds) && Inv(c, run) && HistShape(c, run.left) && HistShape(c, run.right)
    requires NoiseFree(c, rounds, base, run.left, atLeft) && NoiseFree(c, rounds, base, run.right, !atLeft)
    requires Comparable(run.sys.left.measured, run.sys.right.measured) && m < |run.sys.left.measured|
    ensures var q := run.sys.left.measured[m];
            var t := Provenance(base, run.left.taken, |rounds|, q);
            && Fits(t, rounds) && Accepted(t, rounds)
            && (m < |run.sys.right.measured| ==>
                 run.sys.right.measured[m] == q && Provenance(base, run.right.taken, |rounds|, q) == t)
  {
    hide *;
    SameMeasured(c, rounds, run, m);
    MeasuredPlaced(c, run, m);
    var q := run.sys.left.measured[m];
    PlacedAccepted(c, run, rounds, base, atLeft, |rounds|, q);
    SameTrees(c, run, base, |rounds|, q);
  }

  lemma MeasuredPlaced(c: Config, t: Traced, m: nat)
    requires Inv(c, t) && m < |t.sys.left.measured|
    ensures HistShape(c, t.left) && t.sys.left.measured[m] in t.left.placed[|c.inputs|]
  {
    hide RuleOk, TableOk, ChannelOk, Promotions;
    assert MeasuringOk(c, t.sys.left, t.left);
  }

  /** The link RuleSets: a pair either node measures with an X (Z) error has at least 2^k faulty base pairs
      behind it, and none has exactly one, except under type 1001, with no rounds, or with one round. */
  lemma MeasuredDistance(c: Config, s: Scheme, n: nat, base: Base, es: seq<(bool, Event)>, left: bool, m: nat)
    requires Matches(c, Schedule(s, n))
    requires NoiseFree(c, Schedule(s, n), base, Run(c, es).left, true) && NoiseFree(c, Schedule(s, n), base, Run(c, es).right, false)
    requires m < |Side(Run(c, es), left).measured|
    ensures var rounds := Schedule(s, n); var run := Run(c, es);
            var t := Provenance(base, SideHist(run, left).taken, |rounds|, Side(run, left).measured[m]);
            && Fits(t, rounds)
            && (Parity(t, rounds).x ==> Faults(t) >= Power(GuardCount(s, RuleCount(s, n), true)))
            && (Parity(t, rounds).z ==> Faults(t) >= Power(GuardCount(s, RuleCount(s, n), false)))
            && (Faults(t) == 1 ==> n == 0 || s.Type1001? || (n == 1 && !s.Type2002?))
  {
    var rounds := Schedule(s, n);
    MeasuredAccepted(c, rounds, base, es, left, m);
    var t := Provenance(base, SideHist(Run(c, es), left).taken, |rounds|, Side(Run(c, es), left).measured[m]);
    hide Run, Provenance, NoiseFree;
    SchemeDistance(s, n, t);
    SchemeSingleFault(s, n);
  }

  /** The base pairs behind a pair either node measures are distinct, so its faults count distinct faulty base pairs. */
  lemma MeasuredLeavesDistinct(c: Config, es: seq<(bool, Event)>, base: Base, left: bool, m: nat)
    requires ValidConfig(c) && m < |Side(Run(c, es), left).measured|
    ensures var taken, n := SideHist(Run(c, es), left).taken, |c.inputs|; var q := Side(Run(c, es), left).measured[m];
            && Increasing(Leaves(taken, n, q))
            && Faults(Provenance(base, taken, n, q)) == Faulty(base, Leaves(taken, n, q))
  {
    hide Inv;
    RunInv(c, es);
    FromInv(c, Run(c, es), left);
    var run := From(Run(c, es), left);
    MeasuredPlaced(c, run, m);
    LeavesSpan(c, run, |c.inputs|, run.sys.left.measured[m]);
    FaultsAreLeaves(base, run.left.taken, |c.inputs|, run.sys.left.measured[m]);
  }
}
