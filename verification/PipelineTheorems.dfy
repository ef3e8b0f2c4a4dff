// What the invariant gives for whole runs of the two-node pipeline.
module PipelineTheorems {
  import opened Basics
  import opened ResourceLists
  import opened Pipeline
  import opened PipelineInvariant

  predicate Comparable<T(==)>(a: seq<T>, b: seq<T>) {
    a <= b || b <= a
  }

  predicate Increasing(s: seq<nat>) {
    forall i, j :: 0 <= i < j < |s| ==> s[i] < s[j]
  }

  /** k * i, as repeated addition. */
  function Offset(k: nat, i: nat): nat {
    if i == 0 then 0 else Offset(k, i - 1) + k
  }

  lemma {:induction false} OffsetIsProduct(k: nat, i: nat)
    ensures Offset(k, i) == k * i
  {
    if i > 0 {
      OffsetIsProduct(k, i - 1);
      assert k * i == k * (i - 1) + k;
    }
  }

  lemma {:induction false} OffsetStep(k: nat, a: nat, b: nat)
    requires a < b
    ensures Offset(k, a) + k <= Offset(k, b)
  {
    if a + 1 < b {
      OffsetStep(k, a, b - 1);
    }
  }

  // ---- flattened chunks ------------------------------------------------------------------

  lemma {:induction false} FlatTake(taken: seq<seq<nat>>, n: nat)
    requires n <= |taken|
    ensures Flat(taken[..n]) <= Flat(taken)
    decreases |taken|
  {
    if n == |taken| {
      assert taken[..n] == taken;
    } else {
      var front := taken[..|taken| - 1];
      FlatTake(front, n);
      assert front[..n] == taken[..n];
    }
  }

  lemma {:induction false} FlatLength(taken: seq<seq<nat>>, k: nat)
    requires Chunked(taken, k)
    ensures |Flat(taken)| == Offset(k, |taken|)
  {
    if taken == [] {
    } else {
      FlatLength(taken[..|taken| - 1], k);
    }
  }

  /** Chunk n sits right after the chunks before it. */
  lemma FlatChunk(taken: seq<seq<nat>>, n: nat)
    requires n < |taken|
    ensures Flat(taken[..n]) + taken[n] <= Flat(taken)
  {
    FlatTake(taken, n + 1);
    assert taken[..n + 1][..n] == taken[..n];
  }

  lemma ChunkSlice(taken: seq<seq<nat>>, k: nat, placed: seq<nat>, n: nat)
    requires Chunked(taken, k) && Flat(taken) <= placed && n < |taken|
    ensures |Flat(taken[..n])| == Offset(k, n) && Offset(k, n) + k <= |placed|
    ensures taken[n] == placed[Offset(k, n)..Offset(k, n) + k]
  {
    FlatChunk(taken, n);
    FlatLength(taken[..n], k);
    var x := Flat(taken[..n]);
    hide Flat, Chunked;
    assert x + taken[n] <= placed;
    assert placed[|x|..|x| + k] == taken[n];
  }

  /** Chunks of equal size cut from comparable sequences agree wherever both exist. */
  lemma SameChunks(a: seq<seq<nat>>, b: seq<seq<nat>>, k: nat, pa: seq<nat>, pb: seq<nat>, n: nat)
    requires Chunked(a, k) && Chunked(b, k) && Flat(a) <= pa && Flat(b) <= pb && Comparable(pa, pb)
    requires n < |a| && n < |b|
    ensures a[n] == b[n]
  {
    ChunkSlice(a, k, pa, n);
    ChunkSlice(b, k, pb, n);
    hide Flat, Chunked;
    SameSlice(pa, pb, Offset(k, n), Offset(k, n) + k);
  }

  lemma SameSlice(pa: seq<nat>, pb: seq<nat>, i: nat, j: nat)
    requires Comparable(pa, pb) && i <= j <= |pa| && j <= |pb|
    ensures pa[i..j] == pb[i..j]
  {
  }

  // ---- promotion -------------------------------------------------------------------------

  lemma {:induction false} PromotedPrefix(taken: seq<seq<nat>>, mine: seq<Outcome>, theirs: seq<Outcome>, n: nat, m: nat)
    requires m <= n <= |taken| && n <= |mine| && n <= |theirs|
    requires forall i :: 0 <= i < n ==> |taken[i]| >= 1
    ensures Promoted(taken, mine, theirs, m) <= Promoted(taken, mine, theirs, n)
    decreases n
  {
    if m < n {
      PromotedPrefix(taken, mine, theirs, n - 1, m);
    }
  }

  /** Both nodes promote the same halves for the same verdicts. */
  lemma {:induction false} PromotedSame(a: seq<seq<nat>>, b: seq<seq<nat>>, outsA: seq<Outcome>, outsB: seq<Outcome>, n: nat)
    requires n <= |a| && n <= |b| && n <= |outsA| && n <= |outsB|
    requires forall i :: 0 <= i < n ==> |a[i]| >= 1 && a[i] == b[i]
    ensures Promoted(a, outsA, outsB, n) == Promoted(b, outsB, outsA, n)
    decreases n
  {
    if n > 0 {
      PromotedSame(a, b, outsA, outsB, n - 1);
    }
  }

  lemma AlignNext(k: nat, a: seq<seq<nat>>, b: seq<seq<nat>>, pa: seq<nat>, pb: seq<nat>, outsA: seq<Outcome>, outsB: seq<Outcome>,
                  na: nat, nb: nat, nextA: seq<nat>, nextB: seq<nat>)
    requires k >= 1 && Chunked(a, k) && Chunked(b, k) && Flat(a) <= pa && Flat(b) <= pb && Comparable(pa, pb)
    requires |a| == |outsA| && |b| == |outsB|
    requires PromotedFrom(nextA, a, outsA, outsB, na) && PromotedFrom(nextB, b, outsB, outsA, nb)
    ensures Comparable(nextA, nextB)
  {
    var n := Min(na, nb);
    forall i | 0 <= i < n ensures a[i] == b[i] {
      SameChunks(a, b, k, pa, pb, i);
    }
    PromotedSame(a, b, outsA, outsB, n);
    PromotedPrefix(a, outsA, outsB, na, n);
    PromotedPrefix(b, outsB, outsA, nb, n);
  }

  // ---- the theorems ----------------------------------------------------------------------

  /** Facts about rule r read off the invariant. */
  lemma RuleFacts(c: Config, t: Traced, r: nat)
    requires Inv(c, t) && r < |c.inputs|
    ensures HistShape(c, t.left) && HistShape(c, t.right)
    ensures r < |t.sys.left.rules| && r < |t.sys.right.rules|
    ensures RuleOk(c.inputs[r], t.sys.left.rules[r], t.left.placed[r], t.left.taken[r], t.left.outs[r], t.left.own[r], t.left.peer[r],
                   t.left.kept[r], t.right.outs[r])
    ensures RuleOk(c.inputs[r], t.sys.right.rules[r], t.right.placed[r], t.right.taken[r], t.right.outs[r], t.right.own[r], t.right.peer[r],
                   t.right.kept[r], t.left.outs[r])
    ensures PromotedFrom(t.left.placed[r + 1], t.left.taken[r], t.left.outs[r], t.right.outs[r], Min(t.left.own[r], t.left.peer[r]))
    ensures PromotedFrom(t.right.placed[r + 1], t.right.taken[r], t.right.outs[r], t.left.outs[r], Min(t.right.own[r], t.right.peer[r]))
  {
    hide RuleOk, PromotedFrom, TableOk, ChannelOk, MeasuringOk;
  }

  lemma BaseStream(c: Config, t: Traced)
    requires Inv(c, t)
    ensures HistShape(c, t.left) && HistShape(c, t.right)
    ensures Comparable(t.left.placed[0], t.right.placed[0]) && Increasing(t.left.placed[0])
    ensures t.sys.left.arrived == t.sys.right.arrived ==> t.left.placed[0] == t.right.placed[0]
  {
    hide RuleOk, PromotedFrom, TableOk, ChannelOk, MeasuringOk;
    var a, b := t.sys.left.arrived, t.sys.right.arrived;
    assert t.left.placed[0] == seq(a, i => i) && t.right.placed[0] == seq(b, i => i);
  }

  lemma {:induction false} PlacedComparable(c: Config, t: Traced, r: nat)
    requires Inv(c, t) && r <= |c.inputs|
    ensures HistShape(c, t.left) && HistShape(c, t.right)
    ensures Comparable(t.left.placed[r], t.right.placed[r])
    decreases r
  {
    hide Inv;
    BaseStream(c, t);
    if r > 0 {
      PlacedComparable(c, t, r - 1);
      RuleFacts(c, t, r - 1);
      AlignNext(c.inputs[r - 1], t.left.taken[r - 1], t.right.taken[r - 1], t.left.placed[r - 1], t.right.placed[r - 1],
                t.left.outs[r - 1], t.right.outs[r - 1], Min(t.left.own[r - 1], t.left.peer[r - 1]),
                Min(t.right.own[r - 1], t.right.peer[r - 1]), t.left.placed[r], t.right.placed[r]);
    }
  }

  lemma FlipInv(c: Config, t: Traced)
    requires Inv(c, t)
    ensures Inv(c, Flip(t)) && HistShape(c, t.left) && HistShape(c, t.right)
    ensures !t.sys.left.failed && !t.sys.right.failed
  {
    hide RuleOk, PromotedFrom, TableOk, ChannelOk, MeasuringOk;
  }

  lemma FromInv(c: Config, t: Traced, left: bool)
    requires Inv(c, t)
    ensures Inv(c, From(t, left)) && HistShape(c, From(t, left).left) && HistShape(c, From(t, left).right)
  {
    hide Inv;
    FlipInv(c, t);
  }

  /** Alignment: in every interleaving the j-th half ever put in a rule at one node is the
      other half of the j-th put there at the other node. */
  lemma Alignment(c: Config, es: seq<(bool, Event)>, r: nat, j: nat)
    requires ValidConfig(c) && r <= |c.inputs|
    requires j < |Run(c, es).left.placed[r]| && j < |Run(c, es).right.placed[r]|
    ensures Run(c, es).left.placed[r][j] == Run(c, es).right.placed[r][j]
  {
    RunInv(c, es);
    PlacedComparable(c, Run(c, es), r);
  }

  /** At either node action i of a rule takes the inputs placed k*i .. k*i+k-1 (Offset is the product), and
      the other node takes the same pairs. */
  lemma ActionInputs(c: Config, es: seq<(bool, Event)>, left: bool, r: nat, i: nat)
    requires ValidConfig(c) && r < |c.inputs|
    requires i < |SideHist(Run(c, es), left).taken[r]|
    ensures var mine, other, k := SideHist(Run(c, es), left), SideHist(Run(c, es), !left), c.inputs[r];
            && Offset(k, i) + k <= |mine.placed[r]|
            && mine.taken[r][i] == mine.placed[r][Offset(k, i)..Offset(k, i) + k]
            && (i < |other.taken[r]| ==> other.taken[r][i] == mine.taken[r][i])
  {
    hide Inv;
    RunInv(c, es);
    FromInv(c, Run(c, es), left);
    InputsAt(c, From(Run(c, es), left), r, i);
  }

  lemma InputsAt(c: Config, t: Traced, r: nat, i: nat)
    requires Inv(c, t) && r < |c.inputs|
    requires HistShape(c, t.left) && HistShape(c, t.right) && i < |t.left.taken[r]|
    ensures var k := c.inputs[r];
            && Offset(k, i) + k <= |t.left.placed[r]|
            && t.left.taken[r][i] == t.left.placed[r][Offset(k, i)..Offset(k, i) + k]
            && (i < |t.right.taken[r]| ==> t.right.taken[r][i] == t.left.taken[r][i])
  {
    hide Inv, RuleOk;
    PlacedComparable(c, t, r);
    TakenFacts(c, t, r);
    ChunkSlice(t.left.taken[r], c.inputs[r], t.left.placed[r], i);
    if i < |t.right.taken[r]| {
      SameChunks(t.left.taken[r], t.right.taken[r], c.inputs[r], t.left.placed[r], t.right.placed[r], i);
    }
  }

  lemma TakenFacts(c: Config, t: Traced, r: nat)
    requires Inv(c, t) && r < |c.inputs|
    ensures HistShape(c, t.left) && HistShape(c, t.right)
    ensures Chunked(t.left.taken[r], c.inputs[r]) && Flat(t.left.taken[r]) <= t.left.placed[r]
    ensures Chunked(t.right.taken[r], c.inputs[r]) && Flat(t.right.taken[r]) <= t.right.placed[r]
  {
    RuleFacts(c, t, r);
  }

  /** Verdicts agree and the program's error() calls are unreachable. */
  lemma VerdictsAgree(c: Config, es: seq<(bool, Event)>, r: nat, i: nat)
    requires ValidConfig(c) && r < |c.inputs|
    requires i < |Run(c, es).left.kept[r]| && i < |Run(c, es).right.kept[r]|
    ensures var t := Run(c, es);
            && !t.sys.left.failed && !t.sys.right.failed
            && i < |t.left.outs[r]| && i < |t.right.outs[r]|
            && t.left.kept[r][i] == t.right.kept[r][i] == (t.left.outs[r][i] == t.right.outs[r][i])
  {
    RunInv(c, es);
    RuleFacts(c, Run(c, es), r);
  }

  lemma NeverFails(c: Config, es: seq<(bool, Event)>)
    requires ValidConfig(c)
    ensures !Run(c, es).sys.left.failed && !Run(c, es).sys.right.failed
  {
    RunInv(c, es);
  }

  /** Tomography: count id i+1 names the same pair at both nodes, and a node stops at exactly maxCount. */
  lemma TomographyPairs(c: Config, es: seq<(bool, Event)>)
    requires ValidConfig(c)
    ensures var l, r := Run(c, es).sys.left, Run(c, es).sys.right;
            && Comparable(l.measured, r.measured)
            && |l.measured| <= c.maxCount && (l.done <==> |l.measured| == c.maxCount)
            && |r.measured| <= c.maxCount && (r.done <==> |r.measured| == c.maxCount)
  {
    RunInv(c, es);
    PlacedComparable(c, Run(c, es), |c.inputs|);
    assert forall t :: Inv(c, t) ==> MeasuringOk(c, t.sys.left, t.left) && MeasuringOk(c, t.sys.right, t.right);
  }

  // ---- order and uniqueness --------------------------------------------------------------

  lemma IncreasingSnoc(s: seq<nat>, x: nat)
    requires Increasing(s) && forall y :: y in s ==> y < x
    ensures Increasing(s + [x])
  {
    var t := s + [x];
    forall i, j | 0 <= i < j < |t| ensures t[i] < t[j] {
      assert t[i] == s[i] && s[i] in s;
    }
  }

  lemma {:induction false} PromotedIncreasing(taken: seq<seq<nat>>, k: nat, mine: seq<Outcome>, theirs: seq<Outcome>, n: nat, placed: seq<nat>)
    requires k >= 1 && Chunked(taken, k) && Flat(taken) <= placed && Increasing(placed)
    requires n <= |taken| && n <= |mine| && n <= |theirs|
    ensures Increasing(Promoted(taken, mine, theirs, n))
    ensures forall x :: x in Promoted(taken, mine, theirs, n) ==> x in Flat(taken[..n])
    decreases n
  {
    if n > 0 {
      PromotedIncreasing(taken, k, mine, theirs, n - 1, placed);
      FlatChunk(taken, n - 1);
      assert taken[..n][..n - 1] == taken[..n - 1];
      var before := Flat(taken[..n - 1]);
      assert before + taken[n - 1] <= placed;
      assert placed[|before|] == taken[n - 1][0];
      forall x | x in before ensures x < taken[n - 1][0] {
        var i :| 0 <= i < |before| && before[i] == x;
        assert placed[i] == x;
      }
      IncreasingSnoc(Promoted(taken, mine, theirs, n - 1), taken[n - 1][0]);
    }
  }

  lemma {:induction false} PlacedIncreasing(c: Config, t: Traced, r: nat)
    requires Inv(c, t) && r <= |c.inputs|
    ensures HistShape(c, t.left)
    ensures Increasing(t.left.placed[r])
    decreases r
  {
    hide Inv;
    BaseStream(c, t);
    if r > 0 {
      PlacedIncreasing(c, t, r - 1);
      RuleFacts(c, t, r - 1);
      PromotedIncreasing(t.left.taken[r - 1], c.inputs[r - 1], t.left.outs[r - 1], t.right.outs[r - 1],
                         Min(t.left.own[r - 1], t.left.peer[r - 1]), t.left.placed[r - 1]);
    }
  }

  /** At either node pairs reach every rule in age order and none twice; hence no pair is measured twice. */
  lemma OldestFirstThroughout(c: Config, es: seq<(bool, Event)>, left: bool, r: nat)
    requires ValidConfig(c) && r <= |c.inputs|
    ensures Increasing(SideHist(Run(c, es), left).placed[r])
    ensures Increasing(Side(Run(c, es), left).measured)
  {
    hide Inv;
    RunInv(c, es);
    FromInv(c, Run(c, es), left);
    LeftIncreasing(c, From(Run(c, es), left), r);
  }

  lemma LeftIncreasing(c: Config, t: Traced, r: nat)
    requires Inv(c, t) && HistShape(c, t.left) && r <= |c.inputs|
    ensures Increasing(t.left.placed[r]) && Increasing(t.sys.left.measured)
  {
    PlacedIncreasing(c, t, r);
    PlacedIncreasing(c, t, |c.inputs|);
    assert MeasuringOk(c, t.sys.left, t.left);
    hide Inv, RulesOk, Promotions, TableOk;
    assert t.sys.left.measured <= t.left.placed[|c.inputs|];
  }

  // ---- quiescence ------------------------------------------------------------------------

  predicate Quiet(c: Config, nd: Node) {
    && nd.ownChannel == [] && nd.peerChannel == [] && !nd.done
    && forall r :: 0 <= r < |c.inputs| && r < |nd.rules| ==> UnlockedCount(nd.rules[r].resources) < c.inputs[r]
  }

  lemma EmptyChannel(delivered: seq<nat>, outs: seq<seq<Outcome>>, r: nat)
    requires |delivered| == |outs| && r < |outs| && forall j :: 0 <= j < |outs| ==> delivered[j] <= |outs[j]|
    requires ChannelOk([], delivered, outs)
    ensures delivered[r] == |outs[r]|
  {
    assert Proj([], r) == Undelivered(r, outs[r], delivered[r]);
    assert |Undelivered(r, outs[r], delivered[r])| == 0;
  }

  /** An idle rule has used up all whole groups of k halves. */
  lemma IdleCounts(k: nat, rule: Rule, placed: seq<nat>, taken: seq<seq<nat>>, mine: seq<Outcome>,
                   own: nat, peer: nat, kept: seq<bool>, theirs: seq<Outcome>)
    requires RuleOk(k, rule, placed, taken, mine, own, peer, kept, theirs) && UnlockedCount(rule.resources) < k
    ensures Offset(k, |taken|) <= |placed| < Offset(k, |taken|) + k
  {
    var resolved := Min(own, peer);
    WaitingLocked(taken, resolved);
    LayoutOps(Waiting(taken, resolved), placed[|Flat(taken)|..], 0, 0);
    FlatLength(taken, k);
  }

  lemma SameQuotient(k: nat, a: nat, b: nat, n: nat)
    requires Offset(k, a) <= n < Offset(k, a) + k && Offset(k, b) <= n < Offset(k, b) + k
    ensures a == b
  {
    if a < b {
      OffsetStep(k, a, b);
    } else if b < a {
      OffsetStep(k, b, a);
    }
  }

  /** Both nodes idle with nothing in flight: a rule's list, actions and verdicts agree, and no half is left locked. */
  lemma IdleRule(c: Config, t: Traced, r: nat)
    requires Inv(c, t) && r < |c.inputs|
    requires Quiet(c, t.sys.left) && Quiet(c, t.sys.right)
    requires HistShape(c, t.left) && HistShape(c, t.right) && t.left.placed[r] == t.right.placed[r]
    ensures t.left.taken[r] == t.right.taken[r]
    ensures t.left.placed[r + 1] == t.right.placed[r + 1]
    ensures t.sys.left.rules[r].resources == t.sys.right.rules[r].resources
            == Fresh(t.left.placed[r][|Flat(t.left.taken[r])|..])
  {
    RuleFacts(c, t, r);
    IdleSide(c, t, r);
    var k, l, h := c.inputs[r], t.left, t.right;
    hide Inv, RuleOk;
    SameQuotient(k, |l.taken[r]|, |h.taken[r]|, |l.placed[r]|);
    forall i | 0 <= i < |l.taken[r]| ensures l.taken[r][i] == h.taken[r][i] {
      SameChunks(l.taken[r], h.taken[r], k, l.placed[r], h.placed[r], i);
    }
    PromotedSame(l.taken[r], h.taken[r], l.outs[r], h.outs[r], |l.taken[r]|);
  }

  lemma IdleSide(c: Config, t: Traced, r: nat)
    requires Inv(c, t) && r < |c.inputs|
    requires Quiet(c, t.sys.left) && Quiet(c, t.sys.right)
    requires HistShape(c, t.left) && HistShape(c, t.right)
    ensures var k, l, h := c.inputs[r], t.left, t.right;
            && k >= 1 && Chunked(l.taken[r], k) && Chunked(h.taken[r], k)
            && Flat(l.taken[r]) <= l.placed[r] && Flat(h.taken[r]) <= h.placed[r]
            && Offset(k, |l.taken[r]|) <= |l.placed[r]| < Offset(k, |l.taken[r]|) + k
            && Offset(k, |h.taken[r]|) <= |h.placed[r]| < Offset(k, |h.taken[r]|) + k
            && |l.outs[r]| == |l.taken[r]| == l.own[r] == h.peer[r]
            && |h.outs[r]| == |h.taken[r]| == h.own[r] == l.peer[r]
            && (|l.taken[r]| == |h.taken[r]| ==>
                 && t.sys.left.rules[r].resources == Fresh(l.placed[r][|Flat(l.taken[r])|..])
                 && t.sys.right.rules[r].resources == Fresh(h.placed[r][|Flat(h.taken[r])|..]))
  {
    RuleFacts(c, t, r);
    IdleChannels(c, t, r);
    hide Inv;
    IdleCounts(c.inputs[r], t.sys.left.rules[r], t.left.placed[r], t.left.taken[r], t.left.outs[r], t.left.own[r], t.left.peer[r],
               t.left.kept[r], t.right.outs[r]);
    IdleCounts(c.inputs[r], t.sys.right.rules[r], t.right.placed[r], t.right.taken[r], t.right.outs[r], t.right.own[r], t.right.peer[r],
               t.right.kept[r], t.left.outs[r]);
    if |t.left.taken[r]| == |t.right.taken[r]| {
      var n := |t.left.taken[r]|;
      assert Waiting(t.left.taken[r], n) == [] && Waiting(t.right.taken[r], n) == [];
    }
  }

  lemma IdleChannels(c: Config, t: Traced, r: nat)
    requires Inv(c, t) && r < |c.inputs|
    requires Quiet(c, t.sys.left) && Quiet(c, t.sys.right)
    ensures HistShape(c, t.left) && HistShape(c, t.right)
    ensures t.left.own[r] == t.right.peer[r] == |t.left.outs[r]|
    ensures t.right.own[r] == t.left.peer[r] == |t.right.outs[r]|
    ensures UnlockedCount(t.sys.left.rules[r].resources) < c.inputs[r] && UnlockedCount(t.sys.right.rules[r].resources) < c.inputs[r]
  {
    hide RuleOk, MeasuringOk, Promotions, TableOk, ChannelOk;
    ListsFacts(c, t.sys.left, t.left, t.right.outs);
    ListsFacts(c, t.sys.right, t.right, t.left.outs);
    EmptyChannel(t.left.own, t.left.outs, r);
    EmptyChannel(t.left.peer, t.right.outs, r);
    EmptyChannel(t.right.own, t.right.outs, r);
    EmptyChannel(t.right.peer, t.left.outs, r);
  }

  lemma {:induction false} IdlePlaced(c: Config, t: Traced, r: nat)
    requires Inv(c, t) && r <= |c.inputs|
    requires Quiet(c, t.sys.left) && Quiet(c, t.sys.right) && t.sys.left.arrived == t.sys.right.arrived
    ensures HistShape(c, t.left) && HistShape(c, t.right)
    ensures t.left.placed[r] == t.right.placed[r]
    decreases r
  {
    hide Inv, Quiet;
    BaseStream(c, t);
    if r > 0 {
      IdlePlaced(c, t, r - 1);
      IdleRule(c, t, r - 1);
    }
  }

  /** Rule r holds the same unlocked halves at both nodes, too few for another action, after the same actions. */
  predicate AtRest(c: Config, t: Traced, r: nat) {
    && r < |c.inputs| && HistShape(c, t.left) && HistShape(c, t.right)
    && r < |t.sys.left.rules| && r < |t.sys.right.rules|
    && t.left.taken[r] == t.right.taken[r]
    && t.sys.left.rules[r].resources == t.sys.right.rules[r].resources
    && UnlockedCount(t.sys.left.rules[r].resources) == |t.sys.left.rules[r].resources| < c.inputs[r]
  }

  /** Conservation at rest: once both nodes got the same pairs and nothing is enabled or in
      flight, the two nodes agree on every purification rule and no half is left locked. */
  lemma QuiescentAgreement(c: Config, es: seq<(bool, Event)>, r: nat)
    requires ValidConfig(c) && r < |c.inputs|
    requires var s := Run(c, es).sys; Quiet(c, s.left) && Quiet(c, s.right) && s.left.arrived == s.right.arrived
    ensures AtRest(c, Run(c, es), r)
  {
    var t := Run(c, es);
    RunInv(c, es);
    IdlePlaced(c, t, r);
    IdleRule(c, t, r);
    IdleChannels(c, t, r);
    ListsFacts(c, t.sys.left, t.left, t.right.outs);
    ListsFacts(c, t.sys.right, t.right, t.left.outs);
    hide Inv, Run;
    FreshOps(t.left.placed[r][|Flat(t.left.taken[r])|..], 0);
  }
}
