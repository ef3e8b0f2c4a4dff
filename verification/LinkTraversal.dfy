// The traversal on a link is a run of the pipeline: every turn of the engine's loops is one
// event of the node, and what a measuring rule sends carries the node's count.
module LinkTraversal {
  import opened Basics
  import opened ResourceLists
  import opened Conditions
  import opened Traversal
  import P = Pipeline
  import I = PipelineInvariant

  /** A node's list as the engine holds it: every half under the neighbour's address. */
  function Tag(s: seq<Entry<nat>>, partner: int): (t: seq<Entry<Held>>)
    ensures |t| == |s|
    ensures forall i :: 0 <= i < |s| ==> t[i] == Entry(Held(partner, s[i].qubit), s[i].lock)
  {
    seq(|s|, i requires 0 <= i < |s| => Entry(Held(partner, s[i].qubit), s[i].lock))
  }

  function Named(qs: seq<nat>, partner: int): (t: seq<Held>)
    ensures |t| == |qs|
  {
    seq(|qs|, i requires 0 <= i < |qs| => Held(partner, qs[i]))
  }

  lemma {:induction false} TagPick(s: seq<Entry<nat>>, k: nat, partner: int)
    ensures UnlockedCount(Tag(s, partner)) == UnlockedCount(s)
    ensures TopUnlocked(Tag(s, partner), k) == Named(TopUnlocked(s, k), partner)
    ensures DropUnlocked(Tag(s, partner), k) == Tag(DropUnlocked(s, k), partner)
  {
    if s != [] {
      assert Tag(s, partner)[1..] == Tag(s[1..], partner);
      TagPick(s[1..], if s[0].lock.Unlocked? && k > 0 then k - 1 else k, partner);
    }
  }

  lemma {:induction false} TagAction(s: seq<Entry<nat>>, k: nat, a: int, partner: int)
    requires k >= 1
    ensures AfterAction(Tag(s, partner), k, a) == Tag(AfterAction(s, k, a), partner)
  {
    if s != [] {
      assert Tag(s, partner)[1..] == Tag(s[1..], partner);
      if s[0].lock.Unlocked? {
        TagPick(s[1..], k - 1, partner);
      } else {
        TagAction(s[1..], k, a, partner);
      }
    }
  }

  /** What every reachable node satisfies and a traversal needs. */
  ghost predicate LinkOk(c: P.Config, nd: P.Node) {
    && P.ValidConfig(c) && |nd.rules| == |c.inputs| + 1
    && |nd.measured| <= c.maxCount && (nd.done <==> |nd.measured| == c.maxCount)
    && forall i :: 0 <= i < |nd.rules[|c.inputs|].resources| ==> nd.rules[|c.inputs|].resources[i].lock.Unlocked?
  }

  lemma NodesAreOk(c: P.Config, nd: P.Node, h: P.Hist, theirs: seq<seq<P.Outcome>>)
    requires I.LocalInv(c, nd, h, theirs)
    ensures LinkOk(c, nd)
  {
    hide I.RuleOk, I.TableOk, I.Promotions, I.ChannelOk;
  }

  /** The rule of the RuleSet with index r. */
  function RuleOf(c: P.Config, nd: P.Node, partner: int, r: nat): Rule
    requires |nd.rules| == |c.inputs| + 1 && r <= |c.inputs|
  {
    var list := Tag(nd.rules[r].resources, partner);
    if r < |c.inputs| then Rule([Enough(partner, c.inputs[r])], Purify(c.inputs[r], nd.rules[r].nextAction), list)
    else Rule([Count(|nd.measured|, c.maxCount)], Measure(|nd.measured|, c.maxCount), list)
  }

  /** The node's RuleSet as the engine holds it. */
  function RulesOf(c: P.Config, nd: P.Node, partner: int): (rules: seq<Rule>)
    requires |nd.rules| == |c.inputs| + 1
    ensures |rules| == |c.inputs| + 1 && forall r :: 0 <= r < |rules| ==> rules[r] == RuleOf(c, nd, partner, r)
  {
    seq(|c.inputs| + 1, r requires 0 <= r < |c.inputs| + 1 => RuleOf(c, nd, partner, r))
  }

  lemma RuleOfOk(c: P.Config, nd: P.Node, partner: int, r: nat)
    requires LinkOk(c, nd) && r <= |c.inputs|
    ensures WellFormed(RuleOf(c, nd, partner, r)) && SharedWith(RuleOf(c, nd, partner, r).resources, partner)
    ensures r == |c.inputs| ==> LinkMeasuring(RuleOf(c, nd, partner, r), |nd.measured|, c.maxCount, partner)
  {
  }

  lemma RulesOfOk(c: P.Config, nd: P.Node, partner: int)
    requires LinkOk(c, nd)
    ensures RulesWellFormed(RulesOf(c, nd, partner))
  {
    forall r | 0 <= r <= |c.inputs| ensures WellFormed(RulesOf(c, nd, partner)[r]) {
      RuleOfOk(c, nd, partner, r);
    }
  }

  /** A turn of purification rule r is the event Act(r), whatever the outcome. */
  lemma PurifyIsAct(c: P.Config, nd: P.Node, partner: int, r: nat, o: P.Outcome)
    requires LinkOk(c, nd) && !nd.done && r < |c.inputs| && nd.rules[r].resources != []
    ensures var t, e := CheckRun(RuleOf(c, nd, partner, r)), P.Act(r, o);
            && (P.Enabled(c, nd, e) <==> !t.packet.NotSatisfied?)
            && (P.Enabled(c, nd, e) ==>
                  && LinkOk(c, P.NodeStep(c, nd, e)) && P.NodeStep(c, nd, e).done == nd.done
                  && RulesOf(c, P.NodeStep(c, nd, e), partner) == RulesOf(c, nd, partner)[r := t.rule]
                  && t.packet == Report(nd.rules[r].nextAction, Named(TopUnlocked(nd.rules[r].resources, c.inputs[r]), partner))
                  && !Finished(t.rule.clauses))
  {
    var rule, k, a, list := RuleOf(c, nd, partner, r), c.inputs[r], nd.rules[r].nextAction, nd.rules[r].resources;
    RuleOfOk(c, nd, partner, r);
    hide AfterAction, UnlockedCount, TopUnlocked, CheckRun, DropUnlocked;
    PurifyTurn(rule, k, a);
    TagPick(list, k, partner);
    TagAction(list, k, a, partner);
  }

  /** A turn of the measuring rule is the event Measure; its packet carries the node's next count and the
      half measured, and the running time exactly when the node is then done. */
  lemma MeasureIsMeasure(c: P.Config, nd: P.Node, partner: int)
    requires LinkOk(c, nd) && !nd.done
    ensures P.Enabled(c, nd, P.Measure) <==> nd.rules[|c.inputs|].resources != []
    ensures P.Enabled(c, nd, P.Measure) ==>
              var t, nd' := CheckRun(RuleOf(c, nd, partner, |c.inputs|)), P.NodeStep(c, nd, P.Measure);
              && LinkOk(c, nd') && |nd'.measured| == |nd.measured| + 1 && nd.measured == nd'.measured[..|nd.measured|]
              && t.packet == Measured(|nd'.measured|, Held(partner, nd'.measured[|nd.measured|]), nd'.done)
              && RulesOf(c, nd', partner) == RulesOf(c, nd, partner)[|c.inputs| := t.rule]
              && (Finished(t.rule.clauses) <==> nd'.done)
  {
    var n := |c.inputs|;
    var list := nd.rules[n].resources;
    RuleOfOk(c, nd, partner, n);
    TagPick(list, 1, partner);
    if list != [] {
      AllUnlockedOps(Tag(list, partner));
      MeasureTurn(RuleOf(c, nd, partner, n), |nd.measured|, c.maxCount, partner);
      assert Named(TopUnlocked(list, 1), partner)[0] == Held(partner, list[0].qubit);
      hide CheckRun, UnlockedCount, Finished;
      assert Tag(list, partner)[1..] == Tag(DropUnlocked(list, 1), partner);
      assert [Count(|nd.measured|, c.maxCount)][0 := Count(|nd.measured| + 1, c.maxCount)] == [Count(|nd.measured| + 1, c.maxCount)];
    }
  }

  // ---- whole traversals --------------------------------------------------------------------------

  /** The events es, each enabled, take nd to nd'. */
  ghost predicate Steps(c: P.Config, nd: P.Node, es: seq<P.Event>, nd': P.Node)
    decreases |es|
  {
    if es == [] then nd == nd' else P.Enabled(c, nd, es[0]) && Steps(c, P.NodeStep(c, nd, es[0]), es[1..], nd')
  }

  lemma {:induction false} StepsAppend(c: P.Config, nd: P.Node, es: seq<P.Event>, mid: P.Node, fs: seq<P.Event>, nd': P.Node)
    requires Steps(c, nd, es, mid) && Steps(c, mid, fs, nd')
    ensures Steps(c, nd, es + fs, nd')
    decreases |es|
  {
    hide P.Enabled, P.NodeStep;
    if es == [] {
      assert es + fs == fs;
    } else {
      StepsAppend(c, P.NodeStep(c, nd, es[0]), es[1..], mid, fs, nd');
      assert (es + fs)[1..] == es[1..] + fs;
    }
  }

  lemma OneStep(c: P.Config, nd: P.Node, e: P.Event, es: seq<P.Event>, nd': P.Node)
    requires P.Enabled(c, nd, e) && Steps(c, P.NodeStep(c, nd, e), es, nd')
    ensures Steps(c, nd, [e] + es, nd')
  {
    assert ([e] + es)[1..] == es;
  }

  lemma UnlockedFalls(r: Rule)
    requires WellFormed(r) && r.resources != [] && !CheckRun(r).packet.NotSatisfied?
    ensures UnlockedCount(CheckRun(r).rule.resources) < UnlockedCount(r.resources)
  {
    CheckRunSafe(r);
  }

  lemma Shape(c: P.Config, nd: P.Node)
    requires LinkOk(c, nd)
    ensures |nd.rules| == |c.inputs| + 1
  {
  }

  /** The inner loop on a purification rule is a run of Act events. */
  lemma {:induction false} PurifyLoop(c: P.Config, nd: P.Node, partner: int, r: nat) returns (es: seq<P.Event>, nd': P.Node)
    requires LinkOk(c, nd) && !nd.done && r < |c.inputs|
    ensures |nd.rules| == |nd'.rules| == |c.inputs| + 1 && WellFormed(RuleOf(c, nd, partner, r))
    ensures var run := RunRule(RuleOf(c, nd, partner, r));
            && Steps(c, nd, es, nd') && LinkOk(c, nd') && !nd'.done && !run.ended
            && RulesOf(c, nd', partner) == RulesOf(c, nd, partner)[r := run.rule]
            && |es| == |run.sent| && forall e :: e in es ==> e.Act? && e.rule == r
    decreases UnlockedCount(RuleOf(c, nd, partner, r).resources)
  {
    hide P.NodeStep, P.Enabled, CheckRun, RunRule, Finished, LinkOk, UnlockedCount;
    Shape(c, nd);
    var rule := RuleOf(c, nd, partner, r);
    RuleOfOk(c, nd, partner, r);
    RulesOfSame(c, nd, partner, r);
    RunRuleUnfold(rule);
    es, nd' := [], nd;
    if rule.resources != [] {
      var e := P.Act(r, []);
      PurifyIsAct(c, nd, partner, r, []);
      var t := CheckRun(rule);
      if !t.packet.NotSatisfied? {
        var mid := P.NodeStep(c, nd, e);
        Shape(c, mid);
        assert RulesOf(c, mid, partner)[r] == t.rule;
        UnlockedFalls(rule);
        es, nd' := PurifyLoop(c, mid, partner, r);
        OneStep(c, nd, e, es, nd');
        es := [e] + es;
      } else {
        PurifyStuck(c, nd, partner, r);
      }
    }
  }

  lemma RulesOfSame(c: P.Config, nd: P.Node, partner: int, r: nat)
    requires LinkOk(c, nd) && r <= |c.inputs|
    ensures RulesOf(c, nd, partner) == RulesOf(c, nd, partner)[r := RuleOf(c, nd, partner, r)]
  {
  }

  /** A purification rule whose condition fails is as it was. */
  lemma PurifyStuck(c: P.Config, nd: P.Node, partner: int, r: nat)
    requires LinkOk(c, nd) && r < |c.inputs| && nd.rules[r].resources != []
    requires CheckRun(RuleOf(c, nd, partner, r)).packet.NotSatisfied?
    ensures CheckRun(RuleOf(c, nd, partner, r)).rule == RuleOf(c, nd, partner, r)
  {
    RuleOfOk(c, nd, partner, r);
    PurifyTurn(RuleOf(c, nd, partner, r), c.inputs[r], nd.rules[r].nextAction);
  }

  /** The inner loop on the measuring rule is a run of Measure events; it ends the RuleSet exactly when the
      node is done, and sends the halves measured with their count ids. */
  lemma {:induction false} MeasureLoop(c: P.Config, nd: P.Node, partner: int) returns (es: seq<P.Event>, nd': P.Node)
    requires LinkOk(c, nd) && !nd.done
    ensures |nd.rules| == |nd'.rules| == |c.inputs| + 1 && WellFormed(RuleOf(c, nd, partner, |c.inputs|))
    ensures var run, n := RunRule(RuleOf(c, nd, partner, |c.inputs|)), |nd.measured|;
            && Steps(c, nd, es, nd') && LinkOk(c, nd') && (nd'.done <==> run.ended)
            && RulesOf(c, nd', partner) == RulesOf(c, nd, partner)[|c.inputs| := run.rule]
            && (forall e :: e in es ==> e == P.Measure)
            && nd.measured <= nd'.measured && |nd'.measured| == n + |run.sent|
            && forall i :: 0 <= i < |run.sent| ==>
                 run.sent[i] == Measured(n + i + 1, Held(partner, nd'.measured[n + i]), n + i + 1 == c.maxCount)
    decreases UnlockedCount(RuleOf(c, nd, partner, |c.inputs|).resources)
  {
    hide P.NodeStep, P.Enabled, CheckRun, RunRule, Finished, UnlockedCount;
    var rule := RuleOf(c, nd, partner, |c.inputs|);
    RuleOfOk(c, nd, partner, |c.inputs|);
    RulesOfSame(c, nd, partner, |c.inputs|);
    RunRuleUnfold(rule);
    MeasureIsMeasure(c, nd, partner);
    es, nd' := [], nd;
    if rule.resources != [] {
      var t, mid := CheckRun(rule), P.NodeStep(c, nd, P.Measure);
      assert RulesOf(c, mid, partner)[|c.inputs|] == t.rule;
      if mid.done {
        nd' := mid;
      } else {
        UnlockedFalls(rule);
        es, nd' := MeasureLoop(c, mid, partner);
      }
      assert nd'.done <==> RunRule(rule).ended;
      OneStep(c, nd, P.Measure, es, nd');
      es := [P.Measure] + es;
    }
  }

  /** From rule r on, the middle loop is a run of events. */
  lemma {:induction false} RestOfPass(c: P.Config, nd: P.Node, partner: int, r: nat) returns (es: seq<P.Event>, nd': P.Node)
    requires LinkOk(c, nd) && !nd.done && r <= |c.inputs|
    ensures |nd.rules| == |nd'.rules| == |c.inputs| + 1 && RulesWellFormed(RulesOf(c, nd, partner)[r..])
    ensures var run := RunRules(RulesOf(c, nd, partner)[r..]);
            && Steps(c, nd, es, nd') && LinkOk(c, nd') && (nd'.done <==> run.ended)
            && RulesOf(c, nd', partner) == RulesOf(c, nd, partner)[..r] + run.rules
            && nd.measured <= nd'.measured
    decreases |c.inputs| - r
  {
    hide P.NodeStep, P.Enabled, RunRule, RunRules, RuleOf, WellFormed, Steps, LinkOk;
    Shape(c, nd);
    RulesOfOk(c, nd, partner);
    var rules := RulesOf(c, nd, partner);
    var tail := rules[r..];
    assert tail[0] == rules[r] == RuleOf(c, nd, partner, r) && tail[1..] == rules[r + 1..];
    RunRulesUnfold(tail);
    if r < |c.inputs| {
      var first, mid := PurifyLoop(c, nd, partner, r);
      SameMeasured(c, nd, first, mid, r);
      var rule := RunRule(rules[r]).rule;
      var now := RulesOf(c, mid, partner);
      assert now == rules[r := rule];
      OneReplaced(rules, r, rule);
      var rest: seq<P.Event>;
      rest, nd' := RestOfPass(c, mid, partner, r + 1);
      StepsAppend(c, nd, first, mid, rest, nd');
      es := first + rest;
    } else {
      es, nd' := MeasureLoop(c, nd, partner);
      var rule := RunRule(rules[r]).rule;
      OneReplaced(rules, r, rule);
      assert tail[1..] == [];
      RunRulesUnfold([]);
    }
  }

  lemma OneReplaced(rules: seq<Rule>, r: nat, rule: Rule)
    requires r < |rules|
    ensures rules[r := rule][r + 1..] == rules[r + 1..]
    ensures rules[r := rule] == rules[..r] + ([rule] + rules[r + 1..])
    ensures forall rest :: rules[r := rule][..r + 1] + rest == rules[..r] + ([rule] + rest)
  {
    forall rest ensures rules[r := rule][..r + 1] + rest == rules[..r] + ([rule] + rest) {
      assert rules[r := rule][..r + 1] == rules[..r] + [rule];
    }
  }

  /** Act events measure nothing. */
  lemma {:induction false} SameMeasured(c: P.Config, nd: P.Node, es: seq<P.Event>, nd': P.Node, r: nat)
    requires Steps(c, nd, es, nd') && forall e :: e in es ==> e.Act? && e.rule == r
    ensures nd'.measured == nd.measured
    decreases |es|
  {
    if es != [] {
      SameMeasured(c, P.NodeStep(c, nd, es[0]), es[1..], nd', r);
    }
  }

  /** One traversal of a link's RuleSet is a run of the node's events, and it ends the RuleSet exactly when
      the node is done measuring. */
  lemma TraversalIsRun(c: P.Config, nd: P.Node, partner: int) returns (es: seq<P.Event>, nd': P.Node)
    requires LinkOk(c, nd) && !nd.done
    ensures |nd.rules| == |nd'.rules| == |c.inputs| + 1 && RulesWellFormed(RulesOf(c, nd, partner))
    ensures var run := RunRules(RulesOf(c, nd, partner));
            Steps(c, nd, es, nd') && RulesOf(c, nd', partner) == run.rules && (nd'.done <==> run.ended)
  {
    RulesOfOk(c, nd, partner);
    assert RulesOf(c, nd, partner)[0..] == RulesOf(c, nd, partner);
    es, nd' := RestOfPass(c, nd, partner, 0);
  }

  /** And every node reachable over the link is such a node. */
  lemma ReachableTraversal(c: P.Config, run: seq<(bool, P.Event)>, left: bool, partner: int) returns (es: seq<P.Event>, nd': P.Node)
    requires P.ValidConfig(c) && !P.Side(P.Run(c, run), left).done
    ensures var nd := P.Side(P.Run(c, run), left);
            && |nd.rules| == |c.inputs| + 1 && RulesWellFormed(RulesOf(c, nd, partner))
            && Steps(c, nd, es, nd') && |nd'.rules| == |c.inputs| + 1
            && RulesOf(c, nd', partner) == RunRules(RulesOf(c, nd, partner)).rules
            && (nd'.done <==> RunRules(RulesOf(c, nd, partner)).ended)
  {
    hide *;
    ReachableOk(c, run, left);
    es, nd' := TraversalIsRun(c, P.Side(P.Run(c, run), left), partner);
  }

  lemma ReachableOk(c: P.Config, run: seq<(bool, P.Event)>, left: bool)
    requires P.ValidConfig(c)
    ensures LinkOk(c, P.Side(P.Run(c, run), left))
  {
    hide I.LocalInv, LinkOk;
    I.RunInv(c, run);
    var t := P.Run(c, run);
    NodesAreOk(c, t.sys.left, t.left, t.right.outs);
    NodesAreOk(c, t.sys.right, t.right, t.left.outs);
  }
}
