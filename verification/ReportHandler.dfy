// Handling one purification report: compare, then promote or discard.  The pipeline's step
// and the handler over qubits, rules and tables are the same function of lists and table.
module ReportHandler {
  import opened Basics
  import opened ResourceLists
  import opened Qubits
  import opened EngineClass
  import Verdicts
  import Pipeline

  /** Stored results, the list of every rule, and whether the program has stopped with an error. */
  datatype Lists<K, Q, O> = Lists(table: map<K, O>, rules: seq<seq<Entry<Q>>>, failed: bool)

  /** Take the half of action i out of rule r; promoted, it joins the next rule. */
  function Apply<K, Q, O>(l: Lists<K, Q, O>, r: nat, i: nat, keep: bool): Lists<K, Q, O> {
    if r >= |l.rules| then l.(failed := true)
    else
      var p := FindAction(l.rules[r], i);
      if p == |l.rules[r]| || (keep && r + 1 >= |l.rules|) then l.(failed := true)
      else
        var moved := l.rules[r := RemoveAt(l.rules[r], p)];
        l.(rules := if keep then moved[r + 1 := moved[r + 1] + [Entry(l.rules[r][p].qubit, Unlocked)]] else moved)
  }

  /** A first report is stored; the second is compared with it and settles the action. */
  function Settle<K(==), Q, O(==)>(l: Lists<K, Q, O>, key: K, r: nat, i: nat, outcome: O): Lists<K, Q, O> {
    if key !in l.table then l.(table := l.table[key := outcome])
    else Apply(l.(table := l.table - {key}), r, i, l.table[key] == outcome)
  }

  lemma ApplyFails<K, Q, O>(l: Lists<K, Q, O>, r: nat, i: nat, keep: bool)
    requires !l.failed
    ensures Apply(l, r, i, keep).failed <==>
              !(r < |l.rules| && FindAction(l.rules[r], i) < |l.rules[r]| && (keep ==> r + 1 < |l.rules|))
  {
  }

  /** The lists after a promotion, one by one. */
  lemma ApplyPromotes<K, Q, O>(l: Lists<K, Q, O>, r: nat, i: nat, after: seq<seq<Entry<Q>>>)
    requires r + 1 < |l.rules| == |after| && FindAction(l.rules[r], i) < |l.rules[r]|
    requires var p := FindAction(l.rules[r], i);
             after[r] == RemoveAt(l.rules[r], p) && after[r + 1] == l.rules[r + 1] + [Entry(l.rules[r][p].qubit, Unlocked)]
    requires forall j :: 0 <= j < |after| && j != r && j != r + 1 ==> after[j] == l.rules[j]
    ensures Apply(l, r, i, true) == l.(rules := after)
  {
    hide FindAction, RemoveAt;
  }

  // ---- the pipeline's step -------------------------------------------------------------------------

  function ListsOf(rules: seq<Pipeline.Rule>): (ls: seq<seq<Entry<nat>>>)
    ensures |ls| == |rules| && forall r :: 0 <= r < |rules| ==> ls[r] == rules[r].resources
  {
    seq(|rules|, r requires 0 <= r < |rules| => rules[r].resources)
  }

  function OfNode(nd: Pipeline.Node): Lists<(nat, nat), nat, Pipeline.Outcome> {
    Lists(nd.table, ListsOf(nd.rules), nd.failed)
  }

  /** A node that runs handles a report as Settle says. */
  lemma PipelineSettles(nd: Pipeline.Node, m: Pipeline.Msg)
    requires !nd.done
    ensures OfNode(Pipeline.StoreCheck(nd, m)) == Settle(OfNode(nd), (m.rule, m.index), m.rule, m.index, m.outcome)
  {
    hide FindAction, RemoveAt;
    var key := (m.rule, m.index);
    if key in nd.table && m.rule < |nd.rules| {
      var list := nd.rules[m.rule].resources;
      var p := FindAction(list, m.index);
      if p < |list| {
        var moved := nd.rules[m.rule := nd.rules[m.rule].(resources := RemoveAt(list, p))];
        assert ListsOf(moved) == ListsOf(nd.rules)[m.rule := RemoveAt(list, p)];
        if m.rule + 1 < |nd.rules| {
          var next := moved[m.rule + 1].resources + [Entry(list[p].qubit, Unlocked)];
          assert ListsOf(moved[m.rule + 1 := moved[m.rule + 1].(resources := next)]) == ListsOf(moved)[m.rule + 1 := next];
        }
      }
    }
  }

  // ---- the handler -----------------------------------------------------------------------------------

  class Handler {
    const ruleSet: RuleSet
    const table: ResultTable<seq<bool>>

    constructor (ruleSet: RuleSet)
      ensures this.ruleSet == ruleSet && fresh(table) && table.Valid() && table.Contents() == map[]
    {
      this.ruleSet := ruleSet;
      table := new ResultTable();
    }

    ghost predicate Valid()
      reads table, ruleSet.rules, ruleSet.Qubits()
    {
      table.Valid() && ruleSet.Valid()
    }

    ghost function Views(): (ls: seq<seq<Entry<StationaryQubit>>>)
      reads ruleSet.rules, ruleSet.Qubits()
      ensures |ls| == |ruleSet.rules| && forall r :: 0 <= r < |ls| ==> ls[r] == ruleSet.rules[r].View()
    {
      seq(|ruleSet.rules|, r requires 0 <= r < |ruleSet.rules| reads ruleSet.rules, ruleSet.Qubits() => ruleSet.rules[r].View())
    }

    ghost function View(): Lists<Verdicts.Key, StationaryQubit, seq<bool>>
      reads table, ruleSet.rules, ruleSet.Qubits()
    {
      Lists(table.Contents(), Views(), false)
    }

    method Promote(r: nat, i: nat) returns (ok: bool)
      requires Valid() && forall q :: q in ruleSet.Qubits() ==> q.partner != q
      modifies ruleSet.rules, ruleSet.Qubits()
      ensures table.entries == old(table.entries)
      ensures ok <==> !Apply(old(View()), r, i, true).failed
      ensures ok ==> Valid() && View() == Apply(old(View()), r, i, true)
    {
      hide FindAction, RemoveAt, DistinctKeys, AsMap, Apply;
      ghost var before := View();
      ApplyFails(before, r, i, true);
      ok := ruleSet.UnlockAndUpgrade(r, i);
      if ok {
        ApplyPromotes(before, r, i, Views());
      }
    }

    method Discard(r: nat, i: nat) returns (ok: bool)
      requires Valid()
      modifies ruleSet.rules, ruleSet.Qubits()
      ensures table.entries == old(table.entries)
      ensures ok <==> !Apply(old(View()), r, i, false).failed
      ensures ok ==> Valid() && View() == Apply(old(View()), r, i, false)
    {
      hide FindAction, RemoveAt, DistinctKeys, AsMap;
      ok := ruleSet.UnlockAndDiscard(r, i);
    }

    /** A report arrives. */
    method Handle(r: nat, i: nat, outcome: seq<bool>) returns (ok: bool)
      requires Valid() && ruleSet.id >= 0 && forall q :: q in ruleSet.Qubits() ==> q.partner != q
      modifies table, ruleSet.rules, ruleSet.Qubits()
      ensures ok <==> !Settle(old(View()), Verdicts.Key(ruleSet.id, r, i), r, i, outcome).failed
      ensures ok ==> Valid() && View() == Settle(old(View()), Verdicts.Key(ruleSet.id, r, i), r, i, outcome)
    {
      hide Apply;
      ghost var before := View();
      var key := Verdicts.Key(ruleSet.id, r, i);
      var settled, keep := table.StoreCheck(key, outcome);
      assert Views() == before.rules;
      ok := true;
      if settled {
        if keep {
          ok := Promote(r, i);
        } else {
          ok := Discard(r, i);
        }
      }
    }
  }
}
