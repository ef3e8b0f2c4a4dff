// Where the halves of a node are: every half is in at most one place of one rule's list,
// and what a node measures or discards leaves its lists.
module Holdings {
  import opened Basics
  import opened ResourceLists
  import opened Pipeline

  /** How often half x is in a list. */
  function Count(s: seq<Entry<nat>>, x: nat): nat {
    if s == [] then 0 else (if s[0].qubit == x then 1 else 0) + Count(s[1..], x)
  }

  /** How often half x is in the lists of a node. */
  function Total(rules: seq<Rule>, x: nat): nat {
    if rules == [] then 0 else Count(rules[0].resources, x) + Total(rules[1..], x)
  }

  function Times(qs: seq<nat>, x: nat): nat {
    if qs == [] then 0 else (if qs[0] == x then 1 else 0) + Times(qs[1..], x)
  }

  lemma {:induction false} TimesIn(qs: seq<nat>, x: nat)
    ensures x in qs <==> Times(qs, x) > 0
  {
    if qs != [] {
      TimesIn(qs[1..], x);
    }
  }

  lemma {:induction false} CountIn(s: seq<Entry<nat>>, x: nat)
    ensures Count(s, x) > 0 <==> exists i :: 0 <= i < |s| && s[i].qubit == x
  {
    if s != [] {
      CountIn(s[1..], x);
      if i :| 0 <= i < |s[1..]| && s[1..][i].qubit == x {
        assert s[i + 1].qubit == x;
      }
      if i :| 0 <= i < |s| && s[i].qubit == x {
        assert i > 0 ==> s[1..][i - 1].qubit == x;
      }
    }
  }

  lemma {:induction false} CountAppend(a: seq<Entry<nat>>, b: seq<Entry<nat>>, x: nat)
    ensures Count(a + b, x) == Count(a, x) + Count(b, x)
  {
    if a == [] {
      assert a + b == b;
    } else {
      assert (a + b)[1..] == a[1..] + b;
      CountAppend(a[1..], b, x);
    }
  }

  lemma CountOne(e: Entry<nat>, x: nat)
    ensures Count([e], x) == if e.qubit == x then 1 else 0
  {
    assert [e][1..] == [];
  }

  lemma CountHead(e: Entry<nat>, s: seq<Entry<nat>>, x: nat)
    ensures Count([e] + s, x) == (if e.qubit == x then 1 else 0) + Count(s, x)
  {
    assert ([e] + s)[1..] == s;
  }

  lemma CountRemove(s: seq<Entry<nat>>, p: nat, x: nat)
    requires p < |s|
    ensures Count(s, x) == Count(RemoveAt(s, p), x) + if s[p].qubit == x then 1 else 0
  {
    assert s == s[..p] + ([s[p]] + s[p + 1..]);
    CountAppend(s[..p], [s[p]] + s[p + 1..], x);
    CountHead(s[p], s[p + 1..], x);
    CountAppend(s[..p], s[p + 1..], x);
  }

  lemma TimesHead(q: nat, qs: seq<nat>, x: nat)
    ensures Times([q] + qs, x) == (if q == x then 1 else 0) + Times(qs, x)
  {
    assert ([q] + qs)[1..] == qs;
  }

  lemma {:induction false} CountDrop(s: seq<Entry<nat>>, k: nat, x: nat)
    ensures Count(s, x) == Count(DropUnlocked(s, k), x) + Times(TopUnlocked(s, k), x)
  {
    if s != [] && k > 0 {
      if s[0].lock.Unlocked? {
        CountDrop(s[1..], k - 1, x);
        TimesHead(s[0].qubit, TopUnlocked(s[1..], k - 1), x);
      } else {
        CountDrop(s[1..], k, x);
        CountHead(s[0], DropUnlocked(s[1..], k), x);
      }
    }
  }

  lemma {:induction false} CountAction(s: seq<Entry<nat>>, k: nat, a: int, x: nat)
    requires 1 <= k <= UnlockedCount(s)
    ensures |TopUnlocked(s, k)| >= 1
    ensures Count(s, x) == Count(AfterAction(s, k, a), x) + Times(TopUnlocked(s, k)[1..], x)
  {
    if s[0].lock.Unlocked? {
      CountHead(Entry(s[0].qubit, Locked(a)), DropUnlocked(s[1..], k - 1), x);
      CountDrop(s[1..], k - 1, x);
      assert TopUnlocked(s, k)[1..] == TopUnlocked(s[1..], k - 1);
    } else {
      CountAction(s[1..], k, a, x);
      CountHead(s[0], AfterAction(s[1..], k, a), x);
    }
  }

  lemma {:induction false} TotalUpdate(rules: seq<Rule>, r: nat, rule: Rule, x: nat)
    requires r < |rules|
    ensures Total(rules[r := rule], x) + Count(rules[r].resources, x) == Total(rules, x) + Count(rule.resources, x)
  {
    hide Count;
    if r == 0 {
      assert rules[0 := rule][1..] == rules[1..];
    } else {
      assert rules[r := rule][1..] == rules[1..][r - 1 := rule];
      TotalUpdate(rules[1..], r - 1, rule, x);
    }
  }

  lemma {:induction false} CountInTotal(rules: seq<Rule>, r: nat, x: nat)
    requires r < |rules|
    ensures Count(rules[r].resources, x) <= Total(rules, x)
  {
    hide Count;
    if r > 0 {
      CountInTotal(rules[1..], r - 1, x);
    }
  }

  /** Every half is in at most one place, and has arrived. */
  ghost predicate Owned(nd: Node) {
    forall x: nat :: Total(nd.rules, x) <= 1 && (Total(nd.rules, x) > 0 ==> x < nd.arrived)
  }

  predicate Holds(nd: Node, r: nat, e: Entry<nat>) {
    r < |nd.rules| && e in nd.rules[r].resources
  }

  lemma {:induction false} TwiceInList(s: seq<Entry<nat>>, i: nat, j: nat)
    requires i < j < |s| && s[i].qubit == s[j].qubit
    ensures Count(s, s[i].qubit) >= 2
  {
    CountRemove(s, i, s[i].qubit);
    var t := RemoveAt(s, i);
    assert t[j - 1] == s[j];
    CountIn(t, s[j].qubit);
  }

  lemma {:induction false} TwiceInRules(rules: seq<Rule>, r: nat, q: nat, x: nat)
    requires r < q < |rules| && Count(rules[r].resources, x) > 0 && Count(rules[q].resources, x) > 0
    ensures Total(rules, x) >= 2
  {
    hide Count;
    if r == 0 {
      CountInTotal(rules[1..], q - 1, x);
    } else {
      TwiceInRules(rules[1..], r - 1, q - 1, x);
    }
  }

  lemma HeldCount(nd: Node, r: nat, e: Entry<nat>)
    requires Holds(nd, r, e)
    ensures Count(nd.rules[r].resources, e.qubit) > 0 && Total(nd.rules, e.qubit) > 0
  {
    var s := nd.rules[r].resources;
    var i :| 0 <= i < |s| && s[i] == e;
    CountIn(s, e.qubit);
    CountInTotal(nd.rules, r, e.qubit);
  }

  /** A half has one place and one lock. */
  lemma OnePlace(nd: Node, r: nat, q: nat, e: Entry<nat>, f: Entry<nat>)
    requires Owned(nd) && Holds(nd, r, e) && Holds(nd, q, f) && e.qubit == f.qubit
    ensures r == q && e == f
  {
    var x := e.qubit;
    HeldCount(nd, r, e);
    HeldCount(nd, q, f);
    if r < q {
      TwiceInRules(nd.rules, r, q, x);
    } else if q < r {
      TwiceInRules(nd.rules, q, r, x);
    } else if e != f {
      var s := nd.rules[r].resources;
      var i :| 0 <= i < |s| && s[i] == e;
      var j :| 0 <= j < |s| && s[j] == f;
      TwiceInList(s, if i < j then i else j, if i < j then j else i);
      CountInTotal(nd.rules, r, x);
    }
  }

  // ---- what an event takes out of the lists ----------------------------------------------

  /** The half a report makes the node discard, if any. */
  function Discarded(nd: Node, m: Msg): seq<nat> {
    if nd.done || (m.rule, m.index) !in nd.table || nd.table[(m.rule, m.index)] == m.outcome || m.rule >= |nd.rules| then []
    else
      var list := nd.rules[m.rule].resources;
      var p := FindAction(list, m.index);
      if p == |list| then [] else [list[p].qubit]
  }

  /** Halves measured, as tools or at the end. */
  function Measured(c: Config, nd: Node, e: Event): seq<nat>
    requires Enabled(c, nd, e)
  {
    match e
    case Act(r, _) =>
      var top := TopUnlocked(nd.rules[r].resources, c.inputs[r]);
      if top == [] then [] else top[1..]
    case Measure => TopUnlocked(nd.rules[|c.inputs|].resources, 1)
    case _ => []
  }

  function Dropped(c: Config, nd: Node, e: Event): seq<nat>
    requires Enabled(c, nd, e)
  {
    match e
    case TakeOwn => Discarded(nd, nd.ownChannel[0])
    case TakePeer => Discarded(nd, nd.peerChannel[0])
    case _ => []
  }

  lemma MoveTotal(rules: seq<Rule>, r: nat, p: nat, x: nat)
    requires r < |rules| && p < |rules[r].resources|
    ensures var list := rules[r].resources;
            var moved := rules[r := rules[r].(resources := RemoveAt(list, p))];
            && Total(moved, x) + (if list[p].qubit == x then 1 else 0) == Total(rules, x)
            && (r + 1 < |rules| ==>
                  Total(moved[r + 1 := moved[r + 1].(resources := moved[r + 1].resources + [Entry(list[p].qubit, Unlocked)])], x)
                    == Total(rules, x))
  {
    hide RemoveAt, Count, Total;
    var list := rules[r].resources;
    var moved := rules[r := rules[r].(resources := RemoveAt(list, p))];
    CountRemove(list, p, x);
    TotalUpdate(rules, r, rules[r].(resources := RemoveAt(list, p)), x);
    if r + 1 < |rules| {
      var e := Entry(list[p].qubit, Unlocked);
      CountAppend(moved[r + 1].resources, [e], x);
      CountOne(e, x);
      TotalUpdate(moved, r + 1, moved[r + 1].(resources := moved[r + 1].resources + [e]), x);
    }
  }

  lemma StoreTotal(nd: Node, m: Msg, x: nat)
    requires !StoreCheck(nd, m).failed
    ensures Total(StoreCheck(nd, m).rules, x) + Times(Discarded(nd, m), x) == Total(nd.rules, x)
    ensures StoreCheck(nd, m).arrived == nd.arrived
  {
    hide Total, RemoveAt, FindAction;
    var key := (m.rule, m.index);
    if !nd.done && key in nd.table && m.rule < |nd.rules| {
      var list := nd.rules[m.rule].resources;
      var p := FindAction(list, m.index);
      if p < |list| {
        MoveTotal(nd.rules, m.rule, p, x);
        TimesHead(list[p].qubit, [], x);
        assert [list[p].qubit] + [] == [list[p].qubit];
      }
    }
  }

  /** What is in the lists before is what is in them afterwards and what left; only Arrive adds. */
  lemma StepTotal(c: Config, nd: Node, e: Event, x: nat)
    requires Enabled(c, nd, e) && !NodeStep(c, nd, e).failed
    ensures Total(NodeStep(c, nd, e).rules, x) + Times(Measured(c, nd, e), x) + Times(Dropped(c, nd, e), x)
         == Total(nd.rules, x) + if e.Arrive? && x == nd.arrived then 1 else 0
    ensures NodeStep(c, nd, e).arrived == nd.arrived + if e.Arrive? then 1 else 0
  {
    hide Total, Count, StoreCheck, TopUnlocked, DropUnlocked, AfterAction, UnlockedCount;
    match e
    case Arrive =>
      var one := Entry(nd.arrived, Unlocked);
      CountAppend(nd.rules[0].resources, [one], x);
      CountOne(one, x);
      TotalUpdate(nd.rules, 0, nd.rules[0].(resources := nd.rules[0].resources + [one]), x);
    case Act(r, _) =>
      var rule := nd.rules[r];
      CountAction(rule.resources, c.inputs[r], rule.nextAction, x);
      TotalUpdate(nd.rules, r, Rule(AfterAction(rule.resources, c.inputs[r], rule.nextAction), rule.nextAction + 1), x);
    case Measure =>
      var rule := nd.rules[|c.inputs|];
      CountDrop(rule.resources, 1, x);
      TotalUpdate(nd.rules, |c.inputs|, rule.(resources := DropUnlocked(rule.resources, 1)), x);
    case TakeOwn =>
      StoreTotal(nd.(ownChannel := nd.ownChannel[1..]), nd.ownChannel[0], x);
    case TakePeer =>
      StoreTotal(nd.(peerChannel := nd.peerChannel[1..]), nd.peerChannel[0], x);
  }

  lemma OwnedStep(c: Config, nd: Node, e: Event)
    requires Owned(nd) && Enabled(c, nd, e) && !NodeStep(c, nd, e).failed
    ensures Owned(NodeStep(c, nd, e))
  {
    hide Total, NodeStep, Measured, Dropped, Enabled;
    var after := NodeStep(c, nd, e);
    forall x: nat ensures Total(after.rules, x) <= 1 && (Total(after.rules, x) > 0 ==> x < after.arrived) {
      StepTotal(c, nd, e, x);
    }
  }

  /** A half that is measured or discarded was in the lists and leaves them; the others stay. */
  lemma LeavesOrStays(c: Config, nd: Node, e: Event, x: nat)
    requires Owned(nd) && Enabled(c, nd, e) && !NodeStep(c, nd, e).failed
    ensures x in Measured(c, nd, e) || x in Dropped(c, nd, e) ==> Total(nd.rules, x) == 1 && Total(NodeStep(c, nd, e).rules, x) == 0
    ensures x !in Measured(c, nd, e) && x !in Dropped(c, nd, e) ==>
              Total(NodeStep(c, nd, e).rules, x) == Total(nd.rules, x) + if e.Arrive? && x == nd.arrived then 1 else 0
    ensures x !in Measured(c, nd, e) || x !in Dropped(c, nd, e)
  {
    StepTotal(c, nd, e, x);
    TimesIn(Measured(c, nd, e), x);
    TimesIn(Dropped(c, nd, e), x);
    ArriveTakesNothing(c, nd, e);
    hide Total, NodeStep, Measured, Dropped, Enabled;
  }

  lemma ArriveTakesNothing(c: Config, nd: Node, e: Event)
    requires Enabled(c, nd, e)
    ensures e.Arrive? ==> Measured(c, nd, e) == [] && Dropped(c, nd, e) == []
  {
  }
}
