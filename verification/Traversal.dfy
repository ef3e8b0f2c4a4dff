// The engine's traversal: every running RuleSet in the order of its key, every rule in order,
// each until its condition fails; a RuleSet whose measuring rule is done is erased.
module Traversal {
  import opened Basics
  import opened ResourceLists
  import opened Conditions
  import RuleClass
  import EngineClass

  /** A qubit in a rule's list, under the partner it is shared with. */
  datatype Held = Held(partner: int, qubit: nat)

  /** Purification with its next action index, measurement with the action's own counter, swapping. */
  datatype Action =
    | Purify(inputs: nat, index: nat)
    | Measure(count: nat, max: nat)
    | Swap(left: int, right: int)

  datatype Rule = Rule(clauses: seq<Clause>, action: Action, resources: seq<Entry<Held>>)

  /** What checking and running a rule returns; `Error` stops the program. */
  datatype Packet =
    | Report(index: nat, inputs: seq<Held>)
    | Measured(id: nat, half: Held, finish: bool)
    | Swapped(left: Held, right: Held)
    | Error
    | NotSatisfied

  function AsSeen(s: seq<Entry<Held>>): (rs: seq<Resource>)
    ensures |rs| == |s|
    ensures forall i :: 0 <= i < |s| ==> rs[i] == Resource(s[i].qubit.partner, s[i].lock.Locked?)
  {
    seq(|s|, i requires 0 <= i < |s| => Resource(s[i].qubit.partner, s[i].lock.Locked?))
  }

  /** The first unlocked entry shared with the partner, or the length of the list. */
  function FirstWith(s: seq<Entry<Held>>, partner: int): (p: nat)
    ensures p <= |s| && (p < |s| ==> s[p].lock.Unlocked? && s[p].qubit.partner == partner)
    ensures forall i :: 0 <= i < p ==> !(s[i].lock.Unlocked? && s[i].qubit.partner == partner)
  {
    if s == [] || (s[0].lock.Unlocked? && s[0].qubit.partner == partner) then 0 else 1 + FirstWith(s[1..], partner)
  }

  function WithoutBoth(s: seq<Entry<Held>>, i: nat, j: nat): seq<Entry<Held>>
    requires i < |s| && j < |s|
  {
    if i == j then RemoveAt(s, i)
    else if i < j then RemoveAt(RemoveAt(s, j), i)
    else RemoveAt(RemoveAt(s, i), j)
  }

  datatype Turn = Turn(rule: Rule, packet: Packet)

  /** The action on the rule's list. */
  function Act(r: Rule): Turn {
    match r.action
    case Purify(k, a) =>
      if k == 0 || UnlockedCount(r.resources) < k then Turn(r, Error)
      else Turn(r.(resources := AfterAction(r.resources, k, a), action := Purify(k, a + 1)),
                Report(a, TopUnlocked(r.resources, k)))
    case Measure(c, max) =>
      var top := TopUnlocked(r.resources, 1);
      if top == [] then Turn(r, Error)
      else Turn(r.(resources := DropUnlocked(r.resources, 1), action := Measure(c + 1, max)),
                Measured(c + 1, top[0], c + 1 == max))
    case Swap(left, right) =>
      var i, j := FirstWith(r.resources, left), FirstWith(r.resources, right);
      if i == |r.resources| || j == |r.resources| then Turn(r, Error)
      else Turn(r.(resources := WithoutBoth(r.resources, i, j)), Swapped(r.resources[i].qubit, r.resources[j].qubit))
  }

  /** The condition, then the action. */
  function CheckRun(r: Rule): Turn {
    var check := Checked(r.clauses, AsSeen(r.resources));
    var ticked := r.(clauses := check.1);
    if check.0 then Act(ticked) else Turn(ticked, NotSatisfied)
  }

  /** Some count has reached its maximum. */
  predicate Finished(clauses: seq<Clause>) {
    exists i :: 0 <= i < |clauses| && clauses[i].Count? && clauses[i].current >= clauses[i].max
  }

  predicate AllUnlocked(s: seq<Entry<Held>>) {
    forall i :: 0 <= i < |s| ==> s[i].lock.Unlocked?
  }

  /** The three kinds of rules the program builds: purification behind a resource clause, measurement
      behind a count and possibly a resource clause, swapping behind a resource clause per side. */
  predicate WellFormed(r: Rule) {
    match r.action
    case Purify(k, _) => k >= 1 && |r.clauses| == 1 && r.clauses[0].Enough? && r.clauses[0].required == k
    case Measure(_, _) =>
      && 1 <= |r.clauses| <= 2 && r.clauses[0].Count?
      && (|r.clauses| == 1 ==> AllUnlocked(r.resources))
      && (|r.clauses| == 2 ==> r.clauses[1].Enough? && r.clauses[1].required >= 1)
    case Swap(left, right) =>
      && left != right && |r.clauses| == 2
      && r.clauses[0].Enough? && r.clauses[0].partner == left && r.clauses[0].required >= 1
      && r.clauses[1].Enough? && r.clauses[1].partner == right && r.clauses[1].required >= 1
  }

  // ---- a condition that holds gives the action what it needs -----------------------------------

  lemma {:induction false} FreeAreUnlocked(s: seq<Entry<Held>>, partner: int)
    ensures FreeWith(AsSeen(s), partner) <= UnlockedCount(s)
    ensures (forall i :: 0 <= i < |s| ==> s[i].qubit.partner == partner) ==> FreeWith(AsSeen(s), partner) == UnlockedCount(s)
  {
    if s != [] {
      var front, last := s[..|s| - 1], s[|s| - 1];
      assert s == front + [last] && AsSeen(s)[..|s| - 1] == AsSeen(front);
      FreeAreUnlocked(front, partner);
      RuleClass.CountSplit(front, [last]);
      assert [last][1..] == [];
    }
  }

  lemma {:induction false} SomeFree(s: seq<Entry<Held>>, partner: int)
    requires FreeWith(AsSeen(s), partner) >= 1
    ensures FirstWith(s, partner) < |s|
  {
    var h := |s| - 1;
    var front := s[..h];
    assert AsSeen(s)[..h] == AsSeen(front);
    if !(s[h].lock.Unlocked? && s[h].qubit.partner == partner) {
      SomeFree(front, partner);
      var p := FirstWith(front, partner);
      assert front[p] == s[p];
    }
  }

  lemma UnlockedOne(e: Entry<Held>)
    ensures UnlockedCount([e]) == if e.lock.Unlocked? then 1 else 0
  {
    var rest := [e][1..];
    assert rest == [];
  }

  lemma UnlockedRemoved(s: seq<Entry<Held>>, i: nat)
    requires i < |s|
    ensures UnlockedCount(RemoveAt(s, i)) == UnlockedCount(s) - if s[i].lock.Unlocked? then 1 else 0
  {
    hide UnlockedCount;
    assert s == s[..i] + ([s[i]] + s[i + 1..]);
    RuleClass.CountSplit(s[..i], [s[i]] + s[i + 1..]);
    RuleClass.CountSplit([s[i]], s[i + 1..]);
    RuleClass.CountSplit(s[..i], s[i + 1..]);
    UnlockedOne(s[i]);
  }

  lemma {:induction false} AllUnlockedOps(s: seq<Entry<Held>>)
    requires AllUnlocked(s)
    ensures UnlockedCount(s) == |s|
    ensures s != [] ==> TopUnlocked(s, 1) == [s[0].qubit] && DropUnlocked(s, 1) == s[1..]
  {
    if s != [] {
      AllUnlockedOps(s[1..]);
      assert TopUnlocked(s[1..], 0) == [] && DropUnlocked(s[1..], 0) == s[1..];
    }
  }

  lemma PurifyAct(r: Rule)
    requires r.action.Purify? && WellFormed(r) && Satisfied(r.clauses[0], AsSeen(r.resources))
    ensures !Act(r).packet.Error? && !Act(r).packet.NotSatisfied? && WellFormed(Act(r).rule)
    ensures UnlockedCount(Act(r).rule.resources) < UnlockedCount(r.resources)
  {
    FreeAreUnlocked(r.resources, r.clauses[0].partner);
    RuleClass.ActionCount(r.resources, r.action.inputs, r.action.index);
  }

  lemma MeasureAct(r: Rule)
    requires r.action.Measure? && WellFormed(r) && r.resources != []
    requires |r.clauses| == 2 ==> Satisfied(r.clauses[1], AsSeen(r.resources))
    ensures !Act(r).packet.Error? && !Act(r).packet.NotSatisfied? && WellFormed(Act(r).rule)
    ensures UnlockedCount(Act(r).rule.resources) < UnlockedCount(r.resources)
  {
    if |r.clauses| == 2 {
      FreeAreUnlocked(r.resources, r.clauses[1].partner);
    } else {
      AllUnlockedOps(r.resources);
    }
    RuleClass.TopLength(r.resources, 1);
    RuleClass.DropCount(r.resources, 1);
  }

  lemma SwapAct(r: Rule)
    requires r.action.Swap? && WellFormed(r)
    requires Satisfied(r.clauses[0], AsSeen(r.resources)) && Satisfied(r.clauses[1], AsSeen(r.resources))
    ensures !Act(r).packet.Error? && !Act(r).packet.NotSatisfied? && WellFormed(Act(r).rule)
    ensures UnlockedCount(Act(r).rule.resources) < UnlockedCount(r.resources)
  {
    var s := r.resources;
    SomeFree(s, r.action.left);
    SomeFree(s, r.action.right);
    var i, j := FirstWith(s, r.action.left), FirstWith(s, r.action.right);
    BothRemoved(s, i, j);
    hide UnlockedCount, WithoutBoth, FreeWith, AsSeen;
  }

  lemma BothRemoved(s: seq<Entry<Held>>, i: nat, j: nat)
    requires i < |s| && j < |s| && s[i].lock.Unlocked? && s[j].lock.Unlocked?
    ensures UnlockedCount(WithoutBoth(s, i, j)) < UnlockedCount(s)
  {
    hide UnlockedCount;
    var hi, lo := if i < j then j else i, if i < j then i else j;
    UnlockedRemoved(s, hi);
    if i != j {
      UnlockedRemoved(RemoveAt(s, hi), lo);
    }
  }

  /** A condition of one or two clauses: what it says when it holds, and what it leaves. */
  lemma CheckedFew(clauses: seq<Clause>, rs: seq<Resource>)
    requires 1 <= |clauses| <= 2
    ensures Checked(clauses, rs).0 <==> forall i :: 0 <= i < |clauses| ==> Satisfied(clauses[i], rs)
    ensures Checked(clauses, rs).0 ==> Checked(clauses, rs).1 == seq(|clauses|, i requires 0 <= i < |clauses| => Ticked(clauses[i]))
    ensures !Checked(clauses, rs).0 && |clauses| == 1 ==> Checked(clauses, rs).1 == clauses
    ensures !Checked(clauses, rs).0 && |clauses| == 2 ==>
              Checked(clauses, rs).1 == if Satisfied(clauses[0], rs) then [Ticked(clauses[0]), clauses[1]] else clauses
  {
    CheckedUnfold(clauses, rs);
    var rest := clauses[1..];
    CheckedUnfold(rest, rs);
    if |clauses| == 2 {
      var none := rest[1..];
      assert none == [];
      CheckedUnfold(none, rs);
      assert rest == [clauses[1]];
      assert [Ticked(rest[0])] + none == [Ticked(rest[0])];
    } else {
      assert rest == [] && [Ticked(clauses[0])] + rest == [Ticked(clauses[0])];
    }
  }

  /** Checking and running a rule never meets an error; it stays well formed, and an action lowers the
      number of unlocked qubits. */
  lemma CheckRunSafe(r: Rule)
    requires WellFormed(r) && r.resources != []
    ensures !CheckRun(r).packet.Error? && WellFormed(CheckRun(r).rule)
    ensures CheckRun(r).packet.NotSatisfied? ==> CheckRun(r).rule.resources == r.resources
    ensures !CheckRun(r).packet.NotSatisfied? ==> UnlockedCount(CheckRun(r).rule.resources) < UnlockedCount(r.resources)
    ensures CheckRun(r).packet.NotSatisfied? <==> !Checked(r.clauses, AsSeen(r.resources)).0
  {
    var rs := AsSeen(r.resources);
    CheckedFew(r.clauses, rs);
    var ticked := r.(clauses := Checked(r.clauses, rs).1);
    assert WellFormed(ticked);
    hide Checked, UnlockedCount, AfterAction, DropUnlocked, TopUnlocked, AsSeen, FreeWith;
    if Checked(r.clauses, rs).0 {
      if r.action.Purify? {
        PurifyAct(ticked);
      } else if r.action.Measure? {
        MeasureAct(ticked);
      } else {
        SwapAct(ticked);
      }
    }
  }

  // ---- one rule ----------------------------------------------------------------------------------

  datatype RuleRun = RuleRun(rule: Rule, sent: seq<Packet>, ended: bool)

  /** Check and run until there is no resource, the condition fails, or a count has reached its maximum
      after an action. */
  function RunRule(r: Rule): RuleRun
    requires WellFormed(r)
    decreases UnlockedCount(r.resources)
  {
    if r.resources == [] then RuleRun(r, [], false)
    else
      CheckRunSafe(r);
      var t := CheckRun(r);
      if t.packet.NotSatisfied? then RuleRun(t.rule, [], false)
      else if Finished(t.rule.clauses) then RuleRun(t.rule, [t.packet], true)
      else var rest := RunRule(t.rule); RuleRun(rest.rule, [t.packet] + rest.sent, rest.ended)
  }

  lemma RunRuleUnfold(r: Rule)
    requires WellFormed(r)
    ensures r.resources == [] ==> RunRule(r) == RuleRun(r, [], false)
    ensures r.resources != [] ==>
              var t := CheckRun(r);
              && WellFormed(t.rule)
              && (t.packet.NotSatisfied? ==> RunRule(r) == RuleRun(t.rule, [], false))
              && (!t.packet.NotSatisfied? && Finished(t.rule.clauses) ==> RunRule(r) == RuleRun(t.rule, [t.packet], true))
              && (!t.packet.NotSatisfied? && !Finished(t.rule.clauses) ==>
                    RunRule(r) == RuleRun(RunRule(t.rule).rule, [t.packet] + RunRule(t.rule).sent, RunRule(t.rule).ended))
  {
    if r.resources != [] {
      CheckRunSafe(r);
    }
  }

  /** The engine has nothing to do for this rule. */
  predicate Idle(r: Rule) {
    r.resources == [] || !Checked(r.clauses, AsSeen(r.resources)).0
  }

  /** A failed condition fails again, although counts before the failing clause went up. */
  lemma {:induction false} FailsAgain(clauses: seq<Clause>, rs: seq<Resource>)
    requires !Checked(clauses, rs).0
    ensures !Checked(Checked(clauses, rs).1, rs).0
  {
    CheckedUnfold(clauses, rs);
    if Satisfied(clauses[0], rs) {
      FailsAgain(clauses[1..], rs);
      var t := Checked(clauses, rs).1;
      CheckedUnfold(t, rs);
      assert t[1..] == Checked(clauses[1..], rs).1;
    }
  }

  predicate AllSent(ps: seq<Packet>) {
    forall i :: 0 <= i < |ps| ==> !ps[i].Error? && !ps[i].NotSatisfied?
  }

  /** Running a rule sends no error; a rule that did not end the RuleSet is idle; one that did has a count
      at its maximum, after a measurement. */
  lemma {:induction false} RuleRuns(r: Rule)
    requires WellFormed(r)
    ensures WellFormed(RunRule(r).rule) && AllSent(RunRule(r).sent)
    ensures !RunRule(r).ended ==> Idle(RunRule(r).rule)
    ensures RunRule(r).ended ==> r.action.Measure? && Finished(RunRule(r).rule.clauses) && RunRule(r).sent != []
    decreases UnlockedCount(r.resources)
  {
    hide Checked, UnlockedCount, RunRule, AsSeen;
    RunRuleUnfold(r);
    if r.resources != [] {
      CheckRunSafe(r);
      KeepsKind(r);
      var t := CheckRun(r);
      if t.packet.NotSatisfied? {
        FailsAgain(r.clauses, AsSeen(r.resources));
      } else if Finished(t.rule.clauses) {
        OnlyMeasureEnds(t.rule);
      } else {
        RuleRuns(t.rule);
      }
    }
  }

  lemma KeepsKind(r: Rule)
    ensures CheckRun(r).rule.action.Purify? <==> r.action.Purify?
    ensures CheckRun(r).rule.action.Measure? <==> r.action.Measure?
    ensures CheckRun(r).packet.NotSatisfied? ==> CheckRun(r).rule == r.(clauses := Checked(r.clauses, AsSeen(r.resources)).1)
  {
    hide Checked, UnlockedCount, AfterAction, DropUnlocked, TopUnlocked, AsSeen;
  }

  lemma OnlyMeasureEnds(r: Rule)
    requires WellFormed(r) && Finished(r.clauses)
    ensures r.action.Measure?
  {
  }

  // ---- what each kind of rule does in a traversal ------------------------------------------------

  predicate SharedWith(s: seq<Entry<Held>>, partner: int) {
    forall i :: 0 <= i < |s| ==> s[i].qubit.partner == partner
  }

  lemma {:induction false} DropShared(s: seq<Entry<Held>>, k: nat, partner: int)
    requires SharedWith(s, partner)
    ensures SharedWith(DropUnlocked(s, k), partner)
  {
    if s != [] && k > 0 {
      DropShared(s[1..], if s[0].lock.Unlocked? then k - 1 else k, partner);
    }
  }

  lemma {:induction false} ActionShared(s: seq<Entry<Held>>, k: nat, a: int, partner: int)
    requires SharedWith(s, partner) && k >= 1
    ensures SharedWith(AfterAction(s, k, a), partner)
  {
    if s != [] {
      if s[0].lock.Unlocked? {
        DropShared(s[1..], k - 1, partner);
      } else {
        ActionShared(s[1..], k, a, partner);
      }
    }
  }

  /** One turn of a purification rule on a link. */
  lemma PurifyTurn(r: Rule, k: nat, a: nat)
    requires WellFormed(r) && r.action == Purify(k, a) && SharedWith(r.resources, r.clauses[0].partner) && r.resources != []
    ensures CheckRun(r).packet.NotSatisfied? <==> UnlockedCount(r.resources) < k
    ensures UnlockedCount(r.resources) < k ==> CheckRun(r).rule == r
    ensures UnlockedCount(r.resources) >= k ==>
              && CheckRun(r) == Turn(r.(resources := AfterAction(r.resources, k, a), action := Purify(k, a + 1)),
                                     Report(a, TopUnlocked(r.resources, k)))
              && !Finished(CheckRun(r).rule.clauses)
  {
    FreeAreUnlocked(r.resources, r.clauses[0].partner);
    CheckedFew(r.clauses, AsSeen(r.resources));
    assert r.resources[0].qubit.partner == r.clauses[0].partner;
    assert AsSeen(r.resources)[0].partner == r.clauses[0].partner;
    hide Checked, UnlockedCount, AfterAction, TopUnlocked, FreeWith;
    assert seq(1, i requires 0 <= i < 1 => Ticked(r.clauses[i])) == r.clauses;
  }

  /** The unlocked qubits in list order. */
  function Frees(s: seq<Entry<Held>>): seq<Held> {
    if s == [] then [] else (if s[0].lock.Unlocked? then [s[0].qubit] else []) + Frees(s[1..])
  }

  lemma FreesFirst(e: Entry<Held>, rest: seq<Entry<Held>>)
    ensures Frees([e] + rest) == if e.lock.Unlocked? then [e.qubit] + Frees(rest) else Frees(rest)
  {
    assert ([e] + rest)[1..] == rest;
    assert [] + Frees(rest) == Frees(rest);
  }

  /** Picking takes the first of them. */
  lemma {:induction false} FreesPicked(s: seq<Entry<Held>>, k: nat)
    ensures Frees(s) == TopUnlocked(s, k) + Frees(DropUnlocked(s, k))
  {
    if s != [] && k > 0 {
      var first, rest := s[0], s[1..];
      assert s == [first] + rest;
      FreesFirst(first, rest);
      FreesPicked(rest, if first.lock.Unlocked? then k - 1 else k);
      FreesFirst(first, DropUnlocked(rest, k));
      hide Frees;
    }
  }

  /** And so does an action. */
  lemma {:induction false} FreesAfter(s: seq<Entry<Held>>, k: nat, a: int)
    requires k >= 1
    ensures Frees(s) == TopUnlocked(s, k) + Frees(AfterAction(s, k, a))
  {
    if s != [] {
      var first, rest := s[0], s[1..];
      assert s == [first] + rest;
      FreesFirst(first, rest);
      FreesPicked(rest, k - 1);
      FreesAfter(rest, k, a);
      FreesFirst(first, AfterAction(rest, k, a));
      FreesFirst(Entry(first.qubit, Locked(a)), DropUnlocked(rest, k - 1));
      hide Frees;
    }
  }

  /** The inputs of all actions, in order. */
  function AllInputs(ps: seq<Packet>): seq<Held> {
    if ps == [] then [] else (if ps[0].Report? then ps[0].inputs else []) + AllInputs(ps[1..])
  }

  /** A purification rule of a link runs as often as its unlocked qubits allow, with consecutive action
      indices and k inputs each; the inputs one after the other, and then the qubits still unlocked, are the
      qubits that were unlocked, in order.  It never ends the RuleSet. */
  lemma {:induction false} PurifyRuns(r: Rule, k: nat, a: nat)
    requires WellFormed(r) && r.action == Purify(k, a) && SharedWith(r.resources, r.clauses[0].partner)
    ensures var run, turns := RunRule(r), EngineClass.Turns(UnlockedCount(r.resources), k);
            && run.rule == r.(resources := EngineClass.Exhaust(r.resources, k, a), action := Purify(k, a + turns))
            && |run.sent| == turns && !run.ended
            && (forall i :: 0 <= i < turns ==> run.sent[i].Report? && run.sent[i].index == a + i && |run.sent[i].inputs| == k)
            && AllInputs(run.sent) + Frees(run.rule.resources) == Frees(r.resources)
    decreases UnlockedCount(r.resources)
  {
    hide UnlockedCount, AfterAction, TopUnlocked, CheckRun, RunRule, Finished, Frees;
    assert [] + Frees(r.resources) == Frees(r.resources);
    RunRuleUnfold(r);
    NoneUnlocked();
    if r.resources != [] {
      PurifyTurn(r, k, a);
      if UnlockedCount(r.resources) >= k {
        var t := CheckRun(r).rule;
        RuleClass.ActionCount(r.resources, k, a);
        ActionShared(r.resources, k, a, r.clauses[0].partner);
        CheckRunSafe(r);
        PurifyRuns(t, k, a + 1);
        FreesAfter(r.resources, k, a);
        RuleClass.TopLength(r.resources, k);
        InputsFirst(CheckRun(r).packet, RunRule(t).sent, Frees(RunRule(t).rule.resources));
      }
    }
  }

  lemma InputsFirst(p: Packet, ps: seq<Packet>, left: seq<Held>)
    requires p.Report?
    ensures AllInputs([p] + ps) + left == p.inputs + (AllInputs(ps) + left)
  {
    assert ([p] + ps)[1..] == ps;
  }

  lemma NoneUnlocked()
    ensures UnlockedCount<Held>([]) == 0
  {
  }

  /** A measuring rule of a link: counts in step, nothing locked, and a resource clause, if there is one,
      that asks for one resource of the link. */
  predicate LinkMeasuring(r: Rule, count: nat, max: nat, partner: int) {
    && WellFormed(r) && r.action == Measure(count, max) && r.clauses[0] == Count(count, max)
    && (|r.clauses| == 2 ==> r.clauses[1] == Enough(partner, 1))
    && AllUnlocked(r.resources) && SharedWith(r.resources, partner)
  }

  lemma MeasureTurn(r: Rule, count: nat, max: nat, partner: int)
    requires LinkMeasuring(r, count, max, partner) && r.resources != []
    ensures count >= max ==> CheckRun(r) == Turn(r, NotSatisfied)
    ensures count < max ==>
              var t := CheckRun(r);
              && t.packet == Measured(count + 1, r.resources[0].qubit, count + 1 == max)
              && t.rule == r.(clauses := r.clauses[0 := Count(count + 1, max)], action := Measure(count + 1, max),
                              resources := r.resources[1..])
              && LinkMeasuring(t.rule, count + 1, max, partner)
              && (Finished(t.rule.clauses) <==> count + 1 == max)
  {
    var s := r.resources;
    AllUnlockedOps(s);
    FreeAreUnlocked(s, partner);
    CheckedFew(r.clauses, AsSeen(s));
    assert AsSeen(s)[0].partner == partner;
    hide Checked, UnlockedCount, TopUnlocked, DropUnlocked, FreeWith;
    assert seq(|r.clauses|, i requires 0 <= i < |r.clauses| => Ticked(r.clauses[i]))
        == if count < max then r.clauses[0 := Count(count + 1, max)] else r.clauses;
    if count < max {
      var clauses := r.clauses[0 := Count(count + 1, max)];
      assert clauses[0] == Count(count + 1, max);
      assert |clauses| == 2 ==> clauses[1] == Enough(partner, 1);
    }
  }

  /** The oldest qubits under consecutive count ids, the running time with the last possible one. */
  predicate Numbered(ps: seq<Packet>, s: seq<Entry<Held>>, count: nat, max: nat) {
    |ps| <= |s| && forall i :: 0 <= i < |ps| ==> ps[i] == Measured(count + i + 1, s[i].qubit, count + i + 1 == max)
  }

  lemma NumberedMore(p: Packet, ps: seq<Packet>, s: seq<Entry<Held>>, count: nat, max: nat)
    requires s != [] && p == Measured(count + 1, s[0].qubit, count + 1 == max) && Numbered(ps, s[1..], count + 1, max)
    ensures Numbered([p] + ps, s, count, max)
    ensures s[1..][|ps|..] == s[|ps| + 1..]
  {
  }

  /** A measuring rule of a link measures the oldest qubits under consecutive count ids, as many as there
      are and the maximum leaves room for; only the last id carries the running time; and it ends the
      RuleSet exactly when that id is reached. */
  lemma {:induction false} MeasureRuns(r: Rule, count: nat, max: nat, partner: int)
    requires LinkMeasuring(r, count, max, partner) && count < max
    ensures var run, n := RunRule(r), Min(|r.resources|, max - count);
            && |run.sent| == n && Numbered(run.sent, r.resources, count, max)
            && run.rule.resources == r.resources[n..]
            && LinkMeasuring(run.rule, count + n, max, partner)
            && (run.ended <==> |r.resources| >= max - count)
    decreases |r.resources|
  {
    hide CheckRun, RunRule, Finished, LinkMeasuring, Numbered, WellFormed;
    LinkIsWellFormed(r, count, max, partner);
    RunRuleUnfold(r);
    assert Numbered([], r.resources, count, max) by { NumberedNone(r.resources, count, max); }
    if r.resources != [] {
      MeasureTurn(r, count, max, partner);
      var t := CheckRun(r);
      NumberedNone(r.resources[1..], count + 1, max);
      if count + 1 < max {
        MeasureRuns(t.rule, count + 1, max, partner);
        NumberedMore(t.packet, RunRule(t.rule).sent, r.resources, count, max);
      } else {
        NumberedMore(t.packet, [], r.resources, count, max);
        assert [t.packet] + [] == [t.packet];
      }
    }
  }

  lemma NumberedNone(s: seq<Entry<Held>>, count: nat, max: nat)
    ensures Numbered([], s, count, max)
  {
  }

  lemma LinkIsWellFormed(r: Rule, count: nat, max: nat, partner: int)
    requires LinkMeasuring(r, count, max, partner)
    ensures WellFormed(r)
  {
  }

  /** A count that failed checks have brought to its maximum never ends the RuleSet: nothing is measured
      any more and the check for the end is not made. */
  lemma SpentCountNeverEnds(r: Rule)
    requires WellFormed(r) && r.action.Measure? && r.clauses[0].current >= r.clauses[0].max
    ensures RunRule(r).sent == [] && !RunRule(r).ended
  {
    RunRuleUnfold(r);
    CheckedFew(r.clauses, AsSeen(r.resources));
    hide Checked, RunRule;
  }

  // ---- swapping rules ----------------------------------------------------------------------------

  lemma {:induction false} FreeAppend(a: seq<Resource>, b: seq<Resource>, partner: int)
    ensures FreeWith(a + b, partner) == FreeWith(a, partner) + FreeWith(b, partner)
  {
    if b == [] {
      assert a + b == a;
    } else {
      assert (a + b)[..|a + b| - 1] == a + b[..|b| - 1];
      FreeAppend(a, b[..|b| - 1], partner);
    }
  }

  lemma FreeOne(x: Resource, partner: int)
    ensures FreeWith([x], partner) == if x.partner == partner && !x.locked then 1 else 0
  {
    var rest := [x][..0];
    assert rest == [];
  }

  lemma {:induction false} NoneFree(s: seq<Entry<Held>>, partner: int)
    requires !(exists i :: 0 <= i < |s| && s[i].qubit.partner == partner)
    ensures FreeWith(AsSeen(s), partner) == 0
  {
    if s != [] {
      var front := s[..|s| - 1];
      assert AsSeen(s)[..|s| - 1] == AsSeen(front);
      NoneFree(front, partner);
    }
  }

  lemma EnoughOne(s: seq<Entry<Held>>, partner: int)
    ensures Satisfied(Enough(partner, 1), AsSeen(s)) <==> FreeWith(AsSeen(s), partner) >= 1
  {
    if FreeWith(AsSeen(s), partner) >= 1 {
      SomeFree(s, partner);
      assert AsSeen(s)[FirstWith(s, partner)].partner == partner;
    }
  }

  predicate OnePerSide(r: Rule, left: int, right: int) {
    r.action == Swap(left, right) && left != right && r.clauses == [Enough(left, 1), Enough(right, 1)]
  }

  /** The unlocked qubits shared with the partner, in list order. */
  function FreeOf(s: seq<Entry<Held>>, partner: int): seq<Held> {
    if s == [] then []
    else (if s[0].lock.Unlocked? && s[0].qubit.partner == partner then [s[0].qubit] else []) + FreeOf(s[1..], partner)
  }

  /** The list without the first n unlocked qubits shared with the partner. */
  function Trim(s: seq<Entry<Held>>, partner: int, n: nat): seq<Entry<Held>> {
    if s == [] || n == 0 then s
    else if s[0].lock.Unlocked? && s[0].qubit.partner == partner then Trim(s[1..], partner, n - 1)
    else [s[0]] + Trim(s[1..], partner, n)
  }

  /** Entry i is the first unlocked one shared with the partner. */
  predicate FirstOf(s: seq<Entry<Held>>, partner: int, i: nat) {
    && i < |s| && s[i].lock.Unlocked? && s[i].qubit.partner == partner
    && forall k :: 0 <= k < i ==> !(s[k].lock.Unlocked? && s[k].qubit.partner == partner)
  }

  lemma RemoveHead(s: seq<Entry<Held>>, i: nat)
    requires i < |s|
    ensures RemoveAt(s, i) == if i == 0 then s[1..] else [s[0]] + RemoveAt(s[1..], i - 1)
  {
  }

  lemma FirstLater(s: seq<Entry<Held>>, partner: int, i: nat)
    requires FirstOf(s, partner, i) && i > 0
    ensures FirstOf(s[1..], partner, i - 1) && s[1..][i - 1] == s[i]
    ensures !(s[0].lock.Unlocked? && s[0].qubit.partner == partner)
  {
    assert forall k :: 0 <= k < i - 1 ==> s[1..][k] == s[k + 1];
  }

  lemma FreeUnfold(e: Entry<Held>, rest: seq<Entry<Held>>, partner: int)
    ensures var mine := e.lock.Unlocked? && e.qubit.partner == partner;
            && FreeOf([e] + rest, partner) == (if mine then [e.qubit] + FreeOf(rest, partner) else FreeOf(rest, partner))
            && Trim([e] + rest, partner, 1) == (if mine then rest else [e] + Trim(rest, partner, 1))
            && FirstWith([e] + rest, partner) == if mine then 0 else 1 + FirstWith(rest, partner)
  {
    assert ([e] + rest)[1..] == rest && Trim(rest, partner, 0) == rest;
    assert [] + FreeOf(rest, partner) == FreeOf(rest, partner);
  }

  /** An entry in front that does not count. */
  lemma FirstBehind(e: Entry<Held>, rest: seq<Entry<Held>>, partner: int, i: nat)
    requires i < |rest| && !(e.lock.Unlocked? && e.qubit.partner == partner)
    requires FirstWith(rest, partner) == i && Trim(rest, partner, 1) == RemoveAt(rest, i)
    requires FreeOf(rest, partner) == [rest[i].qubit] + FreeOf(RemoveAt(rest, i), partner)
    ensures var s := [e] + rest;
            && FirstWith(s, partner) == i + 1 && Trim(s, partner, 1) == RemoveAt(s, i + 1)
            && FreeOf(s, partner) == [s[i + 1].qubit] + FreeOf(RemoveAt(s, i + 1), partner)
  {
    var s := [e] + rest;
    assert s[1..] == rest;
    RemoveHead(s, i + 1);
    FreeUnfold(e, rest, partner);
    FreeUnfold(e, RemoveAt(rest, i), partner);
    hide FreeOf, Trim, FirstWith, RemoveAt;
  }

  lemma {:induction false} FirstIs(s: seq<Entry<Held>>, partner: int, i: nat)
    requires FirstOf(s, partner, i)
    ensures FirstWith(s, partner) == i
    ensures Trim(s, partner, 1) == RemoveAt(s, i)
    ensures FreeOf(s, partner) == [s[i].qubit] + FreeOf(RemoveAt(s, i), partner)
  {
    var rest := s[1..];
    assert s == [s[0]] + rest;
    if i == 0 {
      RemoveHead(s, i);
      FreeUnfold(s[0], rest, partner);
    } else {
      FirstLater(s, partner, i);
      hide FreeOf, Trim, FirstWith, RemoveAt, FirstOf;
      FirstIs(rest, partner, i - 1);
      FirstBehind(s[0], rest, partner, i - 1);
    }
  }

  lemma {:induction false} NoneOf(s: seq<Entry<Held>>, partner: int)
    ensures FirstWith(s, partner) == |s| <==> FreeOf(s, partner) == []
  {
    if s != [] {
      NoneOf(s[1..], partner);
    }
  }

  lemma {:induction false} FreeLength(s: seq<Entry<Held>>, partner: int)
    ensures FreeWith(AsSeen(s), partner) == |FreeOf(s, partner)|
  {
    if s != [] {
      FreeLength(s[1..], partner);
      var rs := AsSeen(s);
      assert rs == [rs[0]] + AsSeen(s[1..]);
      FreeAppend([rs[0]], AsSeen(s[1..]), partner);
      FreeOne(rs[0], partner);
      hide FreeWith;
    } else {
      NoneFree(s, partner);
    }
  }

  lemma {:induction false} FreeElsewhere(s: seq<Entry<Held>>, i: nat, partner: int)
    requires i < |s| && s[i].qubit.partner != partner
    ensures FreeOf(RemoveAt(s, i), partner) == FreeOf(s, partner)
  {
    var rest := s[1..];
    assert s == [s[0]] + rest;
    RemoveHead(s, i);
    FreeUnfold(s[0], rest, partner);
    if i > 0 {
      FreeElsewhere(rest, i - 1, partner);
      FreeUnfold(s[0], RemoveAt(rest, i - 1), partner);
    }
  }

  lemma {:induction false} TrimMore(s: seq<Entry<Held>>, partner: int, n: nat)
    ensures Trim(Trim(s, partner, 1), partner, n) == Trim(s, partner, n + 1)
  {
    if s != [] {
      if s[0].lock.Unlocked? && s[0].qubit.partner == partner {
        assert Trim(s[1..], partner, 0) == s[1..];
      } else {
        TrimMore(s[1..], partner, n);
      }
    }
  }

  lemma {:induction false} TrimsCommute(s: seq<Entry<Held>>, left: int, right: int, a: nat, b: nat)
    requires left != right
    ensures Trim(Trim(s, left, a), right, b) == Trim(Trim(s, right, b), left, a)
  {
    if s != [] && a > 0 && b > 0 {
      var first, rest := s[0], s[1..];
      if first.lock.Unlocked? && first.qubit.partner == left {
        TrimsCommute(rest, left, right, a - 1, b);
      } else if first.lock.Unlocked? && first.qubit.partner == right {
        TrimsCommute(rest, left, right, a, b - 1);
      } else {
        TrimsCommute(rest, left, right, a, b);
      }
    }
  }

  lemma TrimBoth(s: seq<Entry<Held>>, left: int, right: int, n: nat)
    requires left != right
    ensures Trim(Trim(Trim(Trim(s, left, 1), right, 1), left, n), right, n) == Trim(Trim(s, left, n + 1), right, n + 1)
  {
    TrimsCommute(Trim(s, left, 1), left, right, n, 1);
    TrimMore(s, left, n);
    TrimMore(Trim(s, left, n + 1), right, n);
    hide Trim;
  }

  /** One turn of a swapping action: an error exactly when a side has no unlocked qubit; otherwise the packet
      names the first unlocked qubit of either partner, and exactly those two entries leave the list. */
  lemma SwapTakes(r: Rule, left: int, right: int) returns (i: nat, j: nat)
    requires r.action == Swap(left, right) && left != right
    ensures Act(r).packet == Error <==> FreeOf(r.resources, left) == [] || FreeOf(r.resources, right) == []
    ensures Act(r).packet != Error ==>
              var s := r.resources;
              && FirstOf(s, left, i) && FirstOf(s, right, j) && i != j
              && Act(r) == Turn(r.(resources := if i < j then s[..i] + s[i + 1..j] + s[j + 1..] else s[..j] + s[j + 1..i] + s[i + 1..]),
                                Swapped(s[i].qubit, s[j].qubit))
              && Act(r).packet == Swapped(FreeOf(s, left)[0], FreeOf(s, right)[0])
              && Act(r).rule.resources == Trim(Trim(s, left, 1), right, 1)
              && FreeOf(Act(r).rule.resources, left) == FreeOf(s, left)[1..]
              && FreeOf(Act(r).rule.resources, right) == FreeOf(s, right)[1..]
  {
    var s := r.resources;
    i, j := FirstWith(s, left), FirstWith(s, right);
    NoneOf(s, left);
    NoneOf(s, right);
    if i < |s| && j < |s| {
      TakesBoth(s, left, right, i, j);
    }
    hide FreeOf, Trim, WithoutBoth;
  }

  lemma TakesBoth(s: seq<Entry<Held>>, left: int, right: int, i: nat, j: nat)
    requires left != right && FirstOf(s, left, i) && FirstOf(s, right, j)
    ensures i != j
    ensures WithoutBoth(s, i, j) == if i < j then s[..i] + s[i + 1..j] + s[j + 1..] else s[..j] + s[j + 1..i] + s[i + 1..]
    ensures WithoutBoth(s, i, j) == Trim(Trim(s, left, 1), right, 1)
    ensures FreeOf(s, left) == [s[i].qubit] + FreeOf(WithoutBoth(s, i, j), left)
    ensures FreeOf(s, right) == [s[j].qubit] + FreeOf(WithoutBoth(s, i, j), right)
  {
    FirstIs(s, left, i);
    var t, k := TwoGone(s, i, j);
    assert FirstOf(t, right, k);
    hide FirstOf, FirstWith, FreeOf, Trim, WithoutBoth, RemoveAt;
    FirstIs(t, right, k);
    FreeElsewhere(t, k, left);
    FreeElsewhere(s, i, right);
  }

  /** The list t without entry i, where old entry j stands at k. */
  lemma TwoGone(s: seq<Entry<Held>>, i: nat, j: nat) returns (t: seq<Entry<Held>>, k: nat)
    requires i < |s| && j < |s| && i != j
    ensures t == RemoveAt(s, i) && k < |t| && t[k] == s[j] && k == if j < i then j else j - 1
    ensures forall q :: 0 <= q < k ==> t[q] == if q < i then s[q] else s[q + 1]
    ensures WithoutBoth(s, i, j) == RemoveAt(t, k)
    ensures RemoveAt(t, k) == if i < j then s[..i] + s[i + 1..j] + s[j + 1..] else s[..j] + s[j + 1..i] + s[i + 1..]
  {
    t, k := RemoveAt(s, i), if j < i then j else j - 1;
    if i < j {
      LaterGone(s, i, j);
    } else {
      EarlierGone(s, j, i);
    }
  }

  lemma LaterGone(s: seq<Entry<Held>>, i: nat, j: nat)
    requires i < j < |s|
    ensures RemoveAt(RemoveAt(s, j), i) == s[..i] + s[i + 1..j] + s[j + 1..] == RemoveAt(RemoveAt(s, i), j - 1)
  {
    var t, u := RemoveAt(s, i), RemoveAt(s, j);
    assert t[..j - 1] == s[..i] + s[i + 1..j] && t[j..] == s[j + 1..];
    assert u[..i] == s[..i] && u[i + 1..] == s[i + 1..j] + s[j + 1..];
  }

  lemma EarlierGone(s: seq<Entry<Held>>, j: nat, i: nat)
    requires j < i < |s|
    ensures RemoveAt(RemoveAt(s, i), j) == s[..j] + s[j + 1..i] + s[i + 1..]
  {
    var t := RemoveAt(s, i);
    assert t[..j] == s[..j] && t[j + 1..] == s[j + 1..i] + s[i + 1..];
  }

  /** The k-th packet joins the k-th free qubits of the two sides. */
  predicate Joins(ps: seq<Packet>, ls: seq<Held>, rs: seq<Held>) {
    |ps| <= |ls| && |ps| <= |rs| && forall k :: 0 <= k < |ps| ==> ps[k] == Swapped(ls[k], rs[k])
  }

  lemma JoinsMore(p: Packet, ps: seq<Packet>, ls: seq<Held>, rs: seq<Held>)
    requires ls != [] && rs != [] && p == Swapped(ls[0], rs[0]) && Joins(ps, ls[1..], rs[1..])
    ensures Joins([p] + ps, ls, rs)
  {
  }

  /** The turn of a swapping rule with one resource per side. */
  lemma SwapPair(r: Rule, left: int, right: int)
    requires OnePerSide(r, left, right)
    ensures var s, t := r.resources, CheckRun(r);
            if FreeOf(s, left) == [] || FreeOf(s, right) == [] then t == Turn(r, NotSatisfied)
            else
              && t.packet == Swapped(FreeOf(s, left)[0], FreeOf(s, right)[0])
              && OnePerSide(t.rule, left, right) && !Finished(t.rule.clauses)
              && t.rule.resources == Trim(Trim(s, left, 1), right, 1)
              && FreeOf(t.rule.resources, left) == FreeOf(s, left)[1..]
              && FreeOf(t.rule.resources, right) == FreeOf(s, right)[1..]
  {
    FreeLength(r.resources, left);
    FreeLength(r.resources, right);
    CheckedFew(r.clauses, AsSeen(r.resources));
    EnoughOne(r.resources, left);
    EnoughOne(r.resources, right);
    var i, j := SwapTakes(r, left, right);
    hide Checked, Satisfied, FreeWith, AsSeen, Act, FreeOf, Trim;
    assert seq(2, k requires 0 <= k < 2 => Ticked(r.clauses[k])) == r.clauses;
    assert [Ticked(r.clauses[0]), r.clauses[1]] == r.clauses;
    assert r.(clauses := r.clauses) == r;
  }

  /** A swapping rule with one resource per side swaps as often as both sides allow: the k-th swap joins the
      k-th free qubits of the two partners, exactly those leave the list, and the rule never ends the RuleSet. */
  lemma {:induction false} SwapRuns(r: Rule, left: int, right: int)
    requires OnePerSide(r, left, right) && WellFormed(r)
    ensures var run, s := RunRule(r), r.resources;
            var n := Min(|FreeOf(s, left)|, |FreeOf(s, right)|);
            && |run.sent| == n && !run.ended
            && Joins(run.sent, FreeOf(s, left), FreeOf(s, right))
            && run.rule == r.(resources := Trim(Trim(s, left, n), right, n))
    decreases UnlockedCount(r.resources)
  {
    hide CheckRun, RunRule, Finished, UnlockedCount, FreeOf, Trim, Joins;
    var s := r.resources;
    RunRuleUnfold(r);
    SwapPair(r, left, right);
    TrimNone(s, left);
    TrimNone(s, right);
    if s != [] {
      CheckRunSafe(r);
      if !CheckRun(r).packet.NotSatisfied? {
        var t := CheckRun(r).rule;
        SwapRuns(t, left, right);
        JoinsMore(CheckRun(r).packet, RunRule(t).sent, FreeOf(s, left), FreeOf(s, right));
        TrimBoth(s, left, right, |RunRule(t).sent|);
      }
    }
  }

  lemma TrimNone(s: seq<Entry<Held>>, partner: int)
    ensures Trim(s, partner, 0) == s && (s == [] ==> FreeOf(s, partner) == [])
    ensures forall ls, rs :: Joins([], ls, rs)
  {
  }

  // ---- one RuleSet -------------------------------------------------------------------------------

  predicate RulesWellFormed(rules: seq<Rule>) {
    forall i :: 0 <= i < |rules| ==> WellFormed(rules[i])
  }

  datatype ProcessRun = ProcessRun(rules: seq<Rule>, sent: seq<seq<Packet>>, ended: bool)

  /** Every rule in order; the first that ends the RuleSet stops the pass. */
  function RunRules(rules: seq<Rule>): (p: ProcessRun)
    requires RulesWellFormed(rules)
    ensures |p.rules| == |rules|
    decreases |rules|
  {
    if rules == [] then ProcessRun([], [], false)
    else
      var first := RunRule(rules[0]);
      if first.ended then ProcessRun([first.rule] + rules[1..], [first.sent], true)
      else var rest := RunRules(rules[1..]); ProcessRun([first.rule] + rest.rules, [first.sent] + rest.sent, rest.ended)
  }

  predicate AllPacketsSent(pss: seq<seq<Packet>>) {
    forall i :: 0 <= i < |pss| ==> AllSent(pss[i])
  }

  /** A pass over a RuleSet ends it exactly when running one of its rules does; otherwise every rule has
      run, and is idle. */
  lemma {:induction false} RulesRun(rules: seq<Rule>)
    requires RulesWellFormed(rules)
    ensures RulesWellFormed(RunRules(rules).rules) && AllPacketsSent(RunRules(rules).sent)
    ensures RunRules(rules).ended <==> exists i :: 0 <= i < |rules| && RunRule(rules[i]).ended
    ensures !RunRules(rules).ended ==>
              && |RunRules(rules).sent| == |rules|
              && forall i :: 0 <= i < |rules| ==>
                   && RunRules(rules).rules[i] == RunRule(rules[i]).rule
                   && RunRules(rules).sent[i] == RunRule(rules[i]).sent
                   && Idle(RunRules(rules).rules[i])
    decreases |rules|
  {
    hide RunRule, WellFormed, Idle, AllSent;
    if rules != [] {
      RuleRuns(rules[0]);
      if !RunRule(rules[0]).ended {
        RulesRun(rules[1..]);
        assert forall i :: 0 <= i < |rules[1..]| ==> rules[1..][i] == rules[i + 1];
        if i :| 0 <= i < |rules| && RunRule(rules[i]).ended {
          assert RunRule(rules[1..][i - 1]).ended;
        }
      }
    }
  }

  // ---- all RuleSets ------------------------------------------------------------------------------

  datatype Process = Process(key: int, rules: seq<Rule>)

  predicate AllWellFormed(rp: seq<Process>) {
    forall i :: 0 <= i < |rp| ==> RulesWellFormed(rp[i].rules)
  }

  /** The running RuleSets after the traversal: those that were not ended, in order. */
  function Survivors(rp: seq<Process>): seq<Process>
    requires AllWellFormed(rp)
    decreases |rp|
  {
    if rp == [] then []
    else
      var run := RunRules(rp[0].rules);
      (if run.ended then [] else [Process(rp[0].key, run.rules)]) + Survivors(rp[1..])
  }

  /** What the traversal sends: per RuleSet, per rule, in order. */
  function AllSentBy(rp: seq<Process>): (sent: seq<seq<seq<Packet>>>)
    requires AllWellFormed(rp)
    ensures |sent| == |rp|
    decreases |rp|
  {
    if rp == [] then [] else [RunRules(rp[0].rules).sent] + AllSentBy(rp[1..])
  }

  /** q is what is left of RuleSet number i, which was not ended. */
  predicate Survives(rp: seq<Process>, i: nat, q: Process)
    requires AllWellFormed(rp)
  {
    i < |rp| && !RunRules(rp[i].rules).ended && q == Process(rp[i].key, RunRules(rp[i].rules).rules)
  }

  lemma {:induction false} SurvivorsExact(rp: seq<Process>, q: Process)
    requires AllWellFormed(rp)
    ensures q in Survivors(rp) <==> exists i: nat :: Survives(rp, i, q)
    decreases |rp|
  {
    hide RunRules, RulesWellFormed;
    if rp != [] {
      var rest := rp[1..];
      SurvivorsExact(rest, q);
      if i: nat :| Survives(rest, i, q) {
        assert Survives(rp, i + 1, q);
      }
      if i: nat :| Survives(rp, i, q) {
        if i > 0 {
          assert Survives(rest, i - 1, q);
        }
      }
      if !RunRules(rp[0].rules).ended && q == Process(rp[0].key, RunRules(rp[0].rules).rules) {
        assert Survives(rp, 0, q);
      }
    }
  }

  lemma {:induction false} SentExact(rp: seq<Process>, p: nat)
    requires AllWellFormed(rp) && p < |rp|
    ensures AllSentBy(rp)[p] == RunRules(rp[p].rules).sent
    decreases |rp|
  {
    hide RunRules, RulesWellFormed;
    if p > 0 {
      SentExact(rp[1..], p - 1);
    }
  }

  /** at lists increasing positions of rp, those of the RuleSets in kept. */
  predicate Picks(rp: seq<Process>, kept: seq<Process>, at: seq<nat>)
    requires AllWellFormed(rp)
  {
    && |at| == |kept|
    && (forall k, l :: 0 <= k < l < |at| ==> at[k] < at[l])
    && forall k :: 0 <= k < |at| ==> Survives(rp, at[k], kept[k])
  }

  /** The RuleSets left stand in their old order, and each RuleSet that was not ended is there: position i of
      the old list is picked exactly when its RuleSet was not ended. */
  lemma {:induction false} SurvivorsInOrder(rp: seq<Process>) returns (at: seq<nat>)
    requires AllWellFormed(rp)
    ensures Picks(rp, Survivors(rp), at)
    ensures forall i :: 0 <= i < |rp| ==> (i in at <==> !RunRules(rp[i].rules).ended)
    decreases |rp|
  {
    hide RunRules, RulesWellFormed, Picks, Survives;
    if rp == [] {
      at := [];
      assert Picks(rp, [], at) by { PicksNone(rp); }
    } else {
      var rest := SurvivorsInOrder(rp[1..]);
      at := Shifted(rp, Survivors(rp[1..]), rest);
      assert [] + Survivors(rp[1..]) == Survivors(rp[1..]);
      if !RunRules(rp[0].rules).ended {
        PicksFirst(rp, Survivors(rp[1..]), at);
        at := [0] + at;
      }
      assert forall i :: 1 <= i < |rp| ==> rp[1..][i - 1] == rp[i];
    }
  }

  lemma PicksNone(rp: seq<Process>)
    requires AllWellFormed(rp)
    ensures Picks(rp, [], [])
  {
  }

  lemma Shifted(rp: seq<Process>, kept: seq<Process>, rest: seq<nat>) returns (at: seq<nat>)
    requires rp != [] && AllWellFormed(rp) && Picks(rp[1..], kept, rest)
    ensures Picks(rp, kept, at) && 0 !in at && forall i: nat :: i + 1 in at <==> i in rest
  {
    hide RunRules, RulesWellFormed;
    at := PlusOne(rest);
    forall k | 0 <= k < |at| ensures Survives(rp, at[k], kept[k]) {
      assert Survives(rp[1..], rest[k], kept[k]);
    }
  }

  lemma PlusOne(rest: seq<nat>) returns (at: seq<nat>)
    ensures |at| == |rest| && forall k :: 0 <= k < |at| ==> at[k] == rest[k] + 1
    ensures 0 !in at && forall i: nat :: i + 1 in at <==> i in rest
  {
    at := seq(|rest|, k requires 0 <= k < |rest| => rest[k] + 1);
    forall i: nat ensures i + 1 in at <==> i in rest {
      if i in rest {
        var k :| 0 <= k < |rest| && rest[k] == i;
        assert at[k] == i + 1;
      }
    }
  }

  lemma PicksFirst(rp: seq<Process>, kept: seq<Process>, at: seq<nat>)
    requires rp != [] && AllWellFormed(rp) && Picks(rp, kept, at) && 0 !in at && !RunRules(rp[0].rules).ended
    ensures Picks(rp, [Process(rp[0].key, RunRules(rp[0].rules).rules)] + kept, [0] + at)
  {
    hide RunRules, RulesWellFormed;
    var q := Process(rp[0].key, RunRules(rp[0].rules).rules);
    assert Survives(rp, 0, q);
    var all, k := [0] + at, [q] + kept;
    forall i, j | 0 <= i < j < |all| ensures all[i] < all[j] {
      assert all[j] == at[j - 1] && at[j - 1] in at;
    }
    forall i | 0 <= i < |all| ensures Survives(rp, all[i], k[i]) {
      assert i > 0 ==> Survives(rp, at[i - 1], kept[i - 1]);
    }
  }

  predicate Keyed(rp: seq<Process>) {
    forall i, j :: 0 <= i < j < |rp| ==> rp[i].key != rp[j].key
  }

  predicate Running(rp: seq<Process>, key: int) {
    exists i :: 0 <= i < |rp| && rp[i].key == key
  }

  /** Every rule of every RuleSet that survives a traversal is idle, and nothing that was sent is an error. */
  lemma SurvivorsIdle(rp: seq<Process>, q: Process, p: nat)
    requires AllWellFormed(rp) && q in Survivors(rp) && p < |rp|
    ensures RulesWellFormed(q.rules) && forall r :: r in q.rules ==> Idle(r)
    ensures AllPacketsSent(AllSentBy(rp)[p])
  {
    hide Survivors, RunRules, WellFormed, Idle, AllPacketsSent;
    SurvivorsExact(rp, q);
    var i: nat :| Survives(rp, i, q);
    RulesRun(rp[i].rules);
    RulesRun(rp[p].rules);
    SentExact(rp, p);
  }

  /** A RuleSet is erased exactly when running one of its rules ended it. */
  lemma ErasedExactly(rp: seq<Process>, p: nat)
    requires AllWellFormed(rp) && Keyed(rp) && p < |rp|
    ensures Running(Survivors(rp), rp[p].key) <==> forall i :: 0 <= i < |rp[p].rules| ==> !RunRule(rp[p].rules[i]).ended
  {
    hide Survivors, RunRules, RunRule, WellFormed;
    RulesRun(rp[p].rules);
    var mine := Process(rp[p].key, RunRules(rp[p].rules).rules);
    SurvivorsExact(rp, mine);
    if !RunRules(rp[p].rules).ended {
      assert Survives(rp, p, mine);
      var i :| 0 <= i < |Survivors(rp)| && Survivors(rp)[i] == mine;
      assert Survivors(rp)[i].key == rp[p].key;
    }
    if Running(Survivors(rp), rp[p].key) {
      var i :| 0 <= i < |Survivors(rp)| && Survivors(rp)[i].key == rp[p].key;
      SurvivorsExact(rp, Survivors(rp)[i]);
      var j: nat :| Survives(rp, j, Survivors(rp)[i]);
      assert j == p;
    }
  }

  /** The RuleSet of a link: purification rules and a measuring rule at the end. */
  predicate LinkRuleSet(rules: seq<Rule>, count: nat, max: nat, partner: int) {
    && |rules| >= 1 && RulesWellFormed(rules)
    && (forall i :: 0 <= i < |rules| - 1 ==> rules[i].action.Purify?)
    && LinkMeasuring(rules[|rules| - 1], count, max, partner)
  }

  /** A link RuleSet is erased exactly when its measuring rule has resources for all measurements that are
      left, so when its count reaches the maximum. */
  lemma LinkErasedExactly(rp: seq<Process>, p: nat, count: nat, max: nat, partner: int)
    requires AllWellFormed(rp) && Keyed(rp) && p < |rp|
    requires LinkRuleSet(rp[p].rules, count, max, partner) && count < max
    ensures var last := rp[p].rules[|rp[p].rules| - 1];
            && (!Running(Survivors(rp), rp[p].key) <==> |last.resources| >= max - count)
            && (!Running(Survivors(rp), rp[p].key) <==> RunRule(last).rule.action == Measure(max, max))
  {
    hide RunRule, Survivors, Running, LinkMeasuring;
    ErasedExactly(rp, p);
    var rules := rp[p].rules;
    var last := rules[|rules| - 1];
    MeasureRuns(last, count, max, partner);
    CountOf(RunRule(last).rule, count + Min(|last.resources|, max - count), max, partner);
    forall i | 0 <= i < |rules| - 1 ensures !RunRule(rules[i]).ended {
      RuleRuns(rules[i]);
    }
  }

  lemma CountOf(r: Rule, count: nat, max: nat, partner: int)
    requires LinkMeasuring(r, count, max, partner)
    ensures r.action == Measure(count, max)
  {
  }

  // ---- the engine --------------------------------------------------------------------------------

  class Engine {
    /** The running RuleSets in the order of their keys. */
    var rp: seq<Process>

    constructor (rp: seq<Process>)
      ensures this.rp == rp
    {
      this.rp := rp;
    }

    /** Rule r of RuleSet p, until nothing is left to do or the RuleSet is done.  `ok` is false where the
        program stops with an error. */
    method RunOne(p: nat, r: nat) returns (ok: bool, sent: seq<Packet>, done: bool)
      requires p < |rp| && r < |rp[p].rules| && WellFormed(rp[p].rules[r])
      modifies this
      ensures ok
      ensures var run := RunRule(old(rp)[p].rules[r]);
              && sent == run.sent && done == run.ended
              && rp == old(rp)[p := Process(old(rp)[p].key, old(rp)[p].rules[r := run.rule])]
    {
      hide CheckRun, Finished, UnlockedCount, RunRule, WellFormed;
      ok, sent, done := true, [], false;
      ghost var whole := RunRule(rp[p].rules[r]);
      SetSame(rp, p, r);
      while |rp[p].rules[r].resources| > 0
        invariant ok && !done && p < |rp| && r < |rp[p].rules| && WellFormed(rp[p].rules[r])
        invariant rp == SetRule(old(rp), p, r, rp[p].rules[r])
        invariant whole == RuleRun(RunRule(rp[p].rules[r]).rule, sent + RunRule(rp[p].rules[r]).sent, RunRule(rp[p].rules[r]).ended)
        decreases UnlockedCount(rp[p].rules[r].resources)
      {
        ghost var before := rp[p].rules[r];
        RunRuleUnfold(before);
        CheckRunSafe(before);
        var t := CheckRun(rp[p].rules[r]);
        SetTwice(old(rp), p, r, before, t.rule);
        rp := SetRule(rp, p, r, t.rule);
        if t.packet.Error? {
          return false, sent, false;
        }
        if t.packet.NotSatisfied? {
          assert sent + [] == sent;
          return;
        }
        ghost var rest := RunRule(t.rule).sent;
        assert sent + ([t.packet] + rest) == sent + [t.packet] + rest;
        sent := sent + [t.packet];
        done := Terminated(rp[p].rules[r].clauses);
        if done {
          return;
        }
      }
      RunRuleUnfold(rp[p].rules[r]);
      assert sent + [] == sent;
    }

    /** Rules r, r+1, ... of RuleSet p. */
    method RunFrom(p: nat) returns (ok: bool, sent: seq<seq<Packet>>, done: bool)
      requires p < |rp| && RulesWellFormed(rp[p].rules)
      modifies this
      ensures ok
      ensures var run := RunRules(old(rp)[p].rules);
              && sent == run.sent && done == run.ended
              && rp == old(rp)[p := Process(old(rp)[p].key, run.rules)]
    {
      hide RunRule, RunRules, WellFormed;
      ok, sent, done := true, [], false;
      ghost var rules := rp[p].rules;
      var r := 0;
      assert rules[0..] == rules && [] + RunRules(rules).sent == RunRules(rules).sent && [] + RunRules(rules).rules == RunRules(rules).rules;
      while r < |rp[p].rules|
        invariant ok && !done && p < |rp| == |old(rp)| && 0 <= r <= |rules|
        invariant |rp[p].rules| == |rules| && rp[p].rules[r..] == rules[r..]
        invariant rp == old(rp)[p := Process(old(rp)[p].key, rp[p].rules)]
        invariant RunRules(rules) == ProcessRun(rp[p].rules[..r] + RunRules(rules[r..]).rules, sent + RunRules(rules[r..]).sent,
                                                RunRules(rules[r..]).ended)
        decreases |rules| - r
      {
        ghost var now := rp[p].rules;
        assert rules[r..][0] == rules[r] == now[r..][0] == now[r];
        assert rules[r..][1..] == rules[r + 1..];
        RunRulesUnfold(rules[r..]);
        var packets: seq<Packet>;
        ok, packets, done := RunOne(p, r);
        ghost var run := RunRule(rules[r]);
        assert rp[p].rules == now[r := run.rule];
        Assemble(now, rules, r, run.rule);
        assert sent + ([packets] + RunRules(rules[r + 1..]).sent) == sent + [packets] + RunRules(rules[r + 1..]).sent;
        sent := sent + [packets];
        if done {
          return;
        }
        r := r + 1;
      }
      RunRulesUnfold(rules[r..]);
      assert rp[p].rules[..r] + [] == rp[p].rules && sent + [] == sent;
    }

    /** The whole traversal.  It ends: each turn of the outer loop erases a RuleSet or moves to the next one,
        each turn of the middle loop moves to the next rule, each turn of the inner loop lowers the number
        of unlocked qubits of its rule. */
    method Traverse() returns (ok: bool, sent: seq<seq<seq<Packet>>>)
      requires AllWellFormed(rp)
      modifies this
      ensures ok && AllWellFormed(rp) && rp == Survivors(old(rp)) && sent == AllSentBy(old(rp))
    {
      hide RunRules, RulesWellFormed, Survivors, AllSentBy, UnlockedCount, WellFormed;
      ok, sent := true, [];
      ghost var was, kept, n: nat := rp, [], 0;
      assert was[0..] == was && kept + was == was;
      assert kept + Survivors(was) == Survivors(was) && sent + AllSentBy(was) == AllSentBy(was);
      var i := 0;
      while i < |rp|
        invariant ok && i == |kept| && n <= |was| && AllWellFormed(was)
        invariant rp == kept + was[n..]
        invariant Survivors(was) == kept + Survivors(was[n..]) && AllSentBy(was) == sent + AllSentBy(was[n..])
        decreases |rp| - i
      {
        ghost var tail, before := was[n..], rp;
        assert tail[0] == was[n] && tail[1..] == was[n + 1..];
        SurvivorsUnfold(tail);
        ghost var run := RunRules(was[n].rules);
        ghost var left := Process(was[n].key, run.rules);
        Spliced(kept, tail, left);
        var packets: seq<seq<Packet>>, done: bool;
        ok, packets, done := RunFrom(i);
        assert rp == before[i := left];
        Appended(sent, packets, AllSentBy(was[n + 1..]));
        sent := sent + [packets];
        n := n + 1;
        if done {
          rp := rp[..i] + rp[i + 1..];
        } else {
          Appended(kept, left, Survivors(was[n..]));
          kept := kept + [left];
          i := i + 1;
        }
      }
      SurvivorsUnfold(was[n..]);
      SurvivorsWellFormed(was);
    }
  }

  lemma SurvivorsWellFormed(rp: seq<Process>)
    requires AllWellFormed(rp)
    ensures AllWellFormed(Survivors(rp))
  {
    hide Survivors, RunRules, RulesWellFormed, Idle;
    forall i | 0 <= i < |Survivors(rp)| ensures RulesWellFormed(Survivors(rp)[i].rules) {
      SurvivorsExact(rp, Survivors(rp)[i]);
      var j: nat :| Survives(rp, j, Survivors(rp)[i]);
      RulesRun(rp[j].rules);
    }
  }

  lemma Appended<T>(a: seq<T>, x: T, rest: seq<T>)
    ensures a + ([x] + rest) == a + [x] + rest
    ensures a + ([] + rest) == a + rest
  {
  }

  /** Changing or erasing the first of the elements after `kept`. */
  lemma Spliced<T>(kept: seq<T>, tail: seq<T>, x: T)
    requires tail != []
    ensures var all, i := kept + tail, |kept|;
            && all[i] == tail[0]
            && all[i := x] == kept + [x] + tail[1..]
            && all[i := x][..i] + all[i := x][i + 1..] == kept + tail[1..]
  {
    var all, i := kept + tail, |kept|;
    assert all[i := x][..i] == kept && all[i := x][i + 1..] == tail[1..];
  }

  /** The loop over the clauses that asks whether the RuleSet is done. */
  method Terminated(clauses: seq<Clause>) returns (done: bool)
    ensures done == Finished(clauses)
  {
    var condition := new Condition(clauses);
    done := condition.CheckTerminate();
  }

  function SetRule(rp: seq<Process>, p: nat, r: nat, rule: Rule): seq<Process>
    requires p < |rp| && r < |rp[p].rules|
  {
    rp[p := Process(rp[p].key, rp[p].rules[r := rule])]
  }

  lemma SetSame(rp: seq<Process>, p: nat, r: nat)
    requires p < |rp| && r < |rp[p].rules|
    ensures SetRule(rp, p, r, rp[p].rules[r]) == rp
  {
    assert rp[p].rules[r := rp[p].rules[r]] == rp[p].rules;
  }

  lemma SetTwice(rp: seq<Process>, p: nat, r: nat, a: Rule, b: Rule)
    requires p < |rp| && r < |rp[p].rules|
    ensures SetRule(SetRule(rp, p, r, a), p, r, b) == SetRule(rp, p, r, b)
  {
    assert rp[p].rules[r := a][r := b] == rp[p].rules[r := b];
  }

  lemma RunRulesUnfold(rules: seq<Rule>)
    requires RulesWellFormed(rules)
    ensures rules == [] ==> RunRules(rules) == ProcessRun([], [], false)
    ensures rules != [] ==>
              var first := RunRule(rules[0]);
              && (first.ended ==> RunRules(rules) == ProcessRun([first.rule] + rules[1..], [first.sent], true))
              && (!first.ended ==> RunRules(rules) == ProcessRun([first.rule] + RunRules(rules[1..]).rules,
                                                                 [first.sent] + RunRules(rules[1..]).sent, RunRules(rules[1..]).ended))
  {
  }

  lemma SurvivorsUnfold(rp: seq<Process>)
    requires AllWellFormed(rp)
    ensures rp == [] ==> Survivors(rp) == [] && AllSentBy(rp) == []
    ensures rp != [] ==>
              var run := RunRules(rp[0].rules);
              && AllSentBy(rp) == [run.sent] + AllSentBy(rp[1..])
              && Survivors(rp) == (if run.ended then [] else [Process(rp[0].key, run.rules)]) + Survivors(rp[1..])
  {
  }

  lemma Assemble(now: seq<Rule>, rules: seq<Rule>, r: nat, rule: Rule)
    requires r < |rules| == |now| && now[r..] == rules[r..]
    ensures now[r := rule][r + 1..] == rules[r + 1..]
    ensures now[r := rule] == now[..r] + ([rule] + rules[r + 1..])
    ensures forall rest :: now[..r] + ([rule] + rest) == now[r := rule][..r + 1] + rest
  {
    assert now[r + 1..] == now[r..][1..] == rules[r..][1..] == rules[r + 1..];
    forall rest ensures now[..r] + ([rule] + rest) == now[r := rule][..r + 1] + rest {
      assert now[r := rule][..r + 1] == now[..r] + [rule];
    }
  }
}
