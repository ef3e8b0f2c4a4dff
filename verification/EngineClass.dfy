// A node's running RuleSet and its result table, changed in place: the traversal of the
// rules, the comparison of reports, promotion and discard.
module EngineClass {
  import opened Basics
  import opened ResourceLists
  import opened Qubits
  import opened RuleClass
  import Circuits
  import Verdicts

  predicate DistinctKeys<O>(s: seq<(Verdicts.Key, O)>) {
    forall i, j :: 0 <= i < j < |s| ==> s[i].0 != s[j].0
  }

  function AsMap<O>(s: seq<(Verdicts.Key, O)>): (m: map<Verdicts.Key, O>)
    ensures forall i :: 0 <= i < |s| ==> s[i].0 in m
    ensures DistinctKeys(s) ==> forall i :: 0 <= i < |s| ==> m[s[i].0] == s[i].1
  {
    if s == [] then map[] else AsMap(s[..|s| - 1])[s[|s| - 1].0 := s[|s| - 1].1]
  }

  lemma {:induction false} KeyAbsent<O>(s: seq<(Verdicts.Key, O)>, key: Verdicts.Key)
    requires forall i :: 0 <= i < |s| ==> s[i].0 != key
    ensures key !in AsMap(s)
  {
    if s != [] {
      KeyAbsent(s[..|s| - 1], key);
    }
  }

  lemma KeysAfterErase<O>(s: seq<(Verdicts.Key, O)>, i: nat)
    requires DistinctKeys(s) && i < |s|
    ensures DistinctKeys(RemoveAt(s, i))
  {
    var t := RemoveAt(s, i);
    assert forall j :: 0 <= j < |t| ==> t[j] == s[if j < i then j else j + 1];
  }

  lemma MapSnoc<O>(s: seq<(Verdicts.Key, O)>, e: (Verdicts.Key, O))
    ensures AsMap(s + [e]) == AsMap(s)[e.0 := e.1]
  {
    assert (s + [e])[..|s|] == s;
  }

  lemma {:induction false} EraseEntry<O>(s: seq<(Verdicts.Key, O)>, i: nat)
    requires DistinctKeys(s) && i < |s|
    ensures AsMap(RemoveAt(s, i)) == AsMap(s) - {s[i].0}
    decreases |s|
  {
    hide AsMap;
    var front, last := s[..|s| - 1], s[|s| - 1];
    assert s == front + [last];
    MapSnoc(front, last);
    if i == |s| - 1 {
      assert RemoveAt(s, i) == front;
      KeyAbsent(front, last.0);
    } else {
      EraseEntry(front, i);
      MapSnoc(RemoveAt(front, i), last);
      assert RemoveAt(s, i) == RemoveAt(front, i) + [last];
    }
  }

  /** The multimap of stored results of one kind. */
  class ResultTable<O(==)> {
    var entries: seq<(Verdicts.Key, O)>

    /** At most one entry per action. */
    ghost predicate Valid()
      reads this
    {
      DistinctKeys(entries)
    }

    ghost function Contents(): map<Verdicts.Key, O>
      reads this
    {
      AsMap(entries)
    }

    constructor ()
      ensures Valid() && Contents() == map[]
    {
      entries := [];
    }

    /** Compare with the stored result of the same action and forget it, or store the first one. */
    method StoreCheck(key: Verdicts.Key, outcome: O) returns (settled: bool, keep: bool)
      requires Valid()
      modifies this
      ensures Valid()
      ensures settled <==> key in old(Contents())
      ensures settled ==> keep == (old(Contents())[key] == outcome)
      ensures Contents() == Verdicts.Receive(Verdicts.Board(old(Contents()), []), Verdicts.Report(key, true, outcome)).table
    {
      var i := 0;
      while i < |entries|
        invariant 0 <= i <= |entries| && entries == old(entries)
        invariant forall j :: 0 <= j < i ==> entries[j].0 != key
      {
        if entries[i].0 == key {
          settled, keep := true, entries[i].1 == outcome;
          KeysAfterErase(entries, i);
          EraseEntry(entries, i);
          entries := entries[..i] + entries[i + 1..];
          return;
        }
        i := i + 1;
      }
      settled, keep := false, false;
      KeyAbsent(entries, key);
      ghost var was := entries;
      entries := entries + [(key, outcome)];
      assert entries[..|entries| - 1] == was;
    }
  }

  // ---- the rules of one RuleSet ------------------------------------------------------------

  /** Verdict results of the four kinds, compared field by field as the program does. */
  predicate AgreeDouble(a: Verdicts.Double, b: Verdicts.Double) {
    a.x == b.x && a.z == b.z
  }

  predicate AgreeTriple(a: Verdicts.Triple, b: Verdicts.Triple) {
    a.x == b.x && a.z == b.z && a.ds == b.ds
  }

  predicate AgreeQuatro(a: Verdicts.Quatro, b: Verdicts.Quatro) {
    a.x == b.x && a.z == b.z && a.dsZ == b.dsZ && a.dsX == b.dsX
  }

  lemma ComparisonsAreEquality(a: Verdicts.Double, b: Verdicts.Double, c: Verdicts.Triple, d: Verdicts.Triple,
                               e: Verdicts.Quatro, f: Verdicts.Quatro)
    ensures AgreeDouble(a, b) <==> a == b
    ensures AgreeTriple(c, d) <==> c == d
    ensures AgreeQuatro(e, f) <==> e == f
  {
  }

  /** A rule's list after its action ran until too few unlocked qubits were left. */
  function Exhaust<Q>(s: seq<Entry<Q>>, k: nat, a: int): seq<Entry<Q>>
    requires k >= 1
    decreases UnlockedCount(s)
  {
    if UnlockedCount(s) < k then s
    else
      ActionCount(s, k, a);
      Exhaust(AfterAction(s, k, a), k, a + 1)
  }

  /** How often a k-input action runs on n unlocked qubits. */
  function Turns(n: nat, k: nat): nat
    requires k >= 1
  {
    if n < k then 0 else 1 + Turns(n - k, k)
  }

  lemma Times(k: nat, t: nat)
    ensures k * (1 + t) == k + k * t
  {
  }

  /** A traversal leaves fewer than k unlocked qubits, and keeps the locked ones. */
  lemma {:induction false} ExhaustLeavesFew<Q>(s: seq<Entry<Q>>, k: nat, a: int)
    requires k >= 1
    ensures UnlockedCount(s) == k * Turns(UnlockedCount(s), k) + UnlockedCount(Exhaust(s, k, a))
    ensures UnlockedCount(Exhaust(s, k, a)) < k
    decreases UnlockedCount(s)
  {
    if UnlockedCount(s) >= k {
      ActionCount(s, k, a);
      ExhaustLeavesFew(AfterAction(s, k, a), k, a + 1);
      var t := Turns(UnlockedCount(s) - k, k);
      Times(k, t);
    }
  }

  class RuleSet {
    const id: int
    const rules: seq<Rule>

    ghost function Qubits(): (s: set<StationaryQubit>)
      reads rules
      ensures forall i, q :: 0 <= i < |rules| && q in rules[i].resources ==> q in s
    {
      set r, q | r in rules && q in r.resources :: q
    }

    /** Rules are distinct and numbered in order; no qubit is in two lists, no partner in any. */
    ghost predicate Valid()
      reads rules, Qubits()
    {
      && (forall i :: 0 <= i < |rules| ==> rules[i].index == i && rules[i].Valid())
      && (forall i, j :: 0 <= i < j < |rules| ==> rules[i] != rules[j])
      && (forall i, j :: 0 <= i < j < |rules| ==> forall q :: q in rules[i].resources ==> q !in rules[j].resources)
      && (forall i, j :: 0 <= i < |rules| && 0 <= j < |rules| ==> forall q :: q in rules[i].resources ==> q.partner !in rules[j].resources)
    }

    /** Partners at the other node. */
    ghost function Partners(): set<StationaryQubit>
      reads rules, Qubits()
    {
      set q | q in Qubits() && q.partner != null :: q.partner
    }

    constructor (id: int, rules: seq<Rule>)
      requires forall i :: 0 <= i < |rules| ==> rules[i].index == i && rules[i].Valid() && rules[i].resources == []
      requires forall i, j :: 0 <= i < j < |rules| ==> rules[i] != rules[j]
      ensures Valid() && this.id == id && this.rules == rules
    {
      this.id, this.rules := id, rules;
    }

    /** q is in no list, and so is its partner. */
    ghost predicate Outside(q: StationaryQubit)
      reads rules, Qubits(), q
    {
      forall j :: 0 <= j < |rules| ==>
        q !in rules[j].resources && q.partner !in rules[j].resources && forall p :: p in rules[j].resources ==> p.partner != q
    }

    method EraseFrom(r: nat, p: nat)
      requires Valid() && r < |rules| && p < |rules[r].resources|
      modifies (rules[r] as Rule)`resources
      ensures Valid() && Outside(old(rules[r].resources[p]))
      ensures rules[r].View() == RemoveAt(old(rules[r].View()), p)
      ensures forall j :: 0 <= j < |rules| && j != r ==> rules[j].View() == old(rules[j].View())
    {
      rules[r].EraseAt(p);
    }

    method UnlockOutside(q: StationaryQubit)
      requires Valid() && Outside(q)
      modifies q`locked, q`lockedRuleset, q`lockedRule, q`actionIndex
      ensures Valid() && Outside(q) && !q.locked && q.actionIndex == -1
      ensures forall j :: 0 <= j < |rules| ==> rules[j].View() == old(rules[j].View())
    {
      q.Unlock();
    }

    method FreeOutside(q: StationaryQubit)
      requires Valid() && Outside(q)
      modifies q
      ensures Valid() && q.IsFree()
      ensures forall j :: 0 <= j < |rules| ==> rules[j].View() == old(rules[j].View())
    {
      q.SetFree();
    }

    /** Hand a qubit that is on no list to rule r. */
    method Append(r: nat, q: StationaryQubit)
      requires Valid() && r < |rules| && Outside(q) && q.partner != q && !q.locked && q.actionIndex == -1
      modifies (rules[r] as Rule)`resources
      ensures Valid()
      ensures rules[r].View() == old(rules[r].View()) + [Entry(q, Unlocked)]
      ensures forall j :: 0 <= j < |rules| && j != r ==> rules[j].View() == old(rules[j].View())
    {
      rules[r].AddResource(q);
    }

    /** Take the entry at position p of rule r out, unlock its qubit and hand it to the next rule. */
    method MoveUp(r: nat, p: nat)
      requires Valid() && r + 1 < |rules| && p < |rules[r].resources| && rules[r].resources[p].partner != rules[r].resources[p]
      modifies rules, Qubits()
      ensures Valid()
      ensures rules[r].View() == RemoveAt(old(rules[r].View()), p)
      ensures rules[r + 1].View() == old(rules[r + 1].View()) + [Entry(old(rules[r].resources)[p], Unlocked)]
      ensures forall j :: 0 <= j < |rules| && j != r && j != r + 1 ==> rules[j].View() == old(rules[j].View())
    {
      hide FindAction, Outside, DistinctKeys, AsMap;
      var q := rules[r].resources[p];
      EraseFrom(r, p);
      UnlockOutside(q);
      Append(r + 1, q);
    }

    /** Promotion: unlock the half of action `action` of rule r and hand it to the next rule.
        The answer is false where the program stops with an error. */
    method UnlockAndUpgrade(r: nat, action: nat) returns (ok: bool)
      requires Valid() && forall q :: q in Qubits() ==> q.partner != q
      modifies rules, Qubits()
      ensures ok <==> old(r + 1 < |rules| && FindAction(rules[r].View(), action) < |rules[r].resources|)
      ensures ok ==> Valid()
      ensures ok ==> rules[r].View() == RemoveAt(old(rules[r].View()), FindAction(old(rules[r].View()), action))
      ensures ok ==> rules[r + 1].View()
                       == old(rules[r + 1].View()) + [Entry(old(rules[r].resources)[FindAction(old(rules[r].View()), action)], Unlocked)]
      ensures ok ==> forall j :: 0 <= j < |rules| && j != r && j != r + 1 ==> rules[j].View() == old(rules[j].View())
    {
      hide FindAction, DistinctKeys, AsMap;
      if r >= |rules| {
        return false;
      }
      var p := rules[r].FindByAction(action);
      if p == |rules[r].resources| {
        return false;
      }
      if r + 1 == |rules| {
        return false;
      }
      MoveUp(r, p);
      ok := true;
    }

    /** Discard: free the half of action `action` of rule r. */
    method UnlockAndDiscard(r: nat, action: nat) returns (ok: bool)
      requires Valid()
      modifies rules, Qubits()
      ensures Valid()
      ensures ok <==> old(r < |rules| && FindAction(rules[r].View(), action) < |rules[r].resources|)
      ensures ok ==> rules[r].View() == RemoveAt(old(rules[r].View()), FindAction(old(rules[r].View()), action))
      ensures ok ==> old(rules[r].resources)[FindAction(old(rules[r].View()), action)].IsFree()
      ensures forall j :: 0 <= j < |rules| && (j != r || !ok) ==> rules[j].View() == old(rules[j].View())
    {
      hide FindAction, DistinctKeys, AsMap;
      if r >= |rules| {
        return false;
      }
      var p := rules[r].FindByAction(action);
      if p == |rules[r].resources| {
        return false;
      }
      var q := rules[r].resources[p];
      EraseFrom(r, p);
      FreeOutside(q);
      ok := true;
    }

    lemma Apart(r: nat)
      requires Valid() && r < |rules|
      ensures rules[r].Valid()
      ensures forall j :: 0 <= j < |rules| && j != r ==> rules[j] != rules[r] && rules[j].Valid()
      ensures forall j, q :: 0 <= j < |rules| && j != r && q in rules[j].resources ==>
                q !in rules[r].resources && q !in rules[r].Partners()
    {
    }

    /** What an action of rule r may change. */
    ghost function Footprint(r: nat): (s: set<object>)
      requires r < |rules|
      reads rules, Qubits()
      ensures rules[r] in s
      ensures forall q :: q in rules[r].resources ==> q in s && q in Qubits()
      ensures forall q :: q in rules[r].Partners() ==> q in s
    {
      (set q: StationaryQubit | q in rules[r].resources :: q as object) + (set q | q in rules[r].Partners() :: q as object) + {rules[r]}
    }

    /** What a traversal may change. */
    ghost function Scope(): (s: set<object>)
      reads rules, Qubits()
      ensures forall r :: 0 <= r < |rules| ==> Footprint(r) <= s
    {
      set r, o | 0 <= r < |rules| && o in Footprint(r) :: o
    }

    /** Rule r changed and took in no new qubits; the other rules and their qubits' partners did not change. */
    twostate predicate Acted(r: nat)
      requires r < |rules|
      reads rules, Qubits()
    {
      && rules[r].Valid()
      && (forall q :: q in rules[r].resources ==> q in old(rules[r].resources) && q.partner == old(q.partner))
      && (forall j :: 0 <= j < |rules| && j != r ==>
            && rules[j].resources == old(rules[j].resources)
            && rules[j].View() == old(rules[j].View())
            && rules[j].Valid())
      && (forall j, q :: 0 <= j < |rules| && j != r && q in rules[j].resources ==> q.partner == old(q.partner))
    }

    twostate lemma ActedValid(r: nat)
      requires r < |rules| && old(Valid()) && Acted(r)
      ensures Valid()
    {
    }

    /** Rule j can change no more than before. */
    twostate predicate Shrunk(j: nat)
      requires j < |rules|
      reads rules, Qubits()
    {
      Footprint(j) <= old(Footprint(j))
    }

    twostate lemma ActedShrunk(r: nat)
      requires r < |rules| && Acted(r)
      ensures forall j: nat :: j < |rules| ==> Shrunk(j)
    {
      forall j: nat | j < |rules| ensures Shrunk(j) {
        assert forall q :: q in rules[j].resources ==> q in old(rules[j].resources) && q.partner == old(q.partner);
      }
    }

    twostate lemma ShrunkScope()
      requires forall j: nat :: j < |rules| ==> Shrunk(j)
      ensures Scope() <= old(Scope())
    {
      hide Footprint;
      forall o | o in Scope() ensures o in old(Scope()) {
        var j: nat :| j < |rules| && o in Footprint(j);
        assert Shrunk(j);
      }
    }

    /** One check-and-run of rule r. */
    method StepRule(r: nat, nx: Circuits.Noise, nz: Circuits.Noise) returns (ran: bool, a: Answer)
      requires Valid() && r < |rules|
      modifies Footprint(r)
      ensures Acted(r)
      ensures ran == old(UnlockedCount(rules[r].View()) >= Circuits.Arity(rules[r].round))
      ensures !ran ==> rules[r].View() == old(rules[r].View()) && rules[r].actionIndex == old(rules[r].actionIndex)
      ensures ran ==> a.Sent? && a.rule == r && a.index == old(rules[r].actionIndex) && rules[r].actionIndex == a.index + 1
      ensures ran ==> rules[r].View() == AfterAction(old(rules[r].View()), Circuits.Arity(rules[r].round), old(rules[r].actionIndex))
      ensures forall j :: 0 <= j < |rules| && j != r ==> rules[j].View() == old(rules[j].View()) && rules[j].actionIndex == old(rules[j].actionIndex)
    {
      hide UnlockedCount, AfterAction, Circuits.Arity, DistinctKeys, AsMap;
      Apart(r);
      ran, a := rules[r].CheckRun(nx, nz);
      assert forall j :: 0 <= j < |rules| && j != r ==> rules[j].resources == old(rules[j].resources);
      assert forall j, q :: 0 <= j < |rules| && j != r && q in rules[j].resources ==> unchanged(q);
    }

    /** Rule r acted as often as its unlocked qubits allowed and numbered its reports in order. */
    twostate predicate Ran(r: nat, sent: seq<Answer>)
      requires r < |rules|
      reads rules, Qubits()
    {
      && rules[r].View() == Exhaust(old(rules[r].View()), Circuits.Arity(rules[r].round), old(rules[r].actionIndex))
      && |sent| == Turns(UnlockedCount(old(rules[r].View())), Circuits.Arity(rules[r].round))
      && rules[r].actionIndex == old(rules[r].actionIndex) + |sent|
      && forall i :: 0 <= i < |sent| ==> sent[i].Sent? && sent[i].rule == r && sent[i].index == old(rules[r].actionIndex) + i
    }

    /** Run rule r until its condition fails. */
    method ExhaustRule(r: nat, draws: nat -> (Circuits.Noise, Circuits.Noise)) returns (sent: seq<Answer>)
      requires Valid() && r < |rules|
      modifies Footprint(r)
      ensures Valid() && Scope() <= old(Scope()) && Ran(r, sent)
      ensures forall j :: 0 <= j < |rules| && j != r ==> rules[j].View() == old(rules[j].View()) && rules[j].actionIndex == old(rules[j].actionIndex)
    {
      hide AfterAction, UnlockedCount, Footprint, Partners, Qubits, Scope, Acted, DistinctKeys, AsMap;
      sent := [];
      ghost var k, start := Circuits.Arity(rules[r].round), rules[r].actionIndex;
      while true
        invariant Valid() && Scope() <= old(Scope()) && Footprint(r) <= old(Footprint(r))
        invariant Exhaust(rules[r].View(), k, rules[r].actionIndex) == Exhaust(old(rules[r].View()), k, start)
        invariant |sent| + Turns(UnlockedCount(rules[r].View()), k) == Turns(old(UnlockedCount(rules[r].View())), k)
        invariant rules[r].actionIndex == start + |sent|
        invariant forall i :: 0 <= i < |sent| ==> sent[i].Sent? && sent[i].rule == r && sent[i].index == start + i
        invariant forall j :: 0 <= j < |rules| && j != r ==> rules[j].View() == old(rules[j].View()) && rules[j].actionIndex == old(rules[j].actionIndex)
        decreases UnlockedCount(rules[r].View())
      {
        if |rules[r].resources| == 0 {
          EmptyCount(rules[r].View());
          break;
        }
        ghost var v, n := rules[r].View(), rules[r].actionIndex;
        label act:
        var noise := draws(|sent|);
        var ran, a := StepRule(r, noise.0, noise.1);
        ActedValid@act(r);
        ActedShrunk@act(r);
        ShrunkScope@act();
        assert Shrunk@act(r);
        if !ran {
          break;
        }
        ActionCount(v, k, n);
        sent := sent + [a];
      }
    }

    /** One traversal: every rule in order, each until its condition fails.  It ends, never meets an
        error, and leaves no rule that could still act. */
    method Traverse(draws: nat -> nat -> (Circuits.Noise, Circuits.Noise)) returns (sent: seq<seq<Answer>>)
      requires Valid()
      modifies Scope()
      ensures Valid() && |sent| == |rules|
      ensures forall r :: 0 <= r < |rules| ==> Ran(r, sent[r])
      ensures forall r :: 0 <= r < |rules| ==> UnlockedCount(rules[r].View()) < Circuits.Arity(rules[r].round)
    {
      hide UnlockedCount, Exhaust, Turns, DistinctKeys, AsMap, Scope, Footprint, Qubits, Partners;
      sent := [];
      while |sent| < |rules|
        invariant |sent| <= |rules|
        invariant Valid() && Scope() <= old(Scope())
        invariant forall r :: 0 <= r < |sent| ==> Ran(r, sent[r])
        invariant forall r :: |sent| <= r < |rules| ==> rules[r].View() == old(rules[r].View()) && rules[r].actionIndex == old(rules[r].actionIndex)
      {
        var turn := ExhaustRule(|sent|, draws(|sent|));
        sent := sent + [turn];
      }
      forall r | 0 <= r < |rules| ensures UnlockedCount(rules[r].View()) < Circuits.Arity(rules[r].round) {
        assert Ran(r, sent[r]);
        ExhaustLeavesFew(old(rules[r].View()), Circuits.Arity(rules[r].round), old(rules[r].actionIndex));
      }
    }
  }

  lemma EmptyCount<Q>(s: seq<Entry<Q>>)
    requires s == []
    ensures UnlockedCount(s) == 0
  {
  }
}
