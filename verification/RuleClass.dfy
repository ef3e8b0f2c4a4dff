// A rule with its resource list, purification action and clauses, changed in place.
// Proved against the list functions the pipeline uses and against the circuits.
module RuleClass {
  import opened Basics
  import opened ResourceLists
  import opened Qubits
  import Circuits

  // ---- editing a list by qubit, as the program does ---------------------------------------

  predicate DistinctQubits<Q(==)>(s: seq<Entry<Q>>) {
    forall i, j :: 0 <= i < j < |s| ==> s[i].qubit != s[j].qubit
  }

  function RemoveQubit<Q(==)>(s: seq<Entry<Q>>, q: Q): seq<Entry<Q>> {
    if s == [] then [] else if s[0].qubit == q then s[1..] else [s[0]] + RemoveQubit(s[1..], q)
  }

  function RemoveAll<Q(==)>(s: seq<Entry<Q>>, qs: seq<Q>): seq<Entry<Q>>
    decreases |qs|
  {
    if qs == [] then s else RemoveAll(RemoveQubit(s, qs[0]), qs[1..])
  }

  function LockQubit<Q(==)>(s: seq<Entry<Q>>, q: Q, a: int): (t: seq<Entry<Q>>)
    ensures |t| == |s|
  {
    seq(|s|, i requires 0 <= i < |s| => if s[i].qubit == q then Entry(q, Locked(a)) else s[i])
  }

  predicate Mentions<Q(==)>(s: seq<Entry<Q>>, q: Q) {
    exists i :: 0 <= i < |s| && s[i].qubit == q
  }

  lemma {:induction false} TopMentioned<Q>(s: seq<Entry<Q>>, k: nat, q: Q)
    requires q in TopUnlocked(s, k)
    ensures Mentions(s, q)
  {
    if s != [] && k > 0 {
      if s[0].lock.Unlocked? && q == s[0].qubit {
      } else {
        TopMentioned(s[1..], if s[0].lock.Unlocked? then k - 1 else k, q);
        var i :| 0 <= i < |s[1..]| && s[1..][i].qubit == q;
        assert s[i + 1].qubit == q;
      }
    }
  }

  lemma {:induction false} TopIsUnlocked<Q>(s: seq<Entry<Q>>, k: nat, q: Q)
    requires q in TopUnlocked(s, k)
    ensures exists i :: 0 <= i < |s| && s[i] == Entry(q, Unlocked)
  {
    if s[0].lock.Unlocked? && q == s[0].qubit {
      assert s[0] == Entry(q, Unlocked);
    } else {
      TopIsUnlocked(s[1..], if s[0].lock.Unlocked? then k - 1 else k, q);
      var i :| 0 <= i < |s[1..]| && s[1..][i] == Entry(q, Unlocked);
      assert s[i + 1] == Entry(q, Unlocked);
    }
  }

  lemma {:induction false} RemoveAllBehind<Q>(h: Entry<Q>, s: seq<Entry<Q>>, qs: seq<Q>)
    requires h.qubit !in qs
    ensures RemoveAll([h] + s, qs) == [h] + RemoveAll(s, qs)
    decreases |qs|
  {
    if qs != [] {
      assert ([h] + s)[1..] == s;
      RemoveAllBehind(h, RemoveQubit(s, qs[0]), qs[1..]);
    }
  }

  lemma RemoveTwo<Q>(s: seq<Entry<Q>>, p: Q, q: Q)
    ensures RemoveAll(s, [p, q]) == RemoveQubit(RemoveQubit(s, p), q)
  {
    var t := RemoveQubit(s, p);
    assert [p, q][1..] == [q] && [q][1..] == [];
    assert RemoveAll(t, [q]) == RemoveAll(RemoveQubit(t, q), []);
  }

  lemma {:induction false} DropIsRemove<Q>(s: seq<Entry<Q>>, k: nat)
    requires DistinctQubits(s)
    ensures DropUnlocked(s, k) == RemoveAll(s, TopUnlocked(s, k))
  {
    if s != [] && k > 0 {
      assert s == [s[0]] + s[1..];
      if s[0].lock.Unlocked? {
        DropIsRemove(s[1..], k - 1);
        assert TopUnlocked(s, k)[1..] == TopUnlocked(s[1..], k - 1);
      } else {
        DropIsRemove(s[1..], k);
        if s[0].qubit in TopUnlocked(s[1..], k) {
          TopMentioned(s[1..], k, s[0].qubit);
        }
        RemoveAllBehind(s[0], s[1..], TopUnlocked(s[1..], k));
      }
    }
  }

  /** Locking the first unlocked qubit and removing the next k-1 is the k-input action on lists. */
  lemma {:induction false} ActionByQubit<Q>(s: seq<Entry<Q>>, k: nat, a: int)
    requires DistinctQubits(s) && 1 <= k <= UnlockedCount(s)
    ensures |TopUnlocked(s, k)| == k
    ensures AfterAction(s, k, a) == RemoveAll(LockQubit(s, TopUnlocked(s, k)[0], a), TopUnlocked(s, k)[1..])
  {
    TopLength(s, k);
    var top := TopUnlocked(s, k);
    if s[0].lock.Unlocked? {
      var h := Entry(s[0].qubit, Locked(a));
      assert LockQubit(s, s[0].qubit, a) == [h] + s[1..];
      assert top[1..] == TopUnlocked(s[1..], k - 1);
      DropIsRemove(s[1..], k - 1);
      if s[0].qubit in top[1..] {
        TopMentioned(s[1..], k - 1, s[0].qubit);
      }
      RemoveAllBehind(h, s[1..], top[1..]);
    } else {
      ActionByQubit(s[1..], k, a);
      if s[0].qubit in top {
        TopMentioned(s[1..], k, s[0].qubit);
      }
      assert LockQubit(s, top[0], a) == [s[0]] + LockQubit(s[1..], top[0], a);
      RemoveAllBehind(s[0], LockQubit(s[1..], top[0], a), top[1..]);
    }
  }

  lemma {:induction false} TopLength<Q>(s: seq<Entry<Q>>, k: nat)
    ensures |TopUnlocked(s, k)| == if k <= UnlockedCount(s) then k else UnlockedCount(s)
  {
    if s != [] && k > 0 {
      TopLength(s[1..], if s[0].lock.Unlocked? then k - 1 else k);
    }
  }

  lemma {:induction false} TopPrefix<Q>(s: seq<Entry<Q>>, j: nat, k: nat)
    requires j <= k
    ensures TopUnlocked(s, j) <= TopUnlocked(s, k)
  {
    if s != [] && j > 0 {
      if s[0].lock.Unlocked? {
        TopPrefix(s[1..], j - 1, k - 1);
      } else {
        TopPrefix(s[1..], j, k);
      }
    }
  }

  lemma {:induction false} TopDistinct<Q>(s: seq<Entry<Q>>, k: nat)
    requires DistinctQubits(s)
    ensures forall i, j :: 0 <= i < j < |TopUnlocked(s, k)| ==> TopUnlocked(s, k)[i] != TopUnlocked(s, k)[j]
  {
    if s != [] && k > 0 {
      if s[0].lock.Unlocked? {
        TopDistinct(s[1..], k - 1);
        if s[0].qubit in TopUnlocked(s[1..], k - 1) {
          TopMentioned(s[1..], k - 1, s[0].qubit);
        }
      } else {
        TopDistinct(s[1..], k);
      }
    }
  }

  lemma {:induction false} CountSplit<Q>(a: seq<Entry<Q>>, b: seq<Entry<Q>>)
    ensures UnlockedCount(a + b) == UnlockedCount(a) + UnlockedCount(b)
  {
    if a == [] {
      assert a + b == b;
    } else {
      assert (a + b)[1..] == a[1..] + b;
      CountSplit(a[1..], b);
    }
  }

  /** Past a prefix with fewer unlocked qubits than wanted, the search goes on in the rest. */
  lemma {:induction false} TopSplit<Q>(a: seq<Entry<Q>>, b: seq<Entry<Q>>, k: nat)
    requires UnlockedCount(a) <= k
    ensures TopUnlocked(a + b, k) == TopUnlocked(a, UnlockedCount(a)) + TopUnlocked(b, k - UnlockedCount(a))
    ensures |TopUnlocked(a, UnlockedCount(a))| == UnlockedCount(a)
  {
    TopLength(a, UnlockedCount(a));
    if a == [] {
      assert a + b == b;
    } else if k > 0 {
      assert (a + b)[1..] == a[1..] + b;
      TopSplit(a[1..], b, if a[0].lock.Unlocked? then k - 1 else k);
      NoneLeft(a);
    } else {
      NoneLeft(a);
    }
  }

  lemma {:induction false} NoneLeft<Q>(a: seq<Entry<Q>>)
    requires a != []
    ensures UnlockedCount(a) > 0 ==>
              TopUnlocked(a, UnlockedCount(a))
              == if a[0].lock.Unlocked? then [a[0].qubit] + TopUnlocked(a[1..], UnlockedCount(a[1..])) else TopUnlocked(a[1..], UnlockedCount(a[1..]))
    ensures UnlockedCount(a) == 0 ==> TopUnlocked(a[1..], UnlockedCount(a[1..])) == []
  {
  }

  lemma {:induction false} RemoveSplit<Q>(a: seq<Entry<Q>>, b: seq<Entry<Q>>, q: Q)
    requires !Mentions(a, q)
    ensures RemoveQubit(a + b, q) == a + RemoveQubit(b, q)
  {
    if a == [] {
      assert a + b == b;
    } else {
      assert (a + b)[1..] == a[1..] + b;
      assert a[0].qubit != q;
      forall i | 0 <= i < |a[1..]| ensures a[1..][i].qubit != q {
        assert a[i + 1].qubit != q;
      }
      RemoveSplit(a[1..], b, q);
    }
  }

  lemma RemoveAtDistinct<T>(s: seq<T>, i: nat)
    requires i < |s| && forall j, k :: 0 <= j < k < |s| ==> s[j] != s[k]
    ensures forall j, k :: 0 <= j < k < |RemoveAt(s, i)| ==> RemoveAt(s, i)[j] != RemoveAt(s, i)[k]
    ensures s[i] !in RemoveAt(s, i)
    ensures forall x :: x in RemoveAt(s, i) <==> x in s && x != s[i]
  {
    var t := RemoveAt(s, i);
    assert forall j :: 0 <= j < |t| ==> t[j] == s[if j < i then j else j + 1];
    assert forall j :: 0 <= j < |s| && j != i ==> s[j] == t[if j < i then j else j - 1];
  }

  // ---- the rule ----------------------------------------------------------------------------

  datatype Answer = Failed | Sent(ruleset: int, rule: int, index: int, outcome: seq<bool>)

  class Rule {
    const ruleset: int
    const index: int
    const partner: int
    const round: Circuits.Round
    /** The multimap: partner address and qubit, in insertion order for one key. */
    var resources: seq<StationaryQubit>
    var actionIndex: nat

    constructor (ruleset: int, index: int, partner: int, round: Circuits.Round)
      requires ruleset != -1 && index != -1
      ensures Valid() && resources == [] && actionIndex == 0
      ensures this.ruleset == ruleset && this.index == index && this.partner == partner && this.round == round
    {
      this.ruleset, this.index, this.partner, this.round := ruleset, index, partner, round;
      resources, actionIndex := [], 0;
    }

    function View(): (s: seq<Entry<StationaryQubit>>)
      reads this, resources
      ensures |s| == |resources|
      ensures forall i :: 0 <= i < |s| ==> s[i] == Entry(resources[i], resources[i].LockState())
    {
      seq(|resources|, i requires 0 <= i < |resources| reads this, resources => Entry(resources[i], resources[i].LockState()))
    }

    /** No qubit twice, unlocked qubits carry action index -1, no qubit's partner is in the list. */
    ghost predicate Valid()
      reads this, resources
    {
      && ruleset != -1 && index != -1
      && (forall i, j :: 0 <= i < j < |resources| ==> resources[i] != resources[j])
      && (forall q :: q in resources ==> if q.locked then q.actionIndex >= 0 else q.actionIndex == -1)
      && (forall q :: q in resources ==> q.partner !in resources)
    }

    method AddResource(q: StationaryQubit)
      requires Valid() && q !in resources && q.partner !in resources && q.partner != q
      requires forall p :: p in resources ==> p.partner != q
      requires !q.locked && q.actionIndex == -1
      modifies this`resources
      ensures Valid() && resources == old(resources) + [q]
    {
      resources := resources + [q];
    }

    /** The qubit `required` places below the oldest unlocked one. */
    method GetResourceFromTop(required: nat) returns (q: StationaryQubit?)
      requires Valid()
      ensures q == null <==> UnlockedCount(View()) <= required
      ensures q != null ==> q in resources && !q.locked
      ensures q != null ==> required < |TopUnlocked(View(), required + 1)| && q == TopUnlocked(View(), required + 1)[required]
    {
      ghost var v := View();
      var i, seen := 0, 0;
      q := null;
      while i < |resources|
        invariant 0 <= i <= |resources| && q == null
        invariant seen == UnlockedCount(v[..i]) && seen <= required
      {
        assert v == v[..i] + v[i..] && v[..i + 1] == v[..i] + [v[i]];
        CountSplit(v[..i], v[i..]);
        CountSplit(v[..i], [v[i]]);
        if resources[i].locked {
        } else if seen == required {
          TopSplit(v[..i], v[i..], required + 1);
          assert TopUnlocked(v[i..], 1) == [resources[i]] + TopUnlocked(v[i..][1..], 0);
          q := resources[i];
          return;
        } else {
          seen := seen + 1;
        }
        i := i + 1;
      }
      assert v[..i] == v;
    }

    method EraseAt(i: nat)
      requires Valid() && i < |resources|
      modifies this`resources
      ensures Valid()
      ensures resources == RemoveAt(old(resources), i) && View() == RemoveAt(old(View()), i)
      ensures old(resources)[i] !in resources
      ensures forall p :: p in resources <==> p in old(resources) && p != old(resources)[i]
    {
      RemoveAtDistinct(resources, i);
      resources := resources[..i] + resources[i + 1..];
    }

    /** Erase the first entry holding q. */
    method RemoveResource(q: StationaryQubit)
      requires Valid()
      modifies this`resources
      ensures Valid()
      ensures View() == RemoveQubit(old(View()), q)
      ensures forall p :: p in resources <==> p in old(resources) && p != q
    {
      ghost var v := View();
      var i := 0;
      while i < |resources|
        invariant 0 <= i <= |resources| && resources == old(resources)
        invariant q !in resources[..i]
      {
        if resources[i] == q {
          assert v == v[..i] + v[i..] && v[i..][1..] == v[i + 1..];
          RemoveSplit(v[..i], v[i..], q);
          EraseAt(i);
          return;
        }
        i := i + 1;
      }
      assert v + [] == v;
      RemoveSplit(v, [], q);
    }

    /** The resource clause: at least `required` unlocked qubits. */
    method EnoughResource(required: nat) returns (enough: bool)
      requires Valid()
      ensures enough <==> |resources| > 0 && UnlockedCount(View()) >= required
    {
      ghost var v := View();
      enough := false;
      var i, free := 0, 0;
      while i < |resources|
        invariant 0 <= i <= |resources|
        invariant free == UnlockedCount(v[..i])
        invariant enough <==> i > 0 && free >= required
      {
        assert v[..i + 1] == v[..i] + [v[i]];
        CountSplit(v[..i], [v[i]]);
        if !resources[i].locked {
          free := free + 1;
        }
        if free >= required {
          enough := true;
        }
        i := i + 1;
      }
      assert v[..i] == v;
    }

    /** Partners at the other node of the qubits in the list. */
    ghost function Partners(): set<StationaryQubit>
      reads this, resources
    {
      set q | q in resources && q.partner != null :: q.partner
    }

    method LockKept(kept: StationaryQubit)
      requires Valid() && kept in resources
      modifies kept`locked, kept`lockedRuleset, kept`lockedRule, kept`actionIndex
      ensures Valid() && View() == LockQubit(old(View()), kept, actionIndex)
      ensures kept.locked && kept.lockedRuleset == ruleset && kept.lockedRule == index && kept.actionIndex == actionIndex
    {
      kept.Lock(ruleset, index, actionIndex);
    }

    /** A measured tool leaves: its partner forgets it, the list drops it, the qubit is free again. */
    method Consume(tool: StationaryQubit)
      requires Valid() && tool in resources
      modifies this`resources, tool, tool.partner
      ensures Valid() && View() == RemoveQubit(old(View()), tool)
      ensures forall p :: p in resources <==> p in old(resources) && p != tool
      ensures tool.IsFree()
      ensures old(tool.partner) != null ==> old(tool.partner).partner == null
      ensures forall q :: q in resources ==> unchanged(q)
    {
      var p := tool.partner;
      tool.BreakEntanglement();
      assert View() == old(View());
      RemoveResource(tool);
      tool.SetFree();
    }

    /** The k oldest unlocked qubits: the kept one, then the tools. */
    ghost function Picked(k: nat): (qs: seq<StationaryQubit>)
      requires Valid() && k <= UnlockedCount(View())
      reads this, resources
      ensures |qs| == k && forall i :: 0 <= i < k ==> qs[i] in resources && !qs[i].locked
    {
      TopLength(View(), k);
      TopInList(k);
      TopUnlocked(View(), k)
    }

    lemma TopInList(k: nat)
      requires Valid()
      ensures forall q :: q in TopUnlocked(View(), k) ==> q in resources && !q.locked
    {
      forall q | q in TopUnlocked(View(), k) ensures q in resources && !q.locked {
        TopIsUnlocked(View(), k, q);
      }
    }

    static ghost function BitsOf(qs: seq<StationaryQubit>): (bits: seq<Circuits.Pauli>)
      reads qs
      ensures |bits| == |qs| && forall i :: 0 <= i < |qs| ==> bits[i] == qs[i].Bits()
    {
      if qs == [] then [] else [qs[0].Bits()] + BitsOf(qs[1..])
    }

    /** Error flags of the picked qubits. */
    ghost function PickedBits(k: nat): (bits: seq<Circuits.Pauli>)
      requires Valid() && k <= UnlockedCount(View())
      reads this, resources
      ensures |bits| == k
    {
      BitsOf(Picked(k))
    }

    /** After the circuit: lock the kept qubit and let the measured tool go. */
    method Settle(kept: StationaryQubit, tool: StationaryQubit)
      requires Valid() && UnlockedCount(View()) >= 2 && Picked(2) == [kept, tool] && kept != tool
      modifies this`resources, tool, tool.partner, kept`locked, kept`lockedRuleset, kept`lockedRule, kept`actionIndex
      ensures Valid() && View() == AfterAction(old(View()), 2, actionIndex)
      ensures tool.IsFree() && (old(tool.partner) != null ==> old(tool.partner).partner == null)
      ensures kept.Bits() == old(kept.Bits()) && kept.partner == old(kept.partner)
      ensures forall q :: q in resources ==> q in old(resources) && q.partner == old(q.partner)
    {
      ghost var v := View();
      ActionByQubit(v, 2, actionIndex);
      LockKept(kept);
      Consume(tool);
      assert [kept, tool][1..] == [tool] && [tool][1..] == [];
    }

    method Purify(kept: StationaryQubit, tool: StationaryQubit, nx: Circuits.Noise, nz: Circuits.Noise) returns (outcome: bool)
      requires Valid() && kept in resources && tool in resources && kept != tool && (round.X? || round.Z?)
      modifies kept`xError, kept`zError, tool`xError, tool`zError
      ensures Valid() && View() == old(View())
      ensures Circuits.Action(kept.Bits(), [outcome]) == Circuits.NoisyAction(round, [old(kept.Bits()), old(tool.Bits())], nx, nz)
    {
      if round.X? {
        outcome := tool.XPurify(kept, nx);
      } else {
        outcome := tool.ZPurify(kept, nz);
      }
    }

    lemma ViewDistinct()
      requires Valid()
      ensures forall k: nat, i, j :: 0 <= i < j < |TopUnlocked(View(), k)| ==> TopUnlocked(View(), k)[i] != TopUnlocked(View(), k)[j]
    {
      forall k: nat, i, j | 0 <= i < j < |TopUnlocked(View(), k)|
        ensures TopUnlocked(View(), k)[i] != TopUnlocked(View(), k)[j]
      {
        TopDistinct(View(), k);
      }
    }

    /** The kept qubit and the tool, or an error when two unlocked qubits are not there. */
    method SelectTwo() returns (ok: bool, kept: StationaryQubit?, tool: StationaryQubit?)
      requires Valid()
      ensures ok <==> UnlockedCount(View()) >= 2
      ensures ok ==> kept != null && tool != null && kept != tool && Picked(2) == [kept, tool]
    {
      hide TopUnlocked, UnlockedCount;
      TopPrefix(View(), 1, 2);
      TopLength(View(), 2);
      ViewDistinct();
      kept := GetResourceFromTop(0);
      tool := GetResourceFromTop(1);
      if kept == tool {
        return false, kept, tool;
      }
      if kept == null || tool == null {
        return false, kept, tool;
      }
      ok := true;
      assert Picked(2) == [kept, tool];
    }

    method RunSingleOn(kept: StationaryQubit, tool: StationaryQubit, nx: Circuits.Noise, nz: Circuits.Noise) returns (a: Answer)
      requires Valid() && (round.X? || round.Z?)
      requires UnlockedCount(View()) >= 2 && Picked(2) == [kept, tool] && kept != tool
      modifies this, resources, Partners()
      ensures Valid()
      ensures a == Sent(ruleset, index, old(actionIndex), Circuits.NoisyAction(round, old(PickedBits(2)), nx, nz).outcome)
      ensures kept.Bits() == Circuits.NoisyAction(round, old(PickedBits(2)), nx, nz).kept && kept.partner == old(kept.partner)
      ensures tool.IsFree() && (old(tool.partner) != null ==> old(tool.partner).partner == null)
      ensures View() == AfterAction(old(View()), 2, old(actionIndex)) && actionIndex == old(actionIndex) + 1
      ensures forall q :: q in resources ==> q in old(resources) && q.partner == old(q.partner)
    {
      hide TopUnlocked, UnlockedCount, AfterAction;
      assert PickedBits(2) == [kept.Bits(), tool.Bits()];
      assert kept == Picked(2)[0] && tool == Picked(2)[1];
      var outcome := Purify(kept, tool, nx, nz);
      Settle(kept, tool);
      a := Sent(ruleset, index, actionIndex, [outcome]);
      actionIndex := actionIndex + 1;
    }

    /** X or Z purification with one tool. */
    method RunSingle(nx: Circuits.Noise, nz: Circuits.Noise) returns (a: Answer)
      requires Valid() && (round.X? || round.Z?)
      modifies this, resources, Partners()
      ensures Valid()
      ensures old(UnlockedCount(View()) < 2) ==>
                a == Failed && resources == old(resources) && actionIndex == old(actionIndex) && forall q :: q in resources ==> unchanged(q)
      ensures old(UnlockedCount(View()) >= 2) ==>
                && a == Sent(ruleset, index, old(actionIndex), Circuits.NoisyAction(round, old(PickedBits(2)), nx, nz).outcome)
                && old(Picked(2))[0].Bits() == Circuits.NoisyAction(round, old(PickedBits(2)), nx, nz).kept
                && old(Picked(2))[0].partner == old(Picked(2)[0].partner)
                && old(Picked(2))[1].IsFree()
                && (old(Picked(2)[1].partner) != null ==> old(Picked(2)[1].partner).partner == null)
                && View() == AfterAction(old(View()), 2, old(actionIndex))
                && actionIndex == old(actionIndex) + 1
      ensures forall q :: q in resources ==> q in old(resources) && q.partner == old(q.partner)
    {
      hide TopUnlocked, UnlockedCount, AfterAction;
      var ok, kept, tool := SelectTwo();
      if !ok {
        return Failed;
      }
      a := RunSingleOn(kept, tool, nx, nz);
    }

    /** After a circuit with two tools. */
    method SettleDouble(kept: StationaryQubit, xTool: StationaryQubit, zTool: StationaryQubit)
      requires Valid() && UnlockedCount(View()) >= 3 && Picked(3) == [kept, xTool, zTool]
      requires kept != xTool && kept != zTool && xTool != zTool
      modifies this`resources, xTool, xTool.partner, zTool, zTool.partner
      modifies kept`locked, kept`lockedRuleset, kept`lockedRule, kept`actionIndex
      ensures Valid() && View() == AfterAction(old(View()), 3, actionIndex)
      ensures xTool.IsFree() && (old(xTool.partner) != null ==> old(xTool.partner).partner == null)
      ensures zTool.IsFree() && (old(zTool.partner) != null ==> old(zTool.partner).partner == null)
      ensures kept.Bits() == old(kept.Bits()) && kept.partner == old(kept.partner)
      ensures forall q :: q in resources ==> q in old(resources) && q.partner == old(q.partner)
    {
      hide TopUnlocked, UnlockedCount, AfterAction, LockQubit, RemoveQubit, RemoveAll;
      ghost var v := View();
      ViewDistinct();
      assert Picked(3)[0] == kept && Picked(3)[1] == xTool && Picked(3)[2] == zTool;
      ActionByQubit(v, 3, actionIndex);
      LockKept(kept);
      Consume(xTool);
      Consume(zTool);
      RemoveTwo(LockQubit(v, kept, actionIndex), xTool, zTool);
      assert [kept, xTool, zTool][1..] == [xTool, zTool];
    }

    /** X then Z, or Z then X, each with its own tool. */
    method PurifyDouble(kept: StationaryQubit, xTool: StationaryQubit, zTool: StationaryQubit, nx: Circuits.Noise, nz: Circuits.Noise) returns (xOut: bool, zOut: bool)
      requires Valid() && kept in resources && xTool in resources && zTool in resources && (round.XZ? || round.ZX?)
      requires kept != xTool && kept != zTool && xTool != zTool
      modifies kept`xError, kept`zError, xTool`xError, xTool`zError, zTool`xError, zTool`zError
      ensures Valid() && View() == old(View())
      ensures Circuits.Action(kept.Bits(), [xOut, zOut])
           == Circuits.NoisyAction(round, [old(kept.Bits()), old(xTool.Bits()), old(zTool.Bits())], nx, nz)
    {
      if round.XZ? {
        xOut := xTool.XPurify(kept, nx);
        zOut := zTool.ZPurify(kept, nz);
      } else {
        zOut := zTool.ZPurify(kept, nz);
        xOut := xTool.XPurify(kept, nx);
      }
    }

    method RunDoubleOn(kept: StationaryQubit, xTool: StationaryQubit, zTool: StationaryQubit, nx: Circuits.Noise, nz: Circuits.Noise) returns (a: Answer)
      requires Valid() && (round.XZ? || round.ZX?)
      requires UnlockedCount(View()) >= 3 && Picked(3) == [kept, xTool, zTool]
      requires kept != xTool && kept != zTool && xTool != zTool
      modifies this, resources, Partners()
      ensures Valid()
      ensures a == Sent(ruleset, index, old(actionIndex), Circuits.NoisyAction(round, old(PickedBits(3)), nx, nz).outcome)
      ensures kept.Bits() == Circuits.NoisyAction(round, old(PickedBits(3)), nx, nz).kept && kept.partner == old(kept.partner)
      ensures xTool.IsFree() && (old(xTool.partner) != null ==> old(xTool.partner).partner == null)
      ensures zTool.IsFree() && (old(zTool.partner) != null ==> old(zTool.partner).partner == null)
      ensures View() == AfterAction(old(View()), 3, old(actionIndex)) && actionIndex == old(actionIndex) + 1
      ensures forall q :: q in resources ==> q in old(resources) && q.partner == old(q.partner)
    {
      assert PickedBits(3) == [kept.Bits(), xTool.Bits(), zTool.Bits()];
      assert kept == Picked(3)[0] && xTool == Picked(3)[1] && zTool == Picked(3)[2];
      var xOut, zOut := PurifyDouble(kept, xTool, zTool, nx, nz);
      SettleDouble(kept, xTool, zTool);
      a := Sent(ruleset, index, actionIndex, [xOut, zOut]);
      actionIndex := actionIndex + 1;
    }

    /** The kept qubit and the two tools, or an error when three unlocked qubits are not there. */
    method SelectThree() returns (ok: bool, kept: StationaryQubit?, xTool: StationaryQubit?, zTool: StationaryQubit?)
      requires Valid()
      ensures ok <==> UnlockedCount(View()) >= 3
      ensures ok ==> kept != null && xTool != null && zTool != null && kept != xTool && kept != zTool && xTool != zTool
      ensures ok ==> Picked(3) == [kept, xTool, zTool]
    {
      hide TopUnlocked, UnlockedCount;
      TopPrefix(View(), 1, 3);
      TopPrefix(View(), 2, 3);
      TopLength(View(), 3);
      ViewDistinct();
      kept := GetResourceFromTop(0);
      xTool := GetResourceFromTop(1);
      zTool := GetResourceFromTop(2);
      if kept == xTool || kept == zTool || zTool == xTool {
        return false, kept, xTool, zTool;
      }
      if kept == null || xTool == null || zTool == null {
        return false, kept, xTool, zTool;
      }
      ok := true;
      assert Picked(3) == [kept, xTool, zTool];
    }

    /** Double purification: both errors in one action. */
    method RunDouble(nx: Circuits.Noise, nz: Circuits.Noise) returns (a: Answer)
      requires Valid() && (round.XZ? || round.ZX?)
      modifies this, resources, Partners()
      ensures Valid()
      ensures old(UnlockedCount(View()) < 3) ==>
                a == Failed && resources == old(resources) && actionIndex == old(actionIndex) && forall q :: q in resources ==> unchanged(q)
      ensures old(UnlockedCount(View()) >= 3) ==>
                && a == Sent(ruleset, index, old(actionIndex), Circuits.NoisyAction(round, old(PickedBits(3)), nx, nz).outcome)
                && old(Picked(3))[0].Bits() == Circuits.NoisyAction(round, old(PickedBits(3)), nx, nz).kept
                && old(Picked(3))[0].partner == old(Picked(3)[0].partner)
                && old(Picked(3))[1].IsFree() && old(Picked(3))[2].IsFree()
                && (old(Picked(3)[1].partner) != null ==> old(Picked(3)[1].partner).partner == null)
                && (old(Picked(3)[2].partner) != null ==> old(Picked(3)[2].partner).partner == null)
                && View() == AfterAction(old(View()), 3, old(actionIndex))
                && actionIndex == old(actionIndex) + 1
      ensures forall q :: q in resources ==> q in old(resources) && q.partner == old(q.partner)
    {
      hide TopUnlocked, UnlockedCount, AfterAction;
      var ok, kept, xTool, zTool := SelectThree();
      if !ok {
        return Failed;
      }
      a := RunDoubleOn(kept, xTool, zTool, nx, nz);
    }

    /** Position of the qubit an action locked, or the list's length. */
    method FindByAction(action: nat) returns (p: nat)
      requires Valid()
      ensures p == FindAction(View(), action)
    {
      p := 0;
      while p < |resources|
        invariant p <= |resources|
        invariant forall i :: 0 <= i < p ==> View()[i].lock != Locked(action)
      {
        if resources[p].actionIndex == action {
          FoundHere(View(), action, p);
          return;
        }
        p := p + 1;
      }
      FoundHere(View(), action, p);
    }

    /** One pass of the rule: the resource clause, then the action. */
    method CheckRun(nx: Circuits.Noise, nz: Circuits.Noise) returns (ran: bool, a: Answer)
      requires Valid()
      modifies this, resources, Partners()
      ensures Valid()
      ensures ran == old(UnlockedCount(View()) >= Circuits.Arity(round))
      ensures !ran ==> resources == old(resources) && View() == old(View()) && actionIndex == old(actionIndex)
      ensures ran ==> a.Sent? && a.rule == index && a.index == old(actionIndex) && actionIndex == old(actionIndex) + 1
      ensures ran ==> View() == AfterAction(old(View()), Circuits.Arity(round), old(actionIndex))
      ensures forall q :: q in resources ==> q in old(resources) && q.partner == old(q.partner)
    {
      hide TopUnlocked, AfterAction, FindAction;
      ran := EnoughResource(Circuits.Arity(round));
      if !ran {
        return false, Failed;
      }
      if round.X? || round.Z? {
        a := RunSingle(nx, nz);
      } else {
        a := RunDouble(nx, nz);
      }
    }
  }

  lemma {:induction false} FoundHere<Q>(s: seq<Entry<Q>>, a: int, p: nat)
    requires p <= |s| && forall i :: 0 <= i < p ==> s[i].lock != Locked(a)
    requires p < |s| ==> s[p].lock == Locked(a)
    ensures FindAction(s, a) == p
  {
    if p > 0 {
      assert forall i :: 0 <= i < p - 1 ==> s[1..][i] == s[i + 1];
      FoundHere(s[1..], a, p - 1);
    }
  }

  lemma {:induction false} DropCount<Q>(s: seq<Entry<Q>>, k: nat)
    requires k <= UnlockedCount(s)
    ensures UnlockedCount(DropUnlocked(s, k)) == UnlockedCount(s) - k
  {
    if s != [] && k > 0 {
      DropCount(s[1..], if s[0].lock.Unlocked? then k - 1 else k);
      if s[0].lock.Locked? {
        assert ([s[0]] + DropUnlocked(s[1..], k))[1..] == DropUnlocked(s[1..], k);
      }
    }
  }

  /** Every action lowers the number of unlocked qubits, so a traversal ends. */
  lemma {:induction false} ActionCount<Q>(s: seq<Entry<Q>>, k: nat, a: int)
    requires 1 <= k <= UnlockedCount(s)
    ensures UnlockedCount(AfterAction(s, k, a)) == UnlockedCount(s) - k
  {
    if s[0].lock.Unlocked? {
      DropCount(s[1..], k - 1);
      assert ([Entry(s[0].qubit, Locked(a))] + DropUnlocked(s[1..], k - 1))[1..] == DropUnlocked(s[1..], k - 1);
    } else {
      ActionCount(s[1..], k, a);
      assert ([s[0]] + AfterAction(s[1..], k, a))[1..] == AfterAction(s[1..], k, a);
    }
  }
}
