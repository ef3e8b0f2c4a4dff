// Handing new pairs to the running RuleSets: processes in order of their key, each taking
// the pairs shared with its partners.
module Allocation {

  /** A running RuleSet: its partners, and the rules it points at for their resources. */
  datatype Process = Process(partners: seq<int>, pointers: seq<nat>)

  type Entry = (int, nat)

  type Lists = map<(nat, nat), seq<Entry>>

  /** Which qubits are claimed, and the resources of rule r of process p under key (p, r). */
  datatype State = State(claimed: set<nat>, lists: Lists)

  function Resources(lists: Lists, p: nat, r: nat): seq<Entry> {
    if (p, r) in lists then lists[(p, r)] else []
  }

  function Give(lists: Lists, p: nat, r: nat, es: seq<Entry>): Lists {
    if es == [] then lists else lists[(p, r) := Resources(lists, p, r) + es]
  }

  /** Entries of the pool under this partner that are not claimed, in pool order. */
  function Unclaimed(pool: seq<Entry>, partner: int, claimed: set<nat>): seq<Entry> {
    if pool == [] then []
    else (if pool[0].0 == partner && pool[0].1 !in claimed then [pool[0]] else []) + Unclaimed(pool[1..], partner, claimed)
  }

  function Qubits(es: seq<Entry>): set<nat> {
    set e | e in es :: e.1
  }

  /** The entries of a rule under one partner, oldest first. */
  function Under(es: seq<Entry>, partner: int): seq<Entry> {
    if es == [] then [] else (if es[0].0 == partner then [es[0]] else []) + Under(es[1..], partner)
  }

  /** The rule that receives the pairs shared with partner i: the front rule, unless there is one
      pointer per partner. */
  function Receiver(p: Process, i: nat): nat {
    if |p.pointers| != |p.partners| || i >= |p.pointers| then 0 else p.pointers[i]
  }

  predicate OnceOnly(pool: seq<Entry>) {
    forall i, j :: 0 <= i < j < |pool| ==> pool[i].1 != pool[j].1
  }

  /** Process number p takes the pairs shared with its partner i. */
  function AfterPartner(process: Process, p: nat, pool: seq<Entry>, s: State, i: nat): State
    requires i < |process.partners|
  {
    var taken := Unclaimed(pool, process.partners[i], s.claimed);
    State(s.claimed + Qubits(taken), Give(s.lists, p, Receiver(process, i), taken))
  }

  function AfterPartners(process: Process, p: nat, pool: seq<Entry>, s: State, i: nat): State
    requires i <= |process.partners|
  {
    if i == 0 then s else AfterPartner(process, p, pool, AfterPartners(process, p, pool, s, i - 1), i - 1)
  }

  /** After the first p processes. */
  function AfterProcesses(ps: seq<Process>, pool: seq<Entry>, s: State, p: nat): State
    requires p <= |ps|
  {
    if p == 0 then s
    else AfterPartners(ps[p - 1], p - 1, pool, AfterProcesses(ps, pool, s, p - 1), |ps[p - 1].partners|)
  }

  // ---- who gets what ---------------------------------------------------------------------------

  /** The first position of the partner in the list, or its length. */
  function Position(partners: seq<int>, partner: int): (i: nat)
    ensures i <= |partners| && (i < |partners| ==> partners[i] == partner)
    ensures forall j :: 0 <= j < i ==> partners[j] != partner
  {
    if partners == [] || partners[0] == partner then 0 else 1 + Position(partners[1..], partner)
  }

  /** The first process that lists the partner, or the number of processes. */
  function Owner(ps: seq<Process>, partner: int): (p: nat)
    ensures p <= |ps| && (p < |ps| ==> partner in ps[p].partners)
    ensures forall q :: 0 <= q < p ==> partner !in ps[q].partners
  {
    if ps == [] || partner in ps[0].partners then 0 else 1 + Owner(ps[1..], partner)
  }

  lemma {:induction false} UnderAppend(a: seq<Entry>, b: seq<Entry>, partner: int)
    ensures Under(a + b, partner) == Under(a, partner) + Under(b, partner)
  {
    if a == [] {
      assert a + b == b;
    } else {
      assert (a + b)[1..] == a[1..] + b;
      UnderAppend(a[1..], b, partner);
      var head := if a[0].0 == partner then [a[0]] else [];
      assert Under(a + b, partner) == head + Under((a + b)[1..], partner);
      assert Under(a, partner) == head + Under(a[1..], partner);
      hide Under;
    }
  }

  lemma {:induction false} UnderUnclaimed(pool: seq<Entry>, k: int, claimed: set<nat>, partner: int)
    ensures Under(Unclaimed(pool, k, claimed), partner) == if k == partner then Unclaimed(pool, k, claimed) else []
  {
    if pool != [] {
      UnderUnclaimed(pool[1..], k, claimed, partner);
      var head := if pool[0].0 == k && pool[0].1 !in claimed then [pool[0]] else [];
      UnderAppend(head, Unclaimed(pool[1..], k, claimed), partner);
      assert head != [] ==> head[1..] == [];
    }
  }

  lemma {:induction false} UnclaimedIn(pool: seq<Entry>, k: int, claimed: set<nat>)
    ensures forall e :: e in Unclaimed(pool, k, claimed) <==> e in pool && e.0 == k && e.1 !in claimed
  {
    if pool != [] {
      UnclaimedIn(pool[1..], k, claimed);
    }
  }

  /** What partner k's pairs leave unclaimed for another partner. */
  lemma {:induction false} ClaimOther(pool: seq<Entry>, k: int, claimed: set<nat>, all: seq<Entry>, partner: int)
    requires OnceOnly(all) && forall e :: e in pool ==> e in all
    ensures Unclaimed(pool, partner, claimed + Qubits(Unclaimed(all, k, claimed)))
         == if k == partner then [] else Unclaimed(pool, partner, claimed)
    decreases |pool|
  {
    if pool != [] {
      ClaimOther(pool[1..], k, claimed, all, partner);
      UnclaimedIn(all, k, claimed);
      var e := pool[0];
      if e.0 == partner && e.1 !in claimed {
        if k == partner {
          assert e in Unclaimed(all, k, claimed);
        } else if e.1 in Qubits(Unclaimed(all, k, claimed)) {
          var f :| f in Unclaimed(all, k, claimed) && f.1 == e.1;
          SameEntry(all, e, f);
        }
      }
    }
  }

  lemma SameEntry(pool: seq<Entry>, e: Entry, f: Entry)
    requires OnceOnly(pool) && e in pool && f in pool && e.1 == f.1
    ensures e == f
  {
    var i :| 0 <= i < |pool| && pool[i] == e;
    var j :| 0 <= j < |pool| && pool[j] == f;
    assert !(i < j) && !(j < i);
  }

  /** Where the pairs shared with a partner go: process q's rule r, once that process had its turn. */
  datatype Fate = Fate(done: bool, here: bool)

  /** Fixed partner, process q and rule r: what is still unclaimed, and what the rule has received. */
  predicate Tally(pool: seq<Entry>, s0: State, s: State, partner: int, q: nat, r: nat, fate: Fate) {
    && Unclaimed(pool, partner, s.claimed) == (if fate.done then [] else Unclaimed(pool, partner, s0.claimed))
    && Under(Resources(s.lists, q, r), partner)
         == Under(Resources(s0.lists, q, r), partner) + (if fate.done && fate.here then Unclaimed(pool, partner, s0.claimed) else [])
  }

  lemma GiveUnder(lists: Lists, p: nat, r: nat, es: seq<Entry>, q: nat, v: nat, partner: int)
    ensures Under(Resources(Give(lists, p, r, es), q, v), partner)
         == Under(Resources(lists, q, v), partner) + (if p == q && r == v then Under(es, partner) else [])
  {
    UnderAppend(Resources(lists, q, v), es, partner);
    hide Under;
    if es == [] {
      assert Resources(lists, q, v) + [] == Resources(lists, q, v);
      UnderNothing(partner);
    }
  }

  lemma UnderNothing(partner: int)
    ensures Under([], partner) == []
  {
  }

  /** One partner: its pairs go to the receiver, unless an earlier turn took them. */
  lemma PartnerStep(process: Process, p: nat, pool: seq<Entry>, s0: State, s: State, i: nat, partner: int, q: nat, r: nat, fate: Fate, fate': Fate)
    requires i < |process.partners| && OnceOnly(pool) && Tally(pool, s0, s, partner, q, r, fate)
    requires fate'.done <==> fate.done || process.partners[i] == partner
    requires fate.done ==> fate'.here == fate.here
    requires !fate.done && process.partners[i] == partner ==> (fate'.here <==> p == q && Receiver(process, i) == r)
    ensures Tally(pool, s0, AfterPartner(process, p, pool, s, i), partner, q, r, fate')
  {
    var k := process.partners[i];
    var taken := Unclaimed(pool, k, s.claimed);
    ClaimOther(pool, k, s.claimed, pool, partner);
    UnderUnclaimed(pool, k, s.claimed, partner);
    GiveUnder(s.lists, p, Receiver(process, i), taken, q, r, partner);
    var t := AfterPartner(process, p, pool, s, i);
    assert t.claimed == s.claimed + Qubits(taken) && t.lists == Give(s.lists, p, Receiver(process, i), taken);
    hide *;
    TallyIntro(pool, s0, s, t, partner, q, r, fate, fate', k == partner, p == q && Receiver(process, i) == r);
  }

  /** One turn, seen from one partner and one rule. */
  lemma TallyIntro(pool: seq<Entry>, s0: State, s: State, t: State, partner: int, q: nat, r: nat, fate: Fate, fate': Fate,
                   turn: bool, here: bool)
    requires Tally(pool, s0, s, partner, q, r, fate)
    requires fate'.done <==> fate.done || turn
    requires fate.done ==> fate'.here == fate.here
    requires !fate.done && turn ==> fate'.here == here
    requires Unclaimed(pool, partner, t.claimed) == if turn then [] else Unclaimed(pool, partner, s.claimed)
    requires Under(Resources(t.lists, q, r), partner)
          == Under(Resources(s.lists, q, r), partner) + (if turn && here then Unclaimed(pool, partner, s.claimed) else [])
    ensures Tally(pool, s0, t, partner, q, r, fate')
  {
    hide Unclaimed, Under, Resources;
  }

  /** The partner had its turn at one of the first i partners of process p, or at an earlier process. */
  function FateAt(ps: seq<Process>, p: nat, i: nat, partner: int, q: nat, r: nat): Fate
    requires p < |ps| && i <= |ps[p].partners| && q < |ps|
  {
    Fate(Owner(ps, partner) < p || partner in ps[p].partners[..i],
         Owner(ps, partner) == q && Receiver(ps[q], Position(ps[q].partners, partner)) == r)
  }

  lemma FateNext(ps: seq<Process>, p: nat, i: nat, partner: int, q: nat, r: nat)
    requires p < |ps| && i < |ps[p].partners| && q < |ps|
    ensures var f, g := FateAt(ps, p, i, partner, q, r), FateAt(ps, p, i + 1, partner, q, r);
            && (g.done <==> f.done || ps[p].partners[i] == partner)
            && f.here == g.here
            && (!f.done && ps[p].partners[i] == partner ==> (g.here <==> p == q && Receiver(ps[p], i) == r))
  {
    assert ps[p].partners[..i + 1] == ps[p].partners[..i] + [ps[p].partners[i]];
    if !FateAt(ps, p, i, partner, q, r).done && ps[p].partners[i] == partner {
      FirstPosition(ps[p].partners, partner, i);
    }
  }

  lemma {:induction false} FirstPosition(partners: seq<int>, partner: int, i: nat)
    requires i < |partners| && partners[i] == partner && partner !in partners[..i]
    ensures Position(partners, partner) == i
  {
    if i > 0 {
      assert partners[0] == partners[..i][0] && partners[1..][..i - 1] == partners[..i][1..];
      FirstPosition(partners[1..], partner, i - 1);
    }
  }

  lemma {:induction false} PartnersStep(ps: seq<Process>, pool: seq<Entry>, s0: State, s: State, p: nat, i: nat, partner: int, q: nat, r: nat)
    requires OnceOnly(pool) && p < |ps| && i <= |ps[p].partners| && q < |ps|
    requires Tally(pool, s0, s, partner, q, r, FateAt(ps, p, 0, partner, q, r))
    ensures Tally(pool, s0, AfterPartners(ps[p], p, pool, s, i), partner, q, r, FateAt(ps, p, i, partner, q, r))
    decreases i
  {
    hide *;
    PartnersUnfold(ps[p], p, pool, s, i);
    if i > 0 {
      PartnersStep(ps, pool, s0, s, p, i - 1, partner, q, r);
      FateNext(ps, p, i - 1, partner, q, r);
      PartnerStep(ps[p], p, pool, s0, AfterPartners(ps[p], p, pool, s, i - 1), i - 1, partner, q, r,
                  FateAt(ps, p, i - 1, partner, q, r), FateAt(ps, p, i, partner, q, r));
    }
  }

  function FateBefore(ps: seq<Process>, p: nat, partner: int, q: nat, r: nat): Fate
    requires p <= |ps| && q < |ps|
  {
    Fate(Owner(ps, partner) < p, Owner(ps, partner) == q && Receiver(ps[q], Position(ps[q].partners, partner)) == r)
  }

  lemma FateTurn(ps: seq<Process>, p: nat, partner: int, q: nat, r: nat)
    requires p < |ps| && q < |ps|
    ensures FateAt(ps, p, 0, partner, q, r) == FateBefore(ps, p, partner, q, r)
    ensures FateAt(ps, p, |ps[p].partners|, partner, q, r) == FateBefore(ps, p + 1, partner, q, r)
  {
    assert ps[p].partners[..|ps[p].partners|] == ps[p].partners;
  }

  lemma TallyStart(ps: seq<Process>, pool: seq<Entry>, s: State, partner: int, q: nat, r: nat)
    requires q < |ps|
    ensures Tally(pool, s, s, partner, q, r, FateBefore(ps, 0, partner, q, r))
  {
  }

  lemma ProcessesUnfold(ps: seq<Process>, pool: seq<Entry>, s: State, p: nat)
    requires p <= |ps|
    ensures AfterProcesses(ps, pool, s, p) == if p == 0 then s
              else AfterPartners(ps[p - 1], p - 1, pool, AfterProcesses(ps, pool, s, p - 1), |ps[p - 1].partners|)
  {
  }

  lemma PartnersUnfold(process: Process, p: nat, pool: seq<Entry>, s: State, i: nat)
    requires i <= |process.partners|
    ensures AfterPartners(process, p, pool, s, i) == if i == 0 then s
              else AfterPartner(process, p, pool, AfterPartners(process, p, pool, s, i - 1), i - 1)
  {
  }

  lemma {:induction false} ProcessesStep(ps: seq<Process>, pool: seq<Entry>, s: State, p: nat, partner: int, q: nat, r: nat)
    requires OnceOnly(pool) && p <= |ps| && q < |ps|
    ensures Tally(pool, s, AfterProcesses(ps, pool, s, p), partner, q, r, FateBefore(ps, p, partner, q, r))
    decreases p
  {
    hide *;
    ProcessesUnfold(ps, pool, s, p);
    if p == 0 {
      TallyStart(ps, pool, s, partner, q, r);
    } else {
      FateTurn(ps, p - 1, partner, q, r);
      ProcessesStep(ps, pool, s, p - 1, partner, q, r);
      PartnersStep(ps, pool, s, AfterProcesses(ps, pool, s, p - 1), p - 1, |ps[p - 1].partners|, partner, q, r);
    }
  }

  /** A priority partition: the unclaimed pairs shared with a partner all go, in pool order, to one rule
      of the first process that lists the partner: the one its pointer names, when there is one pointer per
      partner, and the front rule otherwise.  No other rule of any process gets one of them. */
  lemma PriorityPartition(ps: seq<Process>, pool: seq<Entry>, s: State, partner: int, q: nat, r: nat)
    requires OnceOnly(pool) && q < |ps|
    ensures var t := AfterProcesses(ps, pool, s, |ps|);
            var i := Position(ps[q].partners, partner);
            var front := |ps[q].pointers| != |ps[q].partners|;
            && Unclaimed(pool, partner, t.claimed) == (if Owner(ps, partner) < |ps| then [] else Unclaimed(pool, partner, s.claimed))
            && Under(Resources(t.lists, q, r), partner) == Under(Resources(s.lists, q, r), partner)
                 + (if Owner(ps, partner) == q && (if front then r == 0 else i < |ps[q].pointers| && r == ps[q].pointers[i])
                    then Unclaimed(pool, partner, s.claimed) else [])
  {
    ProcessesStep(ps, pool, s, |ps|, partner, q, r);
    hide AfterProcesses, Unclaimed, Under, Resources;
  }

  // ---- the loops -----------------------------------------------------------------------------------

  class Allocator {
    const processes: seq<Process>
    var pool: seq<Entry>
    var claimed: set<nat>
    var lists: Lists

    constructor (processes: seq<Process>)
      ensures this.processes == processes && pool == [] && View() == State({}, map[])
    {
      this.processes, pool, claimed, lists := processes, [], {}, map[];
    }

    function View(): State
      reads this
    {
      State(claimed, lists)
    }

    /** Give the pairs shared with partner i to process p.  False where the program stops because the
        front rule did not grow. */
    method GivePartner(p: nat, i: nat) returns (ok: bool)
      requires p < |processes| && i < |processes[p].partners| && OnceOnly(pool)
      modifies this`claimed, this`lists
      ensures ok ==> View() == AfterPartner(processes[p], p, pool, old(View()), i)
      ensures ok <==> Receiver(processes[p], i) == 0 || Unclaimed(pool, processes[p].partners[i], old(claimed)) == []
    {
      hide Unclaimed, Receiver, Give, Resources;
      var partner, r := processes[p].partners[i], Receiver(processes[p], i);
      ghost var was := View();
      NothingTaken(pool, partner, was);
      GiveNothing(lists, p, r);
      var n := 0;
      while n < |pool|
        invariant 0 <= n <= |pool|
        invariant var taken := Unclaimed(pool[..n], partner, was.claimed);
                  && claimed == was.claimed + Qubits(taken)
                  && lists == Give(was.lists, p, r, taken)
                  && (r != 0 ==> taken == [])
      {
        UnclaimedNext(pool, partner, was.claimed, n);
        ghost var taken := Unclaimed(pool[..n], partner, was.claimed);
        assert taken + [] == taken;
        if pool[n].1 !in claimed && partner == pool[n].0 {
          GiveMore(was.lists, p, r, Unclaimed(pool[..n], partner, was.claimed), pool[n]);
          var before := |Resources(lists, p, 0)|;
          lists := Give(lists, p, r, [pool[n]]);
          if |Resources(lists, p, 0)| != before + 1 {
            UnclaimedRest(pool, partner, was.claimed, n);
            return false;
          }
          claimed := claimed + {pool[n].1};
        }
        n := n + 1;
      }
      assert pool[..n] == pool;
      ok := true;
    }

    /** All running RuleSets, in the order of their keys. */
    method Allocate() returns (ok: bool)
      requires OnceOnly(pool)
      modifies this`claimed, this`lists
      ensures ok ==> View() == AfterProcesses(processes, pool, old(View()), |processes|)
      ensures (forall p, i :: 0 <= p < |processes| && 0 <= i < |processes[p].partners| ==> Receiver(processes[p], i) == 0) ==> ok
    {
      hide AfterPartner, AfterPartners, AfterProcesses, Receiver;
      ok := true;
      var p := 0;
      ghost var s := View();
      ProcessesUnfold(processes, pool, s, 0);
      while p < |processes|
        invariant ok && 0 <= p <= |processes|
        invariant View() == AfterProcesses(processes, pool, s, p)
      {
        ghost var was := View();
        ProcessesUnfold(processes, pool, s, p + 1);
        PartnersUnfold(processes[p], p, pool, was, 0);
        var i := 0;
        while i < |processes[p].partners|
          invariant ok && 0 <= i <= |processes[p].partners|
          invariant View() == AfterPartners(processes[p], p, pool, was, i)
        {
          PartnersUnfold(processes[p], p, pool, was, i + 1);
          ok := GivePartner(p, i);
          if !ok {
            return;
          }
          i := i + 1;
        }
        p := p + 1;
      }
    }
  }

  lemma NothingTaken(pool: seq<Entry>, k: int, s: State)
    ensures Unclaimed(pool[..0], k, s.claimed) == [] && s.claimed + Qubits([]) == s.claimed
  {
  }

  lemma GiveNothing(lists: Lists, p: nat, r: nat)
    ensures Give(lists, p, r, []) == lists
  {
  }

  lemma GiveMore(lists: Lists, p: nat, r: nat, es: seq<Entry>, e: Entry)
    ensures Give(Give(lists, p, r, es), p, r, [e]) == Give(lists, p, r, es + [e])
    ensures |Resources(Give(Give(lists, p, r, es), p, r, [e]), p, 0)|
         == |Resources(Give(lists, p, r, es), p, 0)| + if r == 0 then 1 else 0
  {
    assert Resources(lists, p, r) + es + [e] == Resources(lists, p, r) + (es + [e]);
    assert es == [] ==> es + [e] == [e];
  }

  lemma {:induction false} UnclaimedAppend(a: seq<Entry>, b: seq<Entry>, k: int, claimed: set<nat>)
    ensures Unclaimed(a + b, k, claimed) == Unclaimed(a, k, claimed) + Unclaimed(b, k, claimed)
  {
    if a == [] {
      assert a + b == b;
    } else {
      assert (a + b)[1..] == a[1..] + b;
      UnclaimedAppend(a[1..], b, k, claimed);
      var head := if a[0].0 == k && a[0].1 !in claimed then [a[0]] else [];
      assert Unclaimed(a + b, k, claimed) == head + Unclaimed((a + b)[1..], k, claimed);
    }
  }

  lemma UnclaimedOne(e: Entry, k: int, claimed: set<nat>)
    ensures Unclaimed([e], k, claimed) == if e.0 == k && e.1 !in claimed then [e] else []
  {
    var one := [e];
    assert one[1..] == [];
  }

  /** One more entry of the pool: it is taken when it has the partner and was not claimed before. */
  lemma UnclaimedNext(pool: seq<Entry>, k: int, claimed: set<nat>, n: nat)
    requires OnceOnly(pool) && n < |pool|
    ensures var taken := Unclaimed(pool[..n], k, claimed);
            && Unclaimed(pool[..n + 1], k, claimed)
                 == taken + (if pool[n].1 !in claimed + Qubits(taken) && pool[n].0 == k then [pool[n]] else [])
            && Qubits(taken + [pool[n]]) == Qubits(taken) + {pool[n].1}
  {
    var taken := Unclaimed(pool[..n], k, claimed);
    assert pool[..n + 1] == pool[..n] + [pool[n]];
    UnclaimedAppend(pool[..n], [pool[n]], k, claimed);
    UnclaimedOne(pool[n], k, claimed);
    UnclaimedIn(pool[..n], k, claimed);
    hide Unclaimed;
    assert forall e :: e in taken ==> e in pool[..n] && e.1 != pool[n].1;
  }

  lemma UnclaimedRest(pool: seq<Entry>, k: int, claimed: set<nat>, n: nat)
    requires n < |pool| && pool[n].0 == k && pool[n].1 !in claimed
    ensures Unclaimed(pool, k, claimed) != []
  {
    UnclaimedIn(pool, k, claimed);
    assert pool[n] in Unclaimed(pool, k, claimed);
  }
}
