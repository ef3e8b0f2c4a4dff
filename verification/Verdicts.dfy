// Comparing the two reports of an action, whatever order they arrive in.  The program has
// four copies of this logic, one per kind of result; they differ only in the outcome type.
module Verdicts {

  datatype Key = Key(ruleset: nat, rule: nat, index: nat)

  datatype Report<O> = Report(key: Key, own: bool, outcome: O)

  datatype Verdict = Verdict(key: Key, keep: bool)

  datatype Single = Single(plus: bool)
  datatype Double = Double(x: bool, z: bool)
  datatype Triple = Triple(x: bool, z: bool, ds: bool)
  datatype Quatro = Quatro(x: bool, z: bool, dsX: bool, dsZ: bool)

  /** The stored results and the verdicts applied so far, oldest first. */
  datatype Board<O> = Board(table: map<Key, O>, verdicts: seq<Verdict>)

  function Receive<O(==)>(b: Board<O>, r: Report<O>): Board<O> {
    if r.key in b.table
    then Board(b.table - {r.key}, b.verdicts + [Verdict(r.key, b.table[r.key] == r.outcome)])
    else b.(table := b.table[r.key := r.outcome])
  }

  function ReceiveAll<O(==)>(arrivals: seq<Report<O>>): Board<O> {
    if arrivals == [] then Board(map[], [])
    else Receive(ReceiveAll(arrivals[..|arrivals| - 1]), arrivals[|arrivals| - 1])
  }

  /** No node reports an action twice. */
  predicate OnceEach<O>(arrivals: seq<Report<O>>) {
    forall i, j :: 0 <= i < j < |arrivals| ==> arrivals[i].key != arrivals[j].key || arrivals[i].own != arrivals[j].own
  }

  predicate Has<O>(arrivals: seq<Report<O>>, key: Key, own: bool) {
    exists i :: 0 <= i < |arrivals| && arrivals[i].key == key && arrivals[i].own == own
  }

  ghost function OutcomeOf<O>(arrivals: seq<Report<O>>, key: Key, own: bool): O
    requires Has(arrivals, key, own)
  {
    var i :| 0 <= i < |arrivals| && arrivals[i].key == key && arrivals[i].own == own;
    arrivals[i].outcome
  }

  function Occurrences(verdicts: seq<Verdict>, key: Key): nat {
    if verdicts == [] then 0
    else Occurrences(verdicts[..|verdicts| - 1], key) + if verdicts[|verdicts| - 1].key == key then 1 else 0
  }

  lemma OutcomeUnique<O>(arrivals: seq<Report<O>>, i: nat)
    requires OnceEach(arrivals) && i < |arrivals|
    ensures Has(arrivals, arrivals[i].key, arrivals[i].own)
    ensures OutcomeOf(arrivals, arrivals[i].key, arrivals[i].own) == arrivals[i].outcome
  {
  }

  lemma OncePrefix<O>(arrivals: seq<Report<O>>, r: Report<O>)
    requires OnceEach(arrivals + [r])
    ensures OnceEach(arrivals)
  {
    var all := arrivals + [r];
    assert forall i :: 0 <= i < |arrivals| ==> all[i] == arrivals[i];
  }

  lemma HasSnoc<O>(arrivals: seq<Report<O>>, r: Report<O>, key: Key, own: bool)
    requires OnceEach(arrivals + [r])
    ensures Has(arrivals + [r], key, own) <==> Has(arrivals, key, own) || (r.key == key && r.own == own)
    ensures Has(arrivals, key, own) ==> OutcomeOf(arrivals + [r], key, own) == OutcomeOf(arrivals, key, own)
    ensures r.key == key && r.own == own ==> !Has(arrivals, key, own) && OutcomeOf(arrivals + [r], key, own) == r.outcome
  {
    var all := arrivals + [r];
    OncePrefix(arrivals, r);
    if Has(arrivals, key, own) {
      var i :| 0 <= i < |arrivals| && arrivals[i].key == key && arrivals[i].own == own;
      assert all[i] == arrivals[i];
      OutcomeUnique(all, i);
      OutcomeUnique(arrivals, i);
    }
    if r.key == key && r.own == own {
      OutcomeUnique(all, |arrivals|);
    }
  }

  /** What the board knows about one action after any arrivals. */
  ghost predicate Settled<O>(arrivals: seq<Report<O>>, b: Board<O>, key: Key) {
    var mine, theirs := Has(arrivals, key, true), Has(arrivals, key, false);
    && (key in b.table <==> mine != theirs)
    && (mine && !theirs ==> b.table[key] == OutcomeOf(arrivals, key, true))
    && (theirs && !mine ==> b.table[key] == OutcomeOf(arrivals, key, false))
    && Occurrences(b.verdicts, key) == (if mine && theirs then 1 else 0)
    && (forall i :: 0 <= i < |b.verdicts| && b.verdicts[i].key == key ==>
          mine && theirs && (b.verdicts[i].keep <==> OutcomeOf(arrivals, key, true) == OutcomeOf(arrivals, key, false)))
  }

  lemma VerdictSnoc(verdicts: seq<Verdict>, v: Verdict, key: Key)
    ensures Occurrences(verdicts + [v], key) == Occurrences(verdicts, key) + if v.key == key then 1 else 0
  {
    assert (verdicts + [v])[..|verdicts|] == verdicts;
  }

  lemma NoneYet(verdicts: seq<Verdict>, key: Key, i: nat)
    requires i < |verdicts| && verdicts[i].key == key
    ensures Occurrences(verdicts, key) >= 1
  {
    if i < |verdicts| - 1 {
      NoneYet(verdicts[..|verdicts| - 1], key, i);
    }
  }

  lemma SettleStep<O>(before: seq<Report<O>>, r: Report<O>, b: Board<O>, key: Key)
    requires OnceEach(before + [r]) && Settled(before, b, key)
    ensures Settled(before + [r], Receive(b, r), key)
  {
    HasSnoc(before, r, key, true);
    HasSnoc(before, r, key, false);
    hide Has, OutcomeOf, OnceEach, Occurrences;
    if r.key in b.table {
      VerdictSnoc(b.verdicts, Verdict(r.key, b.table[r.key] == r.outcome), key);
      forall i | 0 <= i < |b.verdicts| && b.verdicts[i].key == key ensures Occurrences(b.verdicts, key) >= 1 {
        NoneYet(b.verdicts, key, i);
      }
    }
  }

  /** In any order: one report is stored, two give exactly one verdict, keep iff the outcomes agree,
      and the table holds nothing else. */
  lemma {:induction false} AnyOrder<O>(arrivals: seq<Report<O>>, key: Key)
    requires OnceEach(arrivals)
    ensures Settled(arrivals, ReceiveAll(arrivals), key)
  {
    if arrivals != [] {
      var before, r := arrivals[..|arrivals| - 1], arrivals[|arrivals| - 1];
      assert arrivals == before + [r];
      OncePrefix(before, r);
      AnyOrder(before, key);
      SettleStep(before, r, ReceiveAll(before), key);
    }
  }

  /** The same reports as the other node receives them. */
  ghost predicate Mirror<O>(a: seq<Report<O>>, b: seq<Report<O>>) {
    forall key, own :: Has(a, key, own) && Has(b, key, !own) ==> OutcomeOf(a, key, own) == OutcomeOf(b, key, !own)
  }

  /** Both nodes give the same verdict on every action they both settle, and each at most once. */
  lemma SameVerdict<O>(a: seq<Report<O>>, b: seq<Report<O>>, i: nat, j: nat)
    requires OnceEach(a) && OnceEach(b) && Mirror(a, b)
    requires i < |ReceiveAll(a).verdicts| && j < |ReceiveAll(b).verdicts|
    requires ReceiveAll(a).verdicts[i].key == ReceiveAll(b).verdicts[j].key
    ensures ReceiveAll(a).verdicts[i].keep == ReceiveAll(b).verdicts[j].keep
    ensures Occurrences(ReceiveAll(a).verdicts, ReceiveAll(a).verdicts[i].key) == 1
  {
    var key := ReceiveAll(a).verdicts[i].key;
    AnyOrder(a, key);
    AnyOrder(b, key);
    assert Has(a, key, true) && Has(b, key, !true) && Has(a, key, false) && Has(b, key, !false);
  }
}
