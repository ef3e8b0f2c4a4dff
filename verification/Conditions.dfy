// Conditions with clauses that count, and the measuring rule that ends a link RuleSet.
module Conditions {
  import opened Basics

  /** A resource as a clause sees it: the partner it is shared with, and whether it is locked. */
  datatype Resource = Resource(partner: int, locked: bool)

  datatype Clause =
    | Count(current: nat, max: nat)
    | Enough(partner: int, required: nat)

  function FreeWith(rs: seq<Resource>, partner: int): nat {
    if rs == [] then 0
    else FreeWith(rs[..|rs| - 1], partner) + if rs[|rs| - 1].partner == partner && !rs[|rs| - 1].locked then 1 else 0
  }

  /** A count has room, or enough unlocked resources are shared with the partner; a requirement of zero
      still needs one resource, locked or not. */
  predicate Satisfied(c: Clause, rs: seq<Resource>) {
    match c
    case Count(current, max) => current < max
    case Enough(partner, required) =>
      FreeWith(rs, partner) >= required && exists i :: 0 <= i < |rs| && rs[i].partner == partner
  }

  /** A satisfied count goes up by one. */
  function Ticked(c: Clause): Clause {
    match c
    case Count(current, max) => if current < max then Count(current + 1, max) else c
    case Enough(_, _) => c
  }

  /** The clauses in order, up to the first that is not satisfied. */
  function Checked(clauses: seq<Clause>, rs: seq<Resource>): (r: (bool, seq<Clause>))
    ensures |r.1| == |clauses|
  {
    if clauses == [] then (true, [])
    else if !Satisfied(clauses[0], rs) then (false, clauses)
    else
      var rest := Checked(clauses[1..], rs);
      (rest.0, [Ticked(clauses[0])] + rest.1)
  }

  /** Position of the first clause that is not satisfied, or the number of clauses. */
  function FirstFailing(clauses: seq<Clause>, rs: seq<Resource>): (p: nat)
    ensures p <= |clauses| && (p < |clauses| ==> !Satisfied(clauses[p], rs))
    ensures forall i :: 0 <= i < p ==> Satisfied(clauses[i], rs)
  {
    if clauses == [] || !Satisfied(clauses[0], rs) then 0 else 1 + FirstFailing(clauses[1..], rs)
  }

  /** The check is the conjunction, and exactly the clauses before the first failing one have ticked. */
  lemma {:induction false} CheckIsConjunction(clauses: seq<Clause>, rs: seq<Resource>, i: nat)
    requires i < |clauses|
    ensures Checked(clauses, rs).0 <==> FirstFailing(clauses, rs) == |clauses|
    ensures Checked(clauses, rs).1[i] == if i < FirstFailing(clauses, rs) then Ticked(clauses[i]) else clauses[i]
  {
    if Satisfied(clauses[0], rs) {
      if |clauses| > 1 {
        CheckIsConjunction(clauses[1..], rs, if i > 0 then i - 1 else 0);
      }
    }
  }

  /** A check that fails changes nothing exactly when no count stands before the first failing clause. */
  lemma FailedCheckCounts(clauses: seq<Clause>, rs: seq<Resource>)
    requires !Checked(clauses, rs).0
    ensures Checked(clauses, rs).1 == clauses <==> forall i :: 0 <= i < FirstFailing(clauses, rs) ==> clauses[i].Enough?
  {
    var t, p := Checked(clauses, rs).1, FirstFailing(clauses, rs);
    forall i | 0 <= i < |clauses| ensures t[i] == if i < p then Ticked(clauses[i]) else clauses[i] {
      CheckIsConjunction(clauses, rs, i);
    }
    if i :| 0 <= i < p && clauses[i].Count? {
      assert Satisfied(clauses[i], rs);
      assert t[i] != clauses[i];
    } else {
      assert forall i :: 0 <= i < p ==> clauses[i].Enough?;
      assert t == clauses;
    }
  }

  function Repeat(clauses: seq<Clause>, rs: seq<Resource>, n: nat): seq<Clause> {
    if n == 0 then clauses else Checked(Repeat(clauses, rs, n - 1), rs).1
  }

  /** So a count placed before a resource clause runs out without a single measurement. */
  lemma {:induction false} CountRunsOut(partner: int, required: nat, rs: seq<Resource>, max: nat, n: nat)
    requires !Satisfied(Enough(partner, required), rs) && n <= max
    ensures Repeat([Count(0, max), Enough(partner, required)], rs, n) == [Count(n, max), Enough(partner, required)]
    ensures !Checked([Count(n, max), Enough(partner, required)], rs).0
  {
    var before := [Count(if n == 0 then 0 else n - 1, max), Enough(partner, required)];
    var now := [Count(n, max), Enough(partner, required)];
    assert now[1..] == [Enough(partner, required)] && before[1..] == [Enough(partner, required)];
    if n > 0 {
      CountRunsOut(partner, required, rs, max, n - 1);
    }
  }

  lemma CheckedUnfold(clauses: seq<Clause>, rs: seq<Resource>)
    ensures clauses == [] ==> Checked(clauses, rs) == (true, [])
    ensures clauses != [] && !Satisfied(clauses[0], rs) ==> Checked(clauses, rs) == (false, clauses)
    ensures clauses != [] && Satisfied(clauses[0], rs) ==>
              Checked(clauses, rs) == (Checked(clauses[1..], rs).0, [Ticked(clauses[0])] + Checked(clauses[1..], rs).1)
  {
  }

  class Condition {
    var clauses: seq<Clause>

    constructor (clauses: seq<Clause>)
      ensures this.clauses == clauses
    {
      this.clauses := clauses;
    }

    /** The resource clause. */
    method EnoughCheck(rs: seq<Resource>, partner: int, required: nat) returns (enough: bool)
      ensures enough <==> Satisfied(Enough(partner, required), rs)
    {
      enough := false;
      var i, free := 0, 0;
      while i < |rs|
        invariant 0 <= i <= |rs| && free == FreeWith(rs[..i], partner)
        invariant enough <==> free >= required && exists k :: 0 <= k < i && rs[k].partner == partner
      {
        assert rs[..i + 1][..i] == rs[..i];
        if rs[i].partner == partner {
          if !rs[i].locked {
            free := free + 1;
          }
          if free >= required {
            enough := true;
          }
        }
        i := i + 1;
      }
      assert rs[..i] == rs;
    }

    /** One clause. */
    method CheckClause(i: nat, rs: seq<Resource>) returns (ok: bool)
      requires i < |clauses|
      modifies this
      ensures ok <==> Satisfied(old(clauses)[i], rs)
      ensures clauses == if ok then old(clauses)[i := Ticked(old(clauses)[i])] else old(clauses)
    {
      match clauses[i]
      case Count(current, max) =>
        ok := current < max;
        if ok {
          clauses := clauses[i := Count(current + 1, max)];
        }
      case Enough(partner, required) =>
        ok := EnoughCheck(rs, partner, required);
    }

    /** Check clause after clause; a satisfied count goes up even when a later clause fails. */
    method Check(rs: seq<Resource>) returns (satisfied: bool)
      modifies this
      ensures (satisfied, clauses) == Checked(old(clauses), rs)
    {
      hide Checked, Satisfied, Ticked;
      ghost var was := clauses;
      satisfied := true;
      var i := 0;
      assert was[0..] == was && clauses[..0] + Checked(was, rs).1 == Checked(was, rs).1;
      while i < |clauses|
        invariant 0 <= i <= |clauses| == |was| && satisfied
        invariant clauses[i..] == was[i..]
        invariant Checked(was, rs) == (Checked(was[i..], rs).0, clauses[..i] + Checked(was[i..], rs).1)
        decreases |was| - i
      {
        CheckedUnfold(was[i..], rs);
        assert was[i..][1..] == was[i + 1..] && was[i..][0] == was[i] == clauses[i..][0];
        ghost var done := clauses[..i];
        var ok := CheckClause(i, rs);
        if !ok {
          satisfied := false;
          assert done + was[i..] == clauses;
          return;
        }
        assert clauses[..i + 1] == done + [Ticked(was[i])];
        assert done + ([Ticked(was[i])] + Checked(was[i + 1..], rs).1) == clauses[..i + 1] + Checked(was[i + 1..], rs).1;
        i := i + 1;
      }
      CheckedUnfold(was[i..], rs);
      assert clauses[..i] + [] == clauses;
    }

    /** Some count has reached its maximum. */
    method CheckTerminate() returns (done: bool)
      ensures done <==> exists i :: 0 <= i < |clauses| && clauses[i].Count? && clauses[i].current >= clauses[i].max
    {
      done := false;
      for i := 0 to |clauses|
        invariant !done
        invariant forall k :: 0 <= k < i && clauses[k].Count? ==> clauses[k].current < clauses[k].max
      {
        if clauses[i].Count? && clauses[i].current >= clauses[i].max {
          return true;
        }
      }
    }
  }

  /** Where an unlocked resource of the partner is there, as whenever a link rule measures, a resource
      clause after the count changes nothing: count and measurements stay in step. */
  lemma CountThenEnough(count: nat, max: nat, partner: int, rs: seq<Resource>)
    requires FreeWith(rs, partner) >= 1
    ensures var c := [Count(count, max), Enough(partner, 1)];
            Checked(c, rs) == if count < max then (true, [Count(count + 1, max), Enough(partner, 1)]) else (false, c)
  {
    var c := [Count(count, max), Enough(partner, 1)];
    SomeWith(rs, partner);
    CheckedUnfold(c, rs);
    var rest := c[1..];
    assert rest == [Enough(partner, 1)];
    CheckedUnfold(rest, rs);
    var none := rest[1..];
    assert none == [];
    CheckedUnfold(none, rs);
    assert [Ticked(rest[0])] + none == rest;
    assert [Ticked(c[0])] + rest == [Ticked(c[0]), Enough(partner, 1)];
  }

  lemma {:induction false} SomeWith(rs: seq<Resource>, partner: int)
    requires FreeWith(rs, partner) >= 1
    ensures exists i :: 0 <= i < |rs| && rs[i].partner == partner
  {
    var h := |rs| - 1;
    if rs[h].partner != partner {
      SomeWith(rs[..h], partner);
      var i :| 0 <= i < |rs[..h]| && rs[..h][i].partner == partner;
      assert rs[i].partner == partner;
    }
  }

  /** A measurement result: its count id, the qubit, and whether it carries the running time. */
  datatype Measurement = Measurement(id: nat, qubit: nat, finish: bool)

  /** The measuring rule of a link RuleSet: one count clause, and an action with its own counter. */
  class MeasuringRule {
    const condition: Condition
    const max: nat
    var qubits: seq<nat>
    var count: nat

    /** Clause and action count in step. */
    ghost predicate Valid()
      reads this, condition
    {
      condition.clauses == [Count(count, max)] && count <= max
    }

    constructor (max: nat)
      ensures Valid() && fresh(condition) && this.max == max && qubits == [] && count == 0
    {
      condition := new Condition([Count(0, max)]);
      this.max, qubits, count := max, [], 0;
    }

    /** Measure the oldest qubit. */
    method Measure() returns (m: Measurement)
      requires |qubits| > 0
      modifies this`qubits, this`count
      ensures count == old(count) + 1 && qubits == old(qubits)[1..]
      ensures m == Measurement(count, old(qubits)[0], count == max)
    {
      count := count + 1;
      m := Measurement(count, qubits[0], count == max);
      qubits := qubits[1..];
    }

    /** Run the rule until it has no resource, its condition fails or it ends the RuleSet: count ids go
        on from where they were, one per qubit in order, and only id `max` carries the running time. */
    method Drain() returns (ms: seq<Measurement>, ended: bool)
      requires Valid()
      modifies this`qubits, this`count, condition
      ensures Valid()
      ensures |ms| == Min(|old(qubits)|, max - old(count)) && count == old(count) + |ms|
      ensures forall i :: 0 <= i < |ms| ==> ms[i] == Measurement(old(count) + i + 1, old(qubits)[i], old(count) + i + 1 == max)
      ensures qubits == old(qubits)[|ms|..]
      ensures ended <==> |ms| > 0 && count == max
    {
      ms, ended := [], false;
      while |qubits| > 0
        invariant Valid() && !ended && count == old(count) + |ms| && |ms| <= |old(qubits)|
        invariant forall i :: 0 <= i < |ms| ==> ms[i] == Measurement(old(count) + i + 1, old(qubits)[i], old(count) + i + 1 == max)
        invariant qubits == old(qubits)[|ms|..]
        invariant count == max ==> |ms| == 0
        decreases |qubits|
      {
        CountAlone(count, max);
        var satisfied := condition.Check([]);
        if !satisfied {
          break;
        }
        var m := Measure();
        ms := ms + [m];
        assert condition.clauses[0] == Count(count, max);
        ended := condition.CheckTerminate();
        if ended {
          break;
        }
      }
    }
  }

  lemma CountAlone(count: nat, max: nat)
    ensures Checked([Count(count, max)], []) == if count < max then (true, [Count(count + 1, max)]) else (false, [Count(count, max)])
  {
    var c := [Count(count, max)];
    assert c[1..] == [];
    CheckedUnfold(c, []);
    CheckedUnfold(c[1..], []);
    assert [Ticked(c[0])] + [] == [Ticked(c[0])];
  }
}
