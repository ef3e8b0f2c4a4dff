// Which fault patterns a purification schedule lets through, exactly.
module Detection {
  import opened Basics
  import opened Circuits

  function CleanTree(rounds: seq<Round>): (t: Tree)
    ensures Fits(t, rounds) && Faults(t) == 0
    decreases |rounds|
  {
    if rounds == [] then Leaf(CLEAN, CLEAN) else
    var s := CleanTree(Below(rounds));
    var inputs := if Arity(Top(rounds)) == 2 then [s, s] else [s, s, s];
    FaultsOf(inputs);
    Fuse(inputs)
  }

  /** Which inputs of a round carry the error in a cheapest tree. */
  function Carriers(r: Round, x: bool): (c: seq<bool>)
    ensures |c| == Arity(r)
  {
    match r
    case X => [true, x]
    case Z => [true, !x]
    case XZ => if x then [false, false, true] else [true, false, true]
    case ZX => if x then [true, true, false] else [false, true, false]
  }

  /** A cheapest accepted tree whose output has a pure X (else pure Z) error. */
  function Cheapest(rounds: seq<Round>, x: bool): (t: Tree)
    ensures Fits(t, rounds)
    decreases |rounds|
  {
    if rounds == [] then Leaf(Pauli(x, !x), CLEAN) else
    var c, w := CleanTree(Below(rounds)), Cheapest(Below(rounds), x);
    Fuse(Chosen(Carriers(Top(rounds), x), w, c))
  }

  function Chosen<T>(mask: seq<bool>, yes: T, no: T): (s: seq<T>)
    ensures |s| == |mask| && forall i :: 0 <= i < |mask| ==> s[i] == if mask[i] then yes else no
  {
    seq(|mask|, i requires 0 <= i < |mask| => if mask[i] then yes else no)
  }

  lemma CarriersAccepted(r: Round, x: bool)
    ensures var e := Chosen(Carriers(r, x), Pauli(x, !x), CLEAN);
            ParityAccepts(r, e) && ParityOut(r, e) == Pauli(x, !x)
  {
  }

  /** Tightness of the distance bound: Weight faults suffice (with CheapestFaults). */
  lemma {:induction false} CheapestWorks(rounds: seq<Round>, x: bool)
    ensures var t := Cheapest(rounds, x);
            Accepted(t, rounds) && Parity(t, rounds) == Pauli(x, !x)
    decreases |rounds|
  {
    if rounds != [] {
      var t, r := Cheapest(rounds, x), Below(rounds);
      CheapestWorks(r, x);
      NoFaultsClean(CleanTree(r), r);
      CarriersAccepted(Top(rounds), x);
      hide Accepted, Parity, Fits, Carriers, CleanTree, ParityAccepts, ParityOut;
      Fused(t.inputs, rounds, Chosen(Carriers(Top(rounds), x), Pauli(x, !x), CLEAN));
    }
  }

  lemma {:induction false} CheapestFaults(rounds: seq<Round>, x: bool)
    ensures Faults(Cheapest(rounds, x)) == Weight(rounds, x)
    decreases |rounds|
  {
    if rounds != [] {
      CheapestFaults(Below(rounds), x);
      FaultsOf(Cheapest(rounds, x).inputs);
    }
  }

  /** A schedule accepts some tree with exactly one faulty base pair iff it never guards against
      X errors or never guards against Z errors. */
  lemma SingleFaultIff(rounds: seq<Round>)
    ensures (exists t :: Fits(t, rounds) && Accepted(t, rounds) && Faults(t) == 1)
            <==> (Weight(rounds, true) == 1 || Weight(rounds, false) == 1)
  {
    if t :| Fits(t, rounds) && Accepted(t, rounds) && Faults(t) == 1 {
      SingleFaultShows(t, rounds);
      Distance(t, rounds);
      WeightPositive(rounds, true);
      WeightPositive(rounds, false);
    }
    forall x | Weight(rounds, x) == 1
      ensures exists t :: Fits(t, rounds) && Accepted(t, rounds) && Faults(t) == 1
    {
      CheapestWorks(rounds, x);
      CheapestFaults(rounds, x);
      assert Fits(Cheapest(rounds, x), rounds);
    }
  }

  // ---- schedules -------------------------------------------------------------------------

  function Guards(rounds: seq<Round>, x: bool): nat {
    if rounds == [] then 0
    else (if GuardsX(Top(rounds)) == x then 1 else 0) + Guards(Below(rounds), x)
  }

  lemma {:induction false} WeightIsPower(rounds: seq<Round>, x: bool)
    ensures Weight(rounds, x) == Power(Guards(rounds, x))
  {
    if rounds != [] {
      WeightIsPower(Below(rounds), x);
    }
  }

  /** The link purification types with one action kind per rule. */
  datatype Scheme = Type2002 | Type3003 | Type1001 | Type1221

  /** Action of the rule with index i. */
  function RoundAt(s: Scheme, i: nat): Round {
    match s
    case Type2002 => if i % 2 == 0 then X else Z
    case Type3003 => if i % 2 == 0 then X else Z
    case Type1001 => XZ
    case Type1221 => if i % 2 == 0 then XZ else ZX
  }

  /** Number of rules for the configured number of purifications. */
  function RuleCount(s: Scheme, n: nat): nat {
    if s.Type2002? then 2 * n else n
  }

  function FirstRounds(s: Scheme, m: nat): (r: seq<Round>)
    ensures |r| == m
    ensures forall i :: 0 <= i < m ==> r[i] == RoundAt(s, i)
  {
    if m == 0 then [] else FirstRounds(s, m - 1) + [RoundAt(s, m - 1)]
  }

  function Schedule(s: Scheme, n: nat): seq<Round> {
    FirstRounds(s, RuleCount(s, n))
  }

  /** The RuleSet of a link, built rule by rule as the program does it. */
  method BuildLinkRules(s: Scheme, n: nat) returns (rules: seq<Round>)
    ensures rules == Schedule(s, n)
    ensures |rules| == if s.Type2002? then 2 * n else n
    ensures s.Type2002? || s.Type3003? ==> forall i :: 0 <= i < |rules| ==> rules[i] == if i % 2 == 0 then X else Z
    ensures s.Type1001? ==> forall i :: 0 <= i < |rules| ==> rules[i] == XZ
    ensures s.Type1221? ==> forall i :: 0 <= i < |rules| ==> rules[i] == if i % 2 == 0 then XZ else ZX
  {
    rules := [];
    var i := 0;
    while i < n
      invariant 0 <= i <= n
      invariant rules == FirstRounds(s, RuleCount(s, i))
    {
      match s {
        case Type2002 =>
          rules := rules + [X];
          assert rules == FirstRounds(s, 2 * i + 1);
          rules := rules + [Z];
        case Type3003 => rules := rules + [if i % 2 == 0 then X else Z];
        case Type1001 => rules := rules + [XZ];
        case Type1221 => rules := rules + [if i % 2 == 0 then XZ else ZX];
      }
      i := i + 1;
    }
  }

  /** Even numbers below m: ceil(m/2). */
  function Evens(m: nat): nat {
    if m == 0 then 0 else Evens(m - 1) + if (m - 1) % 2 == 0 then 1 else 0
  }

  /** Odd numbers below m: floor(m/2). */
  function Odds(m: nat): nat {
    if m == 0 then 0 else Odds(m - 1) + if (m - 1) % 2 == 0 then 0 else 1
  }

  lemma {:induction false} EvensOdds(m: nat)
    ensures Evens(m) + Odds(m) == m
    ensures Evens(m) == Odds(m) + m % 2
  {
    if m > 0 {
      EvensOdds(m - 1);
    }
  }

  function GuardCount(s: Scheme, m: nat, x: bool): nat {
    match s
    case Type1001 => if x then 0 else m
    case Type1221 => if x then Odds(m) else Evens(m)
    case _ => if x then Evens(m) else Odds(m)
  }

  lemma GuardsSnoc(rounds: seq<Round>, r: Round, x: bool)
    ensures Guards(rounds + [r], x) == Guards(rounds, x) + if GuardsX(r) == x then 1 else 0
  {
    assert Below(rounds + [r]) == rounds;
  }

  lemma {:induction false} ScheduleGuards(s: Scheme, m: nat, x: bool)
    ensures Guards(FirstRounds(s, m), x) == GuardCount(s, m, x)
  {
    if m > 0 {
      GuardCountNext(s, m, x);
      hide GuardCount, Guards;
      ScheduleGuards(s, m - 1, x);
      GuardsSnoc(FirstRounds(s, m - 1), RoundAt(s, m - 1), x);
    }
  }

  lemma GuardCountNext(s: Scheme, m: nat, x: bool)
    requires m > 0
    ensures GuardCount(s, m, x) == GuardCount(s, m - 1, x) + if GuardsX(RoundAt(s, m - 1)) == x then 1 else 0
  {
  }

  /** An accepted pair with an X (Z) error hides at least 2^k faulty base pairs: k = ceil(m/2), floor(m/2)
      for m alternating rules, k = 0, m for type 1001. */
  lemma SchemeDistance(s: Scheme, n: nat, t: Tree)
    requires Fits(t, Schedule(s, n)) && Accepted(t, Schedule(s, n))
    ensures Parity(t, Schedule(s, n)).x ==> Faults(t) >= Power(GuardCount(s, RuleCount(s, n), true))
    ensures Parity(t, Schedule(s, n)).z ==> Faults(t) >= Power(GuardCount(s, RuleCount(s, n), false))
  {
    ScheduleGuards(s, RuleCount(s, n), true);
    ScheduleGuards(s, RuleCount(s, n), false);
    WeightIsPower(Schedule(s, n), true);
    WeightIsPower(Schedule(s, n), false);
    Distance(t, Schedule(s, n));
  }

  lemma GuardsBoth(s: Scheme, m: nat)
    ensures !s.Type1001? ==> ((GuardCount(s, m, true) == 0 || GuardCount(s, m, false) == 0) <==> m <= 1)
  {
    EvensOdds(m);
  }

  lemma PowAboveOne(k: nat)
    ensures Power(k) >= 1 && (Power(k) == 1 <==> k == 0)
  {
  }

  /** Single faults get through exactly for: no round at all, one round of 3003 or 1221, any number of 1001. */
  lemma SchemeSingleFault(s: Scheme, n: nat)
    ensures (exists t :: Fits(t, Schedule(s, n)) && Accepted(t, Schedule(s, n)) && Faults(t) == 1)
            <==> (n == 0 || s.Type1001? || (n == 1 && !s.Type2002?))
  {
    var m := RuleCount(s, n);
    forall x ensures Weight(Schedule(s, n), x) == 1 <==> GuardCount(s, m, x) == 0 {
      ScheduleGuards(s, m, x);
      WeightIsPower(Schedule(s, n), x);
      PowAboveOne(GuardCount(s, m, x));
    }
    GuardsBoth(s, m);
    SingleFaultIff(Schedule(s, n));
  }

  // ---- type 1001 -------------------------------------------------------------------------

  predicate AllXZ(rounds: seq<Round>) {
    forall i :: 0 <= i < |rounds| ==> rounds[i] == XZ
  }

  /** The base pair reached by always taking the Z tool. */
  function ZToolLeaf(t: Tree, rounds: seq<Round>): (l: Tree)
    requires Fits(t, rounds) && AllXZ(rounds)
    ensures l.Leaf?
  {
    match t
    case Leaf(_, _) => t
    case Fuse(inputs) => ZToolLeaf(inputs[2], Below(rounds))
  }

  /** A single fault passes 1001 exactly when it is an X error on that base pair, or there are no
      rounds; it leaves the output with that error. */
  lemma {:induction false} XZSingleFault(t: Tree, rounds: seq<Round>)
    requires Fits(t, rounds) && AllXZ(rounds) && Faults(t) == 1
    ensures var l := ZToolLeaf(t, rounds);
            && (rounds != [] ==> (Accepted(t, rounds) <==> Xor(l.left, l.right) == Pauli(true, false)))
            && (Accepted(t, rounds) ==> Parity(t, rounds) == Xor(l.left, l.right))
    decreases t
  {
    match t
    case Leaf(_, _) =>
    case Fuse(ts) =>
      var r := Below(rounds);
      FaultsOf(ts);
      if Faults(ts[2]) == 1 {
        XZSingleFault(ts[2], r);
      } else {
        CleanSpine(ts[2], r);
      }
      XZTop(t, rounds);
  }

  /** One XZ round on a single fault: only an X error on the Z tool's pair passes. */
  lemma XZTop(t: Tree, rounds: seq<Round>)
    requires Fits(t, rounds) && t.Fuse? && Top(rounds) == XZ && Faults(t) == 1
    ensures var s, r := t.inputs[2], Below(rounds);
            && (Accepted(t, rounds) <==> Faults(s) == 1 && Accepted(s, r) && Parity(s, r) == Pauli(true, false))
            && (Accepted(t, rounds) ==> Parity(t, rounds) == Pauli(true, false))
  {
    hide Accepted, Parity, ParityOut, ParityAccepts;
    var ts, r := t.inputs, Below(rounds);
    FuseParity(t, rounds);
    FaultsOf(ts);
    FewFaults(ts[0], r);
    FewFaults(ts[1], r);
    FewFaults(ts[2], r);
    XZParity(Parities(ts, r));
  }

  lemma FewFaults(t: Tree, rounds: seq<Round>)
    requires Fits(t, rounds)
    ensures Faults(t) == 0 ==> Parity(t, rounds) == CLEAN && Accepted(t, rounds)
    ensures Faults(t) == 1 && Accepted(t, rounds) ==> Parity(t, rounds) != CLEAN
  {
    if Faults(t) == 0 {
      NoFaultsClean(t, rounds);
    } else if Faults(t) == 1 && Accepted(t, rounds) {
      SingleFaultShows(t, rounds);
    }
  }

  lemma XZParity(e: seq<Pauli>)
    requires |e| == 3
    ensures ParityOut(XZ, e) == Pauli(e[0].x != e[2].x, e[0].z != e[1].z)
    ensures ParityAccepts(XZ, e) <==> e[0].x == e[1].x && (e[0].z != e[1].z) == e[2].z
  {
  }

  lemma {:induction false} CleanSpine(t: Tree, rounds: seq<Round>)
    requires Fits(t, rounds) && AllXZ(rounds) && Faults(t) == 0
    ensures ZToolLeaf(t, rounds).left == ZToolLeaf(t, rounds).right
    decreases t
  {
    if t.Fuse? {
      FaultsOf(t.inputs);
      CleanSpine(t.inputs[2], Below(rounds));
    }
  }
}
