// One node whose reports arrive in any order: its own report of an action some time after
// the action, the partner's at any time, each once.  No verdict ever misses its half.
module AnyOrder {
  import opened Basics
  import opened ResourceLists
  import opened Pipeline
  import opened Holdings
  import Fates

  /** A node with the actions whose own and whose partner's reports have arrived. */
  datatype Listener = Listener(nd: Node, own: set<(nat, nat)>, peer: set<(nat, nat)>)

  datatype Happening =
    | Does(e: Event)                                  // a pair arrives, a rule acts or measures
    | Hears(mine: bool, rule: nat, index: nat, outcome: Outcome)

  predicate Possible(c: Config, s: Listener, h: Happening) {
    match h
    case Does(e) => (e.Arrive? || e.Act? || e.Measure?) && Enabled(c, s.nd, e)
    case Hears(mine, r, i, _) =>
      && r < |c.inputs| && r < |s.nd.rules|
      && (if mine then (r, i) !in s.own && i < s.nd.rules[r].nextAction else (r, i) !in s.peer)
  }

  function Next(c: Config, s: Listener, h: Happening): Listener
    requires Possible(c, s, h)
  {
    match h
    case Does(e) => s.(nd := NodeStep(c, s.nd, e))
    case Hears(mine, r, i, o) =>
      var nd := StoreCheck(s.nd, Msg(r, i, o));
      if mine then Listener(nd, s.own + {(r, i)}, s.peer) else Listener(nd, s.own, s.peer + {(r, i)})
  }

  ghost predicate LocksOk(c: Config, s: Listener) {
    forall r: nat, i: nat :: Open(c, s, r, i) ==> Locks(s.nd, r, i)
  }

  /** An action has run and a report on it is missing. */
  predicate Open(c: Config, s: Listener, r: nat, i: nat) {
    r < |c.inputs| && r < |s.nd.rules| && i < s.nd.rules[r].nextAction && !((r, i) in s.own && (r, i) in s.peer)
  }

  /** Some half is locked by that action. */
  ghost predicate Locks(nd: Node, r: nat, i: nat) {
    exists q: nat :: Holds(nd, r, Entry(q, Locked(i)))
  }

  ghost predicate ReportsOk(c: Config, s: Listener) {
    && (forall r: nat, i: nat :: (r, i) in s.nd.table <==> ((r, i) in s.own) != ((r, i) in s.peer))
    && (forall r: nat, i: nat :: (r, i) in s.own ==> r < |c.inputs| && r < |s.nd.rules| && i < s.nd.rules[r].nextAction)
  }

  /** Until the node has finished measuring, every action without two reports has its half locked. */
  ghost predicate Inv(c: Config, s: Listener) {
    && |s.nd.rules| == |c.inputs| + 1 && !s.nd.failed
    && (!s.nd.done ==> LocksOk(c, s) && ReportsOk(c, s))
  }

  function Start(c: Config): Listener {
    Listener(InitNode(c), {}, {})
  }

  lemma StartInv(c: Config)
    ensures Inv(c, Start(c))
  {
  }

  lemma {:induction false} ActionLocks(s: seq<Entry<nat>>, k: nat, a: int)
    requires k >= 1 && UnlockedCount(s) >= 1
    ensures exists q: nat :: Entry(q, Locked(a)) in AfterAction(s, k, a)
  {
    if s[0].lock.Unlocked? {
      assert Entry(s[0].qubit, Locked(a)) in AfterAction(s, k, a);
    } else {
      ActionLocks(s[1..], k, a);
      var q: nat :| Entry(q, Locked(a)) in AfterAction(s[1..], k, a);
      assert Entry(q, Locked(a)) in AfterAction(s, k, a);
    }
  }

  /** A pair arriving, an action or a measurement leaves every locked half where it is. */
  lemma EventLeavesLocks(c: Config, nd: Node, e: Event, r: nat, i: nat)
    requires Enabled(c, nd, e) && (e.Arrive? || e.Act? || e.Measure?)
    requires |nd.rules| == |c.inputs| + 1 && r < |c.inputs| && Locks(nd, r, i)
    ensures Locks(NodeStep(c, nd, e), r, i)
  {
    var q: nat :| Holds(nd, r, Entry(q, Locked(i)));
    if e.Act? && e.rule == r {
      Fates.LockedSurvivesAction(nd.rules[r].resources, c.inputs[r], nd.rules[r].nextAction, Entry(q, Locked(i)));
    }
    assert Holds(NodeStep(c, nd, e), r, Entry(q, Locked(i)));
  }

  lemma DoesKeeps(c: Config, s: Listener, e: Event)
    requires Inv(c, s) && Possible(c, s, Does(e))
    ensures Inv(c, Next(c, s, Does(e)))
  {
    var t := Next(c, s, Does(e));
    hide Locks, AfterAction, DropUnlocked, TopUnlocked, UnlockedCount;
    forall r: nat, i: nat | Open(c, t, r, i)
      ensures Locks(t.nd, r, i)
    {
      if i < s.nd.rules[r].nextAction {
        EventLeavesLocks(c, s.nd, e, r, i);
      } else {
        ActLocks(c, s.nd, e);
      }
    }
  }

  lemma ActLocks(c: Config, nd: Node, e: Event)
    requires e.Act? && Enabled(c, nd, e)
    ensures Locks(NodeStep(c, nd, e), e.rule, nd.rules[e.rule].nextAction)
  {
    var rule := nd.rules[e.rule];
    ActionLocks(rule.resources, c.inputs[e.rule], rule.nextAction);
    var q: nat :| Entry(q, Locked(rule.nextAction)) in AfterAction(rule.resources, c.inputs[e.rule], rule.nextAction);
    assert Holds(NodeStep(c, nd, e), e.rule, Entry(q, Locked(rule.nextAction)));
  }

  /** A report on an action whose half is locked finds it, and leaves the halves of other actions. */
  lemma ReportFinds(nd: Node, m: Msg)
    requires !nd.failed && m.rule + 1 < |nd.rules|
    requires (m.rule, m.index) in nd.table ==> Locks(nd, m.rule, m.index)
    ensures var t := StoreCheck(nd, m);
            && !t.failed && |t.rules| == |nd.rules| && t.done == nd.done
            && (forall r :: 0 <= r < |nd.rules| ==> t.rules[r].nextAction == nd.rules[r].nextAction)
            && (!nd.done ==> t.table == if (m.rule, m.index) in nd.table then nd.table - {(m.rule, m.index)}
                                        else nd.table[(m.rule, m.index) := m.outcome])
  {
    if (m.rule, m.index) in nd.table {
      var q: nat :| Holds(nd, m.rule, Entry(q, Locked(m.index)));
    }
    hide RemoveAt;
  }

  lemma ReportLeaves(nd: Node, m: Msg, r: nat, i: nat)
    requires Locks(nd, r, i) && !StoreCheck(nd, m).failed && (r, i) != (m.rule, m.index)
    ensures Locks(StoreCheck(nd, m), r, i)
  {
    var q: nat :| Holds(nd, r, Entry(q, Locked(i)));
    Fates.StoreLeaves(nd, m, r, Entry(q, Locked(i)));
    assert Holds(StoreCheck(nd, m), r, Entry(q, Locked(i)));
  }

  lemma ReportStores(nd: Node, m: Msg)
    requires (m.rule, m.index) !in nd.table
    ensures StoreCheck(nd, m).rules == nd.rules
  {
  }

  lemma HearsKeeps(c: Config, s: Listener, mine: bool, r: nat, i: nat, o: Outcome)
    requires Inv(c, s) && Possible(c, s, Hears(mine, r, i, o))
    ensures Inv(c, Next(c, s, Hears(mine, r, i, o)))
  {
    var t, m := Next(c, s, Hears(mine, r, i, o)), Msg(r, i, o);
    hide StoreCheck, Locks;
    if s.nd.done {
      DoneIgnores(s.nd, m);
    } else {
      ReportFinds(s.nd, m);
      forall v: nat, j: nat | Open(c, t, v, j)
        ensures Locks(t.nd, v, j)
      {
        if (v, j) == (r, i) {
          ReportStores(s.nd, m);
          SameLocks(s.nd, t.nd, v, j);
        } else {
          ReportLeaves(s.nd, m, v, j);
        }
      }
    }
  }

  lemma DoneIgnores(nd: Node, m: Msg)
    requires nd.done
    ensures StoreCheck(nd, m) == nd
  {
  }

  lemma SameLocks(nd: Node, nd': Node, r: nat, i: nat)
    requires nd'.rules == nd.rules && Locks(nd, r, i)
    ensures Locks(nd', r, i)
  {
    var q: nat :| Holds(nd, r, Entry(q, Locked(i)));
    assert Holds(nd', r, Entry(q, Locked(i)));
  }

  predicate Run(c: Config, s: Listener, hs: seq<Happening>, t: Listener)
    decreases |hs|
  {
    if hs == [] then s == t else Possible(c, s, hs[0]) && Run(c, Next(c, s, hs[0]), hs[1..], t)
  }

  lemma {:induction false} RunKeeps(c: Config, s: Listener, hs: seq<Happening>, t: Listener)
    requires Inv(c, s) && Run(c, s, hs, t)
    ensures Inv(c, t)
    decreases |hs|
  {
    hide Inv, Possible, Next;
    if hs != [] {
      match hs[0] {
        case Does(e) => DoesKeeps(c, s, e);
        case Hears(mine, r, i, o) => HearsKeeps(c, s, mine, r, i, o);
      }
      RunKeeps(c, Next(c, s, hs[0]), hs[1..], t);
    }
  }

  /** In every run, whatever the outcomes and the order of the reports, the program's "Resource in rule
      not found" errors are unreachable. */
  lemma NoMissingHalf(c: Config, hs: seq<Happening>, t: Listener)
    requires Run(c, Start(c), hs, t)
    ensures !t.nd.failed
  {
    StartInv(c);
    RunKeeps(c, Start(c), hs, t);
  }
}
