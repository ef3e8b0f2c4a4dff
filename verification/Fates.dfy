// The two halves of a pair share their fate: when one node discards its half, the other
// node's half is locked by the same action and about to be discarded, or already gone.
module Fates {
  import opened Basics
  import opened ResourceLists
  import opened Pipeline
  import opened PipelineInvariant
  import opened Holdings
  import PipelineTheorems
  import RuleClass

  /** Half x is locked by an action on which the two nodes disagree. */
  predicate DoomedAt(nd: Node, mine: seq<seq<Outcome>>, theirs: seq<seq<Outcome>>, x: nat, r: nat, i: nat) {
    && Holds(nd, r, Entry(x, Locked(i)))
    && r < |mine| && r < |theirs| && i < |mine[r]| && i < |theirs[r]| && mine[r][i] != theirs[r][i]
  }

  ghost predicate Doomed(nd: Node, mine: seq<seq<Outcome>>, theirs: seq<seq<Outcome>>, x: nat) {
    exists r: nat, i: nat :: DoomedAt(nd, mine, theirs, x, r, i)
  }

  predicate TakenArrived(h: Hist, arrived: nat) {
    forall r, i :: 0 <= r < |h.taken| && 0 <= i < |h.taken[r]| ==> |h.taken[r][i]| >= 1 && h.taken[r][i][0] < arrived
  }

  /** A half discarded once is in no list any more. */
  ghost predicate DiscardedGone(nd: Node, h: Hist, theirs: seq<seq<Outcome>>) {
    forall r: nat, i: nat :: SettledApart(h, theirs, r, i) ==> Total(nd.rules, h.taken[r][i][0]) == 0
  }

  predicate SettledApart(h: Hist, theirs: seq<seq<Outcome>>, r: nat, i: nat) {
    && r < |h.own| && r < |h.peer| && i < Min(h.own[r], h.peer[r])
    && r < |h.taken| && r < |h.outs| && r < |theirs| && i < |h.taken[r]| && |h.taken[r][i]| >= 1
    && i < |h.outs[r]| && i < |theirs[r]| && h.outs[r][i] != theirs[r][i]
  }

  ghost predicate FateInv(nd: Node, h: Hist, theirs: seq<seq<Outcome>>) {
    Owned(nd) && TakenArrived(h, nd.arrived) && DiscardedGone(nd, h, theirs)
  }

  // ---- one node ------------------------------------------------------------------------

  /** What an event adds to the history of taken halves. */
  lemma TakenStep(c: Config, nd: Node, h: Hist, e: Event)
    requires HistShape(c, h) && Enabled(c, nd, e)
    ensures var h' := Record(c, nd, h, e);
            && (e.Act? ==> h'.taken == h.taken[e.rule := h.taken[e.rule] + [TopUnlocked(nd.rules[e.rule].resources, c.inputs[e.rule])]])
            && (!e.Act? ==> h'.taken == h.taken)
            && (e.Act? || e.Arrive? || e.Measure? ==> h'.own == h.own && h'.peer == h.peer)
  {
  }

  lemma TopHeld(nd: Node, r: nat, k: nat, x: nat)
    requires r < |nd.rules| && x in TopUnlocked(nd.rules[r].resources, k)
    ensures Holds(nd, r, Entry(x, Unlocked))
  {
    RuleClass.TopIsUnlocked(nd.rules[r].resources, k, x);
  }

  lemma TakenArrivedStep(c: Config, nd: Node, h: Hist, e: Event)
    requires HistShape(c, h) && Enabled(c, nd, e) && Owned(nd) && TakenArrived(h, nd.arrived) && !NodeStep(c, nd, e).failed
    ensures TakenArrived(Record(c, nd, h, e), NodeStep(c, nd, e).arrived)
  {
    TakenStep(c, nd, h, e);
    StepTotal(c, nd, e, 0);
    if e.Act? {
      var s, k := nd.rules[e.rule].resources, c.inputs[e.rule];
      RuleClass.TopLength(s, k);
      var x := TopUnlocked(s, k)[0];
      TopHeld(nd, e.rule, k, x);
      HeldCount(nd, e.rule, Entry(x, Unlocked));
    }
    hide Record, NodeStep, Enabled, TopUnlocked;
  }

  /** The report that settles an action: which half it is about, and whether the node drops it. */
  lemma Settles(c: Config, nd: Node, h: Hist, theirs: seq<seq<Outcome>>, m: Msg, own': seq<nat>, peer': seq<nat>)
    requires ListsInv(c, nd, h, theirs) && !nd.done && HistShape(c, h)
    requires Delivered(h.own, h.peer, h.outs, theirs, m, own', peer')
    ensures var r, i := m.rule, m.index;
            if (r, i) in nd.table then
              && i == Min(h.own[r], h.peer[r]) && Min(own'[r], peer'[r]) == i + 1
              && i < |h.taken[r]| && |h.taken[r][i]| >= 1 && i < |h.outs[r]| && i < |theirs[r]|
              && Holds(nd, r, Entry(h.taken[r][i][0], Locked(i)))
              && Discarded(nd, m) == if h.outs[r][i] != theirs[r][i] then [h.taken[r][i][0]] else []
            else Min(own'[r], peer'[r]) == Min(h.own[r], h.peer[r]) && Discarded(nd, m) == []
    ensures forall q :: 0 <= q < |own'| && q != m.rule ==> own'[q] == h.own[q] && peer'[q] == h.peer[q]
  {
    ListsFacts(c, nd, h, theirs);
    hide RuleOk, RulesOk, Promotions, MeasuringOk, TableOk;
    TableStores(nd.table, h.own, h.peer, h.outs, theirs, m, own', peer');
    if (m.rule, m.index) in nd.table {
      OldestFirst(c, nd, h, theirs, m, own', peer');
      var list := nd.rules[m.rule].resources;
      assert list[0].lock == Locked(m.index);
      assert list[0] in list;
    }
  }

  /** The message a node reads next is the next report of its rule. */
  lemma NextReport(c: Config, nd: Node, h: Hist, theirs: seq<seq<Outcome>>, e: Event)
    requires LocalInv(c, nd, h, theirs) && HistShape(c, h) && Enabled(c, nd, e) && (e.TakeOwn? || e.TakePeer?) && !nd.done
    ensures ListsInv(c, nd, h, theirs)
    ensures var m := if e.TakeOwn? then nd.ownChannel[0] else nd.peerChannel[0];
            && m.rule < |c.inputs|
            && Delivered(h.own, h.peer, h.outs, theirs, m, Record(c, nd, h, e).own, Record(c, nd, h, e).peer)
            && Record(c, nd, h, e).taken == h.taken && Record(c, nd, h, e).outs == h.outs
            && Dropped(c, nd, e) == Discarded(nd, m)
  {
    hide ListsInv, RecordVerdict, ChannelOk, StoreCheck;
    ListsFacts(c, nd, h, theirs);
    if e.TakeOwn? {
      var m := nd.ownChannel[0];
      ChannelTake(nd.ownChannel, h.own, h.outs);
      RecordFrame(c, nd, h.(own := h.own[m.rule := h.own[m.rule] + 1]), m, nd);
    } else {
      var m := nd.peerChannel[0];
      ChannelTake(nd.peerChannel, h.peer, theirs);
      RecordFrame(c, nd, h.(peer := h.peer[m.rule := h.peer[m.rule] + 1]), m, nd);
    }
  }

  /** A report changes which halves are settled only for the action it settles. */
  lemma SettledStep(c: Config, nd: Node, h: Hist, theirs: seq<seq<Outcome>>, e: Event, r: nat, i: nat)
    requires LocalInv(c, nd, h, theirs) && HistShape(c, h) && Enabled(c, nd, e)
    requires SettledApart(Record(c, nd, h, e), theirs, r, i)
    ensures || (SettledApart(h, theirs, r, i) && Record(c, nd, h, e).taken[r][i] == h.taken[r][i])
            || Record(c, nd, h, e).taken[r][i][0] in Dropped(c, nd, e)
  {
    hide LocalInv, ListsInv, Record, Enabled, Dropped;
    if (e.TakeOwn? || e.TakePeer?) && !nd.done {
      SettledReport(c, nd, h, theirs, e, r, i);
    } else {
      TakenStep(c, nd, h, e);
      RecordKeepsOutcomes(c, nd, h, e);
      RuleCounts(c, nd, h, theirs, r);
      CountsKept(c, nd, h, e);
    }
  }

  lemma CountsKept(c: Config, nd: Node, h: Hist, e: Event)
    requires HistShape(c, h) && Enabled(c, nd, e) && (!(e.TakeOwn? || e.TakePeer?) || nd.done)
    ensures Record(c, nd, h, e).own == h.own && Record(c, nd, h, e).peer == h.peer
  {
  }

  lemma SettledReport(c: Config, nd: Node, h: Hist, theirs: seq<seq<Outcome>>, e: Event, r: nat, i: nat)
    requires LocalInv(c, nd, h, theirs) && HistShape(c, h) && Enabled(c, nd, e)
    requires (e.TakeOwn? || e.TakePeer?) && !nd.done
    requires SettledApart(Record(c, nd, h, e), theirs, r, i)
    ensures || (SettledApart(h, theirs, r, i) && Record(c, nd, h, e).taken[r][i] == h.taken[r][i])
            || Record(c, nd, h, e).taken[r][i][0] in Dropped(c, nd, e)
  {
    var h' := Record(c, nd, h, e);
    SettledShape(h', theirs, r, i);
    NextReport(c, nd, h, theirs, e);
    ListsFacts(c, nd, h, theirs);
    var m := if e.TakeOwn? then nd.ownChannel[0] else nd.peerChannel[0];
    hide LocalInv, ListsInv, Record, Enabled, Dropped, Discarded, Delivered, SettledApart;
    Settles(c, nd, h, theirs, m, h'.own, h'.peer);
    NewlySettled(h, h', theirs, m, (m.rule, m.index) in nd.table, Discarded(nd, m), r, i);
  }

  lemma NewlySettled(h: Hist, h': Hist, theirs: seq<seq<Outcome>>, m: Msg, settled: bool, dropped: seq<nat>, r: nat, i: nat)
    requires h'.taken == h.taken && h'.outs == h.outs && |h'.own| == |h'.peer| == |h.own| == |h.peer|
    requires m.rule < |h.own| && m.rule < |h.taken| && m.rule < |h.outs| && m.rule < |theirs|
    requires forall q :: 0 <= q < |h'.own| && q != m.rule ==> h'.own[q] == h.own[q] && h'.peer[q] == h.peer[q]
    requires !settled ==> Min(h'.own[m.rule], h'.peer[m.rule]) == Min(h.own[m.rule], h.peer[m.rule])
    requires settled ==>
               && Min(h'.own[m.rule], h'.peer[m.rule]) == m.index + 1 && m.index == Min(h.own[m.rule], h.peer[m.rule])
               && m.index < |h.taken[m.rule]| && |h.taken[m.rule][m.index]| >= 1
               && m.index < |h.outs[m.rule]| && m.index < |theirs[m.rule]|
               && dropped == if h.outs[m.rule][m.index] != theirs[m.rule][m.index] then [h.taken[m.rule][m.index][0]] else []
    requires SettledApart(h', theirs, r, i)
    ensures SettledApart(h, theirs, r, i) || h'.taken[r][i][0] in dropped
  {
  }

  lemma SettledShape(h: Hist, theirs: seq<seq<Outcome>>, r: nat, i: nat)
    requires SettledApart(h, theirs, r, i)
    ensures r < |h.taken| && i < |h.taken[r]| && |h.taken[r][i]| >= 1
  {
  }

  lemma RuleCounts(c: Config, nd: Node, h: Hist, theirs: seq<seq<Outcome>>, r: nat)
    requires LocalInv(c, nd, h, theirs)
    ensures HistShape(c, h) && |theirs| == |c.inputs|
    ensures r < |c.inputs| ==> |h.taken[r]| == |h.outs[r]| && h.own[r] <= |h.outs[r]| && h.peer[r] <= |theirs[r]|
  {
    if r < |c.inputs| {
      assert RuleOk(c.inputs[r], nd.rules[r], h.placed[r], h.taken[r], h.outs[r], h.own[r], h.peer[r], h.kept[r], theirs[r]);
    }
  }

  lemma FateStep(c: Config, nd: Node, h: Hist, theirs: seq<seq<Outcome>>, e: Event)
    requires LocalInv(c, nd, h, theirs) && HistShape(c, h) && Enabled(c, nd, e) && FateInv(nd, h, theirs)
    requires !NodeStep(c, nd, e).failed
    ensures FateInv(NodeStep(c, nd, e), Record(c, nd, h, e), theirs)
  {
    hide LocalInv, Record, NodeStep, Enabled, Dropped, Measured, Owned, Total;
    var nd', h' := NodeStep(c, nd, e), Record(c, nd, h, e);
    OwnedStep(c, nd, e);
    TakenArrivedStep(c, nd, h, e);
    forall r: nat, i: nat | SettledApart(h', theirs, r, i) ensures Total(nd'.rules, h'.taken[r][i][0]) == 0 {
      SettledStep(c, nd, h, theirs, e, r, i);
      LeavesOrStays(c, nd, e, h'.taken[r][i][0]);
    }
  }

  /** The other node's outcomes only grow. */
  lemma FateOther(nd: Node, h: Hist, theirs: seq<seq<Outcome>>, theirs': seq<seq<Outcome>>)
    requires FateInv(nd, h, theirs) && |theirs'| == |theirs|
    requires forall r :: 0 <= r < |theirs| ==> theirs[r] <= theirs'[r]
    requires forall r :: 0 <= r < |theirs| && r < |h.peer| ==> h.peer[r] <= |theirs[r]|
    ensures FateInv(nd, h, theirs')
  {
    hide Owned, Total;
    forall r: nat, i: nat | SettledApart(h, theirs', r, i) ensures SettledApart(h, theirs, r, i) {
    }
  }

  // ---- both nodes ------------------------------------------------------------------------

  ghost predicate BothFates(t: Traced) {
    FateInv(t.sys.left, t.left, t.right.outs) && FateInv(t.sys.right, t.right, t.left.outs)
  }

  lemma LeftWaits(c: Config, t: Traced, r: nat, i: nat, x: nat)
    requires Inv(c, t) && HistShape(c, t.left) && HistShape(c, t.right) && BothFates(t)
    requires r < |c.inputs| && i < |t.left.taken[r]| && |t.left.taken[r][i]| >= 1 && x == t.left.taken[r][i][0]
    requires i < |t.left.outs[r]| && i < |t.right.outs[r]| && t.left.outs[r][i] != t.right.outs[r][i]
    ensures x < t.sys.right.arrived
    ensures Total(t.sys.right.rules, x) > 0 ==> DoomedAt(t.sys.right, t.right.outs, t.left.outs, x, r, i)
  {
    hide Owned, Total, Inv;
    PipelineTheorems.RuleFacts(c, t, r);
    PipelineTheorems.InputsAt(c, t, r, i);
    var resolved, taken := Min(t.right.own[r], t.right.peer[r]), t.right.taken[r];
    assert taken[i][0] == x;
    if resolved <= i {
      assert Waiting(taken, resolved)[i - resolved] == Entry(x, Locked(i));
      assert t.sys.right.rules[r].resources[i - resolved] == Entry(x, Locked(i));
    } else {
      assert SettledApart(t.right, t.left.outs, r, i);
    }
  }

  lemma LeftDiscards(c: Config, t: Traced, e: Event, x: nat)
    requires Inv(c, t) && HistShape(c, t.left) && HistShape(c, t.right) && BothFates(t)
    requires Enabled(c, t.sys.left, e) && x in Dropped(c, t.sys.left, e)
    ensures x < t.sys.right.arrived
    ensures Total(t.sys.right.rules, x) > 0 ==> Doomed(t.sys.right, t.right.outs, t.left.outs, x)
    ensures Doomed(t.sys.left, t.left.outs, t.right.outs, x)
  {
    hide Inv, LocalInv, ListsInv, Record, Enabled, Discarded, Delivered, BothFates, Dropped;
    var nd, h, theirs := t.sys.left, t.left, t.right.outs;
    LeftLocal(c, t);
    DropsOnReport(c, nd, e);
    NextReport(c, nd, h, theirs, e);
    var m := if e.TakeOwn? then nd.ownChannel[0] else nd.peerChannel[0];
    var h' := Record(c, nd, h, e);
    Settles(c, nd, h, theirs, m, h'.own, h'.peer);
    LeftWaits(c, t, m.rule, m.index, x);
    assert DoomedAt(nd, h.outs, theirs, x, m.rule, m.index);
  }

  lemma LeftLocal(c: Config, t: Traced)
    requires Inv(c, t)
    ensures LocalInv(c, t.sys.left, t.left, t.right.outs)
  {
    hide LocalInv;
  }

  lemma DropsOnReport(c: Config, nd: Node, e: Event)
    requires Enabled(c, nd, e) && Dropped(c, nd, e) != []
    ensures !nd.done && (e.TakeOwn? || e.TakePeer?)
    ensures if e.TakeOwn? then nd.ownChannel != [] else nd.peerChannel != []
  {
  }

  /** When a node discards its half, it was locked by an action the nodes disagree on; and the other
      node has its half locked by that same action, or has discarded it before. */
  lemma DiscardedTogether(c: Config, t: Traced, left: bool, e: Event, x: nat)
    requires Inv(c, t) && HistShape(c, t.left) && HistShape(c, t.right) && BothFates(t)
    requires Enabled(c, Side(t, left), e) && x in Dropped(c, Side(t, left), e)
    ensures x < Side(t, !left).arrived
    ensures Total(Side(t, !left).rules, x) > 0 ==>
              Doomed(Side(t, !left), SideHist(t, !left).outs, SideHist(t, left).outs, x)
    ensures Doomed(Side(t, left), SideHist(t, left).outs, SideHist(t, !left).outs, x)
  {
    hide Inv, Doomed, BothFates, Enabled, Dropped;
    if left {
      LeftDiscards(c, t, e, x);
    } else {
      PipelineTheorems.FlipInv(c, t);
      assert BothFates(Flip(t)) by { FlipFates(t); }
      LeftDiscards(c, Flip(t), e, x);
    }
  }

  lemma FlipFates(t: Traced)
    requires BothFates(t)
    ensures BothFates(Flip(t))
  {
  }

  lemma FateSame(nd: Node, nd': Node, h: Hist, theirs: seq<seq<Outcome>>)
    requires FateInv(nd, h, theirs) && nd'.rules == nd.rules && nd'.arrived == nd.arrived
    ensures FateInv(nd', h, theirs)
  {
  }

  /** One step seen from the side that makes it. */
  lemma FatesStepFrom(c: Config, nd: Node, h: Hist, other: Node, oh: Hist, e: Event)
    requires LocalInv(c, nd, h, oh.outs) && LocalInv(c, other, oh, h.outs) && HistShape(c, h) && Enabled(c, nd, e)
    requires FateInv(nd, h, oh.outs) && FateInv(other, oh, h.outs) && !NodeStep(c, nd, e).failed
    ensures FateInv(NodeStep(c, nd, e), Record(c, nd, h, e), oh.outs)
    ensures FateInv(other, oh, Record(c, nd, h, e).outs)
  {
    hide FateInv, LocalInv, Record, NodeStep, Enabled;
    FateStep(c, nd, h, oh.outs, e);
    RecordKeepsOutcomes(c, nd, h, e);
    PeerCounts(c, other, oh, h.outs);
    FateOther(other, oh, h.outs, Record(c, nd, h, e).outs);
  }

  lemma PeerCounts(c: Config, nd: Node, h: Hist, theirs: seq<seq<Outcome>>)
    requires LocalInv(c, nd, h, theirs)
    ensures forall r :: 0 <= r < |theirs| && r < |h.peer| ==> h.peer[r] <= |theirs[r]|
  {
    ListsFacts(c, nd, h, theirs);
  }

  lemma FatesStep(c: Config, t: Traced, atLeft: bool, e: Event)
    requires HistShape(c, t.left) && HistShape(c, t.right) && Inv(c, t) && BothFates(t)
    ensures BothFates(TracedStep(c, t, atLeft, e))
  {
    var nd, other, h, oh := Side(t, atLeft), Side(t, !atLeft), SideHist(t, atLeft), SideHist(t, !atLeft);
    if Enabled(c, nd, e) {
      StepOk(c, t, atLeft, e);
      hide FateInv, LocalInv, Record, NodeStep, Enabled, Reports;
      FatesStepFrom(c, nd, h, other, oh, e);
      var nd', sent := NodeStep(c, nd, e), Reports(c, nd, e);
      FateSame(nd', nd'.(ownChannel := nd'.ownChannel + sent), Record(c, nd, h, e), oh.outs);
      FateSame(other, other.(peerChannel := other.peerChannel + sent), oh, Record(c, nd, h, e).outs);
    }
  }

  lemma StepOk(c: Config, t: Traced, atLeft: bool, e: Event)
    requires HistShape(c, t.left) && HistShape(c, t.right) && Inv(c, t) && Enabled(c, Side(t, atLeft), e)
    ensures !NodeStep(c, Side(t, atLeft), e).failed
  {
    hide Inv, NodeStep, Enabled, Reports, Record;
    StepKeeps(c, t, atLeft, e);
    PipelineTheorems.FlipInv(c, TracedStep(c, t, atLeft, e));
  }

  lemma StartFates(c: Config)
    ensures BothFates(Traced(InitSystem(c), InitHist(c), InitHist(c)))
  {
    var nd := InitNode(c);
    forall x: nat ensures Total(nd.rules, x) == 0 {
      NothingHeld(nd.rules, x);
    }
  }

  lemma {:induction false} NothingHeld(rules: seq<Rule>, x: nat)
    requires forall r :: 0 <= r < |rules| ==> rules[r].resources == []
    ensures Total(rules, x) == 0
  {
    if rules != [] {
      NothingHeld(rules[1..], x);
    }
  }

  // ---- a doomed half stays where it is ---------------------------------------------------------

  lemma {:induction false} LockedSurvivesDrop(s: seq<Entry<nat>>, k: nat, e: Entry<nat>)
    requires e in s && e.lock.Locked?
    ensures e in DropUnlocked(s, k)
  {
    if k > 0 {
      if e in s[1..] {
        LockedSurvivesDrop(s[1..], if s[0].lock.Unlocked? then k - 1 else k, e);
      }
      if s[0].lock.Locked? {
        assert DropUnlocked(s, k) == [s[0]] + DropUnlocked(s[1..], k);
      }
    }
  }

  lemma {:induction false} LockedSurvivesAction(s: seq<Entry<nat>>, k: nat, a: int, e: Entry<nat>)
    requires e in s && e.lock.Locked? && k >= 1
    ensures e in AfterAction(s, k, a)
  {
    if s[0].lock.Unlocked? {
      LockedSurvivesDrop(s[1..], k - 1, e);
    } else if e in s[1..] {
      LockedSurvivesAction(s[1..], k, a, e);
    }
  }

  lemma SurvivesRemoval(s: seq<Entry<nat>>, p: nat, e: Entry<nat>)
    requires e in s && p < |s| && e != s[p]
    ensures e in RemoveAt(s, p)
  {
    var i :| 0 <= i < |s| && s[i] == e;
    var t := RemoveAt(s, p);
    assert i < p ==> t[i] == e;
    assert i > p ==> t[i - 1] == e;
  }

  /** A report leaves a locked half in place unless it settles that very action. */
  lemma StoreLeaves(nd: Node, m: Msg, r: nat, e: Entry<nat>)
    requires Holds(nd, r, e) && e.lock.Locked? && !StoreCheck(nd, m).failed
    requires !nd.done && (m.rule, m.index) in nd.table ==> r != m.rule || e.lock != Locked(m.index)
    ensures Holds(StoreCheck(nd, m), r, e)
  {
    var key := (m.rule, m.index);
    if !nd.done && key in nd.table && m.rule < |nd.rules| {
      var list := nd.rules[m.rule].resources;
      var p := FindAction(list, m.index);
      if p < |list| && r == m.rule {
        SurvivesRemoval(list, p, e);
      }
    }
  }

  lemma DoomedReport(c: Config, nd: Node, h: Hist, theirs: seq<seq<Outcome>>, e: Event, x: nat, r: nat, i: nat)
    requires LocalInv(c, nd, h, theirs) && HistShape(c, h) && Enabled(c, nd, e) && Owned(nd) && (e.TakeOwn? || e.TakePeer?)
    requires DoomedAt(nd, h.outs, theirs, x, r, i) && x !in Dropped(c, nd, e) && !NodeStep(c, nd, e).failed
    ensures Holds(NodeStep(c, nd, e), r, Entry(x, Locked(i)))
  {
    var m := if e.TakeOwn? then nd.ownChannel[0] else nd.peerChannel[0];
    var nd0 := if e.TakeOwn? then nd.(ownChannel := nd.ownChannel[1..]) else nd.(peerChannel := nd.peerChannel[1..]);
    assert NodeStep(c, nd, e) == StoreCheck(nd0, m);
    if !nd.done && (m.rule, m.index) in nd.table && r == m.rule && i == m.index {
      NextReport(c, nd, h, theirs, e);
      var h' := Record(c, nd, h, e);
      hide LocalInv, ListsInv, Record, Enabled, Dropped, Discarded, Delivered, Owned, StoreCheck, NodeStep;
      Settles(c, nd, h, theirs, m, h'.own, h'.peer);
      assert Discarded(nd, m) == [h.taken[r][i][0]];
      SameLock(c, nd, h, theirs, r, i, x);
    } else {
      StoreLeaves(nd0, m, r, Entry(x, Locked(i)));
    }
  }

  /** One action locks one half. */
  lemma SameLock(c: Config, nd: Node, h: Hist, theirs: seq<seq<Outcome>>, r: nat, i: nat, x: nat)
    requires LocalInv(c, nd, h, theirs) && HistShape(c, h) && r < |c.inputs| && i < |h.taken[r]| && |h.taken[r][i]| >= 1
    requires Holds(nd, r, Entry(x, Locked(i)))
    ensures x == h.taken[r][i][0]
  {
    assert RuleOk(c.inputs[r], nd.rules[r], h.placed[r], h.taken[r], h.outs[r], h.own[r], h.peer[r], h.kept[r], theirs[r]);
    var s := nd.rules[r].resources;
    var p :| 0 <= p < |s| && s[p] == Entry(x, Locked(i));
    var w := Waiting(h.taken[r], Min(h.own[r], h.peer[r]));
    assert p < |w| && w[p] == s[p];
  }

  lemma DoomedEntry(c: Config, nd: Node, h: Hist, theirs: seq<seq<Outcome>>, e: Event, x: nat, r: nat, i: nat)
    requires LocalInv(c, nd, h, theirs) && HistShape(c, h) && Enabled(c, nd, e) && Owned(nd)
    requires DoomedAt(nd, h.outs, theirs, x, r, i) && x !in Dropped(c, nd, e) && !NodeStep(c, nd, e).failed
    ensures Holds(NodeStep(c, nd, e), r, Entry(x, Locked(i)))
  {
    hide LocalInv, Owned, StoreCheck;
    var en := Entry(x, Locked(i));
    match e
    case Arrive =>
    case Act(q, _) =>
      if q == r {
        LockedSurvivesAction(nd.rules[r].resources, c.inputs[r], nd.rules[r].nextAction, en);
      }
    case Measure =>
    case _ =>
      DoomedReport(c, nd, h, theirs, e, x, r, i);
  }

  lemma DoomedStays(c: Config, nd: Node, h: Hist, theirs: seq<seq<Outcome>>, e: Event, x: nat)
    requires LocalInv(c, nd, h, theirs) && HistShape(c, h) && Enabled(c, nd, e) && Owned(nd)
    requires Doomed(nd, h.outs, theirs, x) && x !in Dropped(c, nd, e) && !NodeStep(c, nd, e).failed
    ensures Doomed(NodeStep(c, nd, e), Record(c, nd, h, e).outs, theirs, x)
  {
    hide LocalInv, Owned, NodeStep, Enabled, Record, Dropped;
    var r: nat, i: nat :| DoomedAt(nd, h.outs, theirs, x, r, i);
    DoomedEntry(c, nd, h, theirs, e, x, r, i);
    RecordKeepsOutcomes(c, nd, h, e);
    assert DoomedAt(NodeStep(c, nd, e), Record(c, nd, h, e).outs, theirs, x, r, i);
  }

  lemma DoomedOther(c: Config, nd: Node, h: Hist, e: Event, other: Node, oh: Hist, x: nat)
    requires HistShape(c, h) && Enabled(c, nd, e) && Doomed(other, oh.outs, h.outs, x)
    ensures Doomed(other, oh.outs, Record(c, nd, h, e).outs, x)
  {
    hide Record, Enabled;
    RecordKeepsOutcomes(c, nd, h, e);
    var r: nat, i: nat :| DoomedAt(other, oh.outs, h.outs, x, r, i);
    assert DoomedAt(other, oh.outs, Record(c, nd, h, e).outs, x, r, i);
  }

  /** A measured half was unlocked, so it was not doomed. */
  lemma MeasuredNotDoomed(c: Config, nd: Node, mine: seq<seq<Outcome>>, theirs: seq<seq<Outcome>>, e: Event, x: nat)
    requires Enabled(c, nd, e) && Owned(nd) && x in Measured(c, nd, e)
    ensures !Doomed(nd, mine, theirs, x)
  {
    var r: nat := if e.Act? then e.rule else |c.inputs|;
    TopHeld(nd, r, if e.Act? then c.inputs[r] else 1, x);
    UnlockedNotDoomed(nd, mine, theirs, r, x);
  }

  lemma UnlockedNotDoomed(nd: Node, mine: seq<seq<Outcome>>, theirs: seq<seq<Outcome>>, r: nat, x: nat)
    requires Owned(nd) && Holds(nd, r, Entry(x, Unlocked))
    ensures !Doomed(nd, mine, theirs, x)
  {
    if Doomed(nd, mine, theirs, x) {
      var q: nat, i: nat :| DoomedAt(nd, mine, theirs, x, q, i);
      OnePlace(nd, r, q, Entry(x, Unlocked), Entry(x, Locked(i)));
    }
  }
}
