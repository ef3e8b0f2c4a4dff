// Link tomography at the hardware monitor: results from both nodes meet under their count
// id, are counted by basis, and give the fidelity and the error rates of the link.
module Tomography {
  import opened Basics
  import Pipeline
  import PipelineInvariant
  import PipelineTheorems
  import LinkTraversal
  import Traversal

  // ---- matching results ------------------------------------------------------------------------

  /** One measurement: basis and outcome.  `pair` records which pair was measured; the program does not know it. */
  datatype Half = Half(basis: char, plus: bool, pair: nat)

  /** A result as received: whose it is, its count id, and the running time when it is the last one. */
  datatype Result = Result(mine: bool, id: nat, half: Half, finish: Option<real>)

  datatype Outcome = Outcome(mine: Option<Half>, partner: Option<Half>)

  datatype Monitor = Monitor(outcomes: map<nat, Outcome>, time: real)

  /** The half goes under its count id, into its side of the entry; the slower running time is kept. */
  function Receive(m: Monitor, r: Result): Monitor {
    var before := if r.id in m.outcomes then m.outcomes[r.id] else Outcome(None, None);
    var after := if r.mine then before.(mine := Some(r.half)) else before.(partner := Some(r.half));
    Monitor(m.outcomes[r.id := after],
            if r.finish.Some? && m.time < r.finish.value then r.finish.value else m.time)
  }

  function ReceiveAll(rs: seq<Result>): Monitor {
    if rs == [] then Monitor(map[], -1.0) else Receive(ReceiveAll(rs[..|rs| - 1]), rs[|rs| - 1])
  }

  /** No node reports a count id twice. */
  predicate OncePerId(rs: seq<Result>) {
    forall i, j :: 0 <= i < j < |rs| ==> rs[i].mine != rs[j].mine || rs[i].id != rs[j].id
  }

  predicate Reported(rs: seq<Result>, mine: bool, id: nat, h: Half) {
    exists i :: 0 <= i < |rs| && rs[i].mine == mine && rs[i].id == id && rs[i].half == h
  }

  lemma ReportedSnoc(rs: seq<Result>, r: Result, mine: bool, id: nat, h: Half)
    ensures Reported(rs + [r], mine, id, h) <==> Reported(rs, mine, id, h) || (r.mine == mine && r.id == id && r.half == h)
  {
    var t := rs + [r];
    if Reported(rs, mine, id, h) {
      var i :| 0 <= i < |rs| && rs[i].mine == mine && rs[i].id == id && rs[i].half == h;
      assert t[i] == rs[i];
    }
    if r.mine == mine && r.id == id && r.half == h {
      assert t[|rs|] == r;
    }
  }

  /** In whatever order results arrive, an entry holds exactly the halves reported under its id. */
  lemma {:induction false} EntryIsReports(rs: seq<Result>, id: nat, h: Half)
    requires OncePerId(rs)
    ensures var m := ReceiveAll(rs).outcomes;
            && (id in m && m[id].mine == Some(h) <==> Reported(rs, true, id, h))
            && (id in m && m[id].partner == Some(h) <==> Reported(rs, false, id, h))
  {
    if rs != [] {
      var front, last := rs[..|rs| - 1], rs[|rs| - 1];
      assert rs == front + [last];
      EntryIsReports(front, id, h);
      ReportedSnoc(front, last, true, id, h);
      ReportedSnoc(front, last, false, id, h);
      FirstReport(front, last, h);
    }
  }

  lemma FirstReport(front: seq<Result>, last: Result, h: Half)
    requires OncePerId(front + [last])
    ensures !Reported(front, last.mine, last.id, h)
  {
    var rs := front + [last];
    assert rs[|front|] == last && forall i :: 0 <= i < |front| ==> rs[i] == front[i];
  }

  predicate FinishedBy(rs: seq<Result>, t: real) {
    exists i :: 0 <= i < |rs| && rs[i].finish == Some(t)
  }

  /** The kept time is the slowest of the reported ones. */
  lemma {:induction false} SlowestTime(rs: seq<Result>)
    ensures forall i :: 0 <= i < |rs| && rs[i].finish.Some? ==> rs[i].finish.value <= ReceiveAll(rs).time
    ensures ReceiveAll(rs).time == -1.0 || FinishedBy(rs, ReceiveAll(rs).time)
  {
    if rs != [] {
      var front, last := rs[..|rs| - 1], rs[|rs| - 1];
      SlowestTime(front);
      var t := ReceiveAll(front).time;
      if FinishedBy(front, t) {
        var i :| 0 <= i < |front| && front[i].finish == Some(t);
        assert rs[i].finish == Some(t);
      }
      assert last.finish.Some? ==> FinishedBy(rs, last.finish.value);
      forall i | 0 <= i < |rs| && rs[i].finish.Some? ensures rs[i].finish.value <= ReceiveAll(rs).time {
        assert i < |front| ==> front[i] == rs[i];
      }
    }
  }

  // ---- the results of a run ----------------------------------------------------------------------

  /** What a measurement draws: its basis, its outcome and the running time it would report. */
  datatype Draw = Draw(basis: char, plus: bool, time: real)

  /** The result an event sends: what the measuring rule's turn sends, with the drawn basis and outcome. */
  function EmittedBy(c: Pipeline.Config, nd: Pipeline.Node, e: Pipeline.Event, mine: bool, d: Draw): seq<Result> {
    if !e.Measure? || |nd.rules| != |c.inputs| + 1 then []
    else
      var packet := Traversal.CheckRun(LinkTraversal.RuleOf(c, nd, 0, |c.inputs|)).packet;
      if !packet.Measured? then []
      else [Result(mine, packet.id, Half(d.basis, d.plus, packet.half.qubit), if packet.finish then Some(d.time) else None)]
  }

  /** The results one node sends in a run, as the monitor of the node `home` sees them. */
  function Emitted(c: Pipeline.Config, es: seq<(bool, Pipeline.Event)>, draws: nat -> Draw, home: bool, left: bool): seq<Result> {
    if es == [] then []
    else
      var front, last := es[..|es| - 1], es[|es| - 1];
      var nd := Pipeline.Side(Pipeline.Run(c, front), left);
      Emitted(c, front, draws, home, left)
        + if last.0 == left && Pipeline.Enabled(c, nd, last.1) then EmittedBy(c, nd, last.1, left == home, draws(|front|)) else []
  }

  /** What the measurements of one node drew, in order. */
  function Drawn(c: Pipeline.Config, es: seq<(bool, Pipeline.Event)>, draws: nat -> Draw, left: bool): seq<Draw> {
    if es == [] then []
    else
      var front, last := es[..|es| - 1], es[|es| - 1];
      Drawn(c, front, draws, left)
        + if last == (left, Pipeline.Measure) && Pipeline.Enabled(c, Pipeline.Side(Pipeline.Run(c, front), left), Pipeline.Measure)
          then [draws(|front|)] else []
  }

  /** The i-th result carries count id i+1, the i-th half the node measured with the basis and outcome drawn
      for it, and the running time exactly when it is the last of all. */
  predicate Accounts(c: Pipeline.Config, nd: Pipeline.Node, mine: bool, ds: seq<Draw>, rs: seq<Result>) {
    && |rs| == |nd.measured| == |ds|
    && forall i :: 0 <= i < |rs| ==>
         rs[i] == Result(mine, i + 1, Half(ds[i].basis, ds[i].plus, nd.measured[i]), if i + 1 == c.maxCount then Some(ds[i].time) else None)
  }

  lemma MeasuredStays(c: Pipeline.Config, t: Pipeline.Traced, left: bool, at: bool, e: Pipeline.Event)
    requires Pipeline.HistShape(c, t.left) && Pipeline.HistShape(c, t.right)
    requires at != left || !e.Measure? || !Pipeline.Enabled(c, Pipeline.Side(t, at), e)
    ensures Pipeline.Side(Pipeline.TracedStep(c, t, at, e), left).measured == Pipeline.Side(t, left).measured
  {
    hide Pipeline.Record, Pipeline.Reports;
  }

  lemma MeasureEmits(c: Pipeline.Config, t: Pipeline.Traced, left: bool, mine: bool, d: Draw, ds: seq<Draw>, rs: seq<Result>)
    requires Pipeline.HistShape(c, t.left) && Pipeline.HistShape(c, t.right)
    requires var nd := Pipeline.Side(t, left);
             LinkTraversal.LinkOk(c, nd) && Pipeline.Enabled(c, nd, Pipeline.Measure) && Accounts(c, nd, mine, ds, rs)
    ensures Accounts(c, Pipeline.Side(Pipeline.TracedStep(c, t, left, Pipeline.Measure), left), mine, ds + [d],
                     rs + EmittedBy(c, Pipeline.Side(t, left), Pipeline.Measure, mine, d))
  {
    var nd := Pipeline.Side(t, left);
    StepMeasured(c, t, left);
    LinkTraversal.MeasureIsMeasure(c, nd, 0);
    hide Pipeline.TracedStep, Pipeline.NodeStep, Traversal.CheckRun, Traversal.Finished, Pipeline.Enabled;
  }

  lemma StepMeasured(c: Pipeline.Config, t: Pipeline.Traced, left: bool)
    requires Pipeline.HistShape(c, t.left) && Pipeline.HistShape(c, t.right)
    requires Pipeline.Enabled(c, Pipeline.Side(t, left), Pipeline.Measure)
    ensures Pipeline.Side(Pipeline.TracedStep(c, t, left, Pipeline.Measure), left).measured
         == Pipeline.NodeStep(c, Pipeline.Side(t, left), Pipeline.Measure).measured
    ensures !Pipeline.Side(t, left).done
  {
    hide Pipeline.Record, Pipeline.Reports;
  }

  /** In every run the results of a node have the ids 1, 2, ... in order, one per half it measured, and report
      what was drawn for that half. */
  lemma {:induction false} EmittedExactly(c: Pipeline.Config, es: seq<(bool, Pipeline.Event)>, draws: nat -> Draw, home: bool, left: bool)
    requires Pipeline.ValidConfig(c)
    ensures Accounts(c, Pipeline.Side(Pipeline.Run(c, es), left), left == home, Drawn(c, es, draws, left), Emitted(c, es, draws, home, left))
  {
    if es == [] {
      StartMeasured(c, left);
    } else {
      var front, last := es[..|es| - 1], es[|es| - 1];
      var t := Pipeline.Run(c, front);
      EmittedExactly(c, front, draws, home, left);
      LinkTraversal.ReachableOk(c, front, left);
      hide Accounts, Pipeline.TracedStep, EmittedBy, Pipeline.Enabled, LinkTraversal.LinkOk;
      if last.0 == left && last.1.Measure? && Pipeline.Enabled(c, Pipeline.Side(t, left), last.1) {
        MeasureEmits(c, t, left, left == home, draws(|front|), Drawn(c, front, draws, left), Emitted(c, front, draws, home, left));
      } else {
        MeasuredStays(c, t, left, last.0, last.1);
        NothingEmitted(c, Pipeline.Side(t, left), last.1, left == home, draws(|front|));
        SameAccounts(c, Pipeline.Side(t, left), Pipeline.Side(Pipeline.Run(c, es), left), left == home, Drawn(c, front, draws, left),
                     Emitted(c, front, draws, home, left));
        assert Drawn(c, front, draws, left) + [] == Drawn(c, front, draws, left);
        assert Emitted(c, front, draws, home, left) + [] == Emitted(c, front, draws, home, left);
      }
    }
  }

  lemma StartMeasured(c: Pipeline.Config, left: bool)
    ensures Pipeline.Side(Pipeline.Run(c, []), left).measured == []
  {
  }

  lemma NothingEmitted(c: Pipeline.Config, nd: Pipeline.Node, e: Pipeline.Event, mine: bool, d: Draw)
    ensures !e.Measure? ==> EmittedBy(c, nd, e, mine, d) == []
  {
  }

  lemma SameAccounts(c: Pipeline.Config, nd: Pipeline.Node, nd': Pipeline.Node, mine: bool, ds: seq<Draw>, rs: seq<Result>)
    requires Accounts(c, nd, mine, ds, rs) && nd'.measured == nd.measured
    ensures Accounts(c, nd', mine, ds, rs)
  {
  }

  /** Exactly one result of a node carries the running time if and only if the node is done; before that,
      none does. */
  lemma OneFinish(c: Pipeline.Config, es: seq<(bool, Pipeline.Event)>, draws: nat -> Draw, home: bool, left: bool)
    requires Pipeline.ValidConfig(c)
    ensures var rs, nd := Emitted(c, es, draws, home, left), Pipeline.Side(Pipeline.Run(c, es), left);
            && (nd.done <==> exists i :: 0 <= i < |rs| && rs[i].finish.Some?)
            && (forall i, j :: 0 <= i < |rs| && 0 <= j < |rs| && rs[i].finish.Some? && rs[j].finish.Some? ==> i == j)
            && (nd.done ==> |rs| == c.maxCount && rs[c.maxCount - 1].finish.Some?)
            && forall i :: 0 <= i < |rs| ==> rs[i].id == i + 1
  {
    EmittedExactly(c, es, draws, home, left);
    LinkTraversal.ReachableOk(c, es, left);
    hide Emitted, Pipeline.Run;
    var rs := Emitted(c, es, draws, home, left);
    assert |rs| == c.maxCount ==> rs[c.maxCount - 1].finish.Some?;
  }

  // ---- what a monitor makes of them ----------------------------------------------------------------

  /** rs are results of the two nodes, in any order, each at most as often as it was sent. */
  predicate Arrived(c: Pipeline.Config, es: seq<(bool, Pipeline.Event)>, draws: nat -> Draw, home: bool, rs: seq<Result>) {
    multiset(rs) <= multiset(Emitted(c, es, draws, home, true) + Emitted(c, es, draws, home, false))
  }

  lemma {:induction false} Once(s: seq<Result>)
    requires forall i, j :: 0 <= i < j < |s| ==> s[i] != s[j]
    ensures forall x :: multiset(s)[x] <= 1
  {
    if s != [] {
      var front, last := s[..|s| - 1], s[|s| - 1];
      assert s == front + [last];
      Once(front);
      assert last !in front;
    }
  }

  lemma Twice(s: seq<Result>, i: nat, j: nat)
    requires i < j < |s| && s[i] == s[j]
    ensures multiset(s)[s[i]] >= 2
  {
    assert s == s[..j] + s[j..];
    assert s[i] in s[..j] && s[j] in s[j..];
    assert multiset(s)[s[i]] == multiset(s[..j])[s[i]] + multiset(s[j..])[s[i]];
  }

  /** Results are told apart by whose they are and their id. */
  predicate Unambiguous(s: seq<Result>) {
    forall i, j :: 0 <= i < j < |s| ==> s[i].mine != s[j].mine || s[i].id != s[j].id
  }

  lemma SubOncePerId(rs: seq<Result>, all: seq<Result>)
    requires multiset(rs) <= multiset(all) && Unambiguous(all)
    ensures OncePerId(rs)
  {
    Once(all);
    forall i, j | 0 <= i < j < |rs| ensures rs[i].mine != rs[j].mine || rs[i].id != rs[j].id {
      assert rs[i] in multiset(rs) && rs[j] in multiset(rs);
      var a :| 0 <= a < |all| && all[a] == rs[i];
      var b :| 0 <= b < |all| && all[b] == rs[j];
      if rs[i] == rs[j] {
        Twice(rs, i, j);
      }
    }
  }

  /** The results of both nodes of a run. */
  lemma BothAccounts(c: Pipeline.Config, es: seq<(bool, Pipeline.Event)>, draws: nat -> Draw, home: bool)
    requires Pipeline.ValidConfig(c)
    ensures var l, r := Emitted(c, es, draws, home, true), Emitted(c, es, draws, home, false);
            && Accounts(c, Pipeline.Run(c, es).sys.left, home, Drawn(c, es, draws, true), l)
            && Accounts(c, Pipeline.Run(c, es).sys.right, !home, Drawn(c, es, draws, false), r)
            && Unambiguous(l + r)
  {
    hide Emitted, Pipeline.Run;
    EmittedExactly(c, es, draws, home, true);
    EmittedExactly(c, es, draws, home, false);
  }

  /** A result that arrived is about the half its node measured under that id. */
  lemma FromRun(c: Pipeline.Config, es: seq<(bool, Pipeline.Event)>, draws: nat -> Draw, home: bool, rs: seq<Result>, r: Result)
    requires Pipeline.ValidConfig(c) && Arrived(c, es, draws, home, rs) && r in rs
    ensures OncePerId(rs)
    ensures var measured := Pipeline.Side(Pipeline.Run(c, es), r.mine == home).measured;
            1 <= r.id <= |measured| && r.half.pair == measured[r.id - 1] && (r.finish.Some? <==> r.id == c.maxCount)
  {
    hide Emitted, Pipeline.Run, Drawn;
    var l, q := Emitted(c, es, draws, home, true), Emitted(c, es, draws, home, false);
    BothAccounts(c, es, draws, home);
    SubOncePerId(rs, l + q);
    assert r in multiset(rs);
    ResultOf(c, es, draws, home, r);
  }

  lemma ResultOf(c: Pipeline.Config, es: seq<(bool, Pipeline.Event)>, draws: nat -> Draw, home: bool, r: Result)
    requires Pipeline.ValidConfig(c) && r in Emitted(c, es, draws, home, true) + Emitted(c, es, draws, home, false)
    ensures var measured := Pipeline.Side(Pipeline.Run(c, es), r.mine == home).measured;
            1 <= r.id <= |measured| && r.half.pair == measured[r.id - 1] && (r.finish.Some? <==> r.id == c.maxCount)
  {
    hide Emitted, Pipeline.Run, Drawn, Accounts, Unambiguous;
    var l, q := Emitted(c, es, draws, home, true), Emitted(c, es, draws, home, false);
    BothAccounts(c, es, draws, home);
    var a :| 0 <= a < |l + q| && (l + q)[a] == r;
    if a < |l| {
      AccountsAt(c, Pipeline.Run(c, es).sys.left, home, Drawn(c, es, draws, true), l, a);
    } else {
      AccountsAt(c, Pipeline.Run(c, es).sys.right, !home, Drawn(c, es, draws, false), q, a - |l|);
    }
  }

  lemma AccountsAt(c: Pipeline.Config, nd: Pipeline.Node, mine: bool, ds: seq<Draw>, rs: seq<Result>, a: nat)
    requires Accounts(c, nd, mine, ds, rs) && a < |rs|
    ensures a < |nd.measured| && rs[a].mine == mine && rs[a].id == a + 1 && rs[a].half.pair == nd.measured[a]
    ensures rs[a].finish.Some? <==> a + 1 == c.maxCount
  {
  }

  /** Two outcomes a monitor stores under one count id come from the two halves of one pair, the pair that
      both nodes measured under that id. */
  lemma CorrelatesTruePairs(c: Pipeline.Config, es: seq<(bool, Pipeline.Event)>, draws: nat -> Draw, home: bool, rs: seq<Result>, id: nat)
    requires Pipeline.ValidConfig(c) && Arrived(c, es, draws, home, rs) && id in ReceiveAll(rs).outcomes
    ensures var o, s := ReceiveAll(rs).outcomes[id], Pipeline.Run(c, es).sys;
            && (o.mine.Some? && o.partner.Some? ==>
                  && o.mine.value.pair == o.partner.value.pair
                  && 1 <= id <= |s.left.measured| && id <= |s.right.measured|
                  && s.left.measured[id - 1] == s.right.measured[id - 1] == o.mine.value.pair)
            && 1 <= id <= c.maxCount
  {
    hide *;
    EntryHasReport(rs, id);
    var o := ReceiveAll(rs).outcomes[id];
    if o.mine.Some? {
      var r := ReportOf(c, es, draws, home, rs, id, true, o.mine.value);
    }
    if o.partner.Some? {
      var r := ReportOf(c, es, draws, home, rs, id, false, o.partner.value);
    }
    SamePairs(c, es, id);
  }

  lemma SamePairs(c: Pipeline.Config, es: seq<(bool, Pipeline.Event)>, id: nat)
    requires Pipeline.ValidConfig(c)
    ensures var l, r := Pipeline.Side(Pipeline.Run(c, es), true).measured, Pipeline.Side(Pipeline.Run(c, es), false).measured;
            && l == Pipeline.Run(c, es).sys.left.measured && r == Pipeline.Run(c, es).sys.right.measured
            && (1 <= id <= |l| && id <= |r| ==> l[id - 1] == r[id - 1]) && |l| <= c.maxCount && |r| <= c.maxCount
  {
    hide Pipeline.Run;
    PipelineTheorems.TomographyPairs(c, es);
  }

  /** The result behind a stored half. */
  lemma ReportOf(c: Pipeline.Config, es: seq<(bool, Pipeline.Event)>, draws: nat -> Draw, home: bool, rs: seq<Result>, id: nat, mine: bool, h: Half)
    returns (r: Result)
    requires Pipeline.ValidConfig(c) && Arrived(c, es, draws, home, rs) && id in ReceiveAll(rs).outcomes
    requires if mine then ReceiveAll(rs).outcomes[id].mine == Some(h) else ReceiveAll(rs).outcomes[id].partner == Some(h)
    ensures var measured := Pipeline.Side(Pipeline.Run(c, es), mine == home).measured;
            1 <= id <= |measured| && h.pair == measured[id - 1]
  {
    hide Emitted, Pipeline.Run, ReceiveAll;
    var any := AnyOf(rs, id);
    FromRun(c, es, draws, home, rs, any);
    EntryIsReports(rs, id, h);
    var i :| 0 <= i < |rs| && rs[i].mine == mine && rs[i].id == id && rs[i].half == h;
    r := rs[i];
    FromRun(c, es, draws, home, rs, r);
  }

  lemma {:induction false} AnyOf(rs: seq<Result>, id: nat) returns (r: Result)
    requires id in ReceiveAll(rs).outcomes
    ensures r in rs && r.id == id
  {
    var last := rs[|rs| - 1];
    if last.id == id {
      r := last;
    } else {
      r := AnyOf(rs[..|rs| - 1], id);
    }
  }

  /** Once all results of a run have arrived, every count id both nodes reached holds both outcomes. */
  lemma AllIdsComplete(c: Pipeline.Config, es: seq<(bool, Pipeline.Event)>, draws: nat -> Draw, home: bool, rs: seq<Result>, id: nat)
    requires Pipeline.ValidConfig(c)
    requires multiset(rs) == multiset(Emitted(c, es, draws, home, true) + Emitted(c, es, draws, home, false))
    requires 1 <= id <= |Pipeline.Run(c, es).sys.left.measured| && id <= |Pipeline.Run(c, es).sys.right.measured|
    ensures id in ReceiveAll(rs).outcomes
    ensures ReceiveAll(rs).outcomes[id].mine.Some? && ReceiveAll(rs).outcomes[id].partner.Some?
  {
    hide Emitted, Pipeline.Run, ReceiveAll;
    var l, q := Emitted(c, es, draws, home, true), Emitted(c, es, draws, home, false);
    BothAccounts(c, es, draws, home);
    SubOncePerId(rs, l + q);
    HasReport(rs, l + q, l[id - 1]);
    HasReport(rs, l + q, q[id - 1]);
    assert (l + q)[id - 1] == l[id - 1] && (l + q)[|l| + id - 1] == q[id - 1];
    EntryIsReports(rs, id, l[id - 1].half);
    EntryIsReports(rs, id, q[id - 1].half);
  }

  lemma HasReport(rs: seq<Result>, all: seq<Result>, r: Result)
    requires multiset(rs) == multiset(all)
    ensures r in all ==> Reported(rs, r.mine, r.id, r.half)
  {
    if r in all {
      assert r in multiset(rs);
      var i :| 0 <= i < |rs| && rs[i] == r;
    }
  }

  lemma {:induction false} EntryHasReport(rs: seq<Result>, id: nat)
    requires id in ReceiveAll(rs).outcomes
    ensures ReceiveAll(rs).outcomes[id].mine.Some? || ReceiveAll(rs).outcomes[id].partner.Some?
  {
    if rs[|rs| - 1].id != id {
      EntryHasReport(rs[..|rs| - 1], id);
    }
  }

  // ---- counting --------------------------------------------------------------------------------------

  datatype Record = Record(myBasis: char, myPlus: bool, partnerBasis: char, partnerPlus: bool)

  datatype Tally = Tally(total: nat, plusPlus: nat, plusMinus: nat, minusPlus: nat, minusMinus: nat)

  function Combinations(): set<string> {
    {"XX", "XY", "XZ", "ZX", "ZY", "ZZ", "YX", "YY", "YZ"}
  }

  function Combination(r: Record): string {
    [r.myBasis, r.partnerBasis]
  }

  /** How many records have this basis combination. */
  function Occurrences(rs: seq<Record>, b: string): nat {
    if rs == [] then 0 else Occurrences(rs[..|rs| - 1], b) + (if Combination(rs[|rs| - 1]) == b then 1 else 0)
  }

  /** How many of them have these two outcomes. */
  function Agreeing(rs: seq<Record>, b: string, mine: bool, theirs: bool): nat {
    if rs == [] then 0
    else
      var r := rs[|rs| - 1];
      Agreeing(rs[..|rs| - 1], b, mine, theirs) + if Combination(r) == b && r.myPlus == mine && r.partnerPlus == theirs then 1 else 0
  }

  function TallyOf(rs: seq<Record>, b: string): Tally {
    Tally(Occurrences(rs, b), Agreeing(rs, b, true, true), Agreeing(rs, b, true, false),
          Agreeing(rs, b, false, true), Agreeing(rs, b, false, false))
  }

  function CountOne(t: Tally, r: Record): Tally {
    var u := t.(total := t.total + 1);
    if r.myPlus && r.partnerPlus then u.(plusPlus := u.plusPlus + 1)
    else if r.myPlus then u.(plusMinus := u.plusMinus + 1)
    else if r.partnerPlus then u.(minusPlus := u.minusPlus + 1)
    else u.(minusMinus := u.minusMinus + 1)
  }

  lemma TallyNone(rs: seq<Record>)
    ensures forall b :: TallyOf(rs[..0], b) == Tally(0, 0, 0, 0, 0)
  {
  }

  lemma TallyNext(rs: seq<Record>, i: nat)
    requires i < |rs|
    ensures forall b :: TallyOf(rs[..i + 1], b) == if Combination(rs[i]) == b then CountOne(TallyOf(rs[..i], b), rs[i]) else TallyOf(rs[..i], b)
  {
    assert rs[..i + 1][..i] == rs[..i] && rs[..i + 1][i] == rs[i];
    hide Combination;
  }

  /** The counting loop.  False where the program stops at an unknown basis combination. */
  method Count(rs: seq<Record>) returns (ok: bool, data: map<string, Tally>)
    ensures ok <==> forall i :: 0 <= i < |rs| ==> Combination(rs[i]) in Combinations()
    ensures ok ==> data.Keys == Combinations() && forall b :: b in data ==> data[b] == TallyOf(rs, b)
  {
    hide Combinations, TallyOf, CountOne, Combination;
    data := map b | b in Combinations() :: Tally(0, 0, 0, 0, 0);
    TallyNone(rs);
    var i := 0;
    while i < |rs|
      invariant 0 <= i <= |rs|
      invariant forall j :: 0 <= j < i ==> Combination(rs[j]) in Combinations()
      invariant data.Keys == Combinations() && forall b :: b in data ==> data[b] == TallyOf(rs[..i], b)
    {
      var r := rs[i];
      if Combination(r) !in data {
        return false, data;
      }
      TallyNext(rs, i);
      data := data[Combination(r) := CountOne(data[Combination(r)], r)];
      i := i + 1;
    }
    assert rs[..i] == rs;
    ok := true;
  }

  /** Per combination the four outcome counts make up the total. */
  lemma {:induction false} TotalsAddUp(rs: seq<Record>, b: string)
    ensures var t := TallyOf(rs, b); t.total == t.plusPlus + t.plusMinus + t.minusPlus + t.minusMinus
  {
    if rs != [] {
      TotalsAddUp(rs[..|rs| - 1], b);
    }
  }

  function GrandTotal(rs: seq<Record>): nat {
    Occurrences(rs, "XX") + Occurrences(rs, "XY") + Occurrences(rs, "XZ")
    + Occurrences(rs, "YX") + Occurrences(rs, "YY") + Occurrences(rs, "YZ")
    + Occurrences(rs, "ZX") + Occurrences(rs, "ZY") + Occurrences(rs, "ZZ")
  }

  /** Every record is counted under exactly one combination. */
  lemma {:induction false} EveryRecordCounted(rs: seq<Record>)
    requires forall i :: 0 <= i < |rs| ==> Combination(rs[i]) in Combinations()
    ensures GrandTotal(rs) == |rs|
  {
    if rs != [] {
      EveryRecordCounted(rs[..|rs| - 1]);
      var r := rs[|rs| - 1];
      Spelling(r);
      assert Combination(r) in Combinations();
      hide Combination;
    }
  }

  lemma Spelling(r: Record)
    ensures Combination(r) == "XX" <==> r.myBasis == 'X' && r.partnerBasis == 'X'
    ensures Combination(r) == "XY" <==> r.myBasis == 'X' && r.partnerBasis == 'Y'
    ensures Combination(r) == "XZ" <==> r.myBasis == 'X' && r.partnerBasis == 'Z'
    ensures Combination(r) == "YX" <==> r.myBasis == 'Y' && r.partnerBasis == 'X'
    ensures Combination(r) == "YY" <==> r.myBasis == 'Y' && r.partnerBasis == 'Y'
    ensures Combination(r) == "YZ" <==> r.myBasis == 'Y' && r.partnerBasis == 'Z'
    ensures Combination(r) == "ZX" <==> r.myBasis == 'Z' && r.partnerBasis == 'X'
    ensures Combination(r) == "ZY" <==> r.myBasis == 'Z' && r.partnerBasis == 'Y'
    ensures Combination(r) == "ZZ" <==> r.myBasis == 'Z' && r.partnerBasis == 'Z'
  {
    var c := Combination(r);
    assert c[0] == r.myBasis && c[1] == r.partnerBasis && |c| == 2;
  }

  // ---- the reconstructed state -------------------------------------------------------------------------

  type Grid = seq<seq<real>>

  predicate Sized(m: Grid, n: nat) {
    |m| == n && forall i :: 0 <= i < n ==> |m[i]| == n
  }

  /** A 2x2 complex matrix as its real and imaginary parts. */
  datatype Pauli = Pauli(re: Grid, im: Grid)

  function I2(): Pauli { Pauli([[1.0, 0.0], [0.0, 1.0]], [[0.0, 0.0], [0.0, 0.0]]) }
  function X2(): Pauli { Pauli([[0.0, 1.0], [1.0, 0.0]], [[0.0, 0.0], [0.0, 0.0]]) }
  function Y2(): Pauli { Pauli([[0.0, 0.0], [0.0, 0.0]], [[0.0, -1.0], [1.0, 0.0]]) }
  function Z2(): Pauli { Pauli([[1.0, 0.0], [0.0, -1.0]], [[0.0, 0.0], [0.0, 0.0]]) }

  /** The real part of an entry of the Kronecker product. */
  function RealKron(a: Pauli, b: Pauli, i: nat, j: nat): real
    requires Sized(a.re, 2) && Sized(a.im, 2) && Sized(b.re, 2) && Sized(b.im, 2) && i < 4 && j < 4
  {
    a.re[i / 2][j / 2] * b.re[i % 2][j % 2] - a.im[i / 2][j / 2] * b.im[i % 2][j % 2]
  }

  function ImagKron(a: Pauli, b: Pauli, i: nat, j: nat): real
    requires Sized(a.re, 2) && Sized(a.im, 2) && Sized(b.re, 2) && Sized(b.im, 2) && i < 4 && j < 4
  {
    a.re[i / 2][j / 2] * b.im[i % 2][j % 2] + a.im[i / 2][j / 2] * b.re[i % 2][j % 2]
  }

  /** The sixteen coefficients; s is the one of the identity. */
  datatype Coefficients = Coefficients(
    s: real, s01: real, s02: real, s03: real, s10: real, s11: real, s12: real, s13: real,
    s20: real, s21: real, s22: real, s23: real, s30: real, s31: real, s32: real, s33: real)

  /** The real part of an entry of the reconstructed density matrix. */
  function Density(c: Coefficients, i: nat, j: nat): real
    requires i < 4 && j < 4
  {
    (c.s01 * RealKron(I2(), X2(), i, j) + c.s02 * RealKron(I2(), Y2(), i, j) + c.s03 * RealKron(I2(), Z2(), i, j)
     + c.s10 * RealKron(X2(), I2(), i, j) + c.s11 * RealKron(X2(), X2(), i, j) + c.s12 * RealKron(X2(), Y2(), i, j)
     + c.s13 * RealKron(X2(), Z2(), i, j) + c.s20 * RealKron(Y2(), I2(), i, j) + c.s21 * RealKron(Y2(), X2(), i, j)
     + c.s22 * RealKron(Y2(), Y2(), i, j) + c.s23 * RealKron(Y2(), Z2(), i, j) + c.s30 * RealKron(Z2(), I2(), i, j)
     + c.s31 * RealKron(Z2(), X2(), i, j) + c.s32 * RealKron(Z2(), Y2(), i, j) + c.s33 * RealKron(Z2(), Z2(), i, j)
     + c.s * RealKron(I2(), I2(), i, j)) / 4.0
  }

  function DensityImag(c: Coefficients, i: nat, j: nat): real
    requires i < 4 && j < 4
  {
    (c.s01 * ImagKron(I2(), X2(), i, j) + c.s02 * ImagKron(I2(), Y2(), i, j) + c.s03 * ImagKron(I2(), Z2(), i, j)
     + c.s10 * ImagKron(X2(), I2(), i, j) + c.s11 * ImagKron(X2(), X2(), i, j) + c.s12 * ImagKron(X2(), Y2(), i, j)
     + c.s13 * ImagKron(X2(), Z2(), i, j) + c.s20 * ImagKron(Y2(), I2(), i, j) + c.s21 * ImagKron(Y2(), X2(), i, j)
     + c.s22 * ImagKron(Y2(), Y2(), i, j) + c.s23 * ImagKron(Y2(), Z2(), i, j) + c.s30 * ImagKron(Z2(), I2(), i, j)
     + c.s31 * ImagKron(Z2(), X2(), i, j) + c.s32 * ImagKron(Z2(), Y2(), i, j) + c.s33 * ImagKron(Z2(), Z2(), i, j)
     + c.s * ImagKron(I2(), I2(), i, j)) / 4.0
  }

  /** A Bell state as the signs of its two equal amplitudes: a at positions 0 and 3, or b at 1 and 2. */
  datatype Bell = Bell(outer: bool, sign: real)

  /** trace(density * |bell><bell|): the amplitudes are 1/sqrt(2), so each product of two is 1/2. */
  function Rate(c: Coefficients, b: Bell): real {
    var i := if b.outer then 0 else 1;
    var j := if b.outer then 3 else 2;
    (Density(c, i, i) + Density(c, j, j) + b.sign * Density(c, i, j) + b.sign * Density(c, j, i)) / 2.0
  }

  function Fidelity(c: Coefficients): real { Rate(c, Bell(true, 1.0)) }
  function XRate(c: Coefficients): real { Rate(c, Bell(false, 1.0)) }
  function ZRate(c: Coefficients): real { Rate(c, Bell(true, -1.0)) }
  function YRate(c: Coefficients): real { Rate(c, Bell(false, -1.0)) }

  lemma OuterEntries(c: Coefficients)
    ensures Density(c, 0, 0) == (c.s03 + c.s30 + c.s33 + c.s) / 4.0
    ensures Density(c, 3, 3) == (-c.s03 - c.s30 + c.s33 + c.s) / 4.0
    ensures Density(c, 0, 3) == (c.s11 - c.s22) / 4.0
    ensures Density(c, 3, 0) == (c.s11 - c.s22) / 4.0
  {
  }

  lemma InnerEntries(c: Coefficients)
    ensures Density(c, 1, 1) == (-c.s03 + c.s30 - c.s33 + c.s) / 4.0
    ensures Density(c, 2, 2) == (c.s03 - c.s30 - c.s33 + c.s) / 4.0
    ensures Density(c, 1, 2) == (c.s11 + c.s22) / 4.0
    ensures Density(c, 2, 1) == (c.s11 + c.s22) / 4.0
  {
  }

  /** The four rates are the correlations the textbook gives, whatever the other coefficients are. */
  lemma RatesAreCorrelations(c: Coefficients)
    ensures Fidelity(c) == (c.s + c.s11 - c.s22 + c.s33) / 4.0
    ensures XRate(c) == (c.s + c.s11 + c.s22 - c.s33) / 4.0
    ensures ZRate(c) == (c.s - c.s11 + c.s22 + c.s33) / 4.0
    ensures YRate(c) == (c.s - c.s11 - c.s22 - c.s33) / 4.0
    ensures Fidelity(c) + XRate(c) + ZRate(c) + YRate(c) == c.s
  {
    OuterEntries(c);
    InnerEntries(c);
    hide Density;
  }

  /** Signed frequencies of one basis combination. */
  function Signed(t: Tally, pm: real, mp: real, mm: real): real
    requires t.total > 0
  {
    var n := t.total as real;
    t.plusPlus as real / n + pm * (t.plusMinus as real / n) + mp * (t.minusPlus as real / n) + mm * (t.minusMinus as real / n)
  }

  function Correlation(t: Tally): real
    requires t.total > 0
  {
    Signed(t, -1.0, -1.0, 1.0)
  }

  /** All nine combinations were measured at least once; with a total of zero the program divides by zero. */
  predicate Measured(rs: seq<Record>) {
    forall b :: b in Combinations() ==> Occurrences(rs, b) > 0
  }

  function CoefficientsOf(rs: seq<Record>): Coefficients
    requires Measured(rs)
  {
    var xx, yy, zz := TallyOf(rs, "XX"), TallyOf(rs, "YY"), TallyOf(rs, "ZZ");
    Coefficients(
      Signed(xx, 1.0, 1.0, 1.0), Signed(xx, -1.0, 1.0, -1.0), Signed(yy, -1.0, 1.0, -1.0), Signed(zz, -1.0, 1.0, -1.0),
      Signed(xx, 1.0, -1.0, -1.0), Correlation(xx), Correlation(TallyOf(rs, "XY")), Correlation(TallyOf(rs, "XZ")),
      Signed(yy, 1.0, -1.0, -1.0), Correlation(TallyOf(rs, "YX")), Correlation(yy), Correlation(TallyOf(rs, "YZ")),
      Signed(zz, 1.0, -1.0, -1.0), Correlation(TallyOf(rs, "ZX")), Correlation(TallyOf(rs, "ZY")), Correlation(zz))
  }

  lemma Fractions(a: nat, b: nat, c: nat, d: nat, n: nat)
    requires n > 0 && n == a + b + c + d
    ensures a as real / n as real + b as real / n as real + c as real / n as real + d as real / n as real == 1.0
    ensures a as real / n as real >= 0.0 && b as real / n as real >= 0.0
    ensures b as real / n as real == 0.0 <==> b == 0
  {
    var r := n as real;
    assert a as real / r + b as real / r + c as real / r + d as real / r == (a as real + b as real + c as real + d as real) / r;
  }

  lemma CorrelationBounds(rs: seq<Record>, b: string)
    requires Occurrences(rs, b) > 0
    ensures var t := TallyOf(rs, b);
            && Signed(t, 1.0, 1.0, 1.0) == 1.0
            && -1.0 <= Correlation(t) <= 1.0
            && (Correlation(t) == 1.0 <==> t.plusMinus == 0 && t.minusPlus == 0)
            && (Correlation(t) == -1.0 <==> t.plusPlus == 0 && t.minusMinus == 0)
  {
    TotalsAddUp(rs, b);
    var t := TallyOf(rs, b);
    Fractions(t.plusPlus, t.plusMinus, t.minusPlus, t.minusMinus, t.total);
    Fractions(t.minusMinus, t.minusPlus, t.plusPlus, t.plusMinus, t.total);
    Fractions(t.plusMinus, t.plusPlus, t.minusPlus, t.minusMinus, t.total);
    Fractions(t.minusPlus, t.minusMinus, t.plusPlus, t.plusMinus, t.total);
  }

  /** For every data set the reported fidelity and error rates sum to exactly 1. */
  lemma RatesSumToOne(rs: seq<Record>)
    requires Measured(rs)
    ensures var c := CoefficientsOf(rs); Fidelity(c) + XRate(c) + ZRate(c) + YRate(c) == 1.0
  {
    RatesAreCorrelations(CoefficientsOf(rs));
    assert "XX" in Combinations();
    CorrelationBounds(rs, "XX");
    hide Signed, Fidelity, XRate, ZRate, YRate, TallyOf, Correlation;
  }

  /** The fidelity is 1 exactly when X and Z outcomes always agreed and Y outcomes always differed. */
  lemma PerfectFidelity(rs: seq<Record>)
    requires Measured(rs)
    ensures var xx, yy, zz := TallyOf(rs, "XX"), TallyOf(rs, "YY"), TallyOf(rs, "ZZ");
            && Fidelity(CoefficientsOf(rs)) <= 1.0
            && (Fidelity(CoefficientsOf(rs)) == 1.0 <==>
                  && xx.plusMinus == 0 && xx.minusPlus == 0 && yy.plusPlus == 0 && yy.minusMinus == 0
                  && zz.plusMinus == 0 && zz.minusPlus == 0)
  {
    RatesAreCorrelations(CoefficientsOf(rs));
    assert "XX" in Combinations() && "YY" in Combinations() && "ZZ" in Combinations();
    CorrelationBounds(rs, "XX");
    CorrelationBounds(rs, "YY");
    CorrelationBounds(rs, "ZZ");
    hide Signed, Fidelity, XRate, ZRate, YRate, TallyOf, Correlation;
  }
}
