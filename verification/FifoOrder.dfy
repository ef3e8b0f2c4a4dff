// The nodes of the pipeline, whose reports come over FIFO channels, are nodes whose reports
// come in any order: every run of the pipeline is, for either node, one of those runs.
module FifoOrder {
  import opened Pipeline
  import opened PipelineInvariant
  import PipelineTheorems
  import A = AnyOrder

  /** The node without its channels. */
  function Bare(nd: Node): Node {
    nd.(ownChannel := [], peerChannel := [])
  }

  /** A listener that stands for the node: same lists and table, and it heard the reports the node read. */
  ghost predicate Same(nd: Node, h: Hist, s: A.Listener) {
    && s.nd == Bare(nd)
    && (!nd.done ==>
          && (forall r: nat, i: nat :: (r, i) in s.own <==> r < |h.own| && i < h.own[r])
          && (forall r: nat, i: nat :: (r, i) in s.peer <==> r < |h.peer| && i < h.peer[r]))
  }

  lemma StoreBare(nd: Node, m: Msg)
    ensures StoreCheck(Bare(nd), m) == Bare(StoreCheck(nd, m))
    ensures nd.done ==> StoreCheck(nd, m) == nd
  {
  }

  lemma StepBare(c: Config, nd: Node, e: Event)
    requires Enabled(c, nd, e) && !e.TakeOwn? && !e.TakePeer?
    ensures Enabled(c, Bare(nd), e) && NodeStep(c, Bare(nd), e) == Bare(NodeStep(c, nd, e))
  {
  }

  lemma RunSnoc(c: Config, s: A.Listener, hs: seq<A.Happening>, t: A.Listener, h: A.Happening)
    requires A.Run(c, s, hs, t) && A.Possible(c, t, h)
    ensures A.Run(c, s, hs + [h], A.Next(c, t, h))
    decreases |hs|
  {
    if hs == [] {
      assert ([h] + [])[1..] == [];
      assert hs + [h] == [h];
    } else {
      RunSnoc(c, A.Next(c, s, hs[0]), hs[1..], t, h);
      assert (hs + [h])[1..] == hs[1..] + [h];
    }
  }

  /** What reading a report does to the node and adds to the history. */
  predicate ReadsAs(c: Config, nd: Node, h: Hist, nd': Node, h': Hist, mine: bool, m: Msg) {
    && m.rule < |c.inputs| && m.rule < |nd.rules| && m.rule < |h.own| && m.rule < |h.peer|
    && Bare(nd') == Bare(StoreCheck(Bare(nd), m))
    && (if mine then m.index == h.own[m.rule] && h'.own == h.own[m.rule := h.own[m.rule] + 1] && h'.peer == h.peer
                     && m.index < nd.rules[m.rule].nextAction
        else m.index == h.peer[m.rule] && h'.peer == h.peer[m.rule := h.peer[m.rule] + 1] && h'.own == h.own)
  }

  lemma ReadsOwn(c: Config, nd: Node, h: Hist, theirs: seq<seq<Outcome>>)
    requires LocalInv(c, nd, h, theirs) && !nd.done && HistShape(c, h) && Enabled(c, nd, TakeOwn)
    ensures ReadsAs(c, nd, h, NodeStep(c, nd, TakeOwn), Record(c, nd, h, TakeOwn), true, nd.ownChannel[0])
  {
    hide ListsInv, StoreCheck, RecordVerdict, ChannelOk, Bare;
    var m, nd0 := nd.ownChannel[0], nd.(ownChannel := nd.ownChannel[1..]);
    ListsFacts(c, nd, h, theirs);
    ChannelTake(nd.ownChannel, h.own, h.outs);
    OutcomesCount(c, nd, h, theirs, m.rule);
    RecordFrame(c, nd, h.(own := h.own[m.rule := h.own[m.rule] + 1]), m, nd0);
    StoreBare(nd0, m);
    SameBareNode(nd, nd0);
    BareTwice(StoreCheck(nd0, m));
  }

  lemma ReadsPeer(c: Config, nd: Node, h: Hist, theirs: seq<seq<Outcome>>)
    requires LocalInv(c, nd, h, theirs) && !nd.done && HistShape(c, h) && Enabled(c, nd, TakePeer)
    ensures ReadsAs(c, nd, h, NodeStep(c, nd, TakePeer), Record(c, nd, h, TakePeer), false, nd.peerChannel[0])
  {
    hide ListsInv, StoreCheck, RecordVerdict, ChannelOk, Bare;
    var m, nd0 := nd.peerChannel[0], nd.(peerChannel := nd.peerChannel[1..]);
    ListsFacts(c, nd, h, theirs);
    ChannelTake(nd.peerChannel, h.peer, theirs);
    RecordFrame(c, nd, h.(peer := h.peer[m.rule := h.peer[m.rule] + 1]), m, nd0);
    StoreBare(nd0, m);
    SameBareNode(nd, nd0);
    BareTwice(StoreCheck(nd0, m));
  }

  lemma SameBareNode(nd: Node, nd0: Node)
    requires nd0 == nd.(ownChannel := nd0.ownChannel, peerChannel := nd0.peerChannel)
    ensures Bare(nd0) == Bare(nd)
  {
  }

  lemma BareTwice(nd: Node)
    ensures Bare(Bare(nd)) == Bare(nd) && Bare(nd).done == nd.done && Bare(nd).rules == nd.rules
  {
  }

  /** One event of the node is one happening, or nothing once the node has finished. */
  lemma OneEvent(c: Config, nd: Node, h: Hist, theirs: seq<seq<Outcome>>, e: Event, s: A.Listener) returns (hs: seq<A.Happening>, t: A.Listener)
    requires LocalInv(c, nd, h, theirs) && HistShape(c, h) && Enabled(c, nd, e) && Same(nd, h, s)
    ensures A.Run(c, s, hs, t) && |hs| <= 1
    ensures Same(NodeStep(c, nd, e), Record(c, nd, h, e), t)
  {
    if e.TakeOwn? && !nd.done {
      ReadsOwn(c, nd, h, theirs);
      hs, t := OneReport(c, nd, h, NodeStep(c, nd, e), Record(c, nd, h, e), true, nd.ownChannel[0], s);
    } else if e.TakePeer? && !nd.done {
      ReadsPeer(c, nd, h, theirs);
      hs, t := OneReport(c, nd, h, NodeStep(c, nd, e), Record(c, nd, h, e), false, nd.peerChannel[0], s);
    } else if e.TakeOwn? || e.TakePeer? {
      hs, t := [], s;
      FinishedReads(c, nd, h, e);
      hide LocalInv, NodeStep, Record, Enabled;
    } else {
      StepBare(c, nd, e);
      DoesFrame(c, nd, h, e);
      hide LocalInv, NodeStep, Record, Enabled;
      hs := [A.Does(e)];
      t := A.Next(c, s, A.Does(e));
      assert hs[1..] == [];
    }
  }

  lemma FinishedReads(c: Config, nd: Node, h: Hist, e: Event)
    requires HistShape(c, h) && Enabled(c, nd, e) && nd.done && (e.TakeOwn? || e.TakePeer?)
    ensures Bare(NodeStep(c, nd, e)) == Bare(nd) && NodeStep(c, nd, e).done
  {
    StoreBare(nd.(ownChannel := if e.TakeOwn? then nd.ownChannel[1..] else nd.ownChannel,
                  peerChannel := if e.TakePeer? then nd.peerChannel[1..] else nd.peerChannel),
              if e.TakeOwn? then nd.ownChannel[0] else nd.peerChannel[0]);
    hide StoreCheck;
  }

  lemma DoesFrame(c: Config, nd: Node, h: Hist, e: Event)
    requires HistShape(c, h) && Enabled(c, nd, e) && !e.TakeOwn? && !e.TakePeer?
    ensures Record(c, nd, h, e).own == h.own && Record(c, nd, h, e).peer == h.peer
    ensures NodeStep(c, nd, e).done || !nd.done
  {
  }

  lemma OneReport(c: Config, nd: Node, h: Hist, nd': Node, h': Hist, mine: bool, m: Msg, s: A.Listener) returns (hs: seq<A.Happening>, t: A.Listener)
    requires !nd.done && Same(nd, h, s) && ReadsAs(c, nd, h, nd', h', mine, m)
    ensures A.Run(c, s, hs, t) && |hs| <= 1 && Same(nd', h', t)
  {
    hide StoreCheck;
    var hears := A.Hears(mine, m.rule, m.index, m.outcome);
    assert A.Possible(c, s, hears);
    hs := [hears];
    t := A.Next(c, s, hears);
    assert hs[1..] == [];
    StoreBare(Bare(nd), m);
    BareTwice(nd);
    BareTwice(nd');
  }

  lemma OtherEvent(c: Config, t: Traced, left: bool, at: bool, e: Event)
    requires HistShape(c, t.left) && HistShape(c, t.right) && (at != left || !Enabled(c, Side(t, at), e))
    ensures var t' := TracedStep(c, t, at, e);
            Bare(Side(t', left)) == Bare(Side(t, left)) && SideHist(t', left) == SideHist(t, left)
  {
    hide NodeStep, Record, Reports, Enabled;
  }

  lemma OwnEvent(c: Config, t: Traced, left: bool, e: Event)
    requires HistShape(c, t.left) && HistShape(c, t.right) && Enabled(c, Side(t, left), e)
    ensures var t' := TracedStep(c, t, left, e);
            && HistShape(c, SideHist(t, left))
            && Bare(Side(t', left)) == Bare(NodeStep(c, Side(t, left), e)) && SideHist(t', left) == Record(c, Side(t, left), SideHist(t, left), e)
  {
    hide NodeStep, Record, Reports, Enabled;
  }

  lemma Locally(c: Config, t: Traced, left: bool)
    requires Inv(c, t)
    ensures LocalInv(c, Side(t, left), SideHist(t, left), SideHist(t, !left).outs)
  {
    hide LocalInv;
  }

  /** Every run of the pipeline is, at either node, a run of a node that hears its reports in some order. */
  lemma {:induction false} FifoIsAnyOrder(c: Config, es: seq<(bool, Event)>, left: bool) returns (hs: seq<A.Happening>, s: A.Listener)
    requires ValidConfig(c)
    ensures A.Run(c, A.Start(c), hs, s) && |hs| <= |es|
    ensures Same(Side(Run(c, es), left), SideHist(Run(c, es), left), s)
  {
    if es == [] {
      hs, s := [], A.Start(c);
    } else {
      var front, last := es[..|es| - 1], es[|es| - 1];
      var t := Run(c, front);
      hs, s := FifoIsAnyOrder(c, front, left);
      hide Enabled, TracedStep, Same, A.Run, A.Possible;
      if last.0 == left && Enabled(c, Side(t, left), last.1) {
        RunInv(c, front);
        Locally(c, t, left);
        OwnEvent(c, t, left, last.1);
        var more, s' := OneEvent(c, Side(t, left), SideHist(t, left), SideHist(t, !left).outs, last.1, s);
        SameBare(NodeStep(c, Side(t, left), last.1), Side(Run(c, es), left), SideHist(Run(c, es), left), s');
        RunsJoin(c, A.Start(c), hs, s, more, s');
        hs, s := hs + more, s';
      } else {
        OtherEvent(c, t, left, last.0, last.1);
        SameBare(Side(t, left), Side(Run(c, es), left), SideHist(t, left), s);
      }
    }
  }

  lemma SameBare(nd: Node, nd': Node, h: Hist, s: A.Listener)
    requires Same(nd, h, s) && Bare(nd) == Bare(nd')
    ensures Same(nd', h, s)
  {
    assert Bare(nd).done == nd.done && Bare(nd').done == nd'.done;
  }

  lemma RunsJoin(c: Config, s: A.Listener, hs: seq<A.Happening>, t: A.Listener, more: seq<A.Happening>, u: A.Listener)
    requires A.Run(c, s, hs, t) && A.Run(c, t, more, u) && |more| <= 1
    ensures A.Run(c, s, hs + more, u)
  {
    if more == [] {
      assert hs + more == hs;
    } else {
      RunSnoc(c, s, hs, t, more[0]);
      assert more == [more[0]] && more[1..] == [];
    }
  }
}
