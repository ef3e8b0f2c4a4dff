// The history of a run is what happened in it: every event that was enabled left its mark.
module EventCounts {
  import opened ResourceLists
  import opened Pipeline
  import I = PipelineInvariant

  /** The events one node ran, in order. */
  function Ran(c: Config, es: seq<(bool, Event)>, left: bool): seq<Event> {
    if es == [] then []
    else
      var front, last := es[..|es| - 1], es[|es| - 1];
      Ran(c, front, left) + if last.0 == left && Enabled(c, Side(Run(c, front), left), last.1) then [last.1] else []
  }

  function Arrivals(evs: seq<Event>): nat {
    if evs == [] then 0 else Arrivals(evs[..|evs| - 1]) + if evs[|evs| - 1].Arrive? then 1 else 0
  }

  function Actions(evs: seq<Event>): nat {
    if evs == [] then 0 else Actions(evs[..|evs| - 1]) + if evs[|evs| - 1].Act? then 1 else 0
  }

  function Measurements(evs: seq<Event>): nat {
    if evs == [] then 0 else Measurements(evs[..|evs| - 1]) + if evs[|evs| - 1].Measure? then 1 else 0
  }

  function OwnRead(evs: seq<Event>): nat {
    if evs == [] then 0 else OwnRead(evs[..|evs| - 1]) + if evs[|evs| - 1].TakeOwn? then 1 else 0
  }

  function PeerRead(evs: seq<Event>): nat {
    if evs == [] then 0 else PeerRead(evs[..|evs| - 1]) + if evs[|evs| - 1].TakePeer? then 1 else 0
  }

  /** The outcomes of rule r's actions. */
  function OutcomesOf(evs: seq<Event>, r: nat): seq<Outcome> {
    if evs == [] then []
    else
      var last := evs[|evs| - 1];
      OutcomesOf(evs[..|evs| - 1], r) + if last.Act? && last.rule == r then [last.outcome] else []
  }

  lemma Snoc(evs: seq<Event>, e: Event)
    ensures var all := evs + [e];
            && Arrivals(all) == Arrivals(evs) + (if e.Arrive? then 1 else 0)
            && Actions(all) == Actions(evs) + (if e.Act? then 1 else 0)
            && Measurements(all) == Measurements(evs) + (if e.Measure? then 1 else 0)
            && OwnRead(all) == OwnRead(evs) + (if e.TakeOwn? then 1 else 0)
            && PeerRead(all) == PeerRead(evs) + (if e.TakePeer? then 1 else 0)
            && forall r :: OutcomesOf(all, r) == OutcomesOf(evs, r) + if e.Act? && e.rule == r then [e.outcome] else []
  {
    var all := evs + [e];
    assert all[..|all| - 1] == evs;
  }

  /** The effect of one event on its node, in numbers. */
  lemma NodeCounts(c: Config, nd: Node, h: Hist, e: Event)
    requires HistShape(c, h) && Enabled(c, nd, e)
    ensures var nd', h' := NodeStep(c, nd, e), Record(c, nd, h, e);
            && nd'.arrived == nd.arrived + (if e.Arrive? then 1 else 0)
            && |nd'.measured| == |nd.measured| + (if e.Measure? then 1 else 0)
            && |nd'.ownChannel| == |nd.ownChannel| - (if e.TakeOwn? then 1 else 0)
            && |nd'.peerChannel| == |nd.peerChannel| - (if e.TakePeer? then 1 else 0)
            && |Reports(c, nd, e)| == (if e.Act? then 1 else 0)
            && forall r :: 0 <= r < |c.inputs| ==> h'.outs[r] == h.outs[r] + if e.Act? && e.rule == r then [e.outcome] else []
  {
    if e.TakeOwn? {
      I.StoreCheckFrame(nd.(ownChannel := nd.ownChannel[1..]), nd.ownChannel[0]);
    } else if e.TakePeer? {
      I.StoreCheckFrame(nd.(peerChannel := nd.peerChannel[1..]), nd.peerChannel[0]);
    }
    hide StoreCheck;
  }

  /** One node's events against its own fields, and against what the other node did. */
  ghost predicate Told(c: Config, nd: Node, h: Hist, mine: seq<Event>, theirs: seq<Event>)
    requires HistShape(c, h)
  {
    && nd.arrived == Arrivals(mine)
    && |nd.measured| == Measurements(mine)
    && |nd.ownChannel| + OwnRead(mine) == Actions(mine)
    && |nd.peerChannel| + PeerRead(mine) == Actions(theirs)
    && forall r :: 0 <= r < |c.inputs| ==> h.outs[r] == OutcomesOf(mine, r)
  }

  lemma ToldStep(c: Config, nd: Node, h: Hist, e: Event, mine: seq<Event>, theirs: seq<Event>)
    requires HistShape(c, h) && Enabled(c, nd, e) && Told(c, nd, h, mine, theirs)
    ensures var nd' := NodeStep(c, nd, e);
            Told(c, nd'.(ownChannel := nd'.ownChannel + Reports(c, nd, e)), Record(c, nd, h, e), mine + [e], theirs)
  {
    NodeCounts(c, nd, h, e);
    Snoc(mine, e);
    hide NodeStep, Record, Reports, Enabled, Arrivals, Actions, Measurements, OwnRead, PeerRead, OutcomesOf;
  }

  lemma ToldHears(c: Config, nd: Node, h: Hist, mine: seq<Event>, theirs: seq<Event>, e: Event, sent: seq<Msg>)
    requires HistShape(c, h) && Told(c, nd, h, mine, theirs) && |sent| == if e.Act? then 1 else 0
    ensures Told(c, nd.(peerChannel := nd.peerChannel + sent), h, mine, theirs + [e])
  {
    Snoc(theirs, e);
    hide Arrivals, Actions, Measurements, OwnRead, PeerRead, OutcomesOf;
  }

  /** In every run, for either node: pairs arrived, measurements made, reports read and outcomes recorded are
      those of the events the node ran, and no report is lost: what was sent and not read is in the channel. */
  lemma {:induction false} HistoryIsEvents(c: Config, es: seq<(bool, Event)>)
    ensures var t, l, r := Run(c, es), Ran(c, es, true), Ran(c, es, false);
            Told(c, t.sys.left, t.left, l, r) && Told(c, t.sys.right, t.right, r, l)
  {
    if es != [] {
      var front, last := es[..|es| - 1], es[|es| - 1];
      HistoryIsEvents(c, front);
      var t := Run(c, front);
      var l, r := Ran(c, front, true), Ran(c, front, false);
      var nd := Side(t, last.0);
      assert l + [] == l && r + [] == r;
      if Enabled(c, nd, last.1) {
        NodeCounts(c, nd, SideHist(t, last.0), last.1);
        var sent := Reports(c, nd, last.1);
        hide Enabled, NodeStep, Record, Reports, Told;
        if last.0 {
          ToldStep(c, t.sys.left, t.left, last.1, l, r);
          ToldHears(c, t.sys.right, t.right, r, l, last.1, sent);
        } else {
          ToldStep(c, t.sys.right, t.right, last.1, r, l);
          ToldHears(c, t.sys.left, t.left, l, r, last.1, sent);
        }
      }
    }
  }
}
