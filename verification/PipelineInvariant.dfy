// The invariant of the two-node pipeline: at each node every list, table and channel is
// a function of the recorded history, whatever the interleaving.
module PipelineInvariant {
  import opened Basics
  import opened ResourceLists
  import opened Pipeline

  function Flat(chunks: seq<seq<nat>>): seq<nat> {
    if chunks == [] then [] else Flat(chunks[..|chunks| - 1]) + chunks[|chunks| - 1]
  }

  /** The halves the first n verdicts of a rule promote. */
  function Promoted(taken: seq<seq<nat>>, mine: seq<Outcome>, theirs: seq<Outcome>, n: nat): seq<nat>
    requires n <= |taken| && n <= |mine| && n <= |theirs|
    requires forall i :: 0 <= i < n ==> |taken[i]| >= 1
  {
    if n == 0 then []
    else Promoted(taken, mine, theirs, n - 1) + if mine[n - 1] == theirs[n - 1] then [taken[n - 1][0]] else []
  }

  /** The locked entries: actions without a verdict yet. */
  function Waiting(taken: seq<seq<nat>>, resolved: nat): seq<Entry<nat>>
    requires resolved <= |taken|
    requires forall i :: 0 <= i < |taken| ==> |taken[i]| >= 1
  {
    seq(|taken| - resolved, i requires 0 <= i < |taken| - resolved => Entry(taken[resolved + i][0], Locked(resolved + i)))
  }

  predicate Chunked(taken: seq<seq<nat>>, k: nat) {
    forall i :: 0 <= i < |taken| ==> |taken[i]| == k
  }

  /** One purification rule at one node, with the partner's outcomes `theirs`. */
  ghost predicate RuleOk(k: nat, rule: Rule, placed: seq<nat>, taken: seq<seq<nat>>, mine: seq<Outcome>,
                   own: nat, peer: nat, kept: seq<bool>, theirs: seq<Outcome>) {
    var resolved := Min(own, peer);
    && k >= 1
    && |mine| == |taken| == rule.nextAction
    && Chunked(taken, k)
    && own <= |mine| && peer <= |theirs|
    && Flat(taken) <= placed
    && rule.resources == Waiting(taken, resolved) + Fresh(placed[|Flat(taken)|..])
    && kept == seq(resolved, i requires 0 <= i < resolved => mine[i] == theirs[i])
  }

  /** The stored reports of rule r: those of the actions of which exactly one report has arrived. */
  ghost predicate HeldOk(table: map<(nat, nat), Outcome>, r: nat, own: nat, peer: nat, mine: seq<Outcome>, theirs: seq<Outcome>) {
    && own <= |mine| && peer <= |theirs|
    && (forall i: nat :: (r, i) in table <==> Min(own, peer) <= i < Max(own, peer))
    && (forall i: nat :: (r, i) in table ==> table[(r, i)] == if own > peer then mine[i] else theirs[i])
  }

  ghost predicate TableOk(table: map<(nat, nat), Outcome>, own: seq<nat>, peer: seq<nat>,
                    mine: seq<seq<Outcome>>, theirs: seq<seq<Outcome>>) {
    && |own| == |peer| == |mine| == |theirs|
    && (forall key :: key in table ==> key.0 < |own|)
    && (forall r :: 0 <= r < |own| ==> HeldOk(table, r, own[r], peer[r], mine[r], theirs[r]))
  }

  /** The reports of rule r in a channel, in order. */
  function Proj(channel: seq<Msg>, r: nat): seq<Msg> {
    if channel == [] then []
    else (if channel[0].rule == r then [channel[0]] else []) + Proj(channel[1..], r)
  }

  /** Reports not yet delivered. */
  function Undelivered(r: nat, outs: seq<Outcome>, delivered: nat): seq<Msg>
    requires delivered <= |outs|
  {
    seq(|outs| - delivered, i requires 0 <= i < |outs| - delivered => Msg(r, delivered + i, outs[delivered + i]))
  }

  ghost predicate ChannelOk(channel: seq<Msg>, delivered: seq<nat>, outs: seq<seq<Outcome>>)
    requires |delivered| == |outs|
    requires forall r :: 0 <= r < |outs| ==> delivered[r] <= |outs[r]|
  {
    && (forall i :: 0 <= i < |channel| ==> channel[i].rule < |outs|)
    && (forall r :: 0 <= r < |outs| ==> Proj(channel, r) == Undelivered(r, outs[r], delivered[r]))
  }

  ghost predicate RulesOk(c: Config, nd: Node, h: Hist, theirs: seq<seq<Outcome>>) {
    && HistShape(c, h)
    && |nd.rules| == |c.inputs| + 1 && |theirs| == |c.inputs|
    && forall r :: 0 <= r < |c.inputs| ==>
         RuleOk(c.inputs[r], nd.rules[r], h.placed[r], h.taken[r], h.outs[r], h.own[r], h.peer[r], h.kept[r], theirs[r])
  }

  ghost predicate Promotions(c: Config, h: Hist, theirs: seq<seq<Outcome>>)
    requires HistShape(c, h) && |theirs| == |c.inputs|
  {
    forall r :: 0 <= r < |c.inputs| ==> PromotedFrom(h.placed[r + 1], h.taken[r], h.outs[r], theirs[r], Min(h.own[r], h.peer[r]))
  }

  ghost predicate PromotedFrom(placed: seq<nat>, taken: seq<seq<nat>>, mine: seq<Outcome>, theirs: seq<Outcome>, n: nat) {
    && n <= |taken| && n <= |mine| && n <= |theirs|
    && (forall i :: 0 <= i < n ==> |taken[i]| >= 1)
    && placed == Promoted(taken, mine, theirs, n)
  }

  ghost predicate MeasuringOk(c: Config, nd: Node, h: Hist)
    requires HistShape(c, h) && |nd.rules| == |c.inputs| + 1
  {
    var placed := h.placed[|c.inputs|];
    && nd.measured <= placed
    && nd.rules[|c.inputs|].resources == Fresh(placed[|nd.measured|..])
    && |nd.measured| <= c.maxCount
    && (nd.done <==> |nd.measured| == c.maxCount)
  }

  /** Lists, verdicts and table at one node when the partner's recorded outcomes are `theirs`. */
  ghost predicate ListsInv(c: Config, nd: Node, h: Hist, theirs: seq<seq<Outcome>>) {
    && ValidConfig(c)
    && RulesOk(c, nd, h, theirs)
    && Promotions(c, h, theirs)
    && MeasuringOk(c, nd, h)
    && !nd.failed
    && h.placed[0] == seq(nd.arrived, i => i)
    && TableOk(nd.table, h.own, h.peer, h.outs, theirs)
  }

  /** The same with the channels, which a node that has finished measuring no longer reads. */
  ghost predicate LocalInv(c: Config, nd: Node, h: Hist, theirs: seq<seq<Outcome>>) {
    && ListsInv(c, nd, h, theirs)
    && (!nd.done ==> ChannelOk(nd.ownChannel, h.own, h.outs) && ChannelOk(nd.peerChannel, h.peer, theirs))
  }

  // ---- one rule ----------------------------------------------------------------------

  lemma FlatSnoc(taken: seq<seq<nat>>, t: seq<nat>)
    ensures Flat(taken + [t]) == Flat(taken) + t
  {
    assert (taken + [t])[..|taken|] == taken;
  }

  lemma WaitingLocked(taken: seq<seq<nat>>, resolved: nat)
    requires resolved <= |taken| && forall i :: 0 <= i < |taken| ==> |taken[i]| >= 1
    ensures AllLocked(Waiting(taken, resolved))
  {
  }

  lemma RulePlace(k: nat, rule: Rule, placed: seq<nat>, taken: seq<seq<nat>>, mine: seq<Outcome>,
                  own: nat, peer: nat, kept: seq<bool>, theirs: seq<Outcome>, q: nat)
    requires RuleOk(k, rule, placed, taken, mine, own, peer, kept, theirs)
    ensures RuleOk(k, rule.(resources := rule.resources + [Entry(q, Unlocked)]), placed + [q], taken, mine, own, peer, kept, theirs)
  {
    var n := |Flat(taken)|;
    assert Fresh((placed + [q])[n..]) == Fresh(placed[n..]) + [Entry(q, Unlocked)];
  }

  lemma RuleAct(k: nat, rule: Rule, placed: seq<nat>, taken: seq<seq<nat>>, mine: seq<Outcome>,
                own: nat, peer: nat, kept: seq<bool>, theirs: seq<Outcome>, o: Outcome)
    requires RuleOk(k, rule, placed, taken, mine, own, peer, kept, theirs)
    requires UnlockedCount(rule.resources) >= k
    ensures RuleOk(k, Rule(AfterAction(rule.resources, k, rule.nextAction), rule.nextAction + 1), placed,
                   taken + [TopUnlocked(rule.resources, k)], mine + [o], own, peer, kept, theirs)
  {
    var n, resolved := |Flat(taken)|, Min(own, peer);
    var rest := placed[n..];
    WaitingLocked(taken, resolved);
    LayoutOps(Waiting(taken, resolved), rest, k, rule.nextAction);
    assert |rest| >= k by { LayoutOps(Waiting(taken, resolved), rest, 0, 0); }
    var t := TopUnlocked(rule.resources, k);
    assert t == rest[..k];
    FlatSnoc(taken, t);
    assert placed == Flat(taken) + rest && rest == t + rest[k..];
    assert placed[|Flat(taken + [t])|..] == rest[k..];
    assert Waiting(taken + [t], resolved) == Waiting(taken, resolved) + [Entry(rest[0], Locked(rule.nextAction))];
  }

  lemma RuleHears(k: nat, rule: Rule, placed: seq<nat>, taken: seq<seq<nat>>, mine: seq<Outcome>,
                  own: nat, peer: nat, kept: seq<bool>, theirs: seq<Outcome>, o: Outcome)
    requires RuleOk(k, rule, placed, taken, mine, own, peer, kept, theirs)
    ensures RuleOk(k, rule, placed, taken, mine, own, peer, kept, theirs + [o])
  {
  }

  /** The verdict on the oldest waiting action removes the first entry of the list. */
  lemma RuleResolve(k: nat, rule: Rule, placed: seq<nat>, taken: seq<seq<nat>>, mine: seq<Outcome>,
                    own: nat, peer: nat, kept: seq<bool>, theirs: seq<Outcome>, own': nat, peer': nat)
    requires RuleOk(k, rule, placed, taken, mine, own, peer, kept, theirs)
    requires own <= own' <= |mine| && peer <= peer' <= |theirs| && Min(own', peer') == Min(own, peer) + 1
    ensures var i := Min(own, peer);
            && FindAction(rule.resources, i) == 0 < |rule.resources|
            && rule.resources[0].qubit == taken[i][0]
            && RuleOk(k, rule.(resources := RemoveAt(rule.resources, 0)), placed, taken, mine, own', peer',
                      kept + [mine[i] == theirs[i]], theirs)
  {
    var i := Min(own, peer);
    var w := Waiting(taken, i);
    assert w[0] == Entry(taken[i][0], Locked(i)) && rule.resources[0] == w[0];
    assert w[1..] == Waiting(taken, i + 1);
    assert RemoveAt(rule.resources, 0) == Waiting(taken, i + 1) + Fresh(placed[|Flat(taken)|..]);
  }

  lemma PromotedExtends(taken: seq<seq<nat>>, mine: seq<Outcome>, theirs: seq<Outcome>, n: nat,
                        taken': seq<seq<nat>>, mine': seq<Outcome>, theirs': seq<Outcome>)
    requires n <= |taken| && n <= |mine| && n <= |theirs|
    requires forall i :: 0 <= i < n ==> |taken[i]| >= 1
    requires taken <= taken' && mine <= mine' && theirs <= theirs'
    ensures Promoted(taken, mine, theirs, n) == Promoted(taken', mine', theirs', n)
  {
  }

  // ---- channels and table --------------------------------------------------------------

  lemma {:induction false} ProjSnoc(channel: seq<Msg>, m: Msg, r: nat)
    ensures Proj(channel + [m], r) == Proj(channel, r) + if m.rule == r then [m] else []
  {
    if channel == [] {
      assert channel + [m] == [m];
    } else {
      assert (channel + [m])[1..] == channel[1..] + [m];
      ProjSnoc(channel[1..], m, r);
    }
  }

  lemma ChannelSend(channel: seq<Msg>, delivered: seq<nat>, outs: seq<seq<Outcome>>, r: nat, o: Outcome)
    requires |delivered| == |outs| && r < |outs|
    requires forall j :: 0 <= j < |outs| ==> delivered[j] <= |outs[j]|
    requires ChannelOk(channel, delivered, outs)
    ensures ChannelOk(channel + [Msg(r, |outs[r]|, o)], delivered, outs[r := outs[r] + [o]])
  {
    var m, outs' := Msg(r, |outs[r]|, o), outs[r := outs[r] + [o]];
    forall j | 0 <= j < |outs'| ensures Proj(channel + [m], j) == Undelivered(j, outs'[j], delivered[j]) {
      ProjSnoc(channel, m, j);
      if j == r {
        assert Undelivered(j, outs'[j], delivered[j]) == Undelivered(j, outs[j], delivered[j]) + [m];
      }
    }
  }

  lemma ChannelTake(channel: seq<Msg>, delivered: seq<nat>, outs: seq<seq<Outcome>>)
    requires |delivered| == |outs|
    requires forall j :: 0 <= j < |outs| ==> delivered[j] <= |outs[j]|
    requires ChannelOk(channel, delivered, outs) && |channel| > 0
    ensures var m := channel[0];
            && m.rule < |outs| && m.index == delivered[m.rule] < |outs[m.rule]|
            && m.outcome == outs[m.rule][m.index]
            && ChannelOk(channel[1..], delivered[m.rule := m.index + 1], outs)
  {
    var m := channel[0];
    var r := m.rule;
    assert Proj(channel, r)[0] == m;
    var delivered' := delivered[r := m.index + 1];
    forall j | 0 <= j < |outs| ensures Proj(channel[1..], j) == Undelivered(j, outs[j], delivered'[j]) {
      if j == r {
        assert Proj(channel, r)[1..] == Proj(channel[1..], r);
        assert Undelivered(r, outs[r], delivered[r])[1..] == Undelivered(r, outs[r], delivered'[r]);
      }
    }
  }

  lemma HeldGrows(table: map<(nat, nat), Outcome>, r: nat, own: nat, peer: nat, mine: seq<Outcome>, theirs: seq<Outcome>,
                  mine': seq<Outcome>, theirs': seq<Outcome>)
    requires HeldOk(table, r, own, peer, mine, theirs) && mine <= mine' && theirs <= theirs'
    ensures HeldOk(table, r, own, peer, mine', theirs')
  {
  }

  lemma TableGrows(table: map<(nat, nat), Outcome>, own: seq<nat>, peer: seq<nat>, mine: seq<seq<Outcome>>, theirs: seq<seq<Outcome>>,
                   mine': seq<seq<Outcome>>, theirs': seq<seq<Outcome>>)
    requires TableOk(table, own, peer, mine, theirs)
    requires |mine'| == |mine| && |theirs'| == |theirs|
    requires forall r :: 0 <= r < |mine| ==> mine[r] <= mine'[r] && theirs[r] <= theirs'[r]
    ensures TableOk(table, own, peer, mine', theirs')
  {
    forall r | 0 <= r < |own| ensures HeldOk(table, r, own[r], peer[r], mine'[r], theirs'[r]) {
      HeldGrows(table, r, own[r], peer[r], mine[r], theirs[r], mine'[r], theirs'[r]);
    }
  }

  /** own' and peer' count one more report of rule r. */
  predicate OneMore(own: seq<nat>, peer: seq<nat>, own': seq<nat>, peer': seq<nat>, r: nat) {
    && |own'| == |own| == |peer'| == |peer| && r < |own|
    && (|| (own' == own[r := own[r] + 1] && peer' == peer)
        || (own' == own && peer' == peer[r := peer[r] + 1]))
  }

  /** m is the next undelivered report of its rule: from this node when own' counts it, else from the partner. */
  predicate Delivered(own: seq<nat>, peer: seq<nat>, mine: seq<seq<Outcome>>, theirs: seq<seq<Outcome>>, m: Msg,
                      own': seq<nat>, peer': seq<nat>) {
    && |own| == |mine| == |theirs|
    && OneMore(own, peer, own', peer', m.rule)
    && (if own' != own
        then m.index == own[m.rule] < |mine[m.rule]| && m.outcome == mine[m.rule][m.index]
        else m.index == peer[m.rule] < |theirs[m.rule]| && m.outcome == theirs[m.rule][m.index])
  }

  /** The next report of rule r arrives: it meets the stored one of its action, or is stored. */
  lemma HeldStores(table: map<(nat, nat), Outcome>, r: nat, own: nat, peer: nat, mine: seq<Outcome>, theirs: seq<Outcome>,
                   i: nat, o: Outcome, own': nat, peer': nat)
    requires HeldOk(table, r, own, peer, mine, theirs)
    requires || (own' == own + 1 && peer' == peer && i == own < |mine| && o == mine[i])
             || (own' == own && peer' == peer + 1 && i == peer < |theirs| && o == theirs[i])
    ensures if (r, i) in table
            then && HeldOk(table - {(r, i)}, r, own', peer', mine, theirs)
                 && i == Min(own, peer) && Min(own', peer') == i + 1 && i < |mine| && i < |theirs|
                 && (table[(r, i)] == o <==> mine[i] == theirs[i])
            else HeldOk(table[(r, i) := o], r, own', peer', mine, theirs) && Min(own', peer') == Min(own, peer)
  {
  }

  lemma TableStores(table: map<(nat, nat), Outcome>, own: seq<nat>, peer: seq<nat>, mine: seq<seq<Outcome>>, theirs: seq<seq<Outcome>>,
                    m: Msg, own': seq<nat>, peer': seq<nat>)
    requires TableOk(table, own, peer, mine, theirs)
    requires Delivered(own, peer, mine, theirs, m, own', peer')
    ensures var key, r := (m.rule, m.index), m.rule;
            && own'[r] <= |mine[r]| && peer'[r] <= |theirs[r]|
            && if key in table
               then && TableOk(table - {key}, own', peer', mine, theirs)
                    && m.index == Min(own[r], peer[r]) && Min(own'[r], peer'[r]) == m.index + 1
                    && m.index < |mine[r]| && m.index < |theirs[r]|
                    && (table[key] == m.outcome <==> mine[r][m.index] == theirs[r][m.index])
               else && TableOk(table[key := m.outcome], own', peer', mine, theirs)
                    && Min(own'[r], peer'[r]) == Min(own[r], peer[r])
  {
    var key, r := (m.rule, m.index), m.rule;
    HeldStores(table, r, own[r], peer[r], mine[r], theirs[r], m.index, m.outcome, own'[r], peer'[r]);
    forall j | 0 <= j < |own| && j != r
      ensures HeldOk(table - {key}, j, own'[j], peer'[j], mine[j], theirs[j])
      ensures HeldOk(table[key := m.outcome], j, own'[j], peer'[j], mine[j], theirs[j])
    {
      assert HeldOk(table, j, own[j], peer[j], mine[j], theirs[j]);
    }
  }

  // ---- one node ------------------------------------------------------------------------

  lemma ArriveKeeps(c: Config, nd: Node, h: Hist, theirs: seq<seq<Outcome>>)
    requires LocalInv(c, nd, h, theirs) && Enabled(c, nd, Arrive)
    ensures LocalInv(c, NodeStep(c, nd, Arrive), Record(c, nd, h, Arrive), theirs)
  {
    var nd', h' := NodeStep(c, nd, Arrive), Record(c, nd, h, Arrive);
    if |c.inputs| > 0 {
      RulePlace(c.inputs[0], nd.rules[0], h.placed[0], h.taken[0], h.outs[0], h.own[0], h.peer[0], h.kept[0], theirs[0], nd.arrived);
      assert MeasuringOk(c, nd', h');
    } else {
      var m := |nd.measured|;
      assert Fresh((h.placed[0] + [nd.arrived])[m..]) == Fresh(h.placed[0][m..]) + [Entry(nd.arrived, Unlocked)];
    }
    assert RulesOk(c, nd', h', theirs);
    assert Promotions(c, h', theirs);
  }

  lemma PromotionsExtend(c: Config, h: Hist, theirs: seq<seq<Outcome>>, h': Hist, theirs': seq<seq<Outcome>>)
    requires HistShape(c, h) && HistShape(c, h') && |theirs| == |theirs'| == |c.inputs|
    requires Promotions(c, h, theirs)
    requires h'.placed == h.placed && h'.own == h.own && h'.peer == h.peer
    requires forall j :: 0 <= j < |c.inputs| ==> h.taken[j] <= h'.taken[j] && h.outs[j] <= h'.outs[j] && theirs[j] <= theirs'[j]
    ensures Promotions(c, h', theirs')
  {
    forall j | 0 <= j < |c.inputs|
      ensures PromotedFrom(h'.placed[j + 1], h'.taken[j], h'.outs[j], theirs'[j], Min(h'.own[j], h'.peer[j]))
    {
      var n := Min(h.own[j], h.peer[j]);
      assert PromotedFrom(h.placed[j + 1], h.taken[j], h.outs[j], theirs[j], n);
      PromotedExtends(h.taken[j], h.outs[j], theirs[j], n, h'.taken[j], h'.outs[j], theirs'[j]);
      assert forall i :: 0 <= i < n ==> h'.taken[j][i] == h.taken[j][i];
    }
  }

  lemma ActLists(c: Config, nd: Node, h: Hist, theirs: seq<seq<Outcome>>, r: nat, o: Outcome)
    requires ListsInv(c, nd, h, theirs) && Enabled(c, nd, Act(r, o))
    ensures ListsInv(c, NodeStep(c, nd, Act(r, o)), Record(c, nd, h, Act(r, o)), theirs)
  {
    var nd', h' := NodeStep(c, nd, Act(r, o)), Record(c, nd, h, Act(r, o));
    RuleAct(c.inputs[r], nd.rules[r], h.placed[r], h.taken[r], h.outs[r], h.own[r], h.peer[r], h.kept[r], theirs[r], o);
    TableGrows(nd.table, h.own, h.peer, h.outs, theirs, h'.outs, theirs);
    hide RuleOk, TableOk;
    assert RulesOk(c, nd', h', theirs);
    PromotionsExtend(c, h, theirs, h', theirs);
    assert MeasuringOk(c, nd', h');
  }

  lemma ActKeeps(c: Config, nd: Node, h: Hist, theirs: seq<seq<Outcome>>, r: nat, o: Outcome)
    requires LocalInv(c, nd, h, theirs) && Enabled(c, nd, Act(r, o))
    ensures var nd' := NodeStep(c, nd, Act(r, o));
            LocalInv(c, nd'.(ownChannel := nd.ownChannel + Reports(c, nd, Act(r, o))), Record(c, nd, h, Act(r, o)), theirs)
  {
    ActLists(c, nd, h, theirs, r, o);
    ListsIgnoreChannels(c, NodeStep(c, nd, Act(r, o)), Record(c, nd, h, Act(r, o)), theirs,
                        nd.ownChannel + Reports(c, nd, Act(r, o)), nd.peerChannel);
    assert RulesOk(c, nd, h, theirs);
    ChannelSend(nd.ownChannel, h.own, h.outs, r, o);
  }

  lemma ListsIgnoreChannels(c: Config, nd: Node, h: Hist, theirs: seq<seq<Outcome>>, own: seq<Msg>, peer: seq<Msg>)
    requires ListsInv(c, nd, h, theirs)
    ensures ListsInv(c, nd.(ownChannel := own, peerChannel := peer), h, theirs)
  {
    assert RulesOk(c, nd.(ownChannel := own, peerChannel := peer), h, theirs);
  }

  lemma RulesHear(c: Config, nd: Node, h: Hist, theirs: seq<seq<Outcome>>, r: nat, o: Outcome)
    requires RulesOk(c, nd, h, theirs) && r < |c.inputs|
    ensures RulesOk(c, nd, h, theirs[r := theirs[r] + [o]])
  {
    RuleHears(c.inputs[r], nd.rules[r], h.placed[r], h.taken[r], h.outs[r], h.own[r], h.peer[r], h.kept[r], theirs[r], o);
    hide RuleOk;
  }

  lemma TableHears(c: Config, nd: Node, h: Hist, theirs: seq<seq<Outcome>>, r: nat, o: Outcome)
    requires TableOk(nd.table, h.own, h.peer, h.outs, theirs) && r < |theirs|
    ensures TableOk(nd.table, h.own, h.peer, h.outs, theirs[r := theirs[r] + [o]])
  {
    TableGrows(nd.table, h.own, h.peer, h.outs, theirs, h.outs, theirs[r := theirs[r] + [o]]);
  }

  /** The partner acts: its report joins the channel. */
  lemma HearKeeps(c: Config, nd: Node, h: Hist, theirs: seq<seq<Outcome>>, r: nat, o: Outcome)
    requires LocalInv(c, nd, h, theirs) && r < |c.inputs|
    ensures LocalInv(c, nd.(peerChannel := nd.peerChannel + [Msg(r, |theirs[r]|, o)]), h, theirs[r := theirs[r] + [o]])
  {
    var theirs' := theirs[r := theirs[r] + [o]];
    RulesHear(c, nd, h, theirs, r, o);
    PromotionsExtend(c, h, theirs, h, theirs');
    if !nd.done {
      ChannelSend(nd.peerChannel, h.peer, theirs, r, o);
    }
    TableHears(c, nd, h, theirs, r, o);
    hide RulesOk, Promotions, TableOk, ChannelOk, MeasuringOk;
    ListsIgnoreChannels(c, nd, h, theirs', nd.ownChannel, nd.peerChannel + [Msg(r, |theirs[r]|, o)]);
  }

  lemma RulesSame(c: Config, nd: Node, nd': Node, h: Hist, theirs: seq<seq<Outcome>>)
    requires RulesOk(c, nd, h, theirs) && |nd'.rules| == |nd.rules|
    requires forall r :: 0 <= r < |c.inputs| ==> nd'.rules[r] == nd.rules[r]
    ensures RulesOk(c, nd', h, theirs)
  {
    hide RuleOk;
  }

  lemma MeasuringKeeps(c: Config, nd: Node, h: Hist)
    requires HistShape(c, h) && |nd.rules| == |c.inputs| + 1 && MeasuringOk(c, nd, h) && Enabled(c, nd, Measure)
    ensures MeasuringOk(c, NodeStep(c, nd, Measure), h)
  {
    var nd' := NodeStep(c, nd, Measure);
    var last := |c.inputs|;
    var rest := h.placed[last][|nd.measured|..];
    FreshOps(rest, 0);
    assert |rest| > 0;
    FreshOps(rest, 1);
    assert rest[1..] == h.placed[last][|nd'.measured|..];
  }

  lemma MeasureKeeps(c: Config, nd: Node, h: Hist, theirs: seq<seq<Outcome>>)
    requires LocalInv(c, nd, h, theirs) && Enabled(c, nd, Measure)
    ensures LocalInv(c, NodeStep(c, nd, Measure), Record(c, nd, h, Measure), theirs)
  {
    var nd' := NodeStep(c, nd, Measure);
    MeasuringKeeps(c, nd, h);
    RulesSame(c, nd, nd', h, theirs);
    hide RulesOk, MeasuringOk, Promotions, TableOk, ChannelOk;
  }

  // ---- a report arrives ----------------------------------------------------------------

  /** The first of the two reports of an action is stored. */
  lemma StoreKeeps(c: Config, nd: Node, h: Hist, theirs: seq<seq<Outcome>>, m: Msg, own': seq<nat>, peer': seq<nat>)
    requires ListsInv(c, nd, h, theirs) && !nd.done
    requires Delivered(h.own, h.peer, h.outs, theirs, m, own', peer')
    requires (m.rule, m.index) !in nd.table
    ensures ListsInv(c, StoreCheck(nd, m), h.(own := own', peer := peer'), theirs)
  {
    var r := m.rule;
    var h', nd' := h.(own := own', peer := peer'), StoreCheck(nd, m);
    TableStores(nd.table, h.own, h.peer, h.outs, theirs, m, own', peer');
    assert RuleOk(c.inputs[r], nd.rules[r], h.placed[r], h.taken[r], h.outs[r], own'[r], peer'[r], h.kept[r], theirs[r]);
    hide RuleOk, TableOk;
    assert RulesOk(c, nd', h', theirs);
    assert Promotions(c, h', theirs);
    assert MeasuringOk(c, nd', h');
  }

  lemma MeasuringGrows(c: Config, nd: Node, h: Hist, nd': Node, h': Hist, q: nat)
    requires HistShape(c, h) && HistShape(c, h') && |nd.rules| == |nd'.rules| == |c.inputs| + 1
    requires MeasuringOk(c, nd, h)
    requires nd'.measured == nd.measured && nd'.done == nd.done
    requires h'.placed[|c.inputs|] == h.placed[|c.inputs|] + [q]
    requires nd'.rules[|c.inputs|].resources == nd.rules[|c.inputs|].resources + [Entry(q, Unlocked)]
    ensures MeasuringOk(c, nd', h')
  {
    var placed, m := h.placed[|c.inputs|], |nd.measured|;
    assert Fresh((placed + [q])[m..]) == Fresh(placed[m..]) + [Entry(q, Unlocked)];
  }

  lemma PromotedNext(placed: seq<nat>, taken: seq<seq<nat>>, mine: seq<Outcome>, theirs: seq<Outcome>, n: nat)
    requires PromotedFrom(placed, taken, mine, theirs, n)
    requires n < |taken| && n < |mine| && n < |theirs| && |taken[n]| >= 1
    ensures PromotedFrom(placed + if mine[n] == theirs[n] then [taken[n][0]] else [], taken, mine, theirs, n + 1)
  {
  }

  /** The rule lists after a verdict on the first entry of rule r, which is half q. */
  function AfterVerdict(rules: seq<Rule>, r: nat, q: nat, agree: bool): seq<Rule>
    requires r + 1 < |rules| && |rules[r].resources| > 0
  {
    var moved := rules[r := rules[r].(resources := RemoveAt(rules[r].resources, 0))];
    if agree then moved[r + 1 := rules[r + 1].(resources := rules[r + 1].resources + [Entry(q, Unlocked)])] else moved
  }

  function AfterVerdictHist(h: Hist, own': seq<nat>, peer': seq<nat>, r: nat, q: nat, agree: bool): Hist
    requires r < |h.kept| && r + 1 < |h.placed|
  {
    h.(own := own', peer := peer', kept := h.kept[r := h.kept[r] + [agree]],
       placed := if agree then h.placed[r + 1 := h.placed[r + 1] + [q]] else h.placed)
  }

  lemma VerdictResult(c: Config, nd: Node, h: Hist, m: Msg)
    requires HistShape(c, h) && |nd.rules| == |c.inputs| + 1 && m.rule < |c.inputs| && !nd.done
    requires (m.rule, m.index) in nd.table
    requires FindAction(nd.rules[m.rule].resources, m.index) == 0 < |nd.rules[m.rule].resources|
    ensures var agree, q := nd.table[(m.rule, m.index)] == m.outcome, nd.rules[m.rule].resources[0].qubit;
            && StoreCheck(nd, m) == nd.(table := nd.table - {(m.rule, m.index)}, rules := AfterVerdict(nd.rules, m.rule, q, agree))
            && RecordVerdict(c, nd, h, m) == AfterVerdictHist(h, h.own, h.peer, m.rule, q, agree)
  {
  }

  /** The oldest waiting action of rule r is the first entry of its list. */
  lemma OldestFirst(c: Config, nd: Node, h: Hist, theirs: seq<seq<Outcome>>, m: Msg, own': seq<nat>, peer': seq<nat>)
    requires ListsInv(c, nd, h, theirs)
    requires Delivered(h.own, h.peer, h.outs, theirs, m, own', peer')
    requires (m.rule, m.index) in nd.table
    ensures var r, i := m.rule, m.index;
            && r < |c.inputs| && i == Min(h.own[r], h.peer[r]) && Min(own'[r], peer'[r]) == i + 1
            && i < |h.taken[r]| && i < |h.outs[r]| && i < |theirs[r]| && |h.taken[r][i]| >= 1
            && (nd.table[(r, i)] == m.outcome <==> h.outs[r][i] == theirs[r][i])
            && FindAction(nd.rules[r].resources, i) == 0 < |nd.rules[r].resources|
            && nd.rules[r].resources[0].qubit == h.taken[r][i][0]
            && RuleOk(c.inputs[r], nd.rules[r].(resources := RemoveAt(nd.rules[r].resources, 0)), h.placed[r], h.taken[r], h.outs[r],
                      own'[r], peer'[r], h.kept[r] + [h.outs[r][i] == theirs[r][i]], theirs[r])
  {
    var r, i := m.rule, m.index;
    TableStores(nd.table, h.own, h.peer, h.outs, theirs, m, own', peer');
    assert RuleOk(c.inputs[r], nd.rules[r], h.placed[r], h.taken[r], h.outs[r], h.own[r], h.peer[r], h.kept[r], theirs[r]);
    hide RulesOk, TableOk, Promotions, MeasuringOk;
    RuleResolve(c.inputs[r], nd.rules[r], h.placed[r], h.taken[r], h.outs[r], h.own[r], h.peer[r], h.kept[r], theirs[r], own'[r], peer'[r]);
  }

  lemma VerdictRules(c: Config, nd: Node, h: Hist, theirs: seq<seq<Outcome>>, r: nat, q: nat, agree: bool, own': seq<nat>, peer': seq<nat>)
    requires RulesOk(c, nd, h, theirs) && r < |c.inputs| && |nd.rules[r].resources| > 0
    requires OneMore(h.own, h.peer, own', peer', r)
    requires RuleOk(c.inputs[r], nd.rules[r].(resources := RemoveAt(nd.rules[r].resources, 0)), h.placed[r], h.taken[r], h.outs[r],
                    own'[r], peer'[r], h.kept[r] + [agree], theirs[r])
    ensures RulesOk(c, nd.(rules := AfterVerdict(nd.rules, r, q, agree)), AfterVerdictHist(h, own', peer', r, q, agree), theirs)
  {
    if agree && r + 1 < |c.inputs| {
      RulePlace(c.inputs[r + 1], nd.rules[r + 1], h.placed[r + 1], h.taken[r + 1], h.outs[r + 1], h.own[r + 1], h.peer[r + 1],
                h.kept[r + 1], theirs[r + 1], q);
    }
    hide RuleOk;
  }

  lemma VerdictPromotions(c: Config, h: Hist, theirs: seq<seq<Outcome>>, r: nat, own': seq<nat>, peer': seq<nat>)
    requires HistShape(c, h) && |theirs| == |c.inputs| && Promotions(c, h, theirs) && r < |c.inputs|
    requires OneMore(h.own, h.peer, own', peer', r)
    requires Min(own'[r], peer'[r]) == Min(h.own[r], h.peer[r]) + 1
    requires Min(h.own[r], h.peer[r]) < |h.taken[r]| && |h.taken[r][Min(h.own[r], h.peer[r])]| >= 1
    requires Min(h.own[r], h.peer[r]) < |h.outs[r]| && Min(h.own[r], h.peer[r]) < |theirs[r]|
    ensures var i := Min(h.own[r], h.peer[r]);
            Promotions(c, AfterVerdictHist(h, own', peer', r, h.taken[r][i][0], h.outs[r][i] == theirs[r][i]), theirs)
  {
    var i := Min(h.own[r], h.peer[r]);
    var agree := h.outs[r][i] == theirs[r][i];
    var h' := AfterVerdictHist(h, own', peer', r, h.taken[r][i][0], agree);
    assert PromotedFrom(h.placed[r + 1], h.taken[r], h.outs[r], theirs[r], i);
    PromotedNext(h.placed[r + 1], h.taken[r], h.outs[r], theirs[r], i);
    assert agree || h.placed[r + 1] + [] == h.placed[r + 1];
    hide PromotedFrom;
    forall j | 0 <= j < |c.inputs| && j != r
      ensures PromotedFrom(h'.placed[j + 1], h'.taken[j], h'.outs[j], theirs[j], Min(h'.own[j], h'.peer[j]))
    {
      assert PromotedFrom(h.placed[j + 1], h.taken[j], h.outs[j], theirs[j], Min(h.own[j], h.peer[j]));
    }
  }

  /** The second of the two reports of an action settles it. */
  lemma VerdictKeeps(c: Config, nd: Node, h: Hist, theirs: seq<seq<Outcome>>, m: Msg, own': seq<nat>, peer': seq<nat>)
    requires ListsInv(c, nd, h, theirs) && !nd.done
    requires Delivered(h.own, h.peer, h.outs, theirs, m, own', peer')
    requires (m.rule, m.index) in nd.table
    ensures ListsInv(c, StoreCheck(nd, m), RecordVerdict(c, nd, h.(own := own', peer := peer'), m), theirs)
  {
    hide RuleOk, TableOk, StoreCheck, RecordVerdict, Promotions;
    var r, i := m.rule, m.index;
    OldestFirst(c, nd, h, theirs, m, own', peer');
    VerdictResult(c, nd, h.(own := own', peer := peer'), m);
    var agree, q := h.outs[r][i] == theirs[r][i], h.taken[r][i][0];
    TableStores(nd.table, h.own, h.peer, h.outs, theirs, m, own', peer');
    VerdictRules(c, nd, h, theirs, r, q, agree, own', peer');
    VerdictPromotions(c, h, theirs, r, own', peer');
    var nd', h' := StoreCheck(nd, m), RecordVerdict(c, nd, h.(own := own', peer := peer'), m);
    assert RulesOk(c, nd', h', theirs);
    if agree && r + 1 == |c.inputs| {
      MeasuringGrows(c, nd, h, nd', h', q);
    }
    assert MeasuringOk(c, nd', h');
  }

  lemma StoreCheckFrame(nd: Node, m: Msg)
    ensures var nd' := StoreCheck(nd, m);
            nd'.ownChannel == nd.ownChannel && nd'.peerChannel == nd.peerChannel && nd'.done == nd.done && nd'.measured == nd.measured
            && nd'.arrived == nd.arrived
  {
  }

  lemma RecordFrame(c: Config, nd: Node, h: Hist, m: Msg, nd0: Node)
    requires HistShape(c, h) && nd0.rules == nd.rules && nd0.table == nd.table
    ensures var h' := RecordVerdict(c, nd, h, m);
            h'.own == h.own && h'.peer == h.peer && h'.outs == h.outs && h'.taken == h.taken && h' == RecordVerdict(c, nd0, h, m)
  {
  }

  lemma ReportKeeps(c: Config, nd: Node, h: Hist, theirs: seq<seq<Outcome>>, m: Msg, own': seq<nat>, peer': seq<nat>)
    requires ListsInv(c, nd, h, theirs) && !nd.done
    requires Delivered(h.own, h.peer, h.outs, theirs, m, own', peer')
    ensures ListsInv(c, StoreCheck(nd, m), RecordVerdict(c, nd, h.(own := own', peer := peer'), m), theirs)
  {
    if (m.rule, m.index) in nd.table {
      VerdictKeeps(c, nd, h, theirs, m, own', peer');
    } else {
      StoreKeeps(c, nd, h, theirs, m, own', peer');
    }
  }

  lemma ListsFacts(c: Config, nd: Node, h: Hist, theirs: seq<seq<Outcome>>)
    requires ListsInv(c, nd, h, theirs)
    ensures HistShape(c, h) && |theirs| == |c.inputs| && |nd.rules| == |c.inputs| + 1
    ensures forall r :: 0 <= r < |h.outs| ==> h.own[r] <= |h.outs[r]|
    ensures forall r :: 0 <= r < |theirs| ==> h.peer[r] <= |theirs[r]|
  {
    assert forall r :: 0 <= r < |h.outs| ==> HeldOk(nd.table, r, h.own[r], h.peer[r], h.outs[r], theirs[r]);
  }

  lemma TakeOwnKeeps(c: Config, nd: Node, h: Hist, theirs: seq<seq<Outcome>>)
    requires LocalInv(c, nd, h, theirs) && Enabled(c, nd, TakeOwn)
    ensures LocalInv(c, NodeStep(c, nd, TakeOwn), Record(c, nd, h, TakeOwn), theirs)
  {
    hide ListsInv, StoreCheck, RecordVerdict, ChannelOk;
    var nd0 := nd.(ownChannel := nd.ownChannel[1..]);
    ListsFacts(c, nd, h, theirs);
    ListsIgnoreChannels(c, nd, h, theirs, nd.ownChannel[1..], nd.peerChannel);
    StoreCheckFrame(nd0, nd.ownChannel[0]);
    if nd.done {
      FinishedIgnores(nd0, nd.ownChannel[0]);
    } else {
      var m := nd.ownChannel[0];
      ChannelTake(nd.ownChannel, h.own, h.outs);
      var h0 := h.(own := h.own[m.rule := h.own[m.rule] + 1]);
      RecordFrame(c, nd, h0, m, nd0);
      ReportKeeps(c, nd0, h, theirs, m, h0.own, h.peer);
    }
  }

  lemma TakePeerKeeps(c: Config, nd: Node, h: Hist, theirs: seq<seq<Outcome>>)
    requires LocalInv(c, nd, h, theirs) && Enabled(c, nd, TakePeer)
    ensures LocalInv(c, NodeStep(c, nd, TakePeer), Record(c, nd, h, TakePeer), theirs)
  {
    hide ListsInv, StoreCheck, RecordVerdict, ChannelOk;
    var nd0 := nd.(peerChannel := nd.peerChannel[1..]);
    ListsFacts(c, nd, h, theirs);
    ListsIgnoreChannels(c, nd, h, theirs, nd.ownChannel, nd.peerChannel[1..]);
    StoreCheckFrame(nd0, nd.peerChannel[0]);
    if nd.done {
      FinishedIgnores(nd0, nd.peerChannel[0]);
    } else {
      var m := nd.peerChannel[0];
      ChannelTake(nd.peerChannel, h.peer, theirs);
      var h0 := h.(peer := h.peer[m.rule := h.peer[m.rule] + 1]);
      RecordFrame(c, nd, h0, m, nd0);
      ReportKeeps(c, nd0, h, theirs, m, h.own, h0.peer);
    }
  }

  lemma FinishedIgnores(nd: Node, m: Msg)
    requires nd.done
    ensures StoreCheck(nd, m) == nd
  {
  }

  // ---- both nodes ----------------------------------------------------------------------

  ghost predicate Inv(c: Config, t: Traced) {
    && LocalInv(c, t.sys.left, t.left, t.right.outs)
    && LocalInv(c, t.sys.right, t.right, t.left.outs)
  }

  lemma InitInv(c: Config)
    requires ValidConfig(c)
    ensures Inv(c, Traced(InitSystem(c), InitHist(c), InitHist(c)))
  {
    var nd, h, n := InitNode(c), InitHist(c), |c.inputs|;
    var theirs := h.outs;
    forall r | 0 <= r < n
      ensures RuleOk(c.inputs[r], nd.rules[r], h.placed[r], h.taken[r], h.outs[r], h.own[r], h.peer[r], h.kept[r], theirs[r])
    {
      assert Waiting([], 0) + Fresh(h.placed[r][0..]) == [];
    }
    assert RulesOk(c, nd, h, theirs);
    assert Promotions(c, h, theirs);
    assert MeasuringOk(c, nd, h);
  }

  lemma RecordKeepsOutcomes(c: Config, nd: Node, h: Hist, e: Event)
    requires HistShape(c, h) && Enabled(c, nd, e)
    ensures var outs := Record(c, nd, h, e).outs;
            if e.Act? then outs == h.outs[e.rule := h.outs[e.rule] + [e.outcome]] else outs == h.outs
  {
  }

  lemma NodeKeeps(c: Config, nd: Node, h: Hist, theirs: seq<seq<Outcome>>, e: Event)
    requires LocalInv(c, nd, h, theirs) && HistShape(c, h) && Enabled(c, nd, e)
    ensures var nd' := NodeStep(c, nd, e);
            LocalInv(c, nd'.(ownChannel := nd'.ownChannel + Reports(c, nd, e)), Record(c, nd, h, e), theirs)
  {
    hide LocalInv, Record, Enabled;
    match e
    case Act(r, o) =>
      ActKeeps(c, nd, h, theirs, r, o);
    case _ =>
      var nd' := NodeStep(c, nd, e);
      if e == Arrive { ArriveKeeps(c, nd, h, theirs); }
      else if e == Measure { MeasureKeeps(c, nd, h, theirs); }
      else if e == TakeOwn { TakeOwnKeeps(c, nd, h, theirs); }
      else { TakePeerKeeps(c, nd, h, theirs); }
      assert nd'.(ownChannel := nd'.ownChannel + []) == nd' by { assert nd'.ownChannel + [] == nd'.ownChannel; }
  }

  lemma OutcomesCount(c: Config, nd: Node, h: Hist, theirs: seq<seq<Outcome>>, r: nat)
    requires LocalInv(c, nd, h, theirs) && r < |c.inputs|
    ensures HistShape(c, h) && |nd.rules| == |c.inputs| + 1 && |h.outs[r]| == nd.rules[r].nextAction
  {
    assert RuleOk(c.inputs[r], nd.rules[r], h.placed[r], h.taken[r], h.outs[r], h.own[r], h.peer[r], h.kept[r], theirs[r]);
  }

  /** The same step seen from the other node: its partner's report, if any, joins the channel. */
  lemma OtherKeeps(c: Config, nd: Node, h: Hist, other: Node, otherHist: Hist, e: Event)
    requires HistShape(c, h) && Enabled(c, nd, e)
    requires LocalInv(c, nd, h, otherHist.outs)
    requires LocalInv(c, other, otherHist, h.outs)
    ensures LocalInv(c, other.(peerChannel := other.peerChannel + Reports(c, nd, e)), otherHist, Record(c, nd, h, e).outs)
  {
    RecordKeepsOutcomes(c, nd, h, e);
    if e.Act? {
      assert e.rule < |c.inputs|;
      OutcomesCount(c, nd, h, otherHist.outs, e.rule);
      hide LocalInv, Record;
      HearKeeps(c, other, otherHist, h.outs, e.rule, e.outcome);
    } else {
      hide LocalInv, Record;
      assert other.peerChannel + [] == other.peerChannel;
    }
  }

  lemma StepKeeps(c: Config, t: Traced, atLeft: bool, e: Event)
    requires HistShape(c, t.left) && HistShape(c, t.right) && Inv(c, t)
    ensures Inv(c, TracedStep(c, t, atLeft, e))
  {
    var nd, other := if atLeft then t.sys.left else t.sys.right, if atLeft then t.sys.right else t.sys.left;
    var h, otherHist := if atLeft then t.left else t.right, if atLeft then t.right else t.left;
    hide LocalInv, Enabled, Record, NodeStep, Reports;
    if Enabled(c, nd, e) {
      NodeKeeps(c, nd, h, otherHist.outs, e);
      OtherKeeps(c, nd, h, other, otherHist, e);
    }
  }

  lemma {:induction false} RunInv(c: Config, es: seq<(bool, Event)>)
    requires ValidConfig(c)
    ensures Inv(c, Run(c, es))
  {
    if es == [] {
      InitInv(c);
    } else {
      RunInv(c, es[..|es| - 1]);
      StepKeeps(c, Run(c, es[..|es| - 1]), es[|es| - 1].0, es[|es| - 1].1);
    }
  }
}
