// Two neighbouring nodes run the same RuleSet over their halves of one stream of Bell
// pairs.  Every purification rule takes its first k unlocked halves, locks one, consumes
// the others and reports an outcome to itself and to the partner; when both reports have
// arrived a node promotes the half to the next rule or discards it.  The last rule
// measures.  Only the FIFO report channels connect the nodes.
module Pipeline {
  import opened Basics
  import opened ResourceLists

  type Outcome = seq<bool>

  datatype Msg = Msg(rule: nat, index: nat, outcome: Outcome)

  /** inputs[r] is the number of pairs purification rule r takes; the measuring rule follows. */
  datatype Config = Config(inputs: seq<nat>, maxCount: nat)

  datatype Rule = Rule(resources: seq<Entry<nat>>, nextAction: nat)

  /** One node.  A half is named by the number of its Bell pair in the link's stream. */
  datatype Node = Node(
    arrived: nat,
    rules: seq<Rule>,
    table: map<(nat, nat), Outcome>,
    measured: seq<nat>,
    done: bool,
    failed: bool,
    ownChannel: seq<Msg>,
    peerChannel: seq<Msg>)

  datatype Event =
    | Arrive
    | Act(rule: nat, outcome: Outcome)
    | Measure
    | TakeOwn
    | TakePeer

  predicate ValidConfig(c: Config) {
    && c.maxCount > 0
    && forall r :: 0 <= r < |c.inputs| ==> c.inputs[r] >= 1
  }

  function InitNode(c: Config): Node {
    Node(0, seq(|c.inputs| + 1, _ => Rule([], 0)), map[], [], false, false, [], [])
  }

  predicate Enabled(c: Config, nd: Node, e: Event) {
    match e
    case Arrive => !nd.done && |nd.rules| > 0
    case Act(r, _) =>
      && !nd.done && r < |c.inputs| && r < |nd.rules| && c.inputs[r] >= 1
      && UnlockedCount(nd.rules[r].resources) >= c.inputs[r]
    case Measure =>
      && !nd.done && |c.inputs| < |nd.rules| && |nd.measured| < c.maxCount
      && |TopUnlocked(nd.rules[|c.inputs|].resources, 1)| == 1
    case TakeOwn => |nd.ownChannel| > 0
    case TakePeer => |nd.peerChannel| > 0
  }

  /** Unlock the half of action (r, index) and hand it to the next rule, or fail as the program does. */
  function Upgrade(nd: Node, r: nat, index: nat): Node {
    if r >= |nd.rules| then nd.(failed := true) else
    var list := nd.rules[r].resources;
    var p := FindAction(list, index);
    if p == |list| || r + 1 >= |nd.rules| then nd.(failed := true) else
    var moved := nd.rules[r := nd.rules[r].(resources := RemoveAt(list, p))];
    var next := moved[r + 1].resources + [Entry(list[p].qubit, Unlocked)];
    nd.(rules := moved[r + 1 := moved[r + 1].(resources := next)])
  }

  function Discard(nd: Node, r: nat, index: nat): Node {
    if r >= |nd.rules| then nd.(failed := true) else
    var list := nd.rules[r].resources;
    var p := FindAction(list, index);
    if p == |list| then nd.(failed := true) else
    nd.(rules := nd.rules[r := nd.rules[r].(resources := RemoveAt(list, p))])
  }

  /** Store a report, or compare it with the stored one and apply the verdict. */
  function StoreCheck(nd: Node, m: Msg): Node {
    var key := (m.rule, m.index);
    if nd.done then nd
    else if key !in nd.table then nd.(table := nd.table[key := m.outcome])
    else
      var rest := nd.(table := nd.table - {key});
      if nd.table[key] == m.outcome then Upgrade(rest, m.rule, m.index) else Discard(rest, m.rule, m.index)
  }

  function ActOn(c: Config, nd: Node, r: nat): Node
    requires Enabled(c, nd, Act(r, []))
  {
    var rule := nd.rules[r];
    nd.(rules := nd.rules[r := Rule(AfterAction(rule.resources, c.inputs[r], rule.nextAction), rule.nextAction + 1)])
  }

  function MeasureOn(c: Config, nd: Node): Node
    requires Enabled(c, nd, Measure)
  {
    var list := nd.rules[|c.inputs|].resources;
    var measured := nd.measured + TopUnlocked(list, 1);
    nd.(rules := nd.rules[|c.inputs| := nd.rules[|c.inputs|].(resources := DropUnlocked(list, 1))],
        measured := measured,
        done := |measured| >= c.maxCount)
  }

  /** What the event does to the node that runs it, apart from the report an action sends. */
  function NodeStep(c: Config, nd: Node, e: Event): Node
    requires Enabled(c, nd, e)
  {
    match e
    case Arrive =>
      var first := nd.rules[0].resources + [Entry(nd.arrived, Unlocked)];
      nd.(arrived := nd.arrived + 1, rules := nd.rules[0 := nd.rules[0].(resources := first)])
    case Act(r, _) => ActOn(c, nd, r)
    case Measure => MeasureOn(c, nd)
    case TakeOwn => StoreCheck(nd.(ownChannel := nd.ownChannel[1..]), nd.ownChannel[0])
    case TakePeer => StoreCheck(nd.(peerChannel := nd.peerChannel[1..]), nd.peerChannel[0])
  }

  function Reports(c: Config, nd: Node, e: Event): seq<Msg>
    requires Enabled(c, nd, e)
  {
    if e.Act? then [Msg(e.rule, nd.rules[e.rule].nextAction, e.outcome)] else []
  }

  datatype System = System(left: Node, right: Node)

  function InitSystem(c: Config): System {
    System(InitNode(c), InitNode(c))
  }

  /** One node runs one event; an event that is not enabled changes nothing. */
  function Step(c: Config, s: System, atLeft: bool, e: Event): System {
    var nd := if atLeft then s.left else s.right;
    var other := if atLeft then s.right else s.left;
    if !Enabled(c, nd, e) then s else
    var sent := Reports(c, nd, e);
    var nd' := NodeStep(c, nd, e);
    var nd'' := nd'.(ownChannel := nd'.ownChannel + sent);
    var other' := other.(peerChannel := other.peerChannel + sent);
    if atLeft then System(nd'', other') else System(other', nd'')
  }

  // ---------------------------------------------------------------------------------
  // History.  What was observed at one node so far, read off the lists at each step.

  /** placed[r]: halves ever put in rule r.  taken[r][i]: the halves action i of rule r took.
      outs[r][i]: its outcome.  own[r], peer[r]: reports received.  kept[r]: verdicts applied. */
  datatype Hist = Hist(
    placed: seq<seq<nat>>,
    taken: seq<seq<seq<nat>>>,
    outs: seq<seq<Outcome>>,
    own: seq<nat>,
    peer: seq<nat>,
    kept: seq<seq<bool>>)

  function InitHist(c: Config): Hist {
    var n := |c.inputs|;
    Hist(seq(n + 1, _ => []), seq(n, _ => []), seq(n, _ => []), seq(n, _ => 0), seq(n, _ => 0), seq(n, _ => []))
  }

  predicate HistShape(c: Config, h: Hist) {
    var n := |c.inputs|;
    |h.placed| == n + 1 && |h.taken| == |h.outs| == |h.own| == |h.peer| == |h.kept| == n
  }

  function RecordVerdict(c: Config, nd: Node, h: Hist, m: Msg): (h': Hist)
    requires HistShape(c, h)
    ensures HistShape(c, h')
  {
    var key := (m.rule, m.index);
    if m.rule >= |c.inputs| || m.rule >= |nd.rules| || key !in nd.table then h else
    var agree := nd.table[key] == m.outcome;
    var list := nd.rules[m.rule].resources;
    var p := FindAction(list, m.index);
    var h' := h.(kept := h.kept[m.rule := h.kept[m.rule] + [agree]]);
    if agree && p < |list|
    then h'.(placed := h.placed[m.rule + 1 := h.placed[m.rule + 1] + [list[p].qubit]])
    else h'
  }

  function Record(c: Config, nd: Node, h: Hist, e: Event): (h': Hist)
    requires HistShape(c, h) && Enabled(c, nd, e)
    ensures HistShape(c, h')
  {
    match e
    case Arrive => h.(placed := h.placed[0 := h.placed[0] + [nd.arrived]])
    case Act(r, o) =>
      h.(taken := h.taken[r := h.taken[r] + [TopUnlocked(nd.rules[r].resources, c.inputs[r])]],
         outs := h.outs[r := h.outs[r] + [o]])
    case Measure => h
    case TakeOwn =>
      var m := nd.ownChannel[0];
      if nd.done || m.rule >= |c.inputs| then h
      else RecordVerdict(c, nd, h.(own := h.own[m.rule := h.own[m.rule] + 1]), m)
    case TakePeer =>
      var m := nd.peerChannel[0];
      if nd.done || m.rule >= |c.inputs| then h
      else RecordVerdict(c, nd, h.(peer := h.peer[m.rule := h.peer[m.rule] + 1]), m)
  }

  datatype Traced = Traced(sys: System, left: Hist, right: Hist)

  function TracedStep(c: Config, t: Traced, atLeft: bool, e: Event): (t': Traced)
    requires HistShape(c, t.left) && HistShape(c, t.right)
    ensures HistShape(c, t'.left) && HistShape(c, t'.right)
  {
    var nd := if atLeft then t.sys.left else t.sys.right;
    if !Enabled(c, nd, e) then t else
    var sys := Step(c, t.sys, atLeft, e);
    if atLeft then Traced(sys, Record(c, nd, t.left, e), t.right)
    else Traced(sys, t.left, Record(c, nd, t.right, e))
  }

  /** A run: any interleaving of the two nodes' events. */
  function Run(c: Config, es: seq<(bool, Event)>): (t: Traced)
    ensures HistShape(c, t.left) && HistShape(c, t.right)
  {
    if es == [] then Traced(InitSystem(c), InitHist(c), InitHist(c)) else
    var t := Run(c, es[..|es| - 1]);
    TracedStep(c, t, es[|es| - 1].0, es[|es| - 1].1)
  }

  // ---- either node -------------------------------------------------------------------------------

  function Side(t: Traced, left: bool): Node {
    if left then t.sys.left else t.sys.right
  }

  function SideHist(t: Traced, left: bool): Hist {
    if left then t.left else t.right
  }

  function Flip(t: Traced): Traced {
    Traced(System(t.sys.right, t.sys.left), t.right, t.left)
  }

  /** The run as the chosen node sees it: itself on the left. */
  function From(t: Traced, left: bool): Traced {
    if left then t else Flip(t)
  }
}
