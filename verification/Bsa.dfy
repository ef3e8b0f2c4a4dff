// The Bell-state analyser and the controller that collects its verdicts: photons arrive on
// two sides, every verdict needs one of each, a burst's verdicts go out as one list.
module Bsa {
  import opened Basics
  import LinkBooks

  datatype Params = Params(precision: real, successRate: real, darkRate: real)

  /** A photon reaches the analyser; the last three are the random draws of that moment. */
  datatype Arrival = Arrival(left: bool, first: bool, last: bool, lost: bool, time: real,
                             draw: real, darkLeft: real, darkRight: real)

  /** A message to the controller: a verdict, and whether it ends the burst. */
  datatype Sent = Sent(failed: bool, last: bool)

  /** What happens to the two memory qubits. */
  datatype Effect = Entangled | Mixed | Nothing

  /** How a verdict came about: the two photons it was about, counted from 1 on either side, whether the
      left one came second, and what happened to the qubits. */
  datatype Call = Call(left: nat, right: nat, byLeft: bool, effect: Effect)

  /** One burst as it happened: photons seen on each side, and the verdicts. */
  datatype Trial = Trial(left: seq<Arrival>, right: seq<Arrival>, verdicts: seq<bool>, calls: seq<Call>)

  const NEW := Trial([], [], [], [])

  datatype State = State(leftAt: real, rightAt: real, leftLast: bool, rightLast: bool, leftLost: bool, rightLost: bool,
                         send: bool, done: bool, past: seq<Trial>, now: Trial)

  function Start(): State {
    State(-1.0, -1.0, false, false, false, false, false, false, [], NEW)
  }

  function Abs(x: real): real {
    if x < 0.0 then -x else x
  }

  /** Both photons are here: does the analyser report success, and what did it really do? */
  function Click(p: Params, leftLost: bool, rightLost: bool, a: Arrival): (r: (bool, Effect))
    ensures r.1 == Entangled <==> !leftLost && !rightLost && a.draw < p.successRate
    ensures r.0 <==> r.1 == Nothing
    ensures r.1 == Mixed <==> (leftLost || rightLost) && (leftLost ==> a.darkLeft < p.darkRate)
                              && (rightLost ==> a.darkRight < p.darkRate)
  {
    if || (a.draw < p.successRate && !rightLost && !leftLost)
       || (!rightLost && leftLost && a.darkLeft < p.darkRate)
       || (rightLost && !leftLost && a.darkRight < p.darkRate)
       || (rightLost && leftLost && a.darkLeft < p.darkRate && a.darkRight < p.darkRate)
    then
      if !rightLost && leftLost && a.darkLeft <= p.darkRate then (false, Mixed)
      else if !leftLost && rightLost && a.darkRight <= p.darkRate then (false, Mixed)
      else if leftLost && a.darkLeft <= p.darkRate && rightLost && a.darkRight <= p.darkRate then (false, Mixed)
      else (false, Entangled)
    else (true, Nothing)
  }

  /** A first photon after the end of a burst begins the next one. */
  function Begin(s: State, a: Arrival): State {
    if a.first && s.done then
      s.(leftAt := -1.0, rightAt := -1.0, leftLast := false, rightLast := false, send := false, done := false,
         past := s.past + [s.now], now := NEW)
    else s
  }

  function Record(s: State, a: Arrival): State {
    var lastSeen := if a.last then true else if a.first then false else if a.left then s.leftLast else s.rightLast;
    var t := if a.left then s.(leftAt := a.time, leftLost := a.lost, leftLast := lastSeen, now := s.now.(left := s.now.left + [a]))
             else s.(rightAt := a.time, rightLost := a.lost, rightLast := lastSeen, now := s.now.(right := s.now.right + [a]));
    if t.leftLast || t.rightLast then t.(send := true) else t
  }

  /** A verdict goes out, the two photons are forgotten; at the end of a burst nothing more goes out. */
  function Report(s: State, failed: bool, byLeft: bool, effect: Effect): State {
    s.(leftAt := -1.0, rightAt := -1.0, leftLost := false, done := s.done || s.send, now := WithVerdict(s.now, failed, byLeft, effect))
  }

  function WithVerdict(t: Trial, failed: bool, byLeft: bool, effect: Effect): Trial {
    t.(verdicts := t.verdicts + [failed], calls := t.calls + [Call(|t.left|, |t.right|, byLeft, effect)])
  }

  function Next(p: Params, s: State, a: Arrival): (r: (State, Option<Sent>)) {
    var t := Record(Begin(s, a), a);
    if t.done then (t, None)
    else if t.leftAt != -1.0 && t.rightAt != -1.0 && Abs(t.leftAt - t.rightAt) <= p.precision then
      var (failed, effect) := Click(p, t.leftLost, t.rightLost, a);
      (Report(t, failed, a.left, effect), Some(Sent(failed, t.send)))
    else if t.leftAt != -1.0 && t.rightAt != -1.0 then (Report(t, true, a.left, Nothing), Some(Sent(true, t.send)))
    else (t, None)
  }

  // ---- the controller ------------------------------------------------------------------------------

  /** The verdicts stored so far and the lists sent out. */
  datatype Controller = Controller(stored: seq<bool>, lists: seq<seq<bool>>)

  function Collect(c: Controller, m: Sent): Controller {
    if m.last then Controller([], c.lists + [c.stored + [m.failed]])
    else c.(stored := c.stored + [m.failed])
  }

  /** The entries of the controller's table from position 0 on. */
  function InOrder(results: map<int, bool>): seq<bool> {
    seq(|results|, i requires 0 <= i < |results| => if i in results then results[i] else false)
  }

  /** The controller's table: verdict by position. */
  class HomController {
    var results: map<int, bool>
    var sent: seq<seq<bool>>

    ghost predicate Valid()
      reads this
    {
      forall k :: k in results <==> 0 <= k < |results|
    }

    ghost function View(): Controller
      reads this
    {
      Controller(InOrder(results), sent)
    }

    constructor ()
      ensures Valid() && View() == Controller([], [])
    {
      results, sent := map[], [];
    }

    method Push(failed: bool) returns (ok: bool)
      requires Valid()
      modifies this`results
      ensures ok && Valid()
      ensures View() == Controller(old(View()).stored + [failed], old(sent))
    {
      var prev := |results|;
      ghost var was := results;
      results := results[prev := failed];
      ok := prev + 1 == |results|;
      assert InOrder(results) == InOrder(was) + [failed];
    }

    /** The list sent to both neighbours: one field per stored position. */
    method MakeList() returns (list: seq<bool>)
      requires Valid()
      ensures list == InOrder(results)
    {
      list := [];
      while |list| < |results|
        invariant |list| <= |results| && list == InOrder(results)[..|list|]
      {
        list := list + [results[|list|]];
      }
    }

    /** A message from the analyser; false where the program stops with an error. */
    method Handle(m: Sent) returns (ok: bool)
      requires Valid()
      modifies this
      ensures ok && Valid() && View() == Collect(old(View()), m)
    {
      ok := Push(m.failed);
      if m.last {
        var list := MakeList();
        sent := sent + [list];
        results := map[];
        assert InOrder(results) == [];
      }
    }
  }

  /** The analyser's own fields; the trial records are kept beside it. */
  class Analyzer {
    const p: Params
    var leftAt: real
    var rightAt: real
    var leftLast: bool
    var rightLast: bool
    var leftLost: bool
    var rightLost: bool
    var send: bool
    var done: bool
    ghost var past: seq<Trial>
    ghost var now: Trial

    ghost function View(): State
      reads this
    {
      State(leftAt, rightAt, leftLast, rightLast, leftLost, rightLost, send, done, past, now)
    }

    constructor (p: Params)
      ensures View() == Start() && this.p == p
    {
      this.p := p;
      leftAt, rightAt := -1.0, -1.0;
      leftLast, rightLast, leftLost, rightLost, send, done := false, false, false, false, false, false;
      past, now := [], NEW;
    }

    method Forget()
      modifies this
      ensures View() == old(View()).(leftAt := -1.0, rightAt := -1.0, leftLost := false)
    {
      leftAt, rightAt, leftLost := -1.0, -1.0, false;
    }

    method SendResult(failed: bool, ghost byLeft: bool, ghost effect: Effect) returns (m: Sent)
      modifies this
      ensures m == Sent(failed, old(send))
      ensures View() == old(View()).(done := old(done) || old(send), now := WithVerdict(old(now), failed, byLeft, effect))
    {
      m := Sent(failed, send);
      if send {
        done := true;
      }
      now := WithVerdict(now, failed, byLeft, effect);
    }

    method BeginBurst(a: Arrival)
      modifies this
      ensures View() == Begin(old(View()), a)
    {
      if a.first && done {
        done, leftAt, rightAt, rightLast, leftLast, send := false, -1.0, -1.0, false, false, false;
        past, now := past + [now], NEW;
      }
    }

    method RecordPhoton(a: Arrival)
      modifies this
      ensures View() == Record(old(View()), a)
    {
      if a.left {
        leftAt, leftLost := a.time, a.lost;
        if a.first {
          leftLast := false;
        }
        if a.last {
          leftLast := true;
        }
        now := now.(left := now.left + [a]);
      } else {
        rightAt, rightLost := a.time, a.lost;
        if a.first {
          rightLast := false;
        }
        if a.last {
          rightLast := true;
        }
        now := now.(right := now.right + [a]);
      }
      if rightLast || leftLast {
        send := true;
      }
    }

    /** A photon arrives; the verdict sent to the controller, if any. */
    method Handle(a: Arrival) returns (m: Option<Sent>)
      modifies this
      ensures (View(), m) == Next(p, old(View()), a)
    {
      hide Begin, Record, Click;
      BeginBurst(a);
      RecordPhoton(a);
      m := None;
      if done {
        return;
      }
      var difference := leftAt - rightAt;
      if leftAt != -1.0 && rightAt != -1.0 && Abs(difference) <= p.precision {
        var click := Click(p, leftLost, rightLost, a);
        var r := SendResult(click.0, a.left, click.1);
        Forget();
        m := Some(r);
      } else if leftAt != -1.0 && rightAt != -1.0 {
        Forget();
        var r := SendResult(true, a.left, Nothing);
        m := Some(r);
      }
    }
  }

  // ---- the invariant -------------------------------------------------------------------------------

  /** Verdicts pair up photons in order, and no photon is used twice. */
  predicate Matching(t: Trial) {
    && |t.calls| == |t.verdicts|
    && (forall j :: 0 <= j < |t.calls| ==> 1 <= t.calls[j].left <= |t.left| && 1 <= t.calls[j].right <= |t.right|)
    && (forall i, j :: 0 <= i < j < |t.calls| ==> t.calls[i].left < t.calls[j].left && t.calls[i].right < t.calls[j].right)
  }

  /** A waiting photon has not been used; after the burst's end the list is complete. */
  predicate Inv(s: State, c: Controller) {
    && (forall i :: 0 <= i < |s.past| ==> Matching(s.past[i]))
    && Matching(s.now)
    && (!s.done && s.leftAt != -1.0 ==> forall j :: 0 <= j < |s.now.calls| ==> s.now.calls[j].left < |s.now.left|)
    && (!s.done && s.rightAt != -1.0 ==> forall j :: 0 <= j < |s.now.calls| ==> s.now.calls[j].right < |s.now.right|)
    && c.lists == Verdicts(s.past) + (if s.done then [s.now.verdicts] else [])
    && c.stored == if s.done then [] else s.now.verdicts
  }

  function Verdicts(ts: seq<Trial>): (vs: seq<seq<bool>>)
    ensures |vs| == |ts|
  {
    seq(|ts|, i requires 0 <= i < |ts| => ts[i].verdicts)
  }

  datatype Bench = Bench(analyzer: State, controller: Controller)

  function Advance(p: Params, b: Bench, a: Arrival): Bench {
    var r := Next(p, b.analyzer, a);
    Bench(r.0, if r.1.Some? then Collect(b.controller, r.1.value) else b.controller)
  }

  function RunFrom(p: Params, b: Bench, arrivals: seq<Arrival>): Bench
    decreases |arrivals|
  {
    if arrivals == [] then b else RunFrom(p, Advance(p, b, arrivals[0]), arrivals[1..])
  }

  function Run(p: Params, arrivals: seq<Arrival>): Bench {
    RunFrom(p, Bench(Start(), Controller([], [])), arrivals)
  }

  predicate Timed(arrivals: seq<Arrival>) {
    forall i :: 0 <= i < |arrivals| ==> arrivals[i].time >= 0.0
  }

  lemma BeginKeeps(s: State, c: Controller, a: Arrival)
    requires Inv(s, c)
    ensures Inv(Begin(s, a), c)
  {
    assert Verdicts(s.past + [s.now]) == Verdicts(s.past) + [s.now.verdicts];
  }

  lemma RecordKeeps(s: State, c: Controller, a: Arrival)
    requires Inv(s, c)
    ensures Inv(Record(s, a), c)
  {
  }

  lemma ReportKeeps(s: State, c: Controller, failed: bool, byLeft: bool, effect: Effect)
    requires Inv(s, c) && !s.done && s.leftAt != -1.0 && s.rightAt != -1.0 && |s.now.left| > 0 && |s.now.right| > 0
    ensures Inv(Report(s, failed, byLeft, effect), Collect(c, Sent(failed, s.send)))
  {
  }

  /** A waiting photon is the one that arrived last on its side in this burst. */
  predicate Waiting(s: State) {
    !s.done ==>
      && (s.leftAt != -1.0 ==> |s.now.left| > 0 && s.leftAt == s.now.left[|s.now.left| - 1].time && s.leftLost == s.now.left[|s.now.left| - 1].lost)
      && (s.rightAt != -1.0 ==> |s.now.right| > 0 && s.rightAt == s.now.right[|s.now.right| - 1].time && s.rightLost == s.now.right[|s.now.right| - 1].lost)
  }

  lemma BeginWaiting(s: State, a: Arrival)
    requires Waiting(s)
    ensures Waiting(Begin(s, a))
  {
  }

  lemma RecordWaiting(s: State, a: Arrival)
    requires Waiting(s)
    ensures Waiting(Record(s, a))
  {
  }

  lemma StepKeeps(p: Params, b: Bench, a: Arrival)
    requires Inv(b.analyzer, b.controller) && Waiting(b.analyzer)
    ensures var c := Advance(p, b, a); Inv(c.analyzer, c.controller) && Waiting(c.analyzer)
  {
    hide Inv, Begin, Record, Collect, Click;
    var t := Begin(b.analyzer, a);
    BeginKeeps(b.analyzer, b.controller, a);
    BeginWaiting(b.analyzer, a);
    var r := Record(t, a);
    RecordKeeps(t, b.controller, a);
    RecordWaiting(t, a);
    if !r.done && r.leftAt != -1.0 && r.rightAt != -1.0 {
      var click := Click(p, r.leftLost, r.rightLost, a);
      ReportKeeps(r, b.controller, true, a.left, Nothing);
      ReportKeeps(r, b.controller, click.0, a.left, click.1);
    }
  }

  lemma {:induction false} RunKeeps(p: Params, b: Bench, arrivals: seq<Arrival>)
    requires Inv(b.analyzer, b.controller) && Waiting(b.analyzer)
    ensures var c := RunFrom(p, b, arrivals); Inv(c.analyzer, c.controller) && Waiting(c.analyzer)
    decreases |arrivals|
  {
    hide Inv, Waiting, Advance;
    if arrivals != [] {
      StepKeeps(p, b, arrivals[0]);
      RunKeeps(p, Advance(p, b, arrivals[0]), arrivals[1..]);
    }
  }

  // ---- theorems ------------------------------------------------------------------------------------

  lemma {:induction false} PairsGrow(t: Trial, j: nat)
    requires Matching(t) && j < |t.calls|
    ensures j < t.calls[j].left && j < t.calls[j].right
  {
    if j > 0 {
      PairsGrow(t, j - 1);
    }
  }

  /** No burst has more verdicts than photons on either side. */
  lemma AtMostArrivals(t: Trial)
    requires Matching(t)
    ensures |t.verdicts| <= |t.left| && |t.verdicts| <= |t.right|
  {
    if |t.calls| > 0 {
      PairsGrow(t, |t.calls| - 1);
    }
  }

  lemma RunInv(p: Params, arrivals: seq<Arrival>)
    ensures Inv(Run(p, arrivals).analyzer, Run(p, arrivals).controller)
  {
    hide RunFrom;
    RunKeeps(p, Bench(Start(), Controller([], [])), arrivals);
  }

  function Bursts(s: State): seq<Trial> {
    s.past + if s.done then [s.now] else []
  }

  /** Whatever arrives, the lists sent out are the verdicts of the finished bursts, one list per
      burst in order, none longer than the arrivals of that burst on either side. */
  lemma TrialSafety(p: Params, arrivals: seq<Arrival>, i: nat)
    requires i < |Run(p, arrivals).controller.lists|
    ensures var b := Run(p, arrivals);
            var bursts := Bursts(b.analyzer);
            && |b.controller.lists| == |bursts|
            && b.controller.lists[i] == bursts[i].verdicts && Matching(bursts[i])
            && |b.controller.lists[i]| <= |bursts[i].left| && |b.controller.lists[i]| <= |bursts[i].right|
  {
    hide RunFrom, Matching;
    RunInv(p, arrivals);
    var b := Run(p, arrivals);
    hide Run;
    if i < |b.analyzer.past| {
      AtMostArrivals(b.analyzer.past[i]);
    } else {
      AtMostArrivals(b.analyzer.now);
    }
  }

  /** A list that is no longer than the burst a node recorded can be applied: no shot is missing
      from its tracker. */
  lemma VerdictsFit(p: Params, arrivals: seq<Arrival>, i: nat, left: LinkBooks.Books, right: LinkBooks.Books)
    requires i < |Run(p, arrivals).controller.lists| && LinkBooks.Inv(left) && LinkBooks.Inv(right)
    requires i < |Bursts(Run(p, arrivals).analyzer)|
    requires |Bursts(Run(p, arrivals).analyzer)[i].left| <= |left.shots|
    requires |Bursts(Run(p, arrivals).analyzer)[i].right| <= |right.shots|
    ensures var list := Run(p, arrivals).controller.lists[i];
            LinkBooks.Next(left, LinkBooks.Results(list)).Ok? && LinkBooks.Next(right, LinkBooks.Results(list)).Ok?
  {
    hide Run, LinkBooks.Inv;
    TrialSafety(p, arrivals, i);
    var list := Run(p, arrivals).controller.lists[i];
    LinkBooks.ResultsKeeps(left, list);
    LinkBooks.ResultsKeeps(right, list);
  }

  /** A burst ends with its last verdict, and nothing follows until a first photon arrives. */
  lemma SilentAfterEnd(p: Params, s: State, a: Arrival)
    ensures var r := Next(p, s, a);
            && (r.1.Some? ==> (r.1.value.last <==> r.0.done))
            && (s.done && !a.first ==> r.1 == None && r.0.done)
            && (r.0.done && !(s.done && !a.first) ==> r.1.Some? && r.1.value.last)
  {
    hide Click;
  }

  /** No photon overtakes a waiting one of its own side. */
  predicate Orderly(s: State, a: Arrival) {
    s.done || (if a.left then s.leftAt == -1.0 else s.rightAt == -1.0)
  }

  predicate OrderlyRun(p: Params, s: State, arrivals: seq<Arrival>)
    decreases |arrivals|
  {
    arrivals != [] ==> Orderly(s, arrivals[0]) && OrderlyRun(p, Next(p, s, arrivals[0]).0, arrivals[1..])
  }

  predicate Diagonal(t: Trial) {
    forall j :: 0 <= j < |t.calls| ==> t.calls[j].left == t.calls[j].right == j + 1
  }

  predicate InStep(s: State) {
    && (forall i :: 0 <= i < |s.past| ==> Diagonal(s.past[i])) && Diagonal(s.now)
    && (!s.done ==> |s.now.left| == |s.now.calls| + (if s.leftAt == -1.0 then 0 else 1))
    && (!s.done ==> |s.now.right| == |s.now.calls| + (if s.rightAt == -1.0 then 0 else 1))
  }

  lemma {:induction false} StaysInStep(p: Params, s: State, arrivals: seq<Arrival>, b: Bench)
    requires InStep(s) && b.analyzer == s && OrderlyRun(p, s, arrivals) && Timed(arrivals)
    ensures InStep(RunFrom(p, b, arrivals).analyzer)
    decreases |arrivals|
  {
    if arrivals != [] {
      var a := arrivals[0];
      assert a.time >= 0.0;
      OrderlyStep(p, s, a);
      hide InStep, Next;
      StaysInStep(p, Next(p, s, a).0, arrivals[1..], Advance(p, b, a));
    }
  }

  /** When no photon overtakes a waiting one of its side, verdict j of every list sent is about photon j of
      either side of its burst: the position in the list is the shot number. */
  lemma VerdictsByShot(p: Params, arrivals: seq<Arrival>, i: nat, j: nat)
    requires OrderlyRun(p, Start(), arrivals) && Timed(arrivals)
    requires i < |Run(p, arrivals).controller.lists| && j < |Run(p, arrivals).controller.lists[i]|
    ensures i < |Bursts(Run(p, arrivals).analyzer)|
    ensures var burst := Bursts(Run(p, arrivals).analyzer)[i];
            && burst.verdicts == Run(p, arrivals).controller.lists[i]
            && j < |burst.calls| && burst.calls[j].left == burst.calls[j].right == j + 1
  {
    hide OrderlyRun, RunFrom;
    StaysInStep(p, Start(), arrivals, Bench(Start(), Controller([], [])));
    TrialSafety(p, arrivals, i);
  }

  lemma OrderlyBegin(s: State, a: Arrival)
    requires InStep(s) && Orderly(s, a)
    ensures InStep(Begin(s, a)) && Orderly(Begin(s, a), a)
  {
  }

  lemma OrderlyRecord(s: State, a: Arrival)
    requires InStep(s) && Orderly(s, a) && a.time >= 0.0
    ensures InStep(Record(s, a))
  {
  }

  lemma OrderlyReport(s: State, failed: bool, byLeft: bool, effect: Effect)
    requires InStep(s) && !s.done && s.leftAt != -1.0 && s.rightAt != -1.0
    ensures InStep(Report(s, failed, byLeft, effect))
  {
  }

  lemma OrderlyStep(p: Params, s: State, a: Arrival)
    requires InStep(s) && Orderly(s, a) && a.time >= 0.0
    ensures InStep(Next(p, s, a).0)
  {
    hide InStep, Orderly, Begin, Record, Report, Click;
    OrderlyBegin(s, a);
    OrderlyRecord(Begin(s, a), a);
    var r := Record(Begin(s, a), a);
    if !r.done && r.leftAt != -1.0 && r.rightAt != -1.0 {
      var click := Click(p, r.leftLost, r.rightLost, a);
      OrderlyReport(r, true, a.left, Nothing);
      OrderlyReport(r, click.0, a.left, click.1);
    }
  }

  // ---- what the verdicts say -----------------------------------------------------------------------

  /** Two photons make a pair: close enough in time, and both detectors click, by a photon or by a dark
      count in its place.  The draws are those of the photon that came second. */
  predicate Succeeds(p: Params, l: Arrival, r: Arrival, second: Arrival) {
    && -p.precision <= l.time - r.time <= p.precision
    && if l.lost || r.lost then (l.lost ==> second.darkLeft < p.darkRate) && (r.lost ==> second.darkRight < p.darkRate)
       else second.draw < p.successRate
  }

  /** Real photons entangle the qubits, a dark count leaves them mixed. */
  function EffectOf(p: Params, l: Arrival, r: Arrival, second: Arrival): Effect {
    if !Succeeds(p, l, r, second) then Nothing else if l.lost || r.lost then Mixed else Entangled
  }

  /** Whether a photon is waiting on the other side, and the burst is not over. */
  predicate Awaited(s: State, a: Arrival) {
    !s.done && if a.left then s.rightAt != -1.0 else s.leftAt != -1.0
  }

  /** One arrival: a message goes out exactly when a photon waits on the other side, and reports success
      exactly when the two photons make a pair. */
  lemma MessageWhen(p: Params, s: State, a: Arrival)
    requires Waiting(s) && a.time != -1.0
    ensures var m := Next(p, s, a).1;
            && (m.Some? <==> Awaited(s, a))
            && (m.Some? ==>
                  var other := if a.left then s.now.right[|s.now.right| - 1] else s.now.left[|s.now.left| - 1];
                  m.value.failed <==> !(if a.left then Succeeds(p, a, other, a) else Succeeds(p, other, a, a)))
  {
  }

  predicate HasLast(photons: seq<Arrival>) {
    exists i :: 0 <= i < |photons| && photons[i].last
  }

  /** When verdict j went out, the last photon of either side had been seen. */
  predicate Closing(t: Trial, j: nat)
    requires j < |t.calls| && t.calls[j].left <= |t.left| && t.calls[j].right <= |t.right|
  {
    HasLast(t.left[..t.calls[j].left]) || HasLast(t.right[..t.calls[j].right])
  }

  /** Verdict j is the one its two photons deserve, and the qubits fared accordingly. */
  predicate Judged(p: Params, t: Trial, j: nat)
    requires j < |t.calls| && j < |t.verdicts|
    requires 1 <= t.calls[j].left <= |t.left| && 1 <= t.calls[j].right <= |t.right|
  {
    var call := t.calls[j];
    var l, r := t.left[call.left - 1], t.right[call.right - 1];
    var second := if call.byLeft then l else r;
    (t.verdicts[j] <==> !Succeeds(p, l, r, second)) && call.effect == EffectOf(p, l, r, second)
  }

  /** Every verdict is right, and a burst ends with the first verdict after a last photon. */
  predicate Told(p: Params, t: Trial, ended: bool) {
    && Matching(t) && (ended ==> t.calls != [])
    && forall j :: 0 <= j < |t.calls| ==> Judged(p, t, j) && (Closing(t, j) <==> ended && j == |t.calls| - 1)
  }

  predicate AllTold(p: Params, s: State) {
    && (forall i :: 0 <= i < |s.past| ==> Told(p, s.past[i], true))
    && Told(p, s.now, s.done)
    && (s.send <==> HasLast(s.now.left) || HasLast(s.now.right)) && (s.leftLast || s.rightLast ==> s.send)
  }

  lemma MorePhotons(p: Params, t: Trial, ended: bool, a: Arrival)
    requires Told(p, t, ended)
    ensures Told(p, t.(left := t.left + [a]), ended) && Told(p, t.(right := t.right + [a]), ended)
    ensures HasLast(t.left + [a]) <==> HasLast(t.left) || a.last
    ensures HasLast(t.right + [a]) <==> HasLast(t.right) || a.last
  {
    var u, v := t.(left := t.left + [a]), t.(right := t.right + [a]);
    HasLastMore(t.left, a);
    HasLastMore(t.right, a);
    hide HasLast;
    forall j | 0 <= j < |t.calls|
      ensures Judged(p, u, j) && Judged(p, v, j) && Closing(u, j) == Closing(t, j) == Closing(v, j)
    {
      assert Judged(p, t, j);
      assert u.left[..t.calls[j].left] == t.left[..t.calls[j].left];
      assert v.right[..t.calls[j].right] == t.right[..t.calls[j].right];
    }
  }

  lemma HasLastMore(photons: seq<Arrival>, a: Arrival)
    ensures HasLast(photons + [a]) <==> HasLast(photons) || a.last
  {
    var more := photons + [a];
    if i :| 0 <= i < |photons| && photons[i].last {
      assert more[i].last;
    }
    assert more[|photons|] == a;
  }

  lemma RecordTold(p: Params, s: State, a: Arrival)
    requires AllTold(p, s)
    ensures AllTold(p, Record(s, a))
  {
    MorePhotons(p, s.now, s.done, a);
    hide Told, HasLast;
  }

  lemma BeginTold(p: Params, s: State, a: Arrival)
    requires AllTold(p, s)
    ensures AllTold(p, Begin(s, a))
  {
    hide Judged;
  }

  lemma ReportTold(p: Params, s: State, failed: bool, byLeft: bool, effect: Effect)
    requires Told(p, s.now, false) && (s.send <==> HasLast(s.now.left) || HasLast(s.now.right))
    requires |s.now.left| > 0 && |s.now.right| > 0
    requires forall j :: 0 <= j < |s.now.calls| ==> s.now.calls[j].left < |s.now.left| && s.now.calls[j].right < |s.now.right|
    requires var l, r := s.now.left[|s.now.left| - 1], s.now.right[|s.now.right| - 1];
             var second := if byLeft then l else r;
             (failed <==> !Succeeds(p, l, r, second)) && effect == EffectOf(p, l, r, second)
    ensures Told(p, WithVerdict(s.now, failed, byLeft, effect), s.send)
  {
    var t := s.now;
    var u := WithVerdict(t, failed, byLeft, effect);
    var n := |t.calls|;
    assert u.left[..u.calls[n].left] == t.left && u.right[..u.calls[n].right] == t.right;
    hide HasLast, Succeeds;
    forall j | 0 <= j < |u.calls| ensures Judged(p, u, j) && (Closing(u, j) <==> s.send && j == n) {
      if j < n {
        assert u.calls[j] == t.calls[j] && u.verdicts[j] == t.verdicts[j];
        assert Judged(p, t, j) && !Closing(t, j);
      }
    }
  }

  /** The state an arrival leaves before the analyser looks at it. */
  lemma ArrivedTold(p: Params, b: Bench, a: Arrival)
    requires Inv(b.analyzer, b.controller) && Waiting(b.analyzer) && AllTold(p, b.analyzer)
    ensures var u := Record(Begin(b.analyzer, a), a); Inv(u, b.controller) && Waiting(u) && AllTold(p, u)
  {
    var s := b.analyzer;
    var t := Begin(s, a);
    BeginTold(p, s, a);
    RecordTold(p, t, a);
    BeginWaiting(s, a);
    RecordWaiting(t, a);
    BeginKeeps(s, b.controller, a);
    RecordKeeps(t, b.controller, a);
    hide *;
  }

  /** The analyser's verdict is the one the two waiting photons deserve. */
  lemma Deserved(p: Params, u: State, a: Arrival)
    requires Waiting(u) && !u.done && u.leftAt != -1.0 && u.rightAt != -1.0
    requires if a.left then u.now.left != [] && u.now.left[|u.now.left| - 1] == a else u.now.right != [] && u.now.right[|u.now.right| - 1] == a
    ensures var l, r := u.now.left[|u.now.left| - 1], u.now.right[|u.now.right| - 1];
            var second := if a.left then l else r;
            var near := Abs(u.leftAt - u.rightAt) <= p.precision;
            var click := Click(p, u.leftLost, u.rightLost, a);
            && (near ==> (click.0 <==> !Succeeds(p, l, r, second)) && click.1 == EffectOf(p, l, r, second))
            && (!near ==> !Succeeds(p, l, r, second) && EffectOf(p, l, r, second) == Nothing)
  {
  }

  lemma VerdictTold(p: Params, s: State, c: Controller, failed: bool, byLeft: bool, effect: Effect)
    requires Inv(s, c) && Waiting(s) && AllTold(p, s) && !s.done && s.leftAt != -1.0 && s.rightAt != -1.0
    requires var l, r := s.now.left[|s.now.left| - 1], s.now.right[|s.now.right| - 1];
             var second := if byLeft then l else r;
             (failed <==> !Succeeds(p, l, r, second)) && effect == EffectOf(p, l, r, second)
    ensures AllTold(p, Report(s, failed, byLeft, effect))
  {
    hide Told, HasLast, Succeeds, EffectOf, Matching, Verdicts;
    ReportTold(p, s, failed, byLeft, effect);
  }

  lemma StepTold(p: Params, b: Bench, a: Arrival)
    requires Inv(b.analyzer, b.controller) && Waiting(b.analyzer) && AllTold(p, b.analyzer)
    ensures AllTold(p, Advance(p, b, a).analyzer)
  {
    var t := Begin(b.analyzer, a);
    var u := Record(t, a);
    ArrivedTold(p, b, a);
    SecondPhoton(t, a);
    NextIs(p, b.analyzer, a);
    hide AllTold, Inv, Waiting, Begin, Record, Report, Click, Abs, Next, Collect;
    if !u.done && u.leftAt != -1.0 && u.rightAt != -1.0 {
      Deserved(p, u, a);
      hide Succeeds, EffectOf;
      var click := Click(p, u.leftLost, u.rightLost, a);
      if Abs(u.leftAt - u.rightAt) <= p.precision {
        VerdictTold(p, u, b.controller, click.0, a.left, click.1);
      } else {
        VerdictTold(p, u, b.controller, true, a.left, Nothing);
      }
    }
  }

  lemma NextIs(p: Params, s: State, a: Arrival)
    ensures var u := Record(Begin(s, a), a);
            var click := Click(p, u.leftLost, u.rightLost, a);
            Next(p, s, a).0 == if u.done || u.leftAt == -1.0 || u.rightAt == -1.0 then u
                               else if Abs(u.leftAt - u.rightAt) <= p.precision then Report(u, click.0, a.left, click.1)
                               else Report(u, true, a.left, Nothing)
  {
    hide Begin, Record, Report, Click, Abs;
  }

  lemma SecondPhoton(t: State, a: Arrival)
    ensures var u := Record(t, a).now;
            if a.left then |u.left| > 0 && u.left[|u.left| - 1] == a else |u.right| > 0 && u.right[|u.right| - 1] == a
  {
  }

  lemma {:induction false} RunTold(p: Params, b: Bench, arrivals: seq<Arrival>)
    requires Inv(b.analyzer, b.controller) && Waiting(b.analyzer) && AllTold(p, b.analyzer)
    ensures AllTold(p, RunFrom(p, b, arrivals).analyzer)
    decreases |arrivals|
  {
    hide Inv, Waiting, AllTold, Advance;
    if arrivals != [] {
      StepTold(p, b, arrivals[0]);
      StepKeeps(p, b, arrivals[0]);
      RunTold(p, Advance(p, b, arrivals[0]), arrivals[1..]);
    }
  }

  /** Whatever arrives, verdict j of every list sent says whether its two photons made a pair, the qubits are
      entangled or mixed exactly then, and the list ends with the first verdict after a last photon. */
  lemma VerdictsTrue(p: Params, arrivals: seq<Arrival>, i: nat, j: nat)
    requires i < |Run(p, arrivals).controller.lists| && j < |Run(p, arrivals).controller.lists[i]|
    ensures i < |Bursts(Run(p, arrivals).analyzer)|
    ensures var list, burst := Run(p, arrivals).controller.lists[i], Bursts(Run(p, arrivals).analyzer)[i];
            && j < |burst.calls| == |list|
            && var call := burst.calls[j];
               && 1 <= call.left <= |burst.left| && 1 <= call.right <= |burst.right|
               && var l, r := burst.left[call.left - 1], burst.right[call.right - 1];
                  && (!list[j] <==> Succeeds(p, l, r, if call.byLeft then l else r))
                  && (!list[j] <==> call.effect != Nothing) && (call.effect == Entangled ==> !l.lost && !r.lost)
                  && (j == |list| - 1 <==> HasLast(burst.left[..call.left]) || HasLast(burst.right[..call.right]))
  {
    hide Run, Told, Bursts;
    BurstTold(p, arrivals, i);
    var burst := Bursts(Run(p, arrivals).analyzer)[i];
    ToldAt(p, burst, j);
    hide HasLast, Succeeds;
  }

  lemma ToldAt(p: Params, t: Trial, j: nat)
    requires Told(p, t, true) && j < |t.calls|
    ensures Matching(t) && Judged(p, t, j) && (Closing(t, j) <==> j == |t.calls| - 1)
  {
    hide Judged, Closing;
  }

  lemma BurstTold(p: Params, arrivals: seq<Arrival>, i: nat)
    requires i < |Run(p, arrivals).controller.lists|
    ensures i < |Bursts(Run(p, arrivals).analyzer)|
    ensures var burst := Bursts(Run(p, arrivals).analyzer)[i];
            Told(p, burst, true) && Matching(burst) && Run(p, arrivals).controller.lists[i] == burst.verdicts
  {
    hide RunFrom, Told, Matching, HasLast;
    TrialSafety(p, arrivals, i);
    StartTold(p);
    RunTold(p, Bench(Start(), Controller([], [])), arrivals);
  }

  lemma StartTold(p: Params)
    ensures AllTold(p, Start()) && Inv(Start(), Controller([], [])) && Waiting(Start())
  {
    assert Verdicts([]) == [];
  }
}
