// One link as a whole: two QNICs firing photons, the analyser and its controller between
// them, and the verdict lists on their way back.
module LinkRun {
  import opened Basics
  import B = Bsa
  import K = LinkBooks

  /** One QNIC: its books, and how many photons it fired in each burst. */
  datatype Qnic = Qnic(books: K.Books, fired: seq<nat>)

  datatype Link = Link(bench: B.Bench, left: Qnic, right: Qnic, failed: bool)

  datatype Event =
    | Works(atLeft: bool, e: K.Event)   // a node fires, emits or uses up a qubit
    | Photon(a: B.Arrival)              // a photon reaches the analyser
    | Deliver(atLeft: bool)             // the next verdict list reaches a node

  function Start(leftSize: nat, rightSize: nat): Link {
    Link(B.Bench(B.Start(), B.Controller([], [])), Qnic(K.Start(leftSize), [0]), Qnic(K.Start(rightSize), [0]), false)
  }

  function FiredIn(q: Qnic, burst: nat): nat {
    if burst < |q.fired| then q.fired[burst] else 0
  }

  function Side(l: Link, atLeft: bool): Qnic {
    if atLeft then l.left else l.right
  }

  function SetSide(l: Link, atLeft: bool, q: Qnic): Link {
    if atLeft then l.(left := q) else l.(right := q)
  }

  function SeenIn(t: B.Trial, left: bool): nat {
    if left then |t.left| else |t.right|
  }

  /** Photons are fired before they arrive; a photon that counts for a burst was fired in it, so none of an
      earlier burst is left over; lists arrive in order, each once. */
  predicate Possible(l: Link, e: Event) {
    match e
    case Works(_, k) => !k.Results?
    case Photon(a) =>
      var s := B.Begin(l.bench.analyzer, a);
      SeenIn(s.now, a.left) < FiredIn(Side(l, a.left), |s.past|)
    case Deliver(atLeft) => 0 <= Side(l, atLeft).books.trial < |l.bench.controller.lists|
  }

  predicate Timely(b: K.Books, e: K.Event) {
    e.Emit? && e.which < |b.pending| && b.pending[e.which].trial == b.trial
  }

  function Next(p: B.Params, l: Link, e: Event): Link
    requires Possible(l, e)
  {
    match e
    case Works(atLeft, k) =>
      var q := Side(l, atLeft);
      var outcome := K.Next(q.books, k);
      if outcome.Error? then l.(failed := true)
      else
        var last := |q.fired| - 1;
        SetSide(l, atLeft, Qnic(outcome.books, if Timely(q.books, k) && last >= 0 then q.fired[last := q.fired[last] + 1] else q.fired))
    case Photon(a) => l.(bench := B.Advance(p, l.bench, a))
    case Deliver(atLeft) =>
      var q := Side(l, atLeft);
      var outcome := K.Next(q.books, K.Results(l.bench.controller.lists[q.books.trial]));
      if outcome.Error? then l.(failed := true) else SetSide(l, atLeft, Qnic(outcome.books, q.fired + [0]))
  }

  // ---- the invariant -------------------------------------------------------------------------------

  /** The last count is that of the burst going on, whose photons are the recorded shots. */
  ghost predicate QnicOk(q: Qnic, lists: nat) {
    && K.Inv(q.books)
    && 0 <= q.books.trial <= lists
    && |q.fired| == q.books.trial + 1 && q.fired[q.books.trial] == |q.books.shots|
  }

  /** No burst has seen more photons of a side than that side fired in it. */
  predicate SeenOk(s: B.State, q: Qnic, left: bool) {
    && (forall i :: 0 <= i < |s.past| ==> SeenIn(s.past[i], left) <= FiredIn(q, i))
    && SeenIn(s.now, left) <= FiredIn(q, |s.past|)
  }

  ghost predicate Inv(l: Link) {
    && !l.failed
    && B.Inv(l.bench.analyzer, l.bench.controller) && B.Waiting(l.bench.analyzer)
    && QnicOk(l.left, |l.bench.controller.lists|) && QnicOk(l.right, |l.bench.controller.lists|)
    && SeenOk(l.bench.analyzer, l.left, true) && SeenOk(l.bench.analyzer, l.right, false)
  }

  lemma StartInv(leftSize: nat, rightSize: nat)
    ensures Inv(Start(leftSize, rightSize))
  {
    K.StartInv(leftSize);
    K.StartInv(rightSize);
    hide K.Inv;
    assert B.Verdicts([]) == [];
  }

  /** Working moves no photon to the analyser and ends no burst. */
  lemma WorkKeeps(q: Qnic, e: K.Event, lists: nat)
    requires QnicOk(q, lists) && !e.Results?
    ensures var t := K.Next(q.books, e);
            && t.Ok?
            && var last := |q.fired| - 1;
               var q' := Qnic(t.books, if Timely(q.books, e) && last >= 0 then q.fired[last := q.fired[last] + 1] else q.fired);
               QnicOk(q', lists) && forall i: nat :: FiredIn(q, i) <= FiredIn(q', i)
  {
    K.StepKeeps(q.books, e);
    hide K.Inv;
  }

  lemma SeenMore(s: B.State, q: Qnic, q': Qnic, left: bool)
    requires SeenOk(s, q, left) && forall i: nat :: FiredIn(q, i) <= FiredIn(q', i)
    ensures SeenOk(s, q', left)
  {
  }

  lemma RecordCounts(t: B.State, a: B.Arrival, failed: bool, effect: B.Effect)
    ensures var r := B.Record(t, a);
            && r.past == t.past
            && |r.now.left| == |t.now.left| + (if a.left then 1 else 0) && |r.now.right| == |t.now.right| + (if a.left then 0 else 1)
            && var u := B.Report(r, failed, a.left, effect); u.past == r.past && u.now.left == r.now.left && u.now.right == r.now.right
  {
  }

  /** What an arrival does to the counts. */
  lemma ArrivalCounts(p: B.Params, s: B.State, a: B.Arrival)
    ensures var t, u := B.Begin(s, a), B.Next(p, s, a).0;
            && u.past == t.past
            && |u.now.left| == |t.now.left| + (if a.left then 1 else 0) && |u.now.right| == |t.now.right| + (if a.left then 0 else 1)
            && (t == s || (t.past == s.past + [s.now] && t.now == B.NEW))
  {
    BeginCounts(s, a);
    var r := B.Record(B.Begin(s, a), a);
    var click := B.Click(p, r.leftLost, r.rightLost, a);
    RecordCounts(B.Begin(s, a), a, true, B.Nothing);
    RecordCounts(B.Begin(s, a), a, click.0, click.1);
    hide B.Click, B.Begin, B.Record, B.Report;
  }

  lemma BeginCounts(s: B.State, a: B.Arrival)
    ensures var t := B.Begin(s, a);
            t == s || (t.past == s.past + [s.now] && t.now == B.NEW)
  {
  }

  lemma ArrivalSeen(p: B.Params, s: B.State, a: B.Arrival, q: Qnic, left: bool)
    requires SeenOk(s, q, left)
    requires a.left == left ==> var t := B.Begin(s, a); SeenIn(t.now, left) < FiredIn(q, |t.past|)
    ensures SeenOk(B.Next(p, s, a).0, q, left)
  {
    ArrivalCounts(p, s, a);
    hide B.Next, B.Begin;
  }

  lemma ListsGrow(p: B.Params, b: B.Bench, a: B.Arrival)
    ensures b.controller.lists <= B.Advance(p, b, a).controller.lists
  {
    hide B.Next;
  }

  lemma PhotonKeeps(p: B.Params, l: Link, a: B.Arrival)
    requires Inv(l) && Possible(l, Photon(a))
    ensures Inv(Next(p, l, Photon(a)))
  {
    B.StepKeeps(p, l.bench, a);
    ArrivalSeen(p, l.bench.analyzer, a, l.left, true);
    ArrivalSeen(p, l.bench.analyzer, a, l.right, false);
    ListsGrow(p, l.bench, a);
    hide B.Inv, B.Next, B.Begin, B.Collect, K.Inv, SeenOk, B.Waiting;
  }

  /** The list of a burst is no longer than the shots its node recorded in it. */
  lemma ListFits(l: Link, left: bool)
    requires Inv(l) && Side(l, left).books.trial < |l.bench.controller.lists|
    ensures |l.bench.controller.lists[Side(l, left).books.trial]| <= |Side(l, left).books.shots|
  {
    var s, q := l.bench.analyzer, Side(l, left);
    var i: nat := q.books.trial;
    hide K.Inv;
    var burst := if i < |s.past| then s.past[i] else s.now;
    assert l.bench.controller.lists[i] == burst.verdicts;
    B.AtMostArrivals(burst);
  }

  lemma DeliverKeeps(p: B.Params, l: Link, left: bool)
    requires Inv(l) && Possible(l, Deliver(left))
    ensures Inv(Next(p, l, Deliver(left)))
  {
    var q := Side(l, left);
    var list := l.bench.controller.lists[q.books.trial];
    ListFits(l, left);
    K.ResultsKeeps(q.books, list);
    var q' := Qnic(K.Next(q.books, K.Results(list)).books, q.fired + [0]);
    assert forall i: nat :: FiredIn(q, i) <= FiredIn(q', i);
    SeenMore(l.bench.analyzer, q, q', left);
    hide K.Inv, B.Inv, SeenOk, FiredIn;
  }

  lemma NextKeeps(p: B.Params, l: Link, e: Event)
    requires Inv(l) && Possible(l, e)
    ensures Inv(Next(p, l, e))
  {
    match e
    case Works(left, k) =>
      var q := Side(l, left);
      WorkKeeps(q, k, |l.bench.controller.lists|);
      SeenMore(l.bench.analyzer, q, Side(Next(p, l, e), left), left);
      hide K.Inv, B.Inv, SeenOk, K.Next, FiredIn;
    case Photon(a) => PhotonKeeps(p, l, a);
    case Deliver(left) => DeliverKeeps(p, l, left);
  }

  predicate Run(p: B.Params, l: Link, es: seq<Event>, m: Link)
    decreases |es|
  {
    if es == [] then l == m else Possible(l, es[0]) && Run(p, Next(p, l, es[0]), es[1..], m)
  }

  lemma {:induction false} RunKeeps(p: B.Params, l: Link, es: seq<Event>, m: Link)
    requires Inv(l) && Run(p, l, es, m)
    ensures Inv(m)
    decreases |es|
  {
    hide Inv, Possible, Next;
    if es != [] {
      NextKeeps(p, l, es[0]);
      RunKeeps(p, Next(p, l, es[0]), es[1..], m);
    }
  }

  /** In every run of a link no error of the busy tables or the trackers is met, and every list that is on
      its way fits the shots its node has recorded. */
  lemma NoShotMissing(p: B.Params, leftSize: nat, rightSize: nat, es: seq<Event>, m: Link, left: bool)
    requires Run(p, Start(leftSize, rightSize), es, m)
    ensures !m.failed
    ensures var b, lists := Side(m, left).books, m.bench.controller.lists;
            0 <= b.trial <= |lists| && (b.trial < |lists| ==> |lists[b.trial]| <= |b.shots| && K.Next(b, K.Results(lists[b.trial])).Ok?)
  {
    StartInv(leftSize, rightSize);
    RunKeeps(p, Start(leftSize, rightSize), es, m);
    hide Run;
    var b, lists := Side(m, left).books, m.bench.controller.lists;
    if b.trial < |lists| {
      ListFits(m, left);
      K.ResultsKeeps(b, lists[b.trial]);
    }
  }

  // ---- every part by itself ------------------------------------------------------------------------

  /** The photons that reached the analyser, in order. */
  function Photons(es: seq<Event>): seq<B.Arrival> {
    if es == [] then [] else (if es[0].Photon? then [es[0].a] else []) + Photons(es[1..])
  }

  /** What an event is to one node that has received t lists: its own work, or the delivery of list t. */
  function Own(e: Event, left: bool, t: int, lists: seq<seq<bool>>): seq<K.Event> {
    if e.Works? && e.atLeft == left then [e.e]
    else if e.Deliver? && e.atLeft == left then [K.Results(if 0 <= t < |lists| then lists[t] else [])]
    else []
  }

  function Local(es: seq<Event>, left: bool, t: int, lists: seq<seq<bool>>): seq<K.Event> {
    if es == [] then []
    else Own(es[0], left, t, lists) + Local(es[1..], left, if es[0].Deliver? && es[0].atLeft == left then t + 1 else t, lists)
  }

  lemma PhotonsFirst(p: B.Params, b: B.Bench, es: seq<Event>)
    requires es != []
    ensures B.RunFrom(p, b, Photons(es))
         == B.RunFrom(p, if es[0].Photon? then B.Advance(p, b, es[0].a) else b, Photons(es[1..]))
  {
    var rest := Photons(es[1..]);
    assert [] + rest == rest;
    if es[0].Photon? {
      assert ([es[0].a] + rest)[1..] == rest;
    }
  }

  /** Analyser and controller do in a run of the link what they do on its photons alone. */
  lemma {:induction false} BenchIsRun(p: B.Params, l: Link, es: seq<Event>, m: Link)
    requires Run(p, l, es, m)
    ensures m.bench == B.RunFrom(p, l.bench, Photons(es))
    ensures l.bench.controller.lists <= m.bench.controller.lists
    decreases |es|
  {
    if es != [] {
      BenchIsRun(p, Next(p, l, es[0]), es[1..], m);
      PhotonsFirst(p, l.bench, es);
      hide B.Advance, Possible;
      if es[0].Photon? {
        ListsGrow(p, l.bench, es[0].a);
      }
    }
  }

  lemma BooksFirst(b: K.Books, e: K.Event, rest: seq<K.Event>)
    requires K.Next(b, e).Ok?
    ensures K.RunFrom(b, [e] + rest) == K.RunFrom(K.Next(b, e).books, rest)
  {
    assert ([e] + rest)[1..] == rest;
    hide K.Next;
  }

  /** One event at the node it concerns. */
  lemma SideStep(p: B.Params, l: Link, e: Event, left: bool)
    requires Inv(l) && Possible(l, e)
    ensures var b, t := Side(l, left).books, Side(Next(p, l, e), left).books;
            match e
            case Works(at, k) => if at == left then K.Next(b, k) == K.Ok(t) && t.trial == b.trial else t == b
            case Photon(_) => t == b
            case Deliver(at) =>
              if at == left then
                0 <= b.trial < |l.bench.controller.lists|
                && K.Next(b, K.Results(l.bench.controller.lists[b.trial])) == K.Ok(t) && t.trial == b.trial + 1
              else t == b
  {
    match e
    case Works(at, k) =>
      WorkKeeps(Side(l, at), k, |l.bench.controller.lists|);
      K.EveryQubit(Side(l, at).books, k);
      hide K.Inv, B.Inv, K.Next, SeenOk;
    case Photon(_) =>
    case Deliver(at) =>
      ListFits(l, at);
      K.EveryQubit(Side(l, at).books, K.Results(l.bench.controller.lists[Side(l, at).books.trial]));
      hide K.Inv, B.Inv, K.Next, SeenOk;
  }

  lemma OwnStep(p: B.Params, l: Link, e: Event, left: bool, lists: seq<seq<bool>>, rest: seq<K.Event>)
    requires Inv(l) && Possible(l, e) && l.bench.controller.lists <= lists
    ensures var b, t := Side(l, left).books, Side(Next(p, l, e), left).books;
            && K.RunFrom(b, Own(e, left, b.trial, lists) + rest) == K.RunFrom(t, rest)
            && t.trial == if e.Deliver? && e.atLeft == left then b.trial + 1 else b.trial
  {
    SideStep(p, l, e, left);
    hide Inv, Possible, Next, K.Next, K.RunFrom;
    var b := Side(l, left).books;
    assert [] + rest == rest;
    if e.Works? && e.atLeft == left {
      BooksFirst(b, e.e, rest);
    } else if e.Deliver? && e.atLeft == left {
      BooksFirst(b, K.Results(lists[b.trial]), rest);
    }
  }

  /** And each node's books are the run of its own events, with the lists in the order they were sent. */
  lemma {:induction false} BooksAreRun(p: B.Params, l: Link, es: seq<Event>, m: Link, left: bool)
    requires Inv(l) && Run(p, l, es, m)
    ensures K.RunFrom(Side(l, left).books, Local(es, left, Side(l, left).books.trial, m.bench.controller.lists)) == K.Ok(Side(m, left).books)
    decreases |es|
  {
    hide Inv, Possible, Next, K.Next, Own, Side;
    if es != [] {
      var n, lists := Next(p, l, es[0]), m.bench.controller.lists;
      BenchIsRun(p, l, es, m);
      NextKeeps(p, l, es[0]);
      BooksAreRun(p, n, es[1..], m, left);
      hide K.RunFrom;
      OwnStep(p, l, es[0], left, lists, Local(es[1..], left, Side(n, left).books.trial, lists));
    }
  }

  /** A run of the link is a run of each of its parts. */
  lemma RunOfParts(p: B.Params, leftSize: nat, rightSize: nat, es: seq<Event>, m: Link, left: bool)
    requires Run(p, Start(leftSize, rightSize), es, m)
    ensures m.bench == B.Run(p, Photons(es))
    ensures K.RunFrom(K.Start(if left then leftSize else rightSize), Local(es, left, 0, m.bench.controller.lists)) == K.Ok(Side(m, left).books)
  {
    hide Run, K.RunFrom, B.RunFrom;
    StartInv(leftSize, rightSize);
    BenchIsRun(p, Start(leftSize, rightSize), es, m);
    BooksAreRun(p, Start(leftSize, rightSize), es, m, left);
  }
}
