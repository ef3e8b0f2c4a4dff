// Link-level bookkeeping of one QNIC without swapping: which memory qubits are busy, which
// photon of the burst came from which qubit, which qubits hold usable pairs.
module LinkBooks {
  import opened Basics

  /** A photon emission that is scheduled but has not happened. */
  datatype Emission = Emission(qubit: int, trial: int)

  /** `stranded` records the qubits whose emission arrived outdated; the program forgets them. */
  datatype Books = Books(size: nat, busy: set<int>, pending: seq<Emission>, shots: seq<int>, pool: seq<int>,
                         trial: int, stranded: set<int>)

  datatype Event =
    | Shoot(trial: int)              // a request to fire the next photon of a burst
    | Emit(which: nat)               // a scheduled emission happens
    | Results(failed: seq<bool>)     // the BSA's verdicts on a burst
    | Consume(which: nat)            // a pooled qubit is used up or discarded

  /** The lowest free qubit at or above q, or the size. */
  function FreeFrom(s: Books, q: nat): (r: nat)
    requires q <= s.size
    ensures q <= r <= s.size && (r < s.size ==> r !in s.busy) && forall x :: q <= x < r ==> x in s.busy
    decreases s.size - q
  {
    if q == s.size || q !in s.busy then q else FreeFrom(s, q + 1)
  }

  function Qubits(es: seq<Emission>): (qs: seq<int>)
    ensures |qs| == |es|
  {
    seq(|es|, i requires 0 <= i < |es| => es[i].qubit)
  }

  /** Shots whose verdict is good, in order. */
  function Good(shots: seq<int>, failed: seq<bool>): seq<int>
    requires |failed| <= |shots|
  {
    if failed == [] then [] else (if failed[0] then [] else [shots[0]]) + Good(shots[1..], failed[1..])
  }

  /** Shots that failed or never got a verdict. */
  function Lost(shots: seq<int>, failed: seq<bool>): seq<int>
    requires |failed| <= |shots|
  {
    if failed == [] then shots else (if failed[0] then [shots[0]] else []) + Lost(shots[1..], failed[1..])
  }

  function Elements(s: seq<int>): set<int> {
    set x | x in s
  }

  datatype Outcome = Ok(books: Books) | Error

  function Next(s: Books, e: Event): Outcome {
    match e
    case Shoot(t) =>
      var q := FreeFrom(s, 0);
      Ok(if t != s.trial || q == s.size then s else s.(busy := s.busy + {q}, pending := s.pending + [Emission(q, t)]))
    case Emit(i) =>
      if i >= |s.pending| then Ok(s)
      else if s.pending[i].trial != s.trial then
        Ok(s.(pending := RemoveAt(s.pending, i), stranded := s.stranded + {s.pending[i].qubit}))
      else
        Ok(s.(pending := RemoveAt(s.pending, i), shots := s.shots + [s.pending[i].qubit]))
    case Results(failed) =>
      if |failed| > |s.shots| || !FreeOnce(s.busy, Lost(s.shots, failed)) then Error
      else
        Ok(s.(trial := s.trial + 1, shots := [], pool := s.pool + Good(s.shots, failed),
              busy := s.busy - Elements(Lost(s.shots, failed))))
    case Consume(i) =>
      if i >= |s.pool| then Ok(s)
      else if s.pool[i] !in s.busy then Error
      else Ok(s.(busy := s.busy - {s.pool[i]}, pool := RemoveAt(s.pool, i)))
  }

  /** Freeing one after the other never frees a free qubit. */
  predicate FreeOnce(busy: set<int>, qs: seq<int>)
    decreases |qs|
  {
    qs == [] || (qs[0] in busy && FreeOnce(busy - {qs[0]}, qs[1..]))
  }

  function Start(size: nat): Books {
    Books(size, {}, [], [], [], 0, {})
  }

  // ---- the invariant ---------------------------------------------------------------------------

  /** Every busy qubit is in exactly one place, exactly once, and every recorded qubit is busy. */
  ghost predicate Inv(s: Books) {
    && multiset(Qubits(s.pending)) + multiset(s.shots) + multiset(s.pool) + multiset(s.stranded) == multiset(s.busy)
    && forall q :: q in s.busy ==> 0 <= q < s.size
  }

  predicate NoRepeat(s: seq<int>) {
    forall i, j :: 0 <= i < j < |s| ==> s[i] != s[j]
  }

  lemma {:induction false} OnceNoRepeat(s: seq<int>)
    requires forall x :: multiset(s)[x] <= 1
    ensures NoRepeat(s)
  {
    forall i, j | 0 <= i < j < |s| ensures s[i] != s[j] {
      assert s == s[..j] + s[j..];
      assert s[i] in s[..j] && s[j] in s[j..];
      assert multiset(s)[s[i]] == multiset(s[..j])[s[i]] + multiset(s[j..])[s[i]];
    }
  }

  /** What the invariant says place by place. */
  lemma Separate(s: Books)
    requires Inv(s)
    ensures NoRepeat(Qubits(s.pending)) && NoRepeat(s.shots) && NoRepeat(s.pool)
    ensures forall q :: q in s.busy <==> q in Qubits(s.pending) || q in s.shots || q in s.pool || q in s.stranded
    ensures forall q :: q in Qubits(s.pending) ==> q !in s.shots && q !in s.pool && q !in s.stranded
    ensures forall q :: q in s.shots ==> q !in s.pool && q !in s.stranded
    ensures forall q :: q in s.pool ==> q !in s.stranded
    ensures forall q :: q in s.busy ==> 0 <= q < s.size
  {
    var p, t, l, r := multiset(Qubits(s.pending)), multiset(s.shots), multiset(s.pool), multiset(s.stranded);
    forall q ensures p[q] + t[q] + l[q] + r[q] == multiset(s.busy)[q] <= 1 {
      assert (p + t + l + r)[q] == multiset(s.busy)[q];
    }
    OnceNoRepeat(Qubits(s.pending));
    OnceNoRepeat(s.shots);
    OnceNoRepeat(s.pool);
    forall q ensures (q in p <==> p[q] > 0) && (q in t <==> t[q] > 0) && (q in l <==> l[q] > 0) && (q in r <==> r[q] > 0) {
    }
    forall q ensures (q in Qubits(s.pending) <==> q in p) && (q in s.shots <==> q in t) && (q in s.pool <==> q in l)
                  && (q in s.stranded <==> q in r) && (q in s.busy <==> q in multiset(s.busy)) {
    }
  }

  lemma {:induction false} GoodOrLost(shots: seq<int>, failed: seq<bool>)
    requires |failed| <= |shots|
    ensures multiset(shots) == multiset(Good(shots, failed)) + multiset(Lost(shots, failed))
  {
    if failed != [] {
      GoodOrLost(shots[1..], failed[1..]);
      assert shots == [shots[0]] + shots[1..];
    }
  }

  lemma {:induction false} FreeAll(busy: set<int>, qs: seq<int>)
    requires multiset(qs) <= multiset(busy)
    ensures FreeOnce(busy, qs)
    ensures multiset(busy - Elements(qs)) == multiset(busy) - multiset(qs)
    decreases |qs|
  {
    if qs != [] {
      var q := qs[0];
      assert qs == [q] + qs[1..];
      assert multiset(qs) == multiset{q} + multiset(qs[1..]);
      assert multiset(qs)[q] <= multiset(busy)[q];
      assert multiset(busy - {q}) == multiset(busy) - multiset{q};
      FreeAll(busy - {q}, qs[1..]);
      assert busy - Elements(qs) == (busy - {q}) - Elements(qs[1..]);
    } else {
      assert Elements(qs) == {};
    }
  }

  lemma RemoveAtMulti(s: seq<int>, i: nat)
    requires i < |s|
    ensures multiset(s) == multiset(RemoveAt(s, i)) + multiset{s[i]}
  {
    assert s == s[..i] + [s[i]] + s[i + 1..];
  }

  lemma RemoveAtQubits(es: seq<Emission>, i: nat)
    requires i < |es|
    ensures Qubits(RemoveAt(es, i)) == RemoveAt(Qubits(es), i)
  {
  }

  lemma StartInv(size: nat)
    ensures Inv(Start(size))
  {
  }

  lemma ShootKeeps(s: Books, t: int)
    requires Inv(s)
    ensures Inv(Next(s, Shoot(t)).books)
  {
    var q := FreeFrom(s, 0);
    assert Qubits(s.pending + [Emission(q, t)]) == Qubits(s.pending) + [q];
    if q < s.size {
      assert multiset(s.busy + {q}) == multiset(s.busy) + multiset{q};
    }
  }

  lemma EmitKeeps(s: Books, i: nat)
    requires Inv(s) && i < |s.pending|
    ensures Inv(Next(s, Emit(i)).books)
  {
    RemoveAtQubits(s.pending, i);
    RemoveAtMulti(Qubits(s.pending), i);
    var q := s.pending[i].qubit;
    Separate(s);
    assert q in Qubits(s.pending);
    assert multiset(s.stranded + {q}) == multiset(s.stranded) + multiset{q};
  }

  lemma ResultsKeeps(s: Books, failed: seq<bool>)
    requires Inv(s) && |failed| <= |s.shots|
    ensures Next(s, Results(failed)).Ok? && Inv(Next(s, Results(failed)).books)
  {
    GoodOrLost(s.shots, failed);
    assert multiset(Lost(s.shots, failed)) <= multiset(s.busy);
    FreeAll(s.busy, Lost(s.shots, failed));
  }

  lemma ConsumeKeeps(s: Books, i: nat)
    requires Inv(s) && i < |s.pool|
    ensures Next(s, Consume(i)).Ok? && Inv(Next(s, Consume(i)).books)
  {
    RemoveAtMulti(s.pool, i);
    var q := s.pool[i];
    Separate(s);
    assert q in s.pool;
    assert multiset(s.busy - {q}) == multiset(s.busy) - multiset{q};
  }

  // ---- every run ---------------------------------------------------------------------------------

  /** The environment: verdict lists are no longer than the burst that was emitted. */
  predicate Supplied(s: Books, e: Event) {
    e.Results? ==> |e.failed| <= |s.shots|
  }

  lemma StepKeeps(s: Books, e: Event)
    requires Inv(s)
    ensures Supplied(s, e) <==> Next(s, e).Ok?
    ensures Next(s, e).Ok? ==> Inv(Next(s, e).books) && Next(s, e).books.size == s.size
  {
    hide Inv;
    match e
    case Shoot(t) => ShootKeeps(s, t);
    case Emit(i) => if i < |s.pending| { EmitKeeps(s, i); }
    case Results(failed) => if |failed| <= |s.shots| { ResultsKeeps(s, failed); }
    case Consume(i) => if i < |s.pool| { ConsumeKeeps(s, i); }
  }

  function RunFrom(s: Books, es: seq<Event>): Outcome
    decreases |es|
  {
    if es == [] then Ok(s)
    else
      match Next(s, es[0])
      case Error => Error
      case Ok(t) => RunFrom(t, es[1..])
  }

  predicate SuppliedRun(s: Books, es: seq<Event>)
    decreases |es|
  {
    es != [] ==> Supplied(s, es[0]) && (Next(s, es[0]).Ok? ==> SuppliedRun(Next(s, es[0]).books, es[1..]))
  }

  /** A run meets an error exactly when some verdict list is longer than its burst; otherwise
      every busy qubit stays in exactly one place. */
  lemma {:induction false} RunKeeps(s: Books, es: seq<Event>)
    requires Inv(s)
    ensures SuppliedRun(s, es) <==> RunFrom(s, es).Ok?
    ensures RunFrom(s, es).Ok? ==> Inv(RunFrom(s, es).books) && RunFrom(s, es).books.size == s.size
    decreases |es|
  {
    hide Inv, Next, Supplied;
    if es != [] {
      StepKeeps(s, es[0]);
      if Next(s, es[0]).Ok? {
        RunKeeps(Next(s, es[0]).books, es[1..]);
      }
    }
  }

  /** A verdict list settles every shot of the burst exactly once: pooled when good, free otherwise. */
  lemma SettledOnce(s: Books, failed: seq<bool>, i: nat)
    requires Inv(s) && |failed| <= |s.shots| && i < |s.shots|
    ensures Next(s, Results(failed)).Ok?
    ensures var t, q := Next(s, Results(failed)).books, s.shots[i];
            && t.shots == []
            && (if i < |failed| && !failed[i] then q in t.busy && multiset(t.pool)[q] == 1
                else q !in t.busy && q !in t.pool)
  {
    Separate(s);
    ResultsKeeps(s, failed);
    GoodAt(s.shots, failed, i);
    var t, q := Next(s, Results(failed)).books, s.shots[i];
    assert q in s.shots;
    assert multiset(t.pool) == multiset(s.pool) + multiset(Good(s.shots, failed));
    assert multiset(s.pool)[q] == 0;
    GoodOrLost(s.shots, failed);
    assert (multiset(Good(s.shots, failed)) + multiset(Lost(s.shots, failed)))[q] == multiset(s.shots)[q];
    OnceInShots(s, q);
  }

  lemma OnceInShots(s: Books, q: int)
    requires Inv(s) && q in s.shots
    ensures multiset(s.shots)[q] == 1
  {
    assert (multiset(Qubits(s.pending)) + multiset(s.shots) + multiset(s.pool) + multiset(s.stranded))[q] == multiset(s.busy)[q];
    assert q in multiset(s.shots);
  }

  lemma {:induction false} GoodAt(shots: seq<int>, failed: seq<bool>, i: nat)
    requires |failed| <= |shots| && i < |shots|
    ensures if i < |failed| && !failed[i] then shots[i] in Good(shots, failed) else shots[i] in Lost(shots, failed)
  {
    if failed != [] && i > 0 {
      GoodAt(shots[1..], failed[1..], i - 1);
    }
  }

  /** Where a qubit is in the cycle of its use. */
  datatype Place = Free | Scheduled | Fired | Pooled | Stranded | Outside

  function PlaceOf(s: Books, q: int): Place {
    if !(0 <= q < s.size) then Outside
    else if q !in s.busy then Free
    else if q in Qubits(s.pending) then Scheduled
    else if q in s.shots then Fired
    else if q in s.pool then Pooled
    else Stranded
  }

  predicate LowestFree(s: Books, q: int) {
    PlaceOf(s, q) == Free && forall x :: 0 <= x < q ==> PlaceOf(s, x) != Free
  }

  /** Shot q of the burst has a good verdict. */
  predicate GoodShot(s: Books, failed: seq<bool>, q: int) {
    exists i :: 0 <= i < |s.shots| && i < |failed| && s.shots[i] == q && !failed[i]
  }

  /** Where an event takes qubit q: a timely request schedules the lowest free qubit, an emission fires or
      strands its own qubit, verdicts pool the good shots and free the others, using up frees one qubit; no
      other qubit moves. */
  function Moved(s: Books, e: Event, q: int): Place {
    match e
    case Shoot(t) => if t == s.trial && LowestFree(s, q) then Scheduled else PlaceOf(s, q)
    case Emit(i) =>
      if i < |s.pending| && s.pending[i].qubit == q then (if s.pending[i].trial == s.trial then Fired else Stranded) else PlaceOf(s, q)
    case Results(failed) => if q in s.shots then (if GoodShot(s, failed, q) then Pooled else Free) else PlaceOf(s, q)
    case Consume(i) => if i < |s.pool| && s.pool[i] == q then Free else PlaceOf(s, q)
  }

  lemma ShootMoves(s: Books, t: int, q: int)
    requires Inv(s)
    ensures PlaceOf(Next(s, Shoot(t)).books, q) == Moved(s, Shoot(t), q)
  {
    var f := FreeFrom(s, 0);
    Separate(s);
    assert Qubits(s.pending + [Emission(f, t)]) == Qubits(s.pending) + [f];
    assert f < s.size ==> PlaceOf(s, f) == Free && LowestFree(s, f);
    assert LowestFree(s, q) ==> !(f < q) && !(q < f);
    hide FreeFrom, Inv;
  }

  lemma EmitMoves(s: Books, i: nat, q: int)
    requires Inv(s)
    ensures PlaceOf(Next(s, Emit(i)).books, q) == Moved(s, Emit(i), q)
  {
    Separate(s);
    if i < |s.pending| {
      RemoveAtQubits(s.pending, i);
      RemovedIn(Qubits(s.pending), i, q);
      assert Qubits(s.pending)[i] == s.pending[i].qubit;
      hide Inv, Qubits;
    }
  }

  lemma RemovedIn(s: seq<int>, i: nat, q: int)
    requires NoRepeat(s) && i < |s|
    ensures q in RemoveAt(s, i) <==> q in s && q != s[i]
  {
    var t := RemoveAt(s, i);
    if q in s && q != s[i] {
      var k :| 0 <= k < |s| && s[k] == q;
      assert t[if k < i then k else k - 1] == q;
    }
    if q in t {
      var k :| 0 <= k < |t| && t[k] == q;
      var old_k := if k < i then k else k + 1;
      assert s[old_k] == q && old_k != i;
      assert old_k < i ==> s[old_k] != s[i];
      assert i < old_k ==> s[i] != s[old_k];
    }
  }

  lemma ResultsMoves(s: Books, failed: seq<bool>, q: int)
    requires Inv(s) && |failed| <= |s.shots|
    ensures Next(s, Results(failed)).Ok? && PlaceOf(Next(s, Results(failed)).books, q) == Moved(s, Results(failed), q)
  {
    ResultsKeeps(s, failed);
    Separate(s);
    LostInShots(s.shots, failed);
    GoodInShots(s.shots, failed);
    var t := Next(s, Results(failed)).books;
    if q in s.shots {
      var i :| 0 <= i < |s.shots| && s.shots[i] == q;
      SettledOnce(s, failed, i);
      assert GoodShot(s, failed, q) <==> i < |failed| && !failed[i];
      assert multiset(t.pool)[q] == 1 ==> q in t.pool;
      hide Inv, Good, Lost, Next;
      NextResults(s, failed);
    } else {
      hide Inv, Good, Lost;
      assert q !in Lost(s.shots, failed) && q !in Good(s.shots, failed);
    }
  }

  lemma NextResults(s: Books, failed: seq<bool>)
    requires Next(s, Results(failed)).Ok?
    ensures var t := Next(s, Results(failed)).books;
            t.size == s.size && t.pending == s.pending && t.stranded == s.stranded && t.shots == [] && t.trial == s.trial + 1
  {
  }

  lemma {:induction false} GoodInShots(shots: seq<int>, failed: seq<bool>)
    requires |failed| <= |shots|
    ensures forall q :: q in Good(shots, failed) ==> q in shots
  {
    if failed != [] {
      GoodInShots(shots[1..], failed[1..]);
    }
  }

  lemma ConsumeMoves(s: Books, i: nat, q: int)
    requires Inv(s)
    ensures Next(s, Consume(i)).Ok? && PlaceOf(Next(s, Consume(i)).books, q) == Moved(s, Consume(i), q)
  {
    Separate(s);
    if i < |s.pool| {
      RemovedIn(s.pool, i, q);
      assert s.pool[i] in s.pool;
      hide Inv;
    }
  }

  /** Every event takes every qubit where Moved says; the lists keep their order, with what is new at the end. */
  lemma EveryQubit(s: Books, e: Event)
    requires Inv(s) && Supplied(s, e)
    ensures Next(s, e).Ok?
    ensures var t := Next(s, e).books;
            && t.size == s.size && t.trial == s.trial + (if e.Results? then 1 else 0)
            && (forall q :: PlaceOf(t, q) == Moved(s, e, q))
            && (if e.Emit? && e.which < |s.pending| then t.pending == s.pending[..e.which] + s.pending[e.which + 1..] else s.pending <= t.pending)
            && (|t.pending| > |s.pending| ==> t.pending[|s.pending|].trial == s.trial && |t.pending| == |s.pending| + 1)
            && (if e.Results? then t.shots == [] else s.shots <= t.shots <= s.shots + Emitting(s, e))
            && (if e.Consume? && e.which < |s.pool| then t.pool == s.pool[..e.which] + s.pool[e.which + 1..] else s.pool <= t.pool)
  {
    hide Inv, Moved, PlaceOf, FreeFrom;
    StepKeeps(s, e);
    forall q ensures PlaceOf(Next(s, e).books, q) == Moved(s, e, q) {
      match e
      case Shoot(t) => ShootMoves(s, t, q);
      case Emit(i) => EmitMoves(s, i, q);
      case Results(failed) => ResultsMoves(s, failed, q);
      case Consume(i) => ConsumeMoves(s, i, q);
    }
  }

  function Emitting(s: Books, e: Event): seq<int> {
    if e.Emit? && e.which < |s.pending| then [s.pending[e.which].qubit] else []
  }

  /** at lists, in order, positions of good shots, those in g. */
  predicate Picks(shots: seq<int>, failed: seq<bool>, g: seq<int>, at: seq<nat>) {
    && |at| == |g|
    && (forall j, k :: 0 <= j < k < |at| ==> at[j] < at[k])
    && forall k :: 0 <= k < |at| ==> at[k] < |failed| && at[k] < |shots| && !failed[at[k]] && g[k] == shots[at[k]]
  }

  lemma PicksLater(shots: seq<int>, failed: seq<bool>, g: seq<int>, rest: seq<nat>) returns (at: seq<nat>)
    requires shots != [] && failed != [] && Picks(shots[1..], failed[1..], g, rest)
    ensures Picks(shots, failed, g, at)
    ensures !failed[0] ==> Picks(shots, failed, [shots[0]] + g, [0] + at)
  {
    at := seq(|rest|, k requires 0 <= k < |rest| => rest[k] + 1);
  }

  /** The good shots enter the pool in the order they were fired. */
  lemma {:induction false} PooledInOrder(shots: seq<int>, failed: seq<bool>) returns (at: seq<nat>)
    requires |failed| <= |shots|
    ensures Picks(shots, failed, Good(shots, failed), at)
  {
    at := [];
    if failed != [] {
      var rest := PooledInOrder(shots[1..], failed[1..]);
      var g := Good(shots[1..], failed[1..]);
      hide Picks;
      at := PicksLater(shots, failed, g, rest);
      assert Good(shots, failed) == (if failed[0] then g else [shots[0]] + g);
      if !failed[0] {
        at := [0] + at;
      }
    }
  }

  /** Conservation: free, scheduled, shot, pooled and stranded qubits always make up the QNIC. */
  lemma Conservation(size: nat, es: seq<Event>)
    requires RunFrom(Start(size), es).Ok?
    ensures var s := RunFrom(Start(size), es).books;
            |s.pending| + |s.shots| + |s.pool| + |s.stranded| + |FreeSet(size, s.busy)| == size
  {
    StartInv(size);
    RunKeeps(Start(size), es);
    var s := RunFrom(Start(size), es).books;
    hide RunFrom, Start;
    assert |multiset(Qubits(s.pending)) + multiset(s.shots) + multiset(s.pool) + multiset(s.stranded)| == |multiset(s.busy)|;
    FreeCount(size, s.busy);
  }

  function All(size: nat): set<int> {
    if size == 0 then {} else All(size - 1) + {size - 1}
  }

  lemma {:induction false} AllCount(size: nat)
    ensures |All(size)| == size
    ensures forall q :: q in All(size) <==> 0 <= q < size
  {
    if size > 0 {
      AllCount(size - 1);
    }
  }

  function FreeSet(size: nat, busy: set<int>): set<int> {
    All(size) - busy
  }

  lemma FreeCount(size: nat, busy: set<int>)
    requires forall q :: q in busy ==> 0 <= q < size
    ensures |FreeSet(size, busy)| + |busy| == size
  {
    AllCount(size);
    forall q | q in busy ensures q in All(size) {
    }
    assert All(size) == FreeSet(size, busy) + busy;
  }

  /** A qubit is stranded exactly when its emission arrives after the trial it belonged to. */
  lemma StrandedWhen(s: Books, e: Event)
    requires Inv(s) && Next(s, e).Ok?
    ensures Next(s, e).books.stranded == s.stranded <==>
              !(e.Emit? && e.which < |s.pending| && s.pending[e.which].trial != s.trial)
    ensures s.stranded <= Next(s, e).books.stranded
  {
    Separate(s);
    if e.Emit? && e.which < |s.pending| {
      assert Qubits(s.pending)[e.which] == s.pending[e.which].qubit;
    }
  }

  /** The loss is real: one qubit, and a verdict list that arrives between firing and emission. */
  lemma OutdatedEmissionStrands()
    ensures RunFrom(Start(1), [Shoot(0), Results([]), Emit(0)]) == Ok(Books(1, {0}, [], [], [], 1, {0}))
  {
    var s0 := Start(1);
    var s1, s2, s3 := Books(1, {0}, [Emission(0, 0)], [], [], 0, {}), Books(1, {0}, [Emission(0, 0)], [], [], 1, {}),
                      Books(1, {0}, [], [], [], 1, {0});
    var es := [Shoot(0), Results([]), Emit(0)];
    assert FreeFrom(s0, 0) == 0;
    assert Next(s0, es[0]) == Ok(s1);
    assert Lost([], []) == [] && Elements([]) == {};
    assert Next(s1, es[1]) == Ok(s2);
    assert Next(s2, es[2]) == Ok(s3);
    assert es[1..][1..][1..] == [];
    assert RunFrom(s3, es[1..][1..][1..]) == Ok(s3);
    assert RunFrom(s2, es[1..][1..]) == Ok(s3);
    assert RunFrom(s1, es[1..]) == Ok(s3);
  }

  /** A stranded qubit is lost for good. */
  lemma {:induction false} StrandedForEver(s: Books, es: seq<Event>)
    requires Inv(s) && RunFrom(s, es).Ok?
    ensures s.stranded <= RunFrom(s, es).books.stranded
    decreases |es|
  {
    hide Inv, Next;
    if es != [] {
      StepKeeps(s, es[0]);
      StrandedWhen(s, es[0]);
      StrandedForEver(Next(s, es[0]).books, es[1..]);
    }
  }

  // ---- the program's tables ------------------------------------------------------------------------

  /** One line of the table of all qubits of a node. */
  datatype Row = Row(qnic: int, qubit: int, busy: bool)

  function BusySet(rows: seq<Row>, qnic: int): (s: set<int>)
    ensures forall q :: q in s <==> exists i :: 0 <= i < |rows| && rows[i] == Row(qnic, q, true)
  {
    set i | 0 <= i < |rows| && rows[i].qnic == qnic && rows[i].busy :: rows[i].qubit
  }

  predicate Listed(rows: seq<Row>, qnic: int, q: int) {
    exists i :: 0 <= i < |rows| && rows[i].qnic == qnic && rows[i].qubit == q
  }

  /** The table lists a QNIC's qubits 0..size-1 in order, each once. */
  ghost predicate Table(rows: seq<Row>, qnic: int, size: nat) {
    && (forall i :: 0 <= i < |rows| && rows[i].qnic == qnic ==> 0 <= rows[i].qubit < size)
    && (forall i, j :: 0 <= i < j < |rows| && rows[i].qnic == qnic && rows[j].qnic == qnic ==> rows[i].qubit < rows[j].qubit)
    && (forall q :: 0 <= q < size ==> Listed(rows, qnic, q))
  }

  /** Same qubits, and the other QNICs' lines as they were. */
  ghost predicate OthersSame(old_rows: seq<Row>, rows: seq<Row>, qnic: int) {
    && |old_rows| == |rows|
    && forall i :: 0 <= i < |rows| ==>
         && rows[i].qnic == old_rows[i].qnic && rows[i].qubit == old_rows[i].qubit
         && (rows[i].qnic != qnic ==> rows[i] == old_rows[i])
  }

  lemma FirstFreeRow(s: Books, q: nat)
    requires q <= s.size && (forall x :: 0 <= x < q ==> x in s.busy) && (q < s.size ==> q !in s.busy)
    ensures FreeFrom(s, 0) == q
  {
  }

  function Lines(qnic: int, size: nat): (rows: seq<Row>)
    ensures |rows| == size && forall x :: 0 <= x < size ==> rows[x] == Row(qnic, x, false)
  {
    seq(size, x requires 0 <= x < size => Row(qnic, x, false))
  }

  /** The first table of a node: every qubit of every QNIC, all free. */
  function FirstTable(sizes: seq<nat>): seq<Row> {
    if sizes == [] then [] else FirstTable(sizes[..|sizes| - 1]) + Lines(|sizes| - 1, sizes[|sizes| - 1])
  }

  lemma {:induction false} FirstTableRows(sizes: seq<nat>)
    ensures forall i :: 0 <= i < |FirstTable(sizes)| ==> 0 <= FirstTable(sizes)[i].qnic < |sizes| && !FirstTable(sizes)[i].busy
  {
    if sizes != [] {
      FirstTableRows(sizes[..|sizes| - 1]);
    }
  }

  lemma {:induction false} FirstTableLists(sizes: seq<nat>, qnic: nat)
    requires qnic < |sizes|
    ensures Table(FirstTable(sizes), qnic, sizes[qnic])
  {
    var front, last := sizes[..|sizes| - 1], |sizes| - 1;
    var a, b := FirstTable(front), Lines(last, sizes[last]);
    FirstTableRows(front);
    if qnic < last {
      FirstTableLists(front, qnic);
      forall q | 0 <= q < sizes[qnic] ensures Listed(a + b, qnic, q) {
        assert Listed(a, qnic, q);
        var i :| 0 <= i < |a| && a[i].qnic == qnic && a[i].qubit == q;
        assert (a + b)[i] == a[i];
      }
    } else {
      forall q | 0 <= q < sizes[qnic] ensures Listed(a + b, qnic, q) {
        assert (a + b)[|a| + q] == b[q];
      }
    }
  }

  class QnicBook {
    const qnic: int
    const size: nat
    var rows: seq<Row>
    var tracker: map<int, int>
    var pending: seq<Emission>
    var pool: seq<int>
    var trial: int
    ghost var stranded: set<int>

    ghost function View(): Books
      reads this
    {
      Books(size, BusySet(rows, qnic), pending, Shots(tracker), pool, trial, stranded)
    }

    ghost predicate Valid()
      reads this
    {
      Table(rows, qnic, size) && (forall k :: k in tracker <==> 0 <= k < |tracker|) && Inv(View())
    }

    constructor (qnic: nat, sizes: seq<nat>)
      requires qnic < |sizes|
      ensures Valid() && View() == Start(sizes[qnic])
      ensures this.qnic == qnic && rows == FirstTable(sizes)
    {
      this.qnic, size, rows := qnic, sizes[qnic], FirstTable(sizes);
      tracker, pending, pool, trial, stranded := map[], [], [], 0, {};
      new;
      FirstTableRows(sizes);
      FirstTableLists(sizes, qnic);
      assert BusySet(rows, qnic) == {};
    }

    /** How many qubits of this QNIC are free. */
    method CountFree() returns (n: nat)
      requires Valid()
      ensures n == 0 <==> FreeFrom(View(), 0) == size
    {
      n := 0;
      var i := 0;
      while i < |rows|
        invariant 0 <= i <= |rows|
        invariant n == 0 <==> forall k :: 0 <= k < i && rows[k].qnic == qnic ==> rows[k].busy
      {
        if rows[i].qnic == qnic && !rows[i].busy {
          n := n + 1;
        }
        i := i + 1;
      }
      NoneFree();
    }

    lemma NoneFree()
      requires Valid()
      ensures (forall k :: 0 <= k < |rows| && rows[k].qnic == qnic ==> rows[k].busy) <==> FreeFrom(View(), 0) == size
    {
      var f := FreeFrom(View(), 0);
      if f < size {
        assert Listed(rows, qnic, f);
        var k :| 0 <= k < |rows| && rows[k].qnic == qnic && rows[k].qubit == f;
        assert rows[k] == Row(qnic, f, rows[k].busy);
      } else {
        forall k | 0 <= k < |rows| && rows[k].qnic == qnic ensures rows[k].busy {
          OnlyRow(k);
        }
      }
    }

    /** A qubit has one line, so a free line means a free qubit. */
    lemma OnlyRow(k: nat)
      requires Table(rows, qnic, size) && k < |rows| && rows[k].qnic == qnic
      ensures rows[k].qubit in BusySet(rows, qnic) <==> rows[k].busy
    {
      if rows[k].busy {
        assert rows[k] == Row(qnic, rows[k].qubit, true);
      }
      if rows[k].qubit in BusySet(rows, qnic) {
        var i :| 0 <= i < |rows| && rows[i] == Row(qnic, rows[k].qubit, true);
        assert !(i < k) && !(k < i);
      }
    }

    /** The first free qubit in the table, or -1. */
    method GetOneFree() returns (q: int)
      requires Valid()
      ensures q == if FreeFrom(View(), 0) == size then -1 else FreeFrom(View(), 0)
    {
      var i := 0;
      while i < |rows|
        invariant 0 <= i <= |rows|
        invariant forall k :: 0 <= k < i && rows[k].qnic == qnic ==> rows[k].busy
      {
        if rows[i].qnic == qnic && !rows[i].busy {
          q := rows[i].qubit;
          OnlyRow(i);
          forall x | 0 <= x < q ensures x in View().busy {
            assert Listed(rows, qnic, x);
            var k :| 0 <= k < |rows| && rows[k].qnic == qnic && rows[k].qubit == x;
            OnlyRow(k);
            assert !(i <= k);
          }
          FirstFreeRow(View(), q);
          return;
        }
        i := i + 1;
      }
      NoneFree();
      q := -1;
    }

    /** Mark a qubit; false where the program stops because it already had that mark.  An unlisted qubit
        is ignored. */
    method Mark(q: int, busy: bool) returns (ok: bool)
      requires Table(rows, qnic, size)
      modifies this`rows
      ensures ok <==> !Listed(old(rows), qnic, q) || (q in BusySet(old(rows), qnic)) != busy
      ensures Table(rows, qnic, size) && OthersSame(old(rows), rows, qnic)
      ensures BusySet(rows, qnic) == if !ok || !Listed(old(rows), qnic, q) then BusySet(old(rows), qnic)
                                     else if busy then BusySet(old(rows), qnic) + {q} else BusySet(old(rows), qnic) - {q}
    {
      var i := 0;
      while i < |rows|
        invariant 0 <= i <= |rows| && rows == old(rows)
        invariant forall k :: 0 <= k < i ==> !(rows[k].qnic == qnic && rows[k].qubit == q)
      {
        if rows[i].qnic == qnic && rows[i].qubit == q {
          OnlyRow(i);
          if rows[i].busy == busy {
            return false;
          }
          MarkRow(rows, qnic, size, i, busy);
          rows := rows[i := rows[i].(busy := busy)];
          return true;
        }
        i := i + 1;
      }
      ok := true;
    }

    /** A request to fire the next photon of burst t. */
    method Shoot(t: int) returns (ok: bool)
      requires Valid()
      modifies this
      ensures ok && Valid() && Ok(View()) == Next(old(View()), Event.Shoot(t)) && OthersSame(old(rows), rows, qnic)
    {
      hide Inv, FreeFrom;
      ok := true;
      if t != trial {
        return;
      }
      var n := CountFree();
      if n == 0 {
        return;
      }
      ShootKeeps(View(), t);
      var q := GetOneFree();
      ok := Mark(q, true);
      pending := pending + [Emission(q, t)];
    }

    /** A scheduled emission happens: it enters the tracker, or is dropped when its burst is over. */
    method Emit(i: nat) returns (ok: bool)
      requires Valid() && i < |pending|
      modifies this`pending, this`tracker, this`stranded
      ensures ok && Valid() && Ok(View()) == Next(old(View()), Event.Emit(i))
    {
      hide Inv, FreeFrom;
      EmitKeeps(View(), i);
      var e := pending[i];
      pending := RemoveAt(pending, i);
      ok := true;
      if e.trial != trial {
        stranded := stranded + {e.qubit};
      } else {
        var shot := |tracker|;
        if shot !in tracker {
          ghost var was := tracker;
          tracker := tracker[shot := e.qubit];
          assert Shots(tracker) == Shots(was) + [e.qubit];
        }
      }
    }

    /** The first pool entry holding q. */
    method PoolIndex(q: int) returns (k: nat)
      requires q in pool
      ensures k < |pool| && pool[k] == q
    {
      k := 0;
      while pool[k] != q
        invariant k < |pool| && q in pool[k..]
        decreases |pool| - k
      {
        k := k + 1;
      }
    }

    /** A pooled qubit is used up: free it and take it off the pool. */
    method Consume(i: nat) returns (ok: bool)
      requires Valid() && i < |pool|
      modifies this`rows, this`pool
      ensures ok && Valid() && Ok(View()) == Next(old(View()), Event.Consume(i)) && OthersSame(old(rows), rows, qnic)
    {
      hide FreeFrom, Inv;
      ConsumeKeeps(View(), i);
      Separate(View());
      var q := pool[i];
      assert q in View().pool;
      var k := PoolIndex(q);
      assert k == i;
      ok := Mark(q, false);
      pool := RemoveAt(pool, k);
    }

    /** The tracker records the burst's shots, each qubit once, and every one of them is in `busy`. */
    ghost predicate Burst(busy: set<int>)
      reads this
    {
      && Table(rows, qnic, size) && (forall k :: k in tracker <==> 0 <= k < |tracker|)
      && NoRepeat(Shots(tracker)) && forall q :: q in Shots(tracker) ==> q in busy && 0 <= q < size
    }

    /** Shots with a verdict: pool the good ones, free the others.  False at a shot never recorded. */
    method Judge(failed: seq<bool>) returns (ok: bool)
      requires Burst(BusySet(rows, qnic))
      modifies this`rows, this`pool
      ensures ok <==> |failed| <= |tracker|
      ensures OthersSame(old(rows), rows, qnic) && Table(rows, qnic, size)
      ensures ok ==> BusySet(rows, qnic) == BusySet(old(rows), qnic) - Elements(Lost(Shots(tracker)[..|failed|], failed))
      ensures ok ==> pool == old(pool) + Good(Shots(tracker)[..|failed|], failed)
    {
      hide FreeFrom, FreeOnce, Good, Lost;
      ghost var busy, shots := BusySet(rows, qnic), Shots(tracker);
      NoVerdicts(shots, failed);
      var i := 0;
      while i < |failed|
        invariant 0 <= i <= |failed| && i <= |shots|
        invariant Table(rows, qnic, size) && OthersSame(old(rows), rows, qnic)
        invariant BusySet(rows, qnic) == busy - Elements(Lost(shots[..i], failed[..i]))
        invariant pool == old(pool) + Good(shots[..i], failed[..i])
      {
        if i !in tracker {
          return false;
        }
        SplitNext(shots, failed, i);
        NotLostYet(shots, failed, i);
        assert shots[i] in shots;
        if failed[i] {
          var freed := Mark(tracker[i], false);
          assert freed;
        } else {
          pool := pool + [tracker[i]];
        }
        i := i + 1;
      }
      assert failed[..i] == failed;
      ok := true;
    }

    /** Shots fired after the list was made up have no verdict: free them. */
    method FreeRest(failed: seq<bool>, ghost busy: set<int>)
      requires Burst(busy) && |failed| <= |tracker|
      requires BusySet(rows, qnic) == busy - Elements(Lost(Shots(tracker)[..|failed|], failed))
      modifies this`rows
      ensures OthersSame(old(rows), rows, qnic) && Table(rows, qnic, size)
      ensures BusySet(rows, qnic) == busy - Elements(Lost(Shots(tracker), failed))
    {
      hide FreeFrom, FreeOnce, Good, Lost;
      ghost var shots := Shots(tracker);
      var i := |failed|;
      while i < |tracker|
        invariant |failed| <= i <= |shots|
        invariant Table(rows, qnic, size) && OthersSame(old(rows), rows, qnic)
        invariant BusySet(rows, qnic) == busy - Elements(Lost(shots[..i], failed))
      {
        LostNext(shots, failed, i);
        LostInShots(shots[..i], failed);
        assert shots[i] in shots;
        var freed := Mark(tracker[i], false);
        assert freed;
        i := i + 1;
      }
      assert shots[..i] == shots;
    }

    /** The BSA's verdicts on a burst: a new burst begins, good shots become resources, the others
        are freed, the tracker is cleared.  False where the program stops with an error. */
    method Results(failed: seq<bool>) returns (ok: bool)
      requires Valid()
      modifies this`rows, this`tracker, this`pool, this`trial
      ensures ok <==> |failed| <= |old(tracker)|
      ensures ok <==> Next(old(View()), Event.Results(failed)).Ok?
      ensures ok ==> Valid() && Ok(View()) == Next(old(View()), Event.Results(failed))
      ensures OthersSame(old(rows), rows, qnic)
    {
      hide Inv, FreeFrom, FreeOnce, Good, Lost;
      ghost var was, busy, shots := View(), BusySet(rows, qnic), Shots(tracker);
      StepKeeps(was, Event.Results(failed));
      Separate(was);
      trial := trial + 1;
      ok := Judge(failed);
      if ok {
        FreeRest(failed, busy);
        GoodPrefix(shots, failed);
        tracker := map[];
        assert Shots(tracker) == [];
        assert Next(was, Event.Results(failed)) == Ok(View());
      }
    }
  }

  lemma NoVerdicts(shots: seq<int>, failed: seq<bool>)
    ensures Good(shots[..0], failed[..0]) == [] && Lost(shots[..0], failed[..0]) == []
  {
  }

  lemma {:induction false} SplitNext(shots: seq<int>, failed: seq<bool>, i: nat)
    requires i < |failed| && i < |shots|
    ensures Good(shots[..i + 1], failed[..i + 1]) == Good(shots[..i], failed[..i]) + if failed[i] then [] else [shots[i]]
    ensures Lost(shots[..i + 1], failed[..i + 1]) == Lost(shots[..i], failed[..i]) + if failed[i] then [shots[i]] else []
  {
    if i > 0 {
      SplitNext(shots[1..], failed[1..], i - 1);
      assert shots[..i + 1][1..] == shots[1..][..i] && failed[..i + 1][1..] == failed[1..][..i];
      assert shots[..i][1..] == shots[1..][..i - 1] && failed[..i][1..] == failed[1..][..i - 1];
    } else {
      assert shots[..1][1..] == [] && failed[..1][1..] == [];
    }
  }

  lemma {:induction false} LostNext(shots: seq<int>, failed: seq<bool>, i: nat)
    requires |failed| <= i < |shots|
    ensures Lost(shots[..i + 1], failed) == Lost(shots[..i], failed) + [shots[i]]
  {
    if failed != [] {
      var rest, first := shots[1..], if failed[0] then [shots[0]] else [];
      LostNext(rest, failed[1..], i - 1);
      assert shots[..i + 1][1..] == rest[..i] && shots[..i][1..] == rest[..i - 1];
      assert Lost(shots[..i + 1], failed) == first + Lost(rest[..i], failed[1..]);
      assert Lost(shots[..i], failed) == first + Lost(rest[..i - 1], failed[1..]);
      hide Lost;
    }
  }

  lemma {:induction false} GoodPrefix(shots: seq<int>, failed: seq<bool>)
    requires |failed| <= |shots|
    ensures Good(shots[..|failed|], failed) == Good(shots, failed)
  {
    if failed != [] {
      GoodPrefix(shots[1..], failed[1..]);
      assert shots[..|failed|][1..] == shots[1..][..|failed| - 1];
    }
  }

  lemma {:induction false} LostInShots(shots: seq<int>, failed: seq<bool>)
    requires |failed| <= |shots|
    ensures forall q :: q in Lost(shots, failed) ==> q in shots
  {
    if failed != [] {
      LostInShots(shots[1..], failed[1..]);
    }
  }

  lemma NotLostYet(shots: seq<int>, failed: seq<bool>, i: nat)
    requires i < |failed| && i < |shots| && NoRepeat(shots)
    ensures shots[i] !in Lost(shots[..i], failed[..i])
  {
    LostInShots(shots[..i], failed[..i]);
    hide Lost;
    forall q | q in Lost(shots[..i], failed[..i]) ensures q != shots[i] {
      assert q in shots[..i];
    }
  }

  function Shots(tracker: map<int, int>): seq<int> {
    seq(|tracker|, i requires 0 <= i < |tracker| => if i in tracker then tracker[i] else 0)
  }

  lemma MarkRow(rows: seq<Row>, qnic: int, size: nat, i: nat, busy: bool)
    requires Table(rows, qnic, size) && i < |rows| && rows[i].qnic == qnic && rows[i].busy != busy
    ensures var t := rows[i := rows[i].(busy := busy)];
            && Table(t, qnic, size) && OthersSame(rows, t, qnic)
            && BusySet(t, qnic) == if busy then BusySet(rows, qnic) + {rows[i].qubit} else BusySet(rows, qnic) - {rows[i].qubit}
  {
    var t, q := rows[i := rows[i].(busy := busy)], rows[i].qubit;
    assert |t| == |rows|;
    assert forall k :: 0 <= k < |t| && k != i ==> t[k] == rows[k];
    assert t[i] == Row(qnic, q, busy);
    forall x | 0 <= x < size ensures Listed(t, qnic, x) {
      assert Listed(rows, qnic, x);
      var k :| 0 <= k < |rows| && rows[k].qnic == qnic && rows[k].qubit == x;
      assert t[k].qnic == qnic && t[k].qubit == x;
    }
    forall x ensures x in BusySet(t, qnic) <==> if x == q then busy else x in BusySet(rows, qnic) {
      if x in BusySet(t, qnic) {
        var k :| 0 <= k < |t| && t[k] == Row(qnic, x, true);
        assert k == i || rows[k] == Row(qnic, x, true);
        assert !(k < i && x == q) && !(k > i && x == q);
      }
      if x != q && x in BusySet(rows, qnic) {
        var k :| 0 <= k < |rows| && rows[k] == Row(qnic, x, true);
        assert t[k] == Row(qnic, x, true);
      }
    }
  }
}
