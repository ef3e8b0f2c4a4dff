// Memory qubits and their partner pointers on one link: pairs are made in memory qubits that
// are free, a measured half clears its partner's pointer, a discarded half only its own.
module Pointers {
  import opened ResourceLists
  import opened Pipeline
  import opened PipelineInvariant
  import opened Holdings
  import opened Fates

  /** A memory qubit of the left or the right node. */
  datatype Cell = Cell(left: bool, index: nat)

  /** home[x] are the two memory qubits pair x was made in. */
  datatype Memory = Memory(t: Traced, home: seq<(nat, nat)>, ptr: map<Cell, Cell>)

  datatype Action =
    | Entangle(a: nat, b: nat, mixed: bool)   // the BSA reports success; mixed after a dark count
    | At(left: bool, e: Event)                // a step of one node
    | Decay(left: bool, x: nat)               // a memory error breaks the entanglement of a half

  function CellOf(home: seq<(nat, nat)>, left: bool, x: nat): Cell {
    Cell(left, if x >= |home| then 0 else if left then home[x].0 else home[x].1)
  }

  /** Half x occupies its memory qubit: its shot has not been turned into a resource, or it is in a list. */
  predicate Live(m: Memory, left: bool, x: nat) {
    x < |m.home| && (x >= Side(m.t, left).arrived || Total(Side(m.t, left).rules, x) > 0)
  }

  function Break(ptr: map<Cell, Cell>, h: Cell): map<Cell, Cell> {
    if h in ptr then ptr - {h, ptr[h]} else ptr
  }

  function BreakAll(home: seq<(nat, nat)>, left: bool, xs: seq<nat>, ptr: map<Cell, Cell>): map<Cell, Cell>
    decreases |xs|
  {
    if xs == [] then ptr else BreakAll(home, left, xs[1..], Break(ptr, CellOf(home, left, xs[0])))
  }

  function FreeAll(home: seq<(nat, nat)>, left: bool, xs: seq<nat>, ptr: map<Cell, Cell>): map<Cell, Cell>
    decreases |xs|
  {
    if xs == [] then ptr else FreeAll(home, left, xs[1..], ptr - {CellOf(home, left, xs[0])})
  }

  ghost predicate Possible(c: Config, m: Memory, a: Action) {
    match a
    case Entangle(i, j, _) =>
      && (forall x: nat :: Live(m, true, x) ==> m.home[x].0 != i)
      && (forall x: nat :: Live(m, false, x) ==> m.home[x].1 != j)
    case At(left, e) =>
      && Enabled(c, Side(m.t, left), e)
      && (e.Arrive? ==> Side(m.t, left).arrived < |m.home|)
    case Decay(left, x) =>
      exists r: nat :: Holds(Side(m.t, left), r, Entry(x, Unlocked))
  }

  ghost function Next(c: Config, m: Memory, a: Action): Memory
    requires HistShape(c, m.t.left) && HistShape(c, m.t.right) && Possible(c, m, a)
  {
    match a
    case Entangle(i, j, mixed) =>
      var l, r := Cell(true, i), Cell(false, j);
      m.(home := m.home + [(i, j)], ptr := if mixed then Break(Break(m.ptr, l), r) else m.ptr[l := r][r := l])
    case At(left, e) =>
      var nd := Side(m.t, left);
      m.(t := TracedStep(c, m.t, left, e),
         ptr := FreeAll(m.home, left, Dropped(c, nd, e), BreakAll(m.home, left, Measured(c, nd, e), m.ptr)))
    case Decay(left, x) =>
      m.(ptr := Break(m.ptr, CellOf(m.home, left, x)))
  }

  // ---- pointers over any set of live halves ----------------------------------------------------

  /** Live halves occupy different memory qubits. */
  ghost predicate Apart(home: seq<(nat, nat)>, live: iset<(bool, nat)>) {
    && (forall left: bool, x: nat :: (left, x) in live ==> x < |home|)
    && (forall left: bool, x: nat, y: nat :: (left, x) in live && (left, y) in live && x != y ==>
          CellOf(home, left, x) != CellOf(home, left, y))
  }

  ghost predicate OccupiedBy(home: seq<(nat, nat)>, live: iset<(bool, nat)>, h: Cell, x: nat) {
    (h.left, x) in live && x < |home| && CellOf(home, h.left, x) == h
  }

  /** Memory qubits that hold no live half have no pointer. */
  ghost predicate Grounded(home: seq<(nat, nat)>, live: iset<(bool, nat)>, ptr: map<Cell, Cell>) {
    forall h :: h in ptr ==> exists x: nat :: OccupiedBy(home, live, h, x)
  }

  /** A pointer leads to the other half's memory qubit and back, unless the other half is gone and this
      one is doomed. */
  ghost predicate Sound(home: seq<(nat, nat)>, live: iset<(bool, nat)>, doomed: iset<(bool, nat)>, ptr: map<Cell, Cell>, left: bool, x: nat) {
    var h, g := CellOf(home, left, x), CellOf(home, !left, x);
    h in ptr ==> ptr[h] == g && if (!left, x) in live then g in ptr && ptr[g] == h else (left, x) in doomed
  }

  ghost predicate AllSound(home: seq<(nat, nat)>, live: iset<(bool, nat)>, doomed: iset<(bool, nat)>, ptr: map<Cell, Cell>) {
    forall left: bool, x: nat :: (left, x) in live ==> Sound(home, live, doomed, ptr, left, x)
  }

  ghost predicate PtrOk(home: seq<(nat, nat)>, live: iset<(bool, nat)>, doomed: iset<(bool, nat)>, ptr: map<Cell, Cell>) {
    Apart(home, live) && Grounded(home, live, ptr) && AllSound(home, live, doomed, ptr)
  }

  lemma StillGrounded(home: seq<(nat, nat)>, live: iset<(bool, nat)>, ptr: map<Cell, Cell>, left: bool, x: nat, t: map<Cell, Cell>)
    requires Grounded(home, live, ptr) && t.Keys <= ptr.Keys && CellOf(home, left, x) !in t
    ensures Grounded(home, live - iset{(left, x)}, t)
  {
    forall k | k in t ensures exists y: nat :: OccupiedBy(home, live - iset{(left, x)}, k, y) {
      var y: nat :| OccupiedBy(home, live, k, y);
      assert OccupiedBy(home, live - iset{(left, x)}, k, y);
    }
  }

  lemma BreakSound(home: seq<(nat, nat)>, live: iset<(bool, nat)>, doomed: iset<(bool, nat)>, ptr: map<Cell, Cell>,
                   left: bool, x: nat, l: bool, y: nat)
    requires PtrOk(home, live, doomed, ptr) && (left, x) in live && (left, x) !in doomed && (l, y) in live && (l, y) != (left, x)
    ensures Sound(home, live - iset{(left, x)}, doomed, Break(ptr, CellOf(home, left, x)), l, y)
  {
    assert Sound(home, live, doomed, ptr, left, x) && Sound(home, live, doomed, ptr, l, y);
    var h, k := CellOf(home, left, x), CellOf(home, l, y);
    assert (!l, y) in live && (!l, y) != (left, x) && h in ptr && k in ptr ==> CellOf(home, !l, y) != h && k != ptr[h] ==> CellOf(home, !l, y) != ptr[h];
    hide Apart, Grounded, AllSound;
    if l == left {
      SameSide(home, live, left, x, y);
      if (!l, y) in live && (!left, x) in live {
        SameSide(home, live, !left, x, y);
      }
    } else if x != y {
      if (!l, y) in live {
        SameSide(home, live, left, x, y);
      }
      if (!left, x) in live {
        SameSide(home, live, l, x, y);
      }
    }
  }

  lemma SameSide(home: seq<(nat, nat)>, live: iset<(bool, nat)>, left: bool, x: nat, y: nat)
    requires Apart(home, live) && (left, x) in live && (left, y) in live && x != y
    ensures x < |home| && y < |home| && CellOf(home, left, x) != CellOf(home, left, y)
  {
  }

  lemma BreakOne(home: seq<(nat, nat)>, live: iset<(bool, nat)>, doomed: iset<(bool, nat)>, ptr: map<Cell, Cell>, left: bool, x: nat)
    requires PtrOk(home, live, doomed, ptr) && (left, x) in live && (left, x) !in doomed
    ensures PtrOk(home, live - iset{(left, x)}, doomed, Break(ptr, CellOf(home, left, x)))
  {
    var live' := live - iset{(left, x)};
    var t := Break(ptr, CellOf(home, left, x));
    StillGrounded(home, live, ptr, left, x, t);
    hide Break, Sound, Grounded;
    forall l: bool, y: nat | (l, y) in live' ensures Sound(home, live', doomed, t, l, y) {
      BreakSound(home, live, doomed, ptr, left, x, l, y);
    }
  }

  lemma FreeSound(home: seq<(nat, nat)>, live: iset<(bool, nat)>, doomed: iset<(bool, nat)>, ptr: map<Cell, Cell>,
                  left: bool, x: nat, l: bool, y: nat)
    requires PtrOk(home, live, doomed, ptr) && (left, x) in live && ((!left, x) in live ==> (!left, x) in doomed)
    requires (l, y) in live && (l, y) != (left, x)
    ensures Sound(home, live - iset{(left, x)}, doomed, ptr - {CellOf(home, left, x)}, l, y)
  {
    assert Sound(home, live, doomed, ptr, l, y);
    hide Apart, Grounded, AllSound;
    if l != left && x != y && (!l, y) in live {
      SameSide(home, live, left, x, y);
    }
  }

  lemma FreeOne(home: seq<(nat, nat)>, live: iset<(bool, nat)>, doomed: iset<(bool, nat)>, ptr: map<Cell, Cell>, left: bool, x: nat)
    requires PtrOk(home, live, doomed, ptr) && (left, x) in live && ((!left, x) in live ==> (!left, x) in doomed)
    ensures PtrOk(home, live - iset{(left, x)}, doomed, ptr - {CellOf(home, left, x)})
  {
    var live' := live - iset{(left, x)};
    var t := ptr - {CellOf(home, left, x)};
    StillGrounded(home, live, ptr, left, x, t);
    hide Sound, Grounded;
    forall l: bool, y: nat | (l, y) in live' ensures Sound(home, live', doomed, t, l, y) {
      FreeSound(home, live, doomed, ptr, left, x, l, y);
    }
  }

  function Gone(left: bool, xs: seq<nat>): (g: iset<(bool, nat)>)
    ensures forall l: bool, x: nat :: (l, x) in g <==> l == left && x in xs
  {
    iset x | x in xs :: (left, x)
  }

  lemma {:induction false} BreakMany(home: seq<(nat, nat)>, live: iset<(bool, nat)>, doomed: iset<(bool, nat)>, ptr: map<Cell, Cell>,
                                     left: bool, xs: seq<nat>)
    requires PtrOk(home, live, doomed, ptr)
    requires forall x :: x in xs ==> (left, x) in live && (left, x) !in doomed
    requires forall i, j :: 0 <= i < j < |xs| ==> xs[i] != xs[j]
    ensures PtrOk(home, live - Gone(left, xs), doomed, BreakAll(home, left, xs, ptr))
    decreases |xs|
  {
    hide PtrOk;
    if xs == [] {
      assert live - Gone(left, xs) == live;
    } else {
      BreakOne(home, live, doomed, ptr, left, xs[0]);
      BreakMany(home, live - iset{(left, xs[0])}, doomed, Break(ptr, CellOf(home, left, xs[0])), left, xs[1..]);
      assert live - iset{(left, xs[0])} - Gone(left, xs[1..]) == live - Gone(left, xs);
    }
  }

  // ---- the combined run --------------------------------------------------------------------------

  ghost function LiveSet(m: Memory): iset<(bool, nat)> {
    iset left: bool, x: nat | Live(m, left, x) :: (left, x)
  }

  ghost function DoomedSet(t: Traced): iset<(bool, nat)> {
    iset left: bool, x: nat | Doomed(Side(t, left), SideHist(t, left).outs, SideHist(t, !left).outs, x) :: (left, x)
  }

  ghost predicate MemoryInv(c: Config, m: Memory) {
    && HistShape(c, m.t.left) && HistShape(c, m.t.right)
    && Inv(c, m.t) && BothFates(m.t)
    && m.t.sys.left.arrived <= |m.home| && m.t.sys.right.arrived <= |m.home|
    && PtrOk(m.home, LiveSet(m), DoomedSet(m.t), m.ptr)
  }

  function Start(c: Config): Memory {
    Memory(Traced(InitSystem(c), InitHist(c), InitHist(c)), [], map[])
  }

  /** Fewer live halves or more doomed ones keep pointers sound. */
  lemma PtrSame(home: seq<(nat, nat)>, live: iset<(bool, nat)>, doomed: iset<(bool, nat)>, doomed': iset<(bool, nat)>, ptr: map<Cell, Cell>)
    requires PtrOk(home, live, doomed, ptr) && forall left: bool, x: nat :: (left, x) in live && (left, x) in doomed ==> (left, x) in doomed'
    ensures PtrOk(home, live, doomed', ptr)
  {
  }

  lemma EntanglePtr(home: seq<(nat, nat)>, live: iset<(bool, nat)>, doomed: iset<(bool, nat)>, ptr: map<Cell, Cell>, a: nat, b: nat, mixed: bool)
    requires PtrOk(home, live, doomed, ptr)
    requires forall x: nat :: (true, x) in live ==> CellOf(home, true, x) != Cell(true, a)
    requires forall x: nat :: (false, x) in live ==> CellOf(home, false, x) != Cell(false, b)
    ensures var l, r := Cell(true, a), Cell(false, b);
            PtrOk(home + [(a, b)], live + iset{(true, |home|), (false, |home|)}, doomed,
                  if mixed then Break(Break(ptr, l), r) else ptr[l := r][r := l])
  {
    var l, r, n := Cell(true, a), Cell(false, b), |home|;
    var home', live' := home + [(a, b)], live + iset{(true, n), (false, n)};
    assert l !in ptr && r !in ptr;
    var t := if mixed then ptr else ptr[l := r][r := l];
    assert CellOf(home', true, n) == l && CellOf(home', false, n) == r;
    forall left: bool, x: nat | (left, x) in live ensures x < n && CellOf(home', left, x) == CellOf(home, left, x) {
    }
    forall h | h in t ensures exists x: nat :: OccupiedBy(home', live', h, x) {
      if h == l || h == r {
        assert OccupiedBy(home', live', h, n);
      } else {
        var x: nat :| OccupiedBy(home, live, h, x);
        assert OccupiedBy(home', live', h, x);
      }
    }
    forall left: bool, x: nat | (left, x) in live' ensures Sound(home', live', doomed, t, left, x) {
      if x < n {
        assert Sound(home, live, doomed, ptr, left, x);
      }
    }
  }

  lemma {:induction false} TimesDistinct(xs: seq<nat>)
    requires forall x: nat :: Times(xs, x) <= 1
    ensures forall i, j :: 0 <= i < j < |xs| ==> xs[i] != xs[j]
  {
    if xs != [] {
      forall x: nat ensures Times(xs[1..], x) <= 1 {
        assert Times(xs, x) <= 1;
      }
      TimesDistinct(xs[1..]);
      forall j | 0 < j < |xs| ensures xs[0] != xs[j] {
        assert Times(xs, xs[0]) <= 1;
        assert xs[1..][j - 1] == xs[j];
        TimesIn(xs[1..], xs[0]);
      }
      forall i, j | 0 <= i < j < |xs| ensures xs[i] != xs[j] {
        assert i > 0 ==> xs[1..][i - 1] == xs[i] && xs[1..][j - 1] == xs[j];
      }
    }
  }

  lemma SidesAfter(c: Config, t: Traced, left: bool, e: Event)
    requires HistShape(c, t.left) && HistShape(c, t.right) && Enabled(c, Side(t, left), e)
    ensures var t', nd := TracedStep(c, t, left, e), NodeStep(c, Side(t, left), e);
            && Side(t', left).rules == nd.rules && Side(t', left).arrived == nd.arrived
            && Side(t', !left).rules == Side(t, !left).rules && Side(t', !left).arrived == Side(t, !left).arrived
            && HistShape(c, SideHist(t, left))
            && SideHist(t', left) == Record(c, Side(t, left), SideHist(t, left), e)
            && SideHist(t', !left) == SideHist(t, !left)
  {
    hide NodeStep, Record, Reports;
  }

  lemma SideFacts(c: Config, t: Traced, left: bool)
    requires HistShape(c, t.left) && HistShape(c, t.right) && Inv(c, t) && BothFates(t)
    ensures LocalInv(c, Side(t, left), SideHist(t, left), SideHist(t, !left).outs)
    ensures Owned(Side(t, left)) && HistShape(c, SideHist(t, left))
  {
  }

  lemma Leavers(c: Config, m: Memory, left: bool, e: Event)
    requires MemoryInv(c, m) && Enabled(c, Side(m.t, left), e)
    ensures forall x :: x in Measured(c, Side(m.t, left), e) ==> (left, x) in LiveSet(m) && (left, x) !in DoomedSet(m.t)
    ensures forall x :: x in Dropped(c, Side(m.t, left), e) ==> (left, x) in LiveSet(m) && x !in Measured(c, Side(m.t, left), e)
    ensures forall i, j :: 0 <= i < j < |Measured(c, Side(m.t, left), e)| ==>
              Measured(c, Side(m.t, left), e)[i] != Measured(c, Side(m.t, left), e)[j]
  {
    var nd := Side(m.t, left);
    SideFacts(c, m.t, left);
    StepOk(c, m.t, left, e);
    hide Inv, LocalInv, BothFates, Measured, Dropped, NodeStep, Enabled, Doomed, PtrOk;
    forall x: nat ensures Times(Measured(c, nd, e), x) <= 1 {
      StepTotal(c, nd, e, x);
      LeavesOrStays(c, nd, e, x);
      TimesIn(Measured(c, nd, e), x);
    }
    TimesDistinct(Measured(c, nd, e));
    forall x | x in Measured(c, nd, e) || x in Dropped(c, nd, e)
      ensures (left, x) in LiveSet(m) && (x in Measured(c, nd, e) ==> (left, x) !in DoomedSet(m.t))
      ensures x !in Measured(c, nd, e) || x !in Dropped(c, nd, e)
    {
      LeavesOrStays(c, nd, e, x);
      assert Live(m, left, x);
      if x in Measured(c, nd, e) {
        MeasuredNotDoomed(c, nd, SideHist(m.t, left).outs, SideHist(m.t, !left).outs, e, x);
      }
    }
  }

  lemma LiveOne(c: Config, m: Memory, left: bool, e: Event, l: bool, x: nat)
    requires MemoryInv(c, m) && Possible(c, m, At(left, e))
    ensures var nd := Side(m.t, left);
            Live(Next(c, m, At(left, e)), l, x) <==>
              Live(m, l, x) && !(l == left && (x in Measured(c, nd, e) || x in Dropped(c, nd, e)))
  {
    var nd := Side(m.t, left);
    SideFacts(c, m.t, left);
    StepOk(c, m.t, left, e);
    SidesAfter(c, m.t, left, e);
    hide Inv, LocalInv, BothFates, Measured, Dropped, NodeStep, Enabled, PtrOk, TracedStep, Doomed, Record;
    AtFields(c, m, left, e);
    if l == left {
      LeavesOrStays(c, nd, e, x);
      StepTotal(c, nd, e, x);
    }
    hide MemoryInv, Next, Possible;
  }

  lemma AtFields(c: Config, m: Memory, left: bool, e: Event)
    requires HistShape(c, m.t.left) && HistShape(c, m.t.right) && Possible(c, m, At(left, e))
    ensures Next(c, m, At(left, e)).t == TracedStep(c, m.t, left, e) && Next(c, m, At(left, e)).home == m.home
  {
    hide TracedStep, Measured, Dropped;
  }

  lemma LiveAfter(c: Config, m: Memory, left: bool, e: Event)
    requires MemoryInv(c, m) && Possible(c, m, At(left, e))
    ensures LiveSet(Next(c, m, At(left, e)))
         == LiveSet(m) - Gone(left, Measured(c, Side(m.t, left), e)) - Gone(left, Dropped(c, Side(m.t, left), e))
  {
    var m', nd := Next(c, m, At(left, e)), Side(m.t, left);
    var measured, dropped := Measured(c, nd, e), Dropped(c, nd, e);
    hide MemoryInv, Live, Measured, Dropped, Enabled, Possible, Next, Inv, BothFates, PtrOk, LiveSet, Gone;
    forall l: bool, x: nat
      ensures (l, x) in LiveSet(m') <==> (l, x) in LiveSet(m) && (l, x) !in Gone(left, measured) && (l, x) !in Gone(left, dropped)
    {
      InSets(m, l, x);
      InSets(m', l, x);
      LiveOne(c, m, left, e, l, x);
    }
    SameSet(LiveSet(m'), LiveSet(m) - Gone(left, measured) - Gone(left, dropped));
  }

  lemma SameSet(a: iset<(bool, nat)>, b: iset<(bool, nat)>)
    requires forall l: bool, x: nat :: (l, x) in a <==> (l, x) in b
    ensures a == b
  {
    forall p ensures p in a <==> p in b {
      var l, x := p.0, p.1;
      assert (l, x) in a <==> (l, x) in b;
      assert (l, x) == p;
    }
  }

  lemma DoomedAfter(c: Config, m: Memory, left: bool, e: Event)
    requires MemoryInv(c, m) && Possible(c, m, At(left, e))
    ensures forall l: bool, x: nat :: (l, x) in DoomedSet(m.t) && !(l == left && x in Dropped(c, Side(m.t, left), e)) ==>
              (l, x) in DoomedSet(TracedStep(c, m.t, left, e))
  {
    var t', nd, h := TracedStep(c, m.t, left, e), Side(m.t, left), SideHist(m.t, left);
    var other, oh := Side(m.t, !left), SideHist(m.t, !left);
    SideFacts(c, m.t, left);
    StepOk(c, m.t, left, e);
    SidesAfter(c, m.t, left, e);
    hide Inv, LocalInv, BothFates, Dropped, NodeStep, Enabled, PtrOk, TracedStep, Doomed, Record;
    forall l: bool, x: nat | (l, x) in DoomedSet(m.t) && !(l == left && x in Dropped(c, nd, e)) ensures (l, x) in DoomedSet(t') {
      if l == left {
        DoomedStays(c, nd, h, oh.outs, e, x);
        DoomedSame(NodeStep(c, nd, e), Side(t', left), SideHist(t', left).outs, oh.outs, x);
      } else {
        DoomedOther(c, nd, h, e, other, oh, x);
        DoomedSame(other, Side(t', !left), oh.outs, SideHist(t', left).outs, x);
      }
    }
  }

  lemma DoomedSame(nd: Node, nd': Node, mine: seq<seq<Outcome>>, theirs: seq<seq<Outcome>>, x: nat)
    requires nd'.rules == nd.rules && Doomed(nd, mine, theirs, x)
    ensures Doomed(nd', mine, theirs, x)
  {
    var r: nat, i: nat :| DoomedAt(nd, mine, theirs, x, r, i);
    assert DoomedAt(nd', mine, theirs, x, r, i);
  }

  lemma DroppedAtMostOne(c: Config, nd: Node, e: Event)
    requires Enabled(c, nd, e)
    ensures |Dropped(c, nd, e)| <= 1
  {
  }

  /** The other half of a discarded half is doomed or gone. */
  lemma OtherDoomed(c: Config, m: Memory, left: bool, e: Event, x: nat)
    requires MemoryInv(c, m) && Enabled(c, Side(m.t, left), e) && x in Dropped(c, Side(m.t, left), e)
    ensures (!left, x) in LiveSet(m) ==> (!left, x) in DoomedSet(m.t)
  {
    hide Inv, BothFates, Dropped, Enabled, PtrOk, Doomed;
    DiscardedTogether(c, m.t, left, e, x);
  }

  lemma AtKeeps(c: Config, m: Memory, left: bool, e: Event)
    requires MemoryInv(c, m) && Possible(c, m, At(left, e))
    ensures MemoryInv(c, Next(c, m, At(left, e)))
  {
    AtPointers(c, m, left, e);
    AtTrace(c, m, left, e);
    hide Inv, BothFates, PtrOk, Possible, LiveSet, DoomedSet;
  }

  lemma AtTrace(c: Config, m: Memory, left: bool, e: Event)
    requires MemoryInv(c, m) && Possible(c, m, At(left, e))
    ensures var t' := Next(c, m, At(left, e)).t;
            && HistShape(c, t'.left) && HistShape(c, t'.right) && Inv(c, t') && BothFates(t')
            && t'.sys.left.arrived <= |m.home| && t'.sys.right.arrived <= |m.home|
  {
    StepOk(c, m.t, left, e);
    SidesAfter(c, m.t, left, e);
    StepTotal(c, Side(m.t, left), e, 0);
    hide Inv, BothFates, PtrOk, TracedStep, Enabled, NodeStep, Measured, Dropped, Record, LiveSet, DoomedSet;
    StepKeeps(c, m.t, left, e);
    FatesStep(c, m.t, left, e);
  }

  lemma AtPointers(c: Config, m: Memory, left: bool, e: Event)
    requires MemoryInv(c, m) && Possible(c, m, At(left, e))
    ensures var m' := Next(c, m, At(left, e)); PtrOk(m.home, LiveSet(m'), DoomedSet(m'.t), m'.ptr)
  {
    var nd, live, doomed := Side(m.t, left), LiveSet(m), DoomedSet(m.t);
    var measured, dropped := Measured(c, nd, e), Dropped(c, nd, e);
    Leavers(c, m, left, e);
    LiveAfter(c, m, left, e);
    DoomedAfter(c, m, left, e);
    DroppedAtMostOne(c, nd, e);
    hide Inv, BothFates, TracedStep, Enabled, Measured, Dropped;
    forall x | x in dropped ensures (!left, x) in live ==> (!left, x) in doomed {
      OtherDoomed(c, m, left, e, x);
    }
    hide PtrOk, LiveSet, DoomedSet;
    BreakMany(m.home, live, doomed, m.ptr, left, measured);
    var live1, ptr1 := live - Gone(left, measured), BreakAll(m.home, left, measured, m.ptr);
    FreeMany(m.home, live1, doomed, ptr1, left, dropped);
    var m' := Next(c, m, At(left, e));
    PtrSame(m.home, LiveSet(m'), doomed, DoomedSet(m'.t), m'.ptr);
  }

  lemma FreeMany(home: seq<(nat, nat)>, live: iset<(bool, nat)>, doomed: iset<(bool, nat)>, ptr: map<Cell, Cell>, left: bool, xs: seq<nat>)
    requires PtrOk(home, live, doomed, ptr) && |xs| <= 1
    requires forall x :: x in xs ==> (left, x) in live && ((!left, x) in live ==> (!left, x) in doomed)
    ensures PtrOk(home, live - Gone(left, xs), doomed, FreeAll(home, left, xs, ptr))
  {
    hide PtrOk;
    if xs == [] {
      assert live - Gone(left, xs) == live;
    } else {
      FreeOne(home, live, doomed, ptr, left, xs[0]);
      assert live - Gone(left, xs) == live - iset{(left, xs[0])};
      assert FreeAll(home, left, xs, ptr) == FreeAll(home, left, xs[1..], ptr - {CellOf(home, left, xs[0])});
    }
  }

  lemma EntangleKeeps(c: Config, m: Memory, a: nat, b: nat, mixed: bool)
    requires MemoryInv(c, m) && Possible(c, m, Entangle(a, b, mixed))
    ensures MemoryInv(c, Next(c, m, Entangle(a, b, mixed)))
  {
    hide Inv, BothFates, Doomed;
    var m', n := Next(c, m, Entangle(a, b, mixed)), |m.home|;
    EntanglePtr(m.home, LiveSet(m), DoomedSet(m.t), m.ptr, a, b, mixed);
    hide PtrOk;
    forall left: bool, x: nat ensures Live(m', left, x) <==> Live(m, left, x) || x == n {
    }
    assert LiveSet(m') == LiveSet(m) + iset{(true, n), (false, n)};
  }

  lemma DecaySound(home: seq<(nat, nat)>, live: iset<(bool, nat)>, doomed: iset<(bool, nat)>, ptr: map<Cell, Cell>,
                   left: bool, x: nat, l: bool, y: nat)
    requires PtrOk(home, live, doomed, ptr) && (left, x) in live && (left, x) !in doomed && (l, y) in live
    ensures Sound(home, live, doomed, Break(ptr, CellOf(home, left, x)), l, y)
  {
    assert Sound(home, live, doomed, ptr, left, x) && Sound(home, live, doomed, ptr, l, y);
    if (l, y) != (left, x) {
      BreakSound(home, live, doomed, ptr, left, x, l, y);
    }
    hide PtrOk;
  }

  lemma UnlockedLive(c: Config, m: Memory, left: bool, r: nat, x: nat)
    requires MemoryInv(c, m) && Holds(Side(m.t, left), r, Entry(x, Unlocked))
    ensures Live(m, left, x) && !Doomed(Side(m.t, left), SideHist(m.t, left).outs, SideHist(m.t, !left).outs, x)
  {
    var nd := Side(m.t, left);
    SideFacts(c, m.t, left);
    hide Inv, BothFates, LocalInv, Doomed, PtrOk;
    HeldCount(nd, r, Entry(x, Unlocked));
    UnlockedNotDoomed(nd, SideHist(m.t, left).outs, SideHist(m.t, !left).outs, r, x);
  }

  lemma DecayKeeps(c: Config, m: Memory, left: bool, x: nat)
    requires MemoryInv(c, m) && Possible(c, m, Decay(left, x))
    ensures MemoryInv(c, Next(c, m, Decay(left, x)))
  {
    var m' := Next(c, m, Decay(left, x));
    assert m'.t == m.t && m'.home == m.home && m'.ptr == Break(m.ptr, CellOf(m.home, left, x));
    var r: nat :| Holds(Side(m.t, left), r, Entry(x, Unlocked));
    UnlockedLive(c, m, left, r, x);
    LiveSame(m, m');
    InSets(m, left, x);
    hide Inv, BothFates, Doomed, PtrOk, Possible, Next, Live, LiveSet, DoomedSet;
    DecayPtr(m.home, LiveSet(m), DoomedSet(m.t), m.ptr, left, x);
  }

  lemma InSets(m: Memory, left: bool, x: nat)
    ensures (left, x) in LiveSet(m) <==> Live(m, left, x)
    ensures (left, x) in DoomedSet(m.t) <==> Doomed(Side(m.t, left), SideHist(m.t, left).outs, SideHist(m.t, !left).outs, x)
  {
    hide Live, Doomed;
  }

  lemma LiveSame(m: Memory, m': Memory)
    requires m'.t == m.t && m'.home == m.home
    ensures LiveSet(m') == LiveSet(m)
  {
    forall left: bool, x: nat ensures Live(m', left, x) == Live(m, left, x) {
    }
    hide Live;
  }

  lemma DecayPtr(home: seq<(nat, nat)>, live: iset<(bool, nat)>, doomed: iset<(bool, nat)>, ptr: map<Cell, Cell>, left: bool, x: nat)
    requires PtrOk(home, live, doomed, ptr) && (left, x) in live && (left, x) !in doomed
    ensures PtrOk(home, live, doomed, Break(ptr, CellOf(home, left, x)))
  {
    var t := Break(ptr, CellOf(home, left, x));
    hide Sound;
    forall l: bool, y: nat | (l, y) in live ensures Sound(home, live, doomed, t, l, y) {
      DecaySound(home, live, doomed, ptr, left, x, l, y);
    }
  }

  lemma StartMemory(c: Config)
    requires ValidConfig(c)
    ensures MemoryInv(c, Start(c))
  {
    hide Inv, BothFates, Doomed, PtrOk, LiveSet, DoomedSet;
    InitInv(c);
    StartFates(c);
    StartPointers(c);
  }

  lemma StartPointers(c: Config)
    ensures PtrOk([], LiveSet(Start(c)), DoomedSet(Start(c).t), map[])
  {
    hide Doomed;
  }

  ghost predicate Reach(c: Config, m: Memory, actions: seq<Action>, m': Memory)
    requires HistShape(c, m.t.left) && HistShape(c, m.t.right)
    decreases |actions|
  {
    if actions == [] then m == m'
    else Possible(c, m, actions[0]) && Reach(c, Next(c, m, actions[0]), actions[1..], m')
  }

  lemma NextKeeps(c: Config, m: Memory, a: Action)
    requires MemoryInv(c, m) && HistShape(c, m.t.left) && HistShape(c, m.t.right) && Possible(c, m, a)
    ensures MemoryInv(c, Next(c, m, a)) && HistShape(c, Next(c, m, a).t.left) && HistShape(c, Next(c, m, a).t.right)
  {
    hide Possible, Next, Inv, BothFates, PtrOk;
    match a
    case Entangle(i, j, mixed) => EntangleKeeps(c, m, i, j, mixed);
    case At(left, e) => AtKeeps(c, m, left, e);
    case Decay(left, x) => DecayKeeps(c, m, left, x);
  }

  lemma {:induction false} ReachKeeps(c: Config, m: Memory, actions: seq<Action>, m': Memory)
    requires HistShape(c, m.t.left) && HistShape(c, m.t.right) && MemoryInv(c, m) && Reach(c, m, actions, m')
    ensures MemoryInv(c, m')
    decreases |actions|
  {
    hide MemoryInv, Possible, Next;
    if actions != [] {
      NextKeeps(c, m, actions[0]);
      ReachKeeps(c, Next(c, m, actions[0]), actions[1..], m');
    }
  }

  /** The program's "Entanglement tracking" checks cannot fail: a half that is not locked, on a list or
      about to become a resource, has no partner pointer or one that leads back to it. */
  lemma PartnerPointsBack(c: Config, actions: seq<Action>, m: Memory, left: bool, x: nat)
    requires ValidConfig(c) && Reach(c, Start(c), actions, m)
    requires x < |m.home|
    requires x >= Side(m.t, left).arrived || exists r: nat :: Holds(Side(m.t, left), r, Entry(x, Unlocked))
    ensures var h := CellOf(m.home, left, x);
            h in m.ptr ==> m.ptr[h] == CellOf(m.home, !left, x) && m.ptr[h] in m.ptr && m.ptr[m.ptr[h]] == h
  {
    StartMemory(c);
    ReachKeeps(c, Start(c), actions, m);
    hide Reach;
    UnlockedSound(c, m, left, x);
  }

  lemma UnlockedSound(c: Config, m: Memory, left: bool, x: nat)
    requires MemoryInv(c, m) && x < |m.home|
    requires x >= Side(m.t, left).arrived || exists r: nat :: Holds(Side(m.t, left), r, Entry(x, Unlocked))
    ensures var h := CellOf(m.home, left, x);
            h in m.ptr ==> m.ptr[h] == CellOf(m.home, !left, x) && m.ptr[h] in m.ptr && m.ptr[m.ptr[h]] == h
  {
    var nd, mine, theirs := Side(m.t, left), SideHist(m.t, left).outs, SideHist(m.t, !left).outs;
    SideFacts(c, m.t, left);
    hide Inv, BothFates, LocalInv;
    if r: nat :| Holds(nd, r, Entry(x, Unlocked)) {
      UnlockedLive(c, m, left, r, x);
    } else if Doomed(nd, mine, theirs, x) {
      var r: nat, i: nat :| DoomedAt(nd, mine, theirs, x, r, i);
      HeldCount(nd, r, Entry(x, Locked(i)));
    }
    assert Live(m, left, x);
    assert Sound(m.home, LiveSet(m), DoomedSet(m.t), m.ptr, left, x);
  }

  /** A memory qubit in which no half lives has no partner pointer, so a new pair starts clean. */
  lemma FreeCellsClean(c: Config, actions: seq<Action>, m: Memory, h: Cell)
    requires ValidConfig(c) && Reach(c, Start(c), actions, m)
    requires forall x: nat :: Live(m, h.left, x) ==> CellOf(m.home, h.left, x) != h
    ensures h !in m.ptr
  {
    StartMemory(c);
    ReachKeeps(c, Start(c), actions, m);
    hide Reach, Inv, BothFates;
    forall x: nat ensures !OccupiedBy(m.home, LiveSet(m), h, x) {
    }
  }
}
