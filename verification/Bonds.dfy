// Which halves have their partner pointer: those of a pair that real photons entangled and no
// memory error has hit.
module Bonds {
  import opened Pipeline
  import opened PipelineInvariant
  import opened Holdings
  import opened Fates
  import opened Pointers

  /** How many pairs the actions made. */
  function Made(actions: seq<Action>): nat {
    if actions == [] then 0
    else Made(actions[..|actions| - 1]) + if actions[|actions| - 1].Entangle? then 1 else 0
  }

  /** A memory error hit either half of pair x after action i. */
  predicate HitAfter(actions: seq<Action>, i: nat, x: nat) {
    exists j :: i < j < |actions| && actions[j].Decay? && actions[j].x == x
  }

  /** Action i made pair x, without a dark count, and no memory error hit the pair since. */
  predicate BondedBy(actions: seq<Action>, i: nat, x: nat) {
    && i < |actions| && actions[i].Entangle? && Made(actions[..i]) == x
    && !actions[i].mixed && !HitAfter(actions, i, x)
  }

  ghost predicate Bonded(actions: seq<Action>, x: nat) {
    exists i: nat :: BondedBy(actions, i, x)
  }

  ghost function BondSet(actions: seq<Action>): iset<nat> {
    iset x: nat | Bonded(actions, x)
  }

  // ---- one more action ---------------------------------------------------------------------------

  lemma MadeSnoc(actions: seq<Action>, a: Action)
    ensures Made(actions + [a]) == Made(actions) + if a.Entangle? then 1 else 0
  {
    assert (actions + [a])[..|actions|] == actions;
  }

  lemma {:induction false} MadeGrows(actions: seq<Action>, i: nat)
    requires i < |actions|
    ensures Made(actions[..i]) <= Made(actions)
    ensures actions[i].Entangle? ==> Made(actions[..i]) < Made(actions)
  {
    var n := |actions| - 1;
    if i < n {
      assert actions[..n][..i] == actions[..i];
      MadeGrows(actions[..n], i);
    }
  }

  lemma BondedSnoc(actions: seq<Action>, a: Action, x: nat)
    ensures Bonded(actions + [a], x) <==>
              if a.Entangle? && x == Made(actions) then !a.mixed
              else Bonded(actions, x) && !(a.Decay? && a.x == x)
  {
    var all, n := actions + [a], |actions|;
    assert all[..n] == actions && all[n] == a;
    forall i: nat | i < n ensures all[..i] == actions[..i] && all[i] == actions[i] {
    }
    forall i: nat | i < n ensures HitAfter(all, i, x) <==> HitAfter(actions, i, x) || (a.Decay? && a.x == x) {
      if j :| i < j < |actions| && actions[j].Decay? && actions[j].x == x {
        assert all[j] == actions[j];
      }
      if j :| i < j < |all| && all[j].Decay? && all[j].x == x {
        assert j < n ==> actions[j] == all[j];
      }
    }
    if a.Entangle? && x == Made(actions) {
      forall i: nat | BondedBy(all, i, x) ensures i == n {
        if i < n {
          MadeGrows(actions, i);
        }
      }
      assert !HitAfter(all, n, x);
      assert BondedBy(all, n, x) <==> !a.mixed;
    } else {
      if i: nat :| BondedBy(actions, i, x) {
        assert BondedBy(all, i, x) <==> !(a.Decay? && a.x == x);
      }
      if i: nat :| BondedBy(all, i, x) {
        assert i < n && BondedBy(actions, i, x);
      }
    }
  }

  // ---- pointers over any set of live halves ------------------------------------------------------

  /** Of two live halves both have a pointer exactly when they are bonded. */
  ghost predicate Tied(home: seq<(nat, nat)>, live: iset<(bool, nat)>, ptr: map<Cell, Cell>, bonds: iset<nat>) {
    forall left: bool, x: nat :: (left, x) in live && (!left, x) in live ==> (CellOf(home, left, x) in ptr <==> x in bonds)
  }

  /** Breaking the pointers of one half leaves every other pair as it was. */
  lemma OthersTied(home: seq<(nat, nat)>, live: iset<(bool, nat)>, doomed: iset<(bool, nat)>, ptr: map<Cell, Cell>,
                   left: bool, x: nat, l: bool, y: nat)
    requires PtrOk(home, live, doomed, ptr) && (left, x) in live && (left, x) !in doomed
    requires x != y && (l, y) in live && (!l, y) in live
    ensures CellOf(home, l, y) in Break(ptr, CellOf(home, left, x)) <==> CellOf(home, l, y) in ptr
    ensures CellOf(home, l, y) in ptr - {CellOf(home, left, x)} <==> CellOf(home, l, y) in ptr
  {
    assert Sound(home, live, doomed, ptr, left, x);
    if l == left {
      SameSide(home, live, left, x, y);
    } else if (!left, x) in live {
      SameSide(home, live, !left, x, y);
    }
    hide Apart, Grounded, AllSound;
  }

  /** After breaking, neither half of a pair has a pointer. */
  lemma BreakTied(home: seq<(nat, nat)>, live: iset<(bool, nat)>, doomed: iset<(bool, nat)>, ptr: map<Cell, Cell>, bonds: iset<nat>,
                  left: bool, x: nat)
    requires PtrOk(home, live, doomed, ptr) && Tied(home, live, ptr, bonds) && (left, x) in live && (left, x) !in doomed
    ensures Tied(home, live, Break(ptr, CellOf(home, left, x)), bonds - iset{x})
    ensures Tied(home, live - iset{(left, x)}, Break(ptr, CellOf(home, left, x)), bonds)
  {
    var t := Break(ptr, CellOf(home, left, x));
    assert Sound(home, live, doomed, ptr, left, x);
    assert (!left, x) in live ==> Sound(home, live, doomed, ptr, !left, x);
    forall l: bool, y: nat | (l, y) in live && (!l, y) in live
      ensures CellOf(home, l, y) in t <==> y != x && y in bonds
    {
      if y != x {
        OthersTied(home, live, doomed, ptr, left, x, l, y);
      }
    }
    hide PtrOk, Sound, Break;
  }

  lemma FreeTied(home: seq<(nat, nat)>, live: iset<(bool, nat)>, doomed: iset<(bool, nat)>, ptr: map<Cell, Cell>, bonds: iset<nat>,
                 left: bool, x: nat)
    requires PtrOk(home, live, doomed, ptr) && Tied(home, live, ptr, bonds) && (left, x) in live
    ensures Tied(home, live - iset{(left, x)}, ptr - {CellOf(home, left, x)}, bonds)
  {
    forall l: bool, y: nat | (l, y) in live && (!l, y) in live && y != x
      ensures CellOf(home, l, y) in ptr - {CellOf(home, left, x)} <==> y in bonds
    {
      if l == left {
        SameSide(home, live, left, x, y);
      }
    }
    hide PtrOk;
  }

  lemma {:induction false} BreakManyTied(home: seq<(nat, nat)>, live: iset<(bool, nat)>, doomed: iset<(bool, nat)>, ptr: map<Cell, Cell>,
                                         bonds: iset<nat>, left: bool, xs: seq<nat>)
    requires PtrOk(home, live, doomed, ptr) && Tied(home, live, ptr, bonds)
    requires forall x :: x in xs ==> (left, x) in live && (left, x) !in doomed
    requires forall i, j :: 0 <= i < j < |xs| ==> xs[i] != xs[j]
    ensures Tied(home, live - Gone(left, xs), BreakAll(home, left, xs, ptr), bonds)
    decreases |xs|
  {
    hide PtrOk, Tied;
    if xs == [] {
      assert live - Gone(left, xs) == live;
    } else {
      BreakOne(home, live, doomed, ptr, left, xs[0]);
      BreakTied(home, live, doomed, ptr, bonds, left, xs[0]);
      BreakManyTied(home, live - iset{(left, xs[0])}, doomed, Break(ptr, CellOf(home, left, xs[0])), bonds, left, xs[1..]);
      assert live - iset{(left, xs[0])} - Gone(left, xs[1..]) == live - Gone(left, xs);
    }
  }

  // ---- one action --------------------------------------------------------------------------------

  lemma FreeManyTied(home: seq<(nat, nat)>, live: iset<(bool, nat)>, doomed: iset<(bool, nat)>, ptr: map<Cell, Cell>, bonds: iset<nat>,
                     left: bool, xs: seq<nat>)
    requires PtrOk(home, live, doomed, ptr) && Tied(home, live, ptr, bonds) && |xs| <= 1
    requires forall x :: x in xs ==> (left, x) in live
    ensures Tied(home, live - Gone(left, xs), FreeAll(home, left, xs, ptr), bonds)
  {
    hide PtrOk, Tied;
    if xs == [] {
      assert live - Gone(left, xs) == live;
    } else {
      FreeTied(home, live, doomed, ptr, bonds, left, xs[0]);
      assert live - Gone(left, xs) == live - iset{(left, xs[0])};
      assert FreeAll(home, left, xs, ptr) == FreeAll(home, left, xs[1..], ptr - {CellOf(home, left, xs[0])});
    }
  }

  /** The two ways out of the lists, one after the other. */
  lemma LeaveTied(home: seq<(nat, nat)>, live: iset<(bool, nat)>, doomed: iset<(bool, nat)>, ptr: map<Cell, Cell>, bonds: iset<nat>,
                  left: bool, measured: seq<nat>, dropped: seq<nat>)
    requires PtrOk(home, live, doomed, ptr) && Tied(home, live, ptr, bonds) && |dropped| <= 1
    requires forall x :: x in measured ==> (left, x) in live && (left, x) !in doomed
    requires forall i, j :: 0 <= i < j < |measured| ==> measured[i] != measured[j]
    requires forall x :: x in dropped ==> (left, x) in live && x !in measured
    ensures Tied(home, live - Gone(left, measured) - Gone(left, dropped),
                 FreeAll(home, left, dropped, BreakAll(home, left, measured, ptr)), bonds)
  {
    hide PtrOk, Tied;
    BreakMany(home, live, doomed, ptr, left, measured);
    BreakManyTied(home, live, doomed, ptr, bonds, left, measured);
    FreeManyTied(home, live - Gone(left, measured), doomed, BreakAll(home, left, measured, ptr), bonds, left, dropped);
  }

  lemma AtTied(c: Config, m: Memory, bonds: iset<nat>, left: bool, e: Event)
    requires MemoryInv(c, m) && Possible(c, m, At(left, e)) && Tied(m.home, LiveSet(m), m.ptr, bonds)
    ensures var m' := Next(c, m, At(left, e)); Tied(m'.home, LiveSet(m'), m'.ptr, bonds)
  {
    Leavers(c, m, left, e);
    LiveAfter(c, m, left, e);
    DroppedAtMostOne(c, Side(m.t, left), e);
    hide Inv, BothFates, TracedStep, Enabled, Measured, Dropped, PtrOk, LiveSet, DoomedSet, Tied, Gone;
    LeaveTied(m.home, LiveSet(m), DoomedSet(m.t), m.ptr, bonds, left, Measured(c, Side(m.t, left), e), Dropped(c, Side(m.t, left), e));
  }

  /** A memory qubit that is free has no pointer. */
  lemma FreeCellBare(m: Memory, doomed: iset<(bool, nat)>, h: Cell)
    requires PtrOk(m.home, LiveSet(m), doomed, m.ptr)
    requires forall x: nat :: Live(m, h.left, x) ==> CellOf(m.home, h.left, x) != h
    ensures h !in m.ptr
  {
    hide Live;
    forall x: nat ensures !OccupiedBy(m.home, LiveSet(m), h, x) {
    }
  }

  /** Success makes each of the two memory qubits the other's partner, a dark count neither; no other
      pointer changes. */
  lemma EntangleLinks(c: Config, m: Memory, a: nat, b: nat, mixed: bool)
    requires MemoryInv(c, m) && Possible(c, m, Entangle(a, b, mixed))
    ensures var m', l, r := Next(c, m, Entangle(a, b, mixed)), Cell(true, a), Cell(false, b);
            && (if mixed then l !in m'.ptr && r !in m'.ptr
                else l in m'.ptr && r in m'.ptr && m'.ptr[l] == r && m'.ptr[r] == l)
            && forall h :: h != l && h != r ==> (h in m'.ptr <==> h in m.ptr) && (h in m.ptr ==> m'.ptr[h] == m.ptr[h])
  {
    hide Inv, BothFates, Doomed;
    var l, r := Cell(true, a), Cell(false, b);
    assert forall x: nat :: Live(m, true, x) ==> CellOf(m.home, true, x) == Cell(true, m.home[x].0);
    assert forall x: nat :: Live(m, false, x) ==> CellOf(m.home, false, x) == Cell(false, m.home[x].1);
    hide Live;
    FreeCellBare(m, DoomedSet(m.t), l);
    FreeCellBare(m, DoomedSet(m.t), r);
  }

  /** A half that lives beside a new pair lived before, in the same memory qubit, not in those of the pair. */
  lemma OldHalf(c: Config, m: Memory, a: nat, b: nat, mixed: bool, left: bool, x: nat)
    requires HistShape(c, m.t.left) && HistShape(c, m.t.right) && Possible(c, m, Entangle(a, b, mixed)) && x != |m.home|
    requires (left, x) in LiveSet(Next(c, m, Entangle(a, b, mixed)))
    ensures (left, x) in LiveSet(m) && CellOf(Next(c, m, Entangle(a, b, mixed)).home, left, x) == CellOf(m.home, left, x)
    ensures CellOf(m.home, left, x) != Cell(true, a) && CellOf(m.home, left, x) != Cell(false, b)
  {
    var m' := Next(c, m, Entangle(a, b, mixed));
    InSets(m, left, x);
    InSets(m', left, x);
    hide LiveSet;
  }

  lemma EntangleTied(c: Config, m: Memory, bonds: iset<nat>, bonds': iset<nat>, a: nat, b: nat, mixed: bool)
    requires MemoryInv(c, m) && Possible(c, m, Entangle(a, b, mixed)) && Tied(m.home, LiveSet(m), m.ptr, bonds)
    requires forall x: nat :: x in bonds' <==> if x == |m.home| then !mixed else x in bonds
    ensures var m' := Next(c, m, Entangle(a, b, mixed)); Tied(m'.home, LiveSet(m'), m'.ptr, bonds')
  {
    var m', n := Next(c, m, Entangle(a, b, mixed)), |m.home|;
    EntangleLinks(c, m, a, b, mixed);
    assert CellOf(m'.home, true, n) == Cell(true, a) && CellOf(m'.home, false, n) == Cell(false, b);
    hide Live, LiveSet, Next, Possible, MemoryInv;
    forall l: bool, x: nat | (l, x) in LiveSet(m') && x != n
      ensures (l, x) in LiveSet(m) && CellOf(m'.home, l, x) == CellOf(m.home, l, x)
      ensures CellOf(m.home, l, x) != Cell(true, a) && CellOf(m.home, l, x) != Cell(false, b)
    {
      OldHalf(c, m, a, b, mixed, l, x);
    }
  }

  lemma DecayTied(c: Config, m: Memory, bonds: iset<nat>, left: bool, x: nat)
    requires MemoryInv(c, m) && Possible(c, m, Decay(left, x)) && Tied(m.home, LiveSet(m), m.ptr, bonds)
    ensures var m' := Next(c, m, Decay(left, x)); Tied(m'.home, LiveSet(m'), m'.ptr, bonds - iset{x})
  {
    var m' := Next(c, m, Decay(left, x));
    assert m'.t == m.t && m'.home == m.home && m'.ptr == Break(m.ptr, CellOf(m.home, left, x));
    var r: nat :| Holds(Side(m.t, left), r, ResourceLists.Entry(x, ResourceLists.Unlocked));
    UnlockedLive(c, m, left, r, x);
    LiveSame(m, m');
    InSets(m, left, x);
    hide Inv, BothFates, Doomed, PtrOk, Possible, Next, Live, LiveSet, DoomedSet;
    BreakTied(m.home, LiveSet(m), DoomedSet(m.t), m.ptr, bonds, left, x);
  }

  // ---- every run ---------------------------------------------------------------------------------

  ghost predicate BondInv(c: Config, past: seq<Action>, m: Memory) {
    MemoryInv(c, m) && Made(past) == |m.home| && Tied(m.home, LiveSet(m), m.ptr, BondSet(past))
  }

  lemma HomeAfter(c: Config, m: Memory, a: Action)
    requires HistShape(c, m.t.left) && HistShape(c, m.t.right) && Possible(c, m, a)
    ensures |Next(c, m, a).home| == |m.home| + if a.Entangle? then 1 else 0
  {
  }

  lemma BondStep(c: Config, past: seq<Action>, m: Memory, a: Action)
    requires BondInv(c, past, m) && HistShape(c, m.t.left) && HistShape(c, m.t.right) && Possible(c, m, a)
    ensures BondInv(c, past + [a], Next(c, m, a))
  {
    hide Possible, Next, MemoryInv, Tied, LiveSet, Bonded, Made;
    NextKeeps(c, m, a);
    HomeAfter(c, m, a);
    MadeSnoc(past, a);
    forall x: nat ensures x in BondSet(past + [a]) <==>
                            if a.Entangle? && x == |m.home| then !a.mixed else x in BondSet(past) && !(a.Decay? && a.x == x)
    {
      BondedSnoc(past, a, x);
    }
    match a
    case Entangle(i, j, mixed) => EntangleTied(c, m, BondSet(past), BondSet(past + [a]), i, j, mixed);
    case At(left, e) =>
      assert BondSet(past + [a]) == BondSet(past);
      AtTied(c, m, BondSet(past), left, e);
    case Decay(left, x) =>
      assert BondSet(past + [a]) == BondSet(past) - iset{x};
      DecayTied(c, m, BondSet(past), left, x);
  }

  lemma {:induction false} ReachBonds(c: Config, past: seq<Action>, m: Memory, actions: seq<Action>, m': Memory)
    requires HistShape(c, m.t.left) && HistShape(c, m.t.right) && BondInv(c, past, m) && Reach(c, m, actions, m')
    ensures BondInv(c, past + actions, m')
    decreases |actions|
  {
    hide BondInv, MemoryInv, Possible, Next;
    if actions == [] {
      assert past + actions == past;
    } else {
      BondStep(c, past, m, actions[0]);
      NextShape(c, past, m, actions[0]);
      ReachBonds(c, past + [actions[0]], Next(c, m, actions[0]), actions[1..], m');
      assert past + [actions[0]] + actions[1..] == past + actions;
    }
  }

  lemma NextShape(c: Config, past: seq<Action>, m: Memory, a: Action)
    requires BondInv(c, past, m) && HistShape(c, m.t.left) && HistShape(c, m.t.right) && Possible(c, m, a)
    ensures HistShape(c, Next(c, m, a).t.left) && HistShape(c, Next(c, m, a).t.right)
  {
    hide Possible, Next, MemoryInv;
    NextKeeps(c, m, a);
  }

  lemma StartBonds(c: Config)
    requires ValidConfig(c)
    ensures BondInv(c, [], Start(c))
  {
    StartMemory(c);
    hide MemoryInv, Bonded;
  }

  /** In every reachable state: a half whose other half is there too has its pointer, leading to the other
      half, exactly when its pair was made without a dark count and no memory error has hit either half. */
  lemma PointerExactly(c: Config, actions: seq<Action>, m: Memory, left: bool, x: nat)
    requires ValidConfig(c) && Reach(c, Start(c), actions, m) && Live(m, left, x) && Live(m, !left, x)
    ensures var h, g := CellOf(m.home, left, x), CellOf(m.home, !left, x);
            && (h in m.ptr && m.ptr[h] == g <==> exists i: nat :: BondedBy(actions, i, x))
            && (h in m.ptr ==> m.ptr[h] == g)
  {
    StartBonds(c);
    ReachBonds(c, [], Start(c), actions, m);
    assert [] + actions == actions;
    hide Reach, BondInv, Live, BondedBy;
    PointerOf(c, actions, m, left, x);
  }

  lemma PointerOf(c: Config, actions: seq<Action>, m: Memory, left: bool, x: nat)
    requires BondInv(c, actions, m) && Live(m, left, x) && Live(m, !left, x)
    ensures var h, g := CellOf(m.home, left, x), CellOf(m.home, !left, x);
            (h in m.ptr ==> m.ptr[h] == g) && (h in m.ptr <==> Bonded(actions, x))
  {
    InSets(m, left, x);
    InSets(m, !left, x);
    assert x in BondSet(actions) <==> Bonded(actions, x);
    hide Live, Inv, BothFates, Bonded, LiveSet, DoomedSet, Apart, Grounded;
    assert Sound(m.home, LiveSet(m), DoomedSet(m.t), m.ptr, left, x);
  }

  /** A half whose other half is gone keeps a pointer only when a failed purification dooms it. */
  lemma WidowUnlinked(c: Config, actions: seq<Action>, m: Memory, left: bool, x: nat)
    requires ValidConfig(c) && Reach(c, Start(c), actions, m) && Live(m, left, x) && !Live(m, !left, x)
    requires !Doomed(Side(m.t, left), SideHist(m.t, left).outs, SideHist(m.t, !left).outs, x)
    ensures CellOf(m.home, left, x) !in m.ptr
  {
    StartMemory(c);
    ReachKeeps(c, Start(c), actions, m);
    hide Reach, Live, Doomed;
    InSets(m, left, x);
    InSets(m, !left, x);
    hide Inv, BothFates, LiveSet, DoomedSet, Apart, Grounded;
    assert Sound(m.home, LiveSet(m), DoomedSet(m.t), m.ptr, left, x);
  }
}
