// The swapping nodes at work: every node follows its own rule, results travel in any
// order, and nothing tells a node when the others have swapped.
module Swapping {
  import P = PathDivision

  /** Node `node`'s qubit facing the far end (right) or the near end of the path. */
  datatype Half = Half(node: int, right: bool)

  /** Partner pointers; (node, partner) entries of the swapping rules' lists; results and
      resource notices on their way, each telling `node` that its partner is `partner`. */
  datatype Net = Net(ptr: map<Half, Half>, lists: multiset<(int, int)>, notices: multiset<(int, int)>, swapped: set<int>)

  datatype Event = Deliver(node: int, partner: int) | Swap(node: int)

  function Left(n: int, m: int): int
    requires 0 < m < n
  {
    P.Joined(0, n, m).lo
  }

  function Right(n: int, m: int): int
    requires 0 < m < n
  {
    P.Joined(0, n, m).hi
  }

  /** The partner addresses of a node's RuleSet: its rule's two, or the far end of the path. */
  predicate Wants(n: int, a: int, k: int) {
    if a == 0 then k == n
    else if a == n then k == 0
    else 0 < a < n && (k == Left(n, a) || k == Right(n, a))
  }

  function HalfTowards(a: int, k: int): Half {
    Half(a, k > a)
  }

  function FacingEachOther(h: Half): Half {
    if h.right then Half(h.node + 1, false) else Half(h.node - 1, true)
  }

  function Halves(n: int): set<Half> {
    (set j | 0 <= j < n :: Half(j, true)) + (set j | 0 < j <= n :: Half(j, false))
  }

  function FirstNotices(n: int): multiset<(int, int)> {
    if n <= 0 then multiset{} else FirstNotices(n - 1) + multiset{(n - 1, n), (n, n - 1)}
  }

  /** One fresh pair per hop; nobody has been told yet. */
  function Start(n: int): Net {
    Net(map h | h in Halves(n) :: FacingEachOther(h), multiset{}, FirstNotices(n), {})
  }

  predicate Enabled(n: int, s: Net, e: Event) {
    match e
    case Deliver(a, k) => (a, k) in s.notices
    case Swap(m) =>
      && 0 < m < n && (m, Left(n, m)) in s.lists && (m, Right(n, m)) in s.lists
      && HalfTowards(m, Left(n, m)) in s.ptr && HalfTowards(m, Right(n, m)) in s.ptr
  }

  /** A notice makes a resource of the qubit facing the new partner; the rule takes it if it asked
      for that partner.  A swap joins the two partner qubits and tells both partner nodes. */
  function Next(n: int, s: Net, e: Event): Net
    requires Enabled(n, s, e)
  {
    match e
    case Deliver(a, k) =>
      s.(notices := s.notices - multiset{(a, k)},
         lists := if Wants(n, a, k) then s.lists + multiset{(a, k)} else s.lists)
    case Swap(m) =>
      var lo, hi := Left(n, m), Right(n, m);
      var leftPartner, rightPartner := s.ptr[HalfTowards(m, lo)], s.ptr[HalfTowards(m, hi)];
      Net(s.ptr[rightPartner := leftPartner][leftPartner := rightPartner],
          s.lists - multiset{(m, lo), (m, hi)},
          s.notices + multiset{(lo, hi), (hi, lo)},
          s.swapped + {m})
  }

  predicate Run(n: int, s: Net, es: seq<Event>, t: Net)
    decreases es
  {
    if es == [] then s == t
    else Enabled(n, s, es[0]) && Run(n, Next(n, s, es[0]), es[1..], t)
  }

  // ---- what the plan gives ----------------------------------------------------------------------

  lemma PlanFacts(n: int, m: int)
    requires 0 < m < n
    ensures 0 <= Left(n, m) < m < Right(n, m) <= n
    ensures Left(n, m) > 0 ==> Left(n, Left(n, m)) < m < Right(n, Left(n, m))
    ensures Right(n, m) < n ==> Left(n, Right(n, m)) < m < Right(n, Right(n, m))
  {
    P.PartnersWait(0, n, m);
  }

  lemma PlanNested(n: int, x: int, m: int)
    requires 0 < m < n && x != m && Left(n, m) < x < Right(n, m)
    ensures 0 < x < n && Left(n, m) <= Left(n, x) && Right(n, x) <= Right(n, m)
    ensures Right(n, x) - Left(n, x) < Right(n, m) - Left(n, m)
  {
    P.Nested(0, n, x, m);
  }

  // ---- the invariant ----------------------------------------------------------------------------

  ghost predicate Clear(s: Net, a: int, b: int) {
    forall x :: a < x < b || b < x < a ==> x in s.swapped
  }

  /** Neighbours along the chain: both still there, everybody between them swapped out. */
  ghost predicate Neighbours(n: int, s: Net, a: int, b: int) {
    0 <= a < b <= n && a !in s.swapped && b !in s.swapped && Clear(s, a, b)
  }

  /** A node only swapped after everybody inside its stretch. */
  ghost predicate Closed(n: int, s: Net) {
    && (forall m :: m in s.swapped ==> 0 < m < n)
    && (forall m, x :: m in s.swapped && 0 < m < n && x != m && Left(n, m) < x < Right(n, m) ==> x in s.swapped)
  }

  ghost predicate PointersLive(n: int, s: Net) {
    && s.ptr.Keys == Halves(n)
    && forall a, b :: Neighbours(n, s, a, b) ==>
         && Half(a, true) in s.ptr && s.ptr[Half(a, true)] == Half(b, false)
         && Half(b, false) in s.ptr && s.ptr[Half(b, false)] == Half(a, true)
  }

  /** No pointer points back at a qubit that was measured in a swap. */
  ghost predicate PointersStale(n: int, s: Net) {
    forall h :: h in s.ptr ==> s.ptr[h] in s.ptr && (h.node in s.swapped ==> s.ptr[s.ptr[h]] != h)
  }

  function Tokens(s: Net, a: int, k: int): nat {
    s.notices[(a, k)] + s.lists[(a, k)]
  }

  /** A partner a rule asked for is announced or listed exactly while the two are neighbours. */
  ghost predicate Announced(n: int, s: Net) {
    forall a, k :: if Wants(n, a, k) then Tokens(s, a, k) == (if a !in s.swapped && Clear(s, a, k) then 1 else 0)
                   else s.lists[(a, k)] == 0
  }

  ghost predicate Inv(n: int, s: Net) {
    Closed(n, s) && PointersLive(n, s) && PointersStale(n, s) && Announced(n, s)
  }

  lemma {:induction false} FirstCounts(n: int, a: int, k: int)
    ensures FirstNotices(n)[(a, k)] == if 0 <= a <= n && 0 <= k <= n && (k == a + 1 || k == a - 1) then 1 else 0
    ensures n >= 0 ==> |FirstNotices(n)| == 2 * n
    decreases n
  {
    if n > 0 {
      FirstCounts(n - 1, a, k);
      var two := multiset{(n - 1, n), (n, n - 1)};
      assert two[(a, k)] == (if a == n - 1 && k == n then 1 else 0) + (if a == n && k == n - 1 then 1 else 0);
      assert FirstNotices(n)[(a, k)] == FirstNotices(n - 1)[(a, k)] + two[(a, k)];
    }
  }

  lemma StartClear(n: int, a: int, k: int)
    requires a != k
    ensures Clear(Start(n), a, k) <==> k == a + 1 || k == a - 1
  {
    assert a < a + 1 < k || k < a - 1 < a || k == a + 1 || k == a - 1;
    if a < a + 1 < k {
      assert a + 1 !in Start(n).swapped;
    } else if k < a - 1 < a {
      assert a - 1 !in Start(n).swapped;
    }
  }

  lemma StartAnnounced(n: int)
    requires n >= 1
    ensures Announced(n, Start(n))
  {
    hide Wants, Clear;
    var s := Start(n);
    forall a, k ensures if Wants(n, a, k) then Tokens(s, a, k) == (if a !in s.swapped && Clear(s, a, k) then 1 else 0)
                        else s.lists[(a, k)] == 0
    {
      WantsRange(n, a, k);
      FirstCounts(n, a, k);
      if a != k {
        StartClear(n, a, k);
      }
    }
  }

  lemma StartInv(n: int)
    requires n >= 1
    ensures Inv(n, Start(n))
  {
    hide Announced, Wants, Clear;
    StartAnnounced(n);
    forall a, b | Neighbours(n, Start(n), a, b) ensures b == a + 1 {
      StartClear(n, a, b);
    }
  }

  lemma DeliverAnnounced(n: int, s: Net, a: int, k: int, t: Net)
    requires Announced(n, s) && Enabled(n, s, Deliver(a, k)) && t == Next(n, s, Deliver(a, k))
    ensures Announced(n, t)
  {
    hide Wants;
    forall x, y ensures if Wants(n, x, y) then Tokens(t, x, y) == (if x !in t.swapped && Clear(t, x, y) then 1 else 0)
                        else t.lists[(x, y)] == 0
    {
      assert Clear(t, x, y) == Clear(s, x, y);
    }
  }

  lemma DeliverKeeps(n: int, s: Net, a: int, k: int)
    requires Inv(n, s) && Enabled(n, s, Deliver(a, k))
    ensures Inv(n, Next(n, s, Deliver(a, k)))
  {
    hide Announced, Wants, Left, Right;
    var t := Next(n, s, Deliver(a, k));
    DeliverAnnounced(n, s, a, k, t);
    forall x, y | Neighbours(n, t, x, y) ensures Neighbours(n, s, x, y) {
    }
  }

  /** A node that can swap has its rule's two partners as neighbours. */
  lemma SwapperIsBetween(n: int, s: Net, m: int)
    requires n >= 1 && Closed(n, s) && Announced(n, s) && 0 < m < n
    requires Tokens(s, m, Left(n, m)) > 0 && Tokens(s, m, Right(n, m)) > 0
    ensures Neighbours(n, s, Left(n, m), m) && Neighbours(n, s, m, Right(n, m))
  {
    PlanFacts(n, m);
    var lo, hi := Left(n, m), Right(n, m);
    assert Wants(n, m, lo) && Wants(n, m, hi);
    hide Left, Right, Wants;
    assert m !in s.swapped && Clear(s, m, lo) && Clear(s, m, hi);
  }

  /** After the swap the only new neighbours are the two partners. */
  lemma NewNeighbours(n: int, s: Net, t: Net, m: int, lo: int, hi: int, a: int, b: int)
    requires Neighbours(n, s, lo, m) && Neighbours(n, s, m, hi) && t.swapped == s.swapped + {m}
    requires Neighbours(n, t, a, b)
    ensures (Neighbours(n, s, a, b) && a != m && b != m) || (a == lo && b == hi)
  {
    if a < m < b {
      assert !(a < lo < b) && !(a < hi < b);
      assert !(lo < a < m) && !(m < b < hi);
    }
  }

  lemma SwapClosed(n: int, s: Net, t: Net, m: int)
    requires n >= 1 && Closed(n, s) && 0 < m < n && t.swapped == s.swapped + {m}
    requires Neighbours(n, s, Left(n, m), m) && Neighbours(n, s, m, Right(n, m))
    ensures Closed(n, t)
  {
    hide Left, Right;
  }

  lemma NextUnique(n: int, s: Net, a: int, b: int, c: int)
    requires Neighbours(n, s, a, b) && Neighbours(n, s, a, c)
    ensures b == c
  {
    assert !(a < b < c) && !(a < c < b);
  }

  lemma PreviousUnique(n: int, s: Net, a: int, b: int, c: int)
    requires Neighbours(n, s, a, c) && Neighbours(n, s, b, c)
    ensures a == b
  {
    assert !(a < b < c) && !(b < a < c);
  }

  lemma SwapLive(n: int, s: Net, m: int, lo: int, hi: int, t: Net)
    requires PointersLive(n, s) && Neighbours(n, s, lo, m) && Neighbours(n, s, m, hi) && t.swapped == s.swapped + {m}
    requires t.ptr == s.ptr[Half(hi, false) := Half(lo, true)][Half(lo, true) := Half(hi, false)]
    ensures PointersLive(n, t)
  {
    forall a, b | Neighbours(n, t, a, b)
      ensures Half(a, true) in t.ptr && Half(b, false) in t.ptr
           && t.ptr[Half(a, true)] == Half(b, false) && t.ptr[Half(b, false)] == Half(a, true)
    {
      NewNeighbours(n, s, t, m, lo, hi, a, b);
      if !(a == lo && b == hi) {
        if a == lo {
          NextUnique(n, s, lo, b, m);
        }
        if b == hi {
          PreviousUnique(n, s, a, m, hi);
        }
      }
    }
  }

  lemma SwapStale(n: int, s: Net, m: int, lo: int, hi: int, t: Net)
    requires PointersLive(n, s) && PointersStale(n, s)
    requires Neighbours(n, s, lo, m) && Neighbours(n, s, m, hi) && t.swapped == s.swapped + {m}
    requires t.ptr == s.ptr[Half(hi, false) := Half(lo, true)][Half(lo, true) := Half(hi, false)]
    ensures PointersStale(n, t)
  {
    SwapEnds(n, s, m, lo, hi);
    hide *;
    EveryStale(n, s, t, m, Half(lo, true), Half(hi, false));
  }

  lemma EveryStale(n: int, s: Net, t: Net, m: int, left: Half, right: Half)
    requires PointersStale(n, s) && left in s.ptr && right in s.ptr && left != right
    requires Half(m, false) in s.ptr && s.ptr[Half(m, false)] == left && Half(m, true) in s.ptr && s.ptr[Half(m, true)] == right
    requires t.ptr == s.ptr[right := left][left := right] && t.swapped == s.swapped + {m}
    requires left.node !in t.swapped && right.node !in t.swapped
    ensures PointersStale(n, t)
  {
    hide PointersStale, StaleAt;
    forall h | h in t.ptr ensures StaleAt(t, h) {
      StaleOne(n, s, t, m, left, right, h);
    }
    AllStale(n, t);
  }

  lemma SwapEnds(n: int, s: Net, m: int, lo: int, hi: int)
    requires PointersLive(n, s) && Neighbours(n, s, lo, m) && Neighbours(n, s, m, hi)
    ensures var left, right := Half(lo, true), Half(hi, false);
            && Half(m, false) in s.ptr && s.ptr[Half(m, false)] == left && left in s.ptr
            && Half(m, true) in s.ptr && s.ptr[Half(m, true)] == right && right in s.ptr
    ensures lo !in s.swapped && hi !in s.swapped && lo < m < hi
  {
    hide Clear;
  }

  predicate StaleAt(s: Net, h: Half)
    requires h in s.ptr
  {
    s.ptr[h] in s.ptr && (h.node in s.swapped ==> s.ptr[s.ptr[h]] != h)
  }

  lemma AllStale(n: int, s: Net)
    ensures (forall h :: h in s.ptr ==> StaleAt(s, h)) <==> PointersStale(n, s)
  {
  }

  lemma StaleOne(n: int, s: Net, t: Net, m: int, left: Half, right: Half, h: Half)
    requires PointersStale(n, s) && left in s.ptr && right in s.ptr && left != right
    requires Half(m, false) in s.ptr && s.ptr[Half(m, false)] == left && Half(m, true) in s.ptr && s.ptr[Half(m, true)] == right
    requires t.ptr == s.ptr[right := left][left := right] && t.swapped == s.swapped + {m}
    requires left.node !in t.swapped && right.node !in t.swapped && h in t.ptr
    ensures StaleAt(t, h)
  {
    if h != left && h != right {
      assert h in s.ptr && t.ptr[h] == s.ptr[h];
    }
  }

  lemma SwapAnnounced(n: int, s: Net, m: int, t: Net)
    requires n >= 1 && Closed(n, s) && Announced(n, s) && Enabled(n, s, Swap(m)) && t == Next(n, s, Swap(m))
    requires Neighbours(n, s, Left(n, m), m) && Neighbours(n, s, m, Right(n, m))
    ensures Announced(n, t)
  {
    var lo, hi := Left(n, m), Right(n, m);
    PlanFacts(n, m);
    assert Wants(n, m, lo) && Wants(n, m, hi);
    forall a, k ensures if Wants(n, a, k) then Tokens(t, a, k) == (if a !in t.swapped && Clear(t, a, k) then 1 else 0)
                        else t.lists[(a, k)] == 0
    {
      WantedStep(n, s, m, t, a, k);
    }
  }

  lemma WantedStep(n: int, s: Net, m: int, t: Net, a: int, k: int)
    requires n >= 1 && Closed(n, s) && Announced(n, s) && Enabled(n, s, Swap(m)) && t == Next(n, s, Swap(m))
    requires Neighbours(n, s, Left(n, m), m) && Neighbours(n, s, m, Right(n, m))
    requires Wants(n, m, Left(n, m)) && Wants(n, m, Right(n, m)) && Left(n, m) < m < Right(n, m)
    ensures Wants(n, a, k) ==> Tokens(t, a, k) == if a !in t.swapped && Clear(t, a, k) then 1 else 0
    ensures !Wants(n, a, k) ==> t.lists[(a, k)] == 0
  {
    WantsRange(n, a, k);
    var lo, hi := Left(n, m), Right(n, m);
    hide Left, Right, Wants;
    if a == m {
    } else if Wants(n, a, k) {
      assert t.lists[(a, k)] == s.lists[(a, k)];
      if (a, k) == (lo, hi) || (a, k) == (hi, lo) {
        assert Clear(t, a, k);
        assert !Clear(s, a, k);
      } else {
        assert t.notices[(a, k)] == s.notices[(a, k)];
        if a !in t.swapped && Clear(t, a, k) {
          assert Neighbours(n, t, a, k) || Neighbours(n, t, k, a) || k in t.swapped;
          PartnerStays(n, t, a, k);
          NewNeighbours(n, s, t, m, lo, hi, if a < k then a else k, if a < k then k else a);
        }
      }
    }
  }

  lemma WantsRange(n: int, a: int, k: int)
    requires n >= 1
    ensures Wants(n, a, k) ==> 0 <= a <= n && 0 <= k <= n && a != k
  {
    if 0 < a < n {
      PlanFacts(n, a);
    }
  }

  /** A wanted partner cannot be swapped out before the node that wants it. */
  lemma PartnerStays(n: int, s: Net, a: int, k: int)
    requires n >= 1 && Closed(n, s) && Wants(n, a, k) && a !in s.swapped
    ensures k !in s.swapped
  {
    if 0 < a < n {
      PlanFacts(n, a);
    }
  }

  lemma SwapEffect(n: int, s: Net, m: int)
    requires Enabled(n, s, Swap(m)) && PointersLive(n, s)
    requires Left(n, m) < m && Neighbours(n, s, Left(n, m), m) && Neighbours(n, s, m, Right(n, m))
    ensures var left, right := Half(Left(n, m), true), Half(Right(n, m), false);
            Next(n, s, Swap(m)).ptr == s.ptr[right := left][left := right]
  {
    hide Left, Right, Wants, Clear;
  }

  lemma SwapKeeps(n: int, s: Net, m: int)
    requires n >= 1 && Inv(n, s) && Enabled(n, s, Swap(m))
    ensures Inv(n, Next(n, s, Swap(m)))
    ensures m !in s.swapped
  {
    hide Closed, PointersLive, PointersStale, Announced, Left, Right, Wants, Clear;
    var t, lo, hi := Next(n, s, Swap(m)), Left(n, m), Right(n, m);
    SwapperIsBetween(n, s, m);
    PlanFacts(n, m);
    SwapEffect(n, s, m);
    SwapClosed(n, s, t, m);
    SwapLive(n, s, m, lo, hi, t);
    SwapStale(n, s, m, lo, hi, t);
    SwapAnnounced(n, s, m, t);
  }

  // ---- theorems -----------------------------------------------------------------------------

  /** Work still to do: three units per node that has not swapped and one per notice on its way. */
  function Work(n: int, s: Net): int {
    3 * (n - 1 - |s.swapped|) + |s.notices|
  }

  function Swaps(es: seq<Event>): nat {
    if es == [] then 0 else (if es[0].Swap? then 1 else 0) + Swaps(es[1..])
  }

  lemma StepKeeps(n: int, s: Net, e: Event)
    requires n >= 1 && Inv(n, s) && Enabled(n, s, e)
    ensures Inv(n, Next(n, s, e))
    ensures Work(n, Next(n, s, e)) == Work(n, s) - 1
    ensures |Next(n, s, e).swapped| == |s.swapped| + if e.Swap? then 1 else 0
  {
    hide Inv, Left, Right, Wants;
    match e
    case Deliver(a, k) =>
      DeliverKeeps(n, s, a, k);
    case Swap(m) =>
      SwapKeeps(n, s, m);
  }

  lemma {:induction false} RunKeeps(n: int, s: Net, es: seq<Event>, t: Net)
    requires n >= 1 && Inv(n, s) && Run(n, s, es, t)
    ensures Inv(n, t)
    ensures Work(n, t) == Work(n, s) - |es|
    ensures |t.swapped| == |s.swapped| + Swaps(es)
    decreases es
  {
    hide Inv, Enabled;
    if es != [] {
      StepKeeps(n, s, es[0]);
      RunKeeps(n, Next(n, s, es[0]), es[1..], t);
    }
  }

  /** Two qubits point at each other across the nodes a and b. */
  predicate Linked(s: Net, a: int, b: int) {
    && Half(a, true) in s.ptr && s.ptr[Half(a, true)] == Half(b, false)
    && Half(b, false) in s.ptr && s.ptr[Half(b, false)] == Half(a, true)
  }

  function Inner(n: int): set<int> {
    if n <= 1 then {} else Inner(n - 1) + {n - 1}
  }

  lemma {:induction false} InnerIs(n: int)
    requires n >= 1
    ensures |Inner(n)| == n - 1
    ensures forall m :: m in Inner(n) <==> 0 < m < n
  {
    if n > 1 {
      InnerIs(n - 1);
    }
  }

  lemma InnerCount(n: int, d: set<int>)
    requires n >= 1 && forall m :: m in d ==> 0 < m < n
    ensures |d| <= n - 1
    ensures (forall m :: 0 < m < n ==> m in d) ==> |d| == n - 1
  {
    InnerIs(n);
    forall m | m in d ensures m in Inner(n) {
    }
    SubsetSize(d, Inner(n));
    if forall m :: 0 < m < n ==> m in d {
      assert d == Inner(n);
    }
  }

  lemma SubsetSize(a: set<int>, b: set<int>)
    requires a <= b
    ensures |a| <= |b| && (|a| == |b| ==> a == b)
  {
    assert b == a + (b - a);
    assert |b| == |a| + |b - a|;
  }

  /** The next node towards the far end that has not swapped. */
  lemma {:induction false} NextNeighbour(n: int, s: Net, a: int, c: int) returns (b: int)
    requires 0 <= a < c <= n && a !in s.swapped && n !in s.swapped
    requires forall x :: a < x < c ==> x in s.swapped
    ensures Neighbours(n, s, a, b)
    decreases n - c
  {
    if c in s.swapped {
      b := NextNeighbour(n, s, a, c + 1);
    } else {
      b := c;
    }
  }

  lemma LinkedNeighbours(n: int, s: Net, a: int, b: int)
    requires n >= 1 && Inv(n, s)
    ensures Linked(s, a, b) <==> Neighbours(n, s, a, b)
  {
    if Linked(s, a, b) {
      assert 0 <= a < n && 0 < b <= n;
      assert a !in s.swapped && b !in s.swapped;
      var c := NextNeighbour(n, s, a, a + 1);
    }
  }

  lemma Reached(n: int, es: seq<Event>, t: Net)
    requires n >= 1 && Run(n, Start(n), es, t)
    ensures Inv(n, t) && Closed(n, t)
    ensures Work(n, t) == 5 * n - 3 - |es|
    ensures |t.swapped| == Swaps(es)
  {
    hide Run, Left, Right, Enabled, PointersLive, PointersStale, Announced;
    StartInv(n);
    RunKeeps(n, Start(n), es, t);
    FirstCounts(n, 0, 0);
  }

  /** Whatever the order of events, the links are a chain over the nodes that have not swapped,
      from one end of the path to the other. */
  lemma ChainAlways(n: int, es: seq<Event>, t: Net, a: int, b: int)
    requires n >= 1 && Run(n, Start(n), es, t)
    ensures Linked(t, a, b) <==>
              0 <= a < b <= n && a !in t.swapped && b !in t.swapped && forall x :: a < x < b ==> x in t.swapped
    ensures 0 !in t.swapped && n !in t.swapped
  {
    hide Inv, Run, Start, Linked, Left, Right;
    Reached(n, es, t);
    LinkedNeighbours(n, t, a, b);
  }

  /** The partners node a's rule names: the two ends of the stretch it joins, for an end node the other end. */
  predicate PartnerOf(n: int, a: int, k: int) {
    if 0 < a < n then k == P.Joined(0, n, a).lo || k == P.Joined(0, n, a).hi
    else (a == 0 && k == n) || (a == n && k == 0)
  }

  /** A node lists a partner only when its rule names it, and once; it has been told of it or lists it exactly
      while it has not swapped itself and everybody between the two has. */
  lemma ListedExactly(n: int, es: seq<Event>, t: Net, a: int, k: int)
    requires n >= 1 && Run(n, Start(n), es, t)
    ensures t.lists[(a, k)] <= 1 && ((a, k) in t.lists ==> PartnerOf(n, a, k))
    ensures PartnerOf(n, a, k) ==>
              ((a, k) in t.lists || (a, k) in t.notices <==> a !in t.swapped && forall x :: a < x < k || k < x < a ==> x in t.swapped)
  {
    hide Inv, Run, Start;
    Reached(n, es, t);
    AnnouncedAt(n, t, a, k);
    assert Wants(n, a, k) <==> PartnerOf(n, a, k);
  }

  lemma AnnouncedAt(n: int, s: Net, a: int, k: int)
    requires Inv(n, s)
    ensures if Wants(n, a, k) then Tokens(s, a, k) == (if a !in s.swapped && Clear(s, a, k) then 1 else 0) else s.lists[(a, k)] == 0
  {
    hide Closed, PointersLive, PointersStale, Wants, Clear;
  }

  /** A node that has not swapped, all of whose inner nodes have. */
  lemma {:induction false} Innermost(n: int, s: Net, m: int) returns (k: int)
    requires n >= 1 && 0 < m < n && m !in s.swapped
    ensures 0 < k < n && k !in s.swapped
    ensures forall x :: Left(n, k) < x < Right(n, k) && x != k ==> x in s.swapped
    decreases Right(n, m) - Left(n, m)
  {
    hide Left, Right;
    if x :| Left(n, m) < x < Right(n, m) && x != m && x !in s.swapped {
      PlanNested(n, x, m);
      PlanFacts(n, x);
      k := Innermost(n, s, x);
    } else {
      k := m;
    }
  }

  lemma ReadyOrToldSoon(n: int, s: Net, k: int) returns (e: Event)
    requires n >= 1 && Inv(n, s) && 0 < k < n && k !in s.swapped
    requires forall x :: Left(n, k) < x < Right(n, k) && x != k ==> x in s.swapped
    ensures Enabled(n, s, e)
  {
    PlanFacts(n, k);
    var lo, hi := Left(n, k), Right(n, k);
    assert Wants(n, k, lo) && Wants(n, k, hi);
    hide Left, Right, Wants;
    assert Clear(s, k, lo) && Clear(s, k, hi);
    assert Tokens(s, k, lo) == 1 && Tokens(s, k, hi) == 1;
    if (k, lo) in s.notices {
      e := Deliver(k, lo);
    } else if (k, hi) in s.notices {
      e := Deliver(k, hi);
    } else {
      e := Swap(k);
    }
  }

  /** No deadlock: while some node has not swapped, something can happen. */
  lemma NoDeadlock(n: int, es: seq<Event>, t: Net, m: int) returns (e: Event)
    requires n >= 1 && Run(n, Start(n), es, t) && 0 < m < n && m !in t.swapped
    ensures Enabled(n, t, e)
  {
    hide Inv, Run, Start, Left, Right, Enabled;
    Reached(n, es, t);
    var k := Innermost(n, t, m);
    e := ReadyOrToldSoon(n, t, k);
  }

  /** Every run ends: it has at most 5n-3 events. */
  lemma RunsEnd(n: int, es: seq<Event>, t: Net)
    requires n >= 1 && Run(n, Start(n), es, t)
    ensures |es| <= 5 * n - 3
    ensures Swaps(es) == |t.swapped| <= n - 1
  {
    hide Inv, Run, Start, Left, Right, Enabled;
    Reached(n, es, t);
    InnerCount(n, t.swapped);
  }

  /** Every run that cannot go on made exactly n-1 swaps, left the one end-to-end link, and told
      both ends about it. */
  lemma MaximalRun(n: int, es: seq<Event>, t: Net, a: int, b: int)
    requires n >= 1 && Run(n, Start(n), es, t)
    requires forall e :: !Enabled(n, t, e)
    ensures Swaps(es) == n - 1 && |es| == 5 * n - 3
    ensures Linked(t, a, b) <==> a == 0 && b == n
    ensures t.lists[(0, n)] == 1 && t.lists[(n, 0)] == 1
  {
    hide Inv, Run, Start, Left, Right, Enabled, Linked;
    Reached(n, es, t);
    forall m | 0 < m < n ensures m in t.swapped {
      if m !in t.swapped {
        var e := NoDeadlock(n, es, t, m);
      }
    }
    InnerCount(n, t.swapped);
    NoNotices(n, t);
    ChainAlways(n, es, t, a, b);
    EndsTold(n, t);
  }

  lemma EndsTold(n: int, t: Net)
    requires n >= 1 && Inv(n, t) && t.notices == multiset{}
    requires forall m :: 0 < m < n ==> m in t.swapped
    ensures t.lists[(0, n)] == 1 && t.lists[(n, 0)] == 1
  {
    hide Left, Right;
    assert Wants(n, 0, n) && Wants(n, n, 0);
    assert Clear(t, 0, n) && Clear(t, n, 0);
  }

  lemma NoNotices(n: int, t: Net)
    requires forall e :: !Enabled(n, t, e)
    ensures t.notices == multiset{}
  {
    if x :| x in t.notices {
      assert Enabled(n, t, Deliver(x.0, x.1));
    }
  }
}
