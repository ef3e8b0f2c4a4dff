// The swapping planner: a path is bisected recursively and the pieces are written into
// three parallel arrays, from which the partners of every swapping node are read.
module PathDivision {
  import opened Basics

  /** A stretch of the path between two positions: a real link (mid == -1) or one a swapper makes. */
  datatype Split = Split(lo: int, hi: int, mid: int)

  function DivisionSize(l: int): int {
    if l > 1 then DivisionSize(l / 2) + DivisionSize(l - l / 2) + 1 else l
  }

  /** The pieces of l hops from position i on, in the order they are written. */
  function Splits(i: int, l: int): seq<Split>
    decreases l
  {
    if l <= 0 then []
    else if l == 1 then [Split(i, i + 1, -1)]
    else Splits(i, l / 2) + Splits(i + l / 2, l - l / 2) + [Split(i, i + l, i + l / 2)]
  }

  lemma Unfold(i: int, l: int)
    ensures l <= 0 ==> Splits(i, l) == []
    ensures l == 1 ==> Splits(i, l) == [Split(i, i + 1, -1)]
    ensures l > 1 ==> Splits(i, l) == Splits(i, l / 2) + Splits(i + l / 2, l - l / 2) + [Split(i, i + l, i + l / 2)]
  {
  }

  /** The exact array size: 2l-1 pieces, and the number allocated beforehand is that number. */
  lemma {:induction false} ExactSize(i: int, l: int)
    ensures l <= 1 ==> DivisionSize(l) == l
    ensures l >= 1 ==> DivisionSize(l) == |Splits(i, l)| == 2 * l - 1
    decreases l
  {
    if l > 1 {
      ExactSize(i, l / 2);
      ExactSize(i + l / 2, l - l / 2);
    }
  }

  /** The stretch that position m joins. */
  function Joined(i: int, l: int, m: int): (s: Split)
    requires i < m < i + l
    ensures i <= s.lo < m < s.hi <= i + l && s.mid == m
    decreases l
  {
    var mid := i + l / 2;
    if m == mid then Split(i, i + l, m)
    else if m < mid then Joined(i, l / 2, m)
    else Joined(mid, l - l / 2, m)
  }

  /** One real link per hop, and one stretch per inner position. */
  predicate Piece(i: int, l: int, s: Split) {
    || (s.mid == -1 && i <= s.lo < i + l && s.hi == s.lo + 1)
    || (i < s.mid < i + l && s == Joined(i, l, s.mid))
  }

  lemma InParts(i: int, l: int, s: Split)
    requires l > 1
    ensures s in Splits(i, l) <==>
              s in Splits(i, l / 2) || s in Splits(i + l / 2, l - l / 2) || s == Split(i, i + l, i + l / 2)
  {
  }

  lemma PieceParts(i: int, l: int, s: Split)
    requires i >= 0 && l > 1
    ensures Piece(i, l, s) <==>
              Piece(i, l / 2, s) || Piece(i + l / 2, l - l / 2, s) || s == Split(i, i + l, i + l / 2)
  {
  }

  /** The list holds exactly those pieces. */
  lemma {:induction false} SplitsExact(i: int, l: int, s: Split)
    requires i >= 0 && l >= 1
    ensures s in Splits(i, l) <==> Piece(i, l, s)
    decreases l
  {
    hide Piece;
    if l > 1 {
      SplitsExact(i, l / 2, s);
      SplitsExact(i + l / 2, l - l / 2, s);
      InParts(i, l, s);
      PieceParts(i, l, s);
    } else {
      assert Piece(i, l, s) <==> s == Split(i, i + 1, -1) by {
        RealLink(i, s);
      }
    }
  }

  lemma RealLink(i: int, s: Split)
    requires i >= 0
    ensures Piece(i, 1, s) <==> s == Split(i, i + 1, -1)
  {
  }

  /** Every swapper stands in the middle of its stretch, the left part rounded down. */
  lemma {:induction false} Halved(i: int, l: int, m: int)
    requires i < m < i + l
    ensures var s := Joined(i, l, m); m - s.lo == (s.hi - s.lo) / 2
    decreases l
  {
    var mid := i + l / 2;
    if m < mid {
      Halved(i, l / 2, m);
    } else if m > mid {
      Halved(mid, l - l / 2, m);
    }
  }

  /** a is written before b: it ends further left, or at the same place and is the shorter one. */
  predicate Earlier(a: Split, b: Split) {
    a.hi < b.hi || (a.hi == b.hi && a.lo > b.lo)
  }

  /** The pieces are written from left to right, the inner ones first. */
  lemma {:induction false} SplitsOrder(i: int, l: int)
    ensures forall s :: s in Splits(i, l) ==> i <= s.lo < s.hi <= i + l
    ensures forall j, k :: 0 <= j < k < |Splits(i, l)| ==> Earlier(Splits(i, l)[j], Splits(i, l)[k])
    decreases l
  {
    hide Splits;
    Unfold(i, l);
    if l > 1 {
      var a, b, whole := Splits(i, l / 2), Splits(i + l / 2, l - l / 2), Split(i, i + l, i + l / 2);
      SplitsOrder(i, l / 2);
      SplitsOrder(i + l / 2, l - l / 2);
      OrderJoin(a, b, whole);
    }
  }

  lemma OrderJoin(a: seq<Split>, b: seq<Split>, w: Split)
    requires forall j, k :: 0 <= j < k < |a| ==> Earlier(a[j], a[k])
    requires forall j, k :: 0 <= j < k < |b| ==> Earlier(b[j], b[k])
    requires forall s, t :: s in a && t in b ==> Earlier(s, t)
    requires (forall s :: s in a ==> Earlier(s, w)) && (forall s :: s in b ==> Earlier(s, w))
    ensures forall j, k :: 0 <= j < k < |a + b + [w]| ==> Earlier((a + b + [w])[j], (a + b + [w])[k])
  {
    hide Earlier;
    var c := a + b;
    forall j, k | 0 <= j < k < |c + [w]| ensures Earlier((c + [w])[j], (c + [w])[k]) {
      assert c[j] in a || c[j] in b;
      assert j < |a| ==> c[j] == a[j];
      assert k < |c| && k >= |a| ==> c[k] == b[k - |a|];
    }
  }

  /** So no piece is written twice. */
  lemma SplitsOnce(i: int, l: int)
    ensures forall j, k :: 0 <= j < k < |Splits(i, l)| ==> Splits(i, l)[j] != Splits(i, l)[k]
  {
    hide Splits;
    SplitsOrder(i, l);
  }

  /** The last piece is the whole stretch. */
  lemma WholeLast(i: int, l: int)
    requires l >= 1
    ensures Splits(i, l) != []
    ensures var s := Splits(i, l)[|Splits(i, l)| - 1]; s.lo == i && s.hi == i + l
  {
  }

  /** Some piece before position k goes from lo to hi. */
  predicate Before(s: seq<Split>, k: int, lo: int, hi: int) {
    exists j :: 0 <= j < k && j < |s| && s[j].lo == lo && s[j].hi == hi
  }

  lemma BeforeAppend(s: seq<Split>, t: seq<Split>, k: int, lo: int, hi: int)
    requires Before(s, k, lo, hi)
    ensures Before(s + t, k, lo, hi)
  {
    var j :| 0 <= j < k && j < |s| && s[j].lo == lo && s[j].hi == hi;
    assert (s + t)[j] == s[j];
  }

  lemma BeforePrepend(s: seq<Split>, t: seq<Split>, k: int, lo: int, hi: int)
    requires Before(t, k, lo, hi)
    ensures Before(s + t, |s| + k, lo, hi)
  {
    var j :| 0 <= j < k && j < |t| && t[j].lo == lo && t[j].hi == hi;
    assert (s + t)[|s| + j] == t[j];
  }

  /** Both stretches a swapper joins are written before the one it makes. */
  lemma {:induction false} PostOrder(i: int, l: int, k: nat)
    requires i >= 0 && k < |Splits(i, l)| && Splits(i, l)[k].mid != -1
    ensures var s := Splits(i, l)[k]; Before(Splits(i, l), k, s.lo, s.mid) && Before(Splits(i, l), k, s.mid, s.hi)
    decreases l
  {
    hide Splits;
    Unfold(i, l);
    var hl := l / 2;
    var a, b := Splits(i, hl), Splits(i + hl, l - hl);
    var whole := [Split(i, i + l, i + hl)];
    assert Splits(i, l) == a + b + whole;
    var s := Splits(i, l)[k];
    if k < |a| {
      PostOrder(i, hl, k);
      BeforeAppend(a, b, k, s.lo, s.mid);
      BeforeAppend(a, b, k, s.mid, s.hi);
      BeforeAppend(a + b, whole, k, s.lo, s.mid);
      BeforeAppend(a + b, whole, k, s.mid, s.hi);
    } else if k < |a| + |b| {
      PostOrder(i + hl, l - hl, k - |a|);
      BeforePrepend(a, b, k - |a|, s.lo, s.mid);
      BeforePrepend(a, b, k - |a|, s.mid, s.hi);
      BeforeAppend(a + b, whole, k, s.lo, s.mid);
      BeforeAppend(a + b, whole, k, s.mid, s.hi);
    } else {
      WholeLast(i, hl);
      WholeLast(i + hl, l - hl);
      assert (a + b + whole)[|a| - 1] == a[|a| - 1];
      assert (a + b + whole)[|a| + |b| - 1] == b[|b| - 1];
      assert Before(a + b + whole, k, s.lo, s.mid);
      assert Before(a + b + whole, k, s.mid, s.hi);
    }
  }

  // ---- the arrays ---------------------------------------------------------------------------

  predicate InPath(path: seq<int>, s: Split) {
    0 <= s.lo < |path| && 0 <= s.hi < |path| && (s.mid == -1 || 0 <= s.mid < |path|)
  }

  function SwapperAddress(path: seq<int>, s: Split): int
    requires InPath(path, s)
  {
    if s.mid == -1 then -1 else path[s.mid]
  }

  /** Cells start, start+1, ... of the three arrays hold the pieces. */
  predicate Holds(path: seq<int>, left: seq<int>, right: seq<int>, swapper: seq<int>, start: nat, s: seq<Split>) {
    && start + |s| <= |left| && start + |s| <= |right| && start + |s| <= |swapper|
    && forall k :: 0 <= k < |s| ==>
         && InPath(path, s[k])
         && left[start + k] == path[s[k].lo]
         && right[start + k] == path[s[k].hi]
         && swapper[start + k] == SwapperAddress(path, s[k])
  }

  lemma HoldsAppend(path: seq<int>, left: seq<int>, right: seq<int>, swapper: seq<int>, start: nat, s: seq<Split>, t: seq<Split>)
    requires Holds(path, left, right, swapper, start, s) && Holds(path, left, right, swapper, start + |s|, t)
    ensures Holds(path, left, right, swapper, start, s + t)
  {
    forall k | 0 <= k < |s + t|
      ensures InPath(path, (s + t)[k]) && left[start + k] == path[(s + t)[k].lo] && right[start + k] == path[(s + t)[k].hi]
           && swapper[start + k] == SwapperAddress(path, (s + t)[k])
    {
      if k >= |s| {
        assert (s + t)[k] == t[k - |s|];
        assert start + k == start + |s| + (k - |s|);
      }
    }
  }

  predicate SameOutside(a: seq<int>, b: seq<int>, from: nat, to: nat) {
    |a| == |b| && forall k :: 0 <= k < |a| && (k < from || to <= k) ==> a[k] == b[k]
  }

  /** Cells outside the part already written may change. */
  lemma HoldsKept(path: seq<int>, left: seq<int>, right: seq<int>, swapper: seq<int>,
                  left': seq<int>, right': seq<int>, swapper': seq<int>, start: nat, s: seq<Split>, to: nat)
    requires Holds(path, left, right, swapper, start, s)
    requires SameOutside(left, left', start + |s|, to) && SameOutside(right, right', start + |s|, to)
    requires SameOutside(swapper, swapper', start + |s|, to)
    ensures Holds(path, left', right', swapper', start, s)
  {
  }

  lemma WriteNext(path: seq<int>, left: seq<int>, right: seq<int>, swapper: seq<int>, start: nat, s: seq<Split>, e: Split)
    requires Holds(path, left, right, swapper, start, s) && InPath(path, e)
    requires start + |s| < |left| && start + |s| < |right| && start + |s| < |swapper|
    ensures Holds(path, left[start + |s| := path[e.lo]], right[start + |s| := path[e.hi]],
                  swapper[start + |s| := SwapperAddress(path, e)], start, s + [e])
  {
  }

  lemma OutsideChain(a: seq<int>, b: seq<int>, c: seq<int>, from: nat, mid: nat, to: nat)
    requires from <= mid <= to && SameOutside(a, b, from, mid) && SameOutside(b, c, mid, to)
    ensures SameOutside(a, c, from, to)
  {
  }

  predicate Fits(left: array<int>, right: array<int>, swapper: array<int>, n: nat) {
    && left != right && left != swapper && right != swapper
    && n <= left.Length && n <= right.Length && n <= swapper.Length
  }

  /** Write the pieces of l hops from position i on, beginning at cell `start`; nothing else changes. */
  method Fill(path: seq<int>, i: int, l: int, left: array<int>, right: array<int>, swapper: array<int>, start: nat)
    returns (next: nat)
    requires 0 <= i && (l > 0 ==> i + l < |path|)
    requires Fits(left, right, swapper, start + |Splits(i, l)|)
    modifies left, right, swapper
    ensures next == start + |Splits(i, l)|
    ensures Holds(path, left[..], right[..], swapper[..], start, Splits(i, l))
    ensures l > 0 ==> next > start && left[next - 1] == path[i] && right[next - 1] == path[i + l]
    ensures SameOutside(old(left[..]), left[..], start, next)
    ensures SameOutside(old(right[..]), right[..], start, next)
    ensures SameOutside(old(swapper[..]), swapper[..], start, next)
    decreases l, 1
  {
    hide Holds, SameOutside, Splits;
    Unfold(i, l);
    next := start;
    ghost var e := Split(i, i + l, if l == 1 then -1 else i + l / 2);
    ghost var done: seq<Split> := [];
    ghost var l0, r0, s0 := left[..], right[..], swapper[..];
    ghost var l1, r1, s1 := l0, r0, s0;
    NothingYet(path, l0, r0, s0, start);
    if l > 1 {
      done := Splits(i, l / 2) + Splits(i + l / 2, l - l / 2);
      next := FillHalves(path, i, l, left, right, swapper, next);
      l1, r1, s1 := left[..], right[..], swapper[..];
      swapper[next] := path[i + l / 2];
    }
    if l > 0 {
      left[next] := path[i];
      right[next] := path[i + l];
      if l == 1 {
        swapper[next] := -1;
      }
      assert left[..] == l1[next := path[i]] && right[..] == r1[next := path[i + l]];
      assert swapper[..] == s1[next := SwapperAddress(path, e)];
      assert Splits(i, l) == done + [e];
      WriteNext(path, l1, r1, s1, start, done, e);
      OneMore(l0, l1, start, next, path[i]);
      OneMore(r0, r1, start, next, path[i + l]);
      OneMore(s0, s1, start, next, SwapperAddress(path, e));
      next := next + 1;
    } else {
      assert left[..] == l0 && right[..] == r0 && swapper[..] == s0;
    }
  }

  /** The two recursive calls of Fill. */
  method FillHalves(path: seq<int>, i: int, l: int, left: array<int>, right: array<int>, swapper: array<int>, start: nat)
    returns (next: nat)
    requires 0 <= i && l > 1 && i + l < |path|
    requires Fits(left, right, swapper, start + |Splits(i, l / 2)| + |Splits(i + l / 2, l - l / 2)|)
    modifies left, right, swapper
    ensures next == start + |Splits(i, l / 2)| + |Splits(i + l / 2, l - l / 2)|
    ensures Holds(path, left[..], right[..], swapper[..], start, Splits(i, l / 2) + Splits(i + l / 2, l - l / 2))
    ensures SameOutside(old(left[..]), left[..], start, next)
    ensures SameOutside(old(right[..]), right[..], start, next)
    ensures SameOutside(old(swapper[..]), swapper[..], start, next)
    decreases l, 0
  {
    hide Holds, SameOutside, Splits;
    var hl := l / 2;
    ghost var a, b := Splits(i, hl), Splits(i + hl, l - hl);
    ghost var l0, r0, s0 := left[..], right[..], swapper[..];
    var mid := Fill(path, i, hl, left, right, swapper, start);
    ghost var l1, r1, s1 := left[..], right[..], swapper[..];
    next := Fill(path, i + hl, l - hl, left, right, swapper, mid);
    HoldsKept(path, l1, r1, s1, left[..], right[..], swapper[..], start, a, next);
    HoldsAppend(path, left[..], right[..], swapper[..], start, a, b);
    OutsideChain(l0, l1, left[..], start, mid, next);
    OutsideChain(r0, r1, right[..], start, mid, next);
    OutsideChain(s0, s1, swapper[..], start, mid, next);
  }

  lemma NothingYet(path: seq<int>, left: seq<int>, right: seq<int>, swapper: seq<int>, start: nat)
    requires start <= |left| && start <= |right| && start <= |swapper|
    ensures Holds(path, left, right, swapper, start, [])
    ensures SameOutside(left, left, start, start) && SameOutside(right, right, start, start)
    ensures SameOutside(swapper, swapper, start, start)
  {
  }

  lemma OneMore(a: seq<int>, b: seq<int>, from: nat, to: nat, v: int)
    requires SameOutside(a, b, from, to) && from <= to < |b|
    ensures SameOutside(a, b[to := v], from, to + 1)
  {
  }

  // ---- the rules of the swapping nodes ---------------------------------------------------------

  /** The first cell naming this swapper, or n. */
  function FirstCell(swapper: seq<int>, address: int, n: nat): (k: nat)
    requires n <= |swapper|
    ensures k <= n && (k < n ==> swapper[k] == address) && forall j :: 0 <= j < k ==> swapper[j] != address
  {
    if n == 0 then 0
    else
      var k := FirstCell(swapper, address, n - 1);
      if k < n - 1 || swapper[n - 1] == address then k else n
  }

  lemma FirstCellStep(swapper: seq<int>, i: nat)
    requires i < |swapper|
    ensures forall a :: FirstCell(swapper, a, i + 1)
                     == if FirstCell(swapper, a, i) < i || swapper[i] == a then FirstCell(swapper, a, i) else i + 1
  {
  }

  /** Partners by swapper; a repeated key keeps its first partners. */
  method PartnerMap(left: array<int>, right: array<int>, swapper: array<int>, n: nat)
    returns (partners: map<int, (int, int)>, swappers: seq<int>)
    requires n <= left.Length && n <= right.Length && n <= swapper.Length
    ensures forall a :: a in partners <==> a > 0 && FirstCell(swapper[..], a, n) < n
    ensures forall a :: a in partners ==> partners[a] == (left[FirstCell(swapper[..], a, n)], right[FirstCell(swapper[..], a, n)])
    ensures forall a :: a in swappers <==> a in partners
  {
    hide FirstCell;
    partners, swappers := map[], [];
    ghost var cells := swapper[..];
    var i := 0;
    while i < n
      invariant 0 <= i <= n
      invariant forall a :: a in partners <==> a > 0 && FirstCell(cells, a, i) < i
      invariant forall a :: a in partners ==> partners[a] == (left[FirstCell(cells, a, i)], right[FirstCell(cells, a, i)])
      invariant forall a :: a in swappers <==> a in partners
    {
      FirstCellStep(cells, i);
      if swapper[i] > 0 {
        if swapper[i] !in partners {
          partners := partners[swapper[i] := (left[i], right[i])];
        }
        swappers := swappers + [swapper[i]];
      }
      i := i + 1;
    }
  }

  predicate Addresses(path: seq<int>) {
    && (forall j :: 0 <= j < |path| ==> path[j] > 0)
    && (forall j, k :: 0 <= j < k < |path| ==> path[j] != path[k])
  }

  /** The only cell naming the node at an inner position is the one of the stretch it joins. */
  lemma CellOf(path: seq<int>, left: seq<int>, right: seq<int>, swapper: seq<int>, m: nat)
    requires Addresses(path) && 0 < m < |path| - 1
    requires Holds(path, left, right, swapper, 0, Splits(0, |path| - 1))
    ensures var k, n := FirstCell(swapper, path[m], |Splits(0, |path| - 1)|), |Splits(0, |path| - 1)|;
            k < n && left[k] == path[Joined(0, |path| - 1, m).lo] && right[k] == path[Joined(0, |path| - 1, m).hi]
  {
    hide Splits, Joined;
    var l := |path| - 1;
    var s, j := Splits(0, l), Joined(0, l, m);
    SplitsExact(0, l, j);
    var c :| 0 <= c < |s| && s[c] == j;
    var k := FirstCell(swapper, path[m], |s|);
    assert swapper[0 + c] == path[m];
    assert k <= c;
    assert left[0 + k] == path[s[k].lo] && swapper[0 + k] == SwapperAddress(path, s[k]);
    assert s[k].mid == m;
    SplitsExact(0, l, s[k]);
  }

  /** The ends of the path are swappers of no cell. */
  lemma EndsAbsent(path: seq<int>, left: seq<int>, right: seq<int>, swapper: seq<int>, e: nat)
    requires Addresses(path) && |path| >= 2 && (e == 0 || e == |path| - 1)
    requires Holds(path, left, right, swapper, 0, Splits(0, |path| - 1))
    ensures FirstCell(swapper, path[e], |Splits(0, |path| - 1)|) == |Splits(0, |path| - 1)|
  {
    hide Splits, Joined;
    var l := |path| - 1;
    var s := Splits(0, l);
    var k := FirstCell(swapper, path[e], |s|);
    if k < |s| {
      assert swapper[0 + k] == SwapperAddress(path, s[k]);
      SplitsExact(0, l, s[k]);
    }
  }

  /** The swapping rule of every node of a path: its two partners, or none at the two ends. */
  method PlanRules(path: seq<int>) returns (rules: seq<Option<(int, int)>>)
    requires |path| >= 2 && Addresses(path)
    ensures |rules| == |path| && rules[0] == None && rules[|path| - 1] == None
    ensures forall m :: 0 < m < |path| - 1 ==>
              rules[m] == Some((path[Joined(0, |path| - 1, m).lo], path[Joined(0, |path| - 1, m).hi]))
  {
    hide Splits, Joined, Holds, SameOutside, FirstCell;
    var hops := |path| - 1;
    ExactSize(0, hops);
    var divisions := DivisionSize(hops);
    var left, right, swapper := new int[divisions], new int[divisions], new int[divisions];
    var filled := Fill(path, 0, hops, left, right, swapper, 0);
    var partners, swappers := PartnerMap(left, right, swapper, divisions);
    rules := [];
    while |rules| <= hops
      invariant |rules| <= hops + 1
      invariant forall i :: 0 <= i < |rules| ==> rules[i] == if path[i] in partners then Some(partners[path[i]]) else None
    {
      var a := path[|rules|];
      rules := rules + [if a in swappers then Some(partners[a]) else None];
    }
    EndsAbsent(path, left[..], right[..], swapper[..], 0);
    EndsAbsent(path, left[..], right[..], swapper[..], hops);
    forall m | 0 < m < hops
      ensures rules[m] == Some((path[Joined(0, hops, m).lo], path[Joined(0, hops, m).hi]))
    {
      CellOf(path, left[..], right[..], swapper[..], m);
    }
  }

  // ---- the order of the swaps -------------------------------------------------------------------

  /** Position x lies inside the stretch m joins, so m has to wait for x. */
  predicate Waits(i: int, l: int, x: int, m: int) {
    i < m < i + l && x != m && Joined(i, l, m).lo < x < Joined(i, l, m).hi
  }

  /** A node waited for joins a stretch inside one half of the waiting node's stretch. */
  lemma {:induction false} Nested(i: int, l: int, x: int, m: int)
    requires Waits(i, l, x, m)
    ensures x < m ==> Joined(i, l, m).lo <= Joined(i, l, x).lo && Joined(i, l, x).hi <= m
    ensures x > m ==> m <= Joined(i, l, x).lo && Joined(i, l, x).hi <= Joined(i, l, m).hi
    decreases l
  {
    var mid := i + l / 2;
    if m < mid {
      Nested(i, l / 2, x, m);
    } else if m > mid {
      Nested(mid, l - l / 2, x, m);
    }
  }

  /** The partners of m wait for m. */
  lemma {:induction false} PartnersWait(i: int, l: int, m: int)
    requires i < m < i + l
    ensures Joined(i, l, m).lo > i ==> Waits(i, l, m, Joined(i, l, m).lo)
    ensures Joined(i, l, m).hi < i + l ==> Waits(i, l, m, Joined(i, l, m).hi)
    decreases l
  {
    var mid := i + l / 2;
    if m < mid {
      PartnersWait(i, l / 2, m);
    } else if m > mid {
      PartnersWait(mid, l - l / 2, m);
    }
  }

  function Depth(l: int): nat {
    if l <= 1 then 0 else 1 + Max(Depth(l / 2), Depth(l - l / 2))
  }

  /** The depth is the h with l <= 2^h and, for l > 1, 2^(h-1) < l. */
  lemma {:induction false} DepthIsLogarithm(l: int)
    requires l >= 1
    ensures l <= Power(Depth(l))
    ensures l > 1 ==> Depth(l) > 0 && Power(Depth(l) - 1) < l
  {
    hide Depth, Power;
    DepthUnfold(l);
    PowerUnfold(Depth(l));
    if l > 1 {
      var a, b := l / 2, l - l / 2;
      DepthUnfold(a);
      DepthUnfold(b);
      DepthIsLogarithm(a);
      DepthIsLogarithm(b);
      PowerMonotone(Depth(a), Depth(l) - 1);
      PowerMonotone(Depth(b), Depth(l) - 1);
      PowerUnfold(Depth(a));
      PowerUnfold(Depth(b));
    }
  }

  lemma DepthUnfold(l: int)
    ensures Depth(l) == if l <= 1 then 0 else 1 + Max(Depth(l / 2), Depth(l - l / 2))
  {
  }

  lemma PowerUnfold(h: nat)
    ensures Power(h) == if h == 0 then 1 else 2 * Power(h - 1)
  {
  }

  lemma {:induction false} PowerMonotone(g: nat, h: nat)
    requires g <= h
    ensures 1 <= Power(g) <= Power(h)
  {
    if g < h {
      PowerMonotone(g, h - 1);
    } else if g > 0 {
      PowerMonotone(g - 1, g - 1);
    }
  }

  /** No other h satisfies those bounds. */
  lemma LogarithmUnique(l: int, h: nat)
    requires l > 1 && h > 0 && l <= Power(h) && Power(h - 1) < l
    ensures h == Depth(l)
  {
    DepthIsLogarithm(l);
    if h < Depth(l) {
      PowerMonotone(h, Depth(l) - 1);
    } else if h > Depth(l) {
      PowerMonotone(Depth(l), h - 1);
    }
  }

  /** Swaps that have to happen one after the other. */
  predicate Chain(i: int, l: int, c: seq<int>) {
    && (forall j :: 0 <= j < |c| ==> i < c[j] < i + l)
    && (forall j :: 0 < j < |c| ==> Waits(i, l, c[j - 1], c[j]))
  }

  function Height(i: int, l: int, m: int): nat
    requires i < m < i + l
  {
    Depth(Joined(i, l, m).hi - Joined(i, l, m).lo)
  }

  lemma HeightUnfold(i: int, l: int, m: int)
    requires i < m < i + l
    ensures m == i + l / 2 ==> Height(i, l, m) == Depth(l)
    ensures m < i + l / 2 ==> Height(i, l, m) == Height(i, l / 2, m)
    ensures m > i + l / 2 ==> Height(i, l, m) == Height(i + l / 2, l - l / 2, m)
  {
    hide Depth, Joined;
    JoinedUnfold(i, l, m);
  }

  lemma JoinedUnfold(i: int, l: int, m: int)
    requires i < m < i + l
    ensures m == i + l / 2 ==> Joined(i, l, m) == Split(i, i + l, m)
    ensures m < i + l / 2 ==> Joined(i, l, m) == Joined(i, l / 2, m)
    ensures m > i + l / 2 ==> Joined(i, l, m) == Joined(i + l / 2, l - l / 2, m)
  {
  }

  lemma {:induction false} HeightBounds(i: int, l: int, m: int)
    requires i < m < i + l
    ensures 1 <= Height(i, l, m) <= Depth(l)
    ensures m < i + l / 2 ==> Height(i, l, m) <= Depth(l / 2)
    ensures m > i + l / 2 ==> Height(i, l, m) <= Depth(l - l / 2)
    decreases l
  {
    hide Height, Joined, Depth;
    HeightUnfold(i, l, m);
    DepthUnfold(l);
    if m < i + l / 2 {
      HeightBounds(i, l / 2, m);
    } else if m > i + l / 2 {
      HeightBounds(i + l / 2, l - l / 2, m);
    }
  }

  lemma {:induction false} WaitsHigher(i: int, l: int, x: int, m: int)
    requires Waits(i, l, x, m)
    ensures i < x < i + l && Height(i, l, x) < Height(i, l, m)
    decreases l
  {
    hide Height, Depth, Joined, Waits;
    var mid := i + l / 2;
    WaitsNarrower(i, l, x, m);
    HeightUnfold(i, l, m);
    HeightUnfold(i, l, x);
    if m < mid {
      WaitsHigher(i, l / 2, x, m);
    } else if m > mid {
      WaitsHigher(mid, l - l / 2, x, m);
    } else {
      HeightBounds(i, l, x);
      DepthUnfold(l);
    }
  }

  lemma WaitsNarrower(i: int, l: int, x: int, m: int)
    requires Waits(i, l, x, m)
    ensures i < x < i + l && i < m < i + l && x != m
    ensures m < i + l / 2 ==> x < i + l / 2 && Waits(i, l / 2, x, m)
    ensures m > i + l / 2 ==> x > i + l / 2 && Waits(i + l / 2, l - l / 2, x, m)
  {
  }

  /** No chain of waiting swaps is longer than the depth. */
  lemma {:induction false} ChainsAreShort(i: int, l: int, c: seq<int>)
    requires Chain(i, l, c) && c != []
    ensures |c| <= Height(i, l, c[|c| - 1]) <= Depth(l)
  {
    hide Joined, Height;
    HeightBounds(i, l, c[|c| - 1]);
    if |c| > 1 {
      ChainsAreShort(i, l, c[..|c| - 1]);
      WaitsHigher(i, l, c[|c| - 2], c[|c| - 1]);
    }
  }

  lemma WaitsWider(i: int, l: int, x: int, m: int)
    requires l > 1
    ensures Waits(i, l / 2, x, m) ==> Waits(i, l, x, m)
    ensures Waits(i + l / 2, l - l / 2, x, m) ==> Waits(i, l, x, m)
  {
  }

  lemma RootWaits(i: int, l: int, x: int)
    requires i < x < i + l && x != i + l / 2
    ensures Waits(i, l, x, i + l / 2)
  {
  }

  /** One chain is as long as the depth. */
  lemma {:induction false} DeepestChain(i: int, l: int) returns (c: seq<int>)
    ensures Chain(i, l, c) && |c| == Depth(l)
    decreases l
  {
    hide Depth, Waits;
    DepthUnfold(l);
    c := [];
    if l > 1 {
      var mid := i + l / 2;
      if Depth(l / 2) > Depth(l - l / 2) {
        c := DeepestChain(i, l / 2);
      } else {
        c := DeepestChain(mid, l - l / 2);
      }
      forall j | 0 < j < |c| ensures Waits(i, l, c[j - 1], c[j]) {
        WaitsWider(i, l, c[j - 1], c[j]);
      }
      if c != [] {
        RootWaits(i, l, c[|c| - 1]);
      }
      c := c + [mid];
    }
  }
}
