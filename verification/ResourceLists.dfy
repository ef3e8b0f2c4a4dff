// The resource list of a rule.  The program keeps a multimap from partner address to
// qubit; on one link every key is the same, and a multimap keeps equal keys in insertion
// order, so the list is a sequence.  An entry is a qubit with its lock: the program's
// `locked` flag and `action_index` always change together.
module ResourceLists {

  datatype Lock = Unlocked | Locked(action: int)

  datatype Entry<Q> = Entry(qubit: Q, lock: Lock)

  function UnlockedCount<Q>(s: seq<Entry<Q>>): nat {
    if s == [] then 0 else (if s[0].lock.Unlocked? then 1 else 0) + UnlockedCount(s[1..])
  }

  /** The first k unlocked qubits, oldest first. */
  function TopUnlocked<Q>(s: seq<Entry<Q>>, k: nat): seq<Q> {
    if s == [] || k == 0 then []
    else if s[0].lock.Unlocked? then [s[0].qubit] + TopUnlocked(s[1..], k - 1)
    else TopUnlocked(s[1..], k)
  }

  /** The list without its first k unlocked entries. */
  function DropUnlocked<Q>(s: seq<Entry<Q>>, k: nat): seq<Entry<Q>> {
    if s == [] || k == 0 then s
    else if s[0].lock.Unlocked? then DropUnlocked(s[1..], k - 1)
    else [s[0]] + DropUnlocked(s[1..], k)
  }

  /** A k-input action numbered a: the first unlocked qubit is locked, the next k-1 are consumed. */
  function AfterAction<Q>(s: seq<Entry<Q>>, k: nat, a: int): seq<Entry<Q>>
    requires k >= 1
  {
    if s == [] then []
    else if s[0].lock.Unlocked? then [Entry(s[0].qubit, Locked(a))] + DropUnlocked(s[1..], k - 1)
    else [s[0]] + AfterAction(s[1..], k, a)
  }

  /** Position of the first entry locked by action a, or |s| when there is none. */
  function FindAction<Q>(s: seq<Entry<Q>>, a: int): (p: nat)
    ensures p <= |s|
    ensures p < |s| ==> s[p].lock == Locked(a)
    ensures forall i :: 0 <= i < p ==> s[i].lock != Locked(a)
  {
    if s == [] || s[0].lock == Locked(a) then 0 else 1 + FindAction(s[1..], a)
  }

  function Fresh<Q>(ids: seq<Q>): seq<Entry<Q>> {
    seq(|ids|, i requires 0 <= i < |ids| => Entry(ids[i], Unlocked))
  }

  predicate AllLocked<Q>(s: seq<Entry<Q>>) {
    forall i :: 0 <= i < |s| ==> s[i].lock.Locked?
  }

  lemma {:induction false} FreshOps<Q>(ids: seq<Q>, k: nat)
    requires k <= |ids|
    ensures UnlockedCount(Fresh(ids)) == |ids|
    ensures TopUnlocked(Fresh(ids), k) == ids[..k]
    ensures DropUnlocked(Fresh(ids), k) == Fresh(ids[k..])
    decreases |ids|
  {
    if ids == [] {
    } else {
      assert Fresh(ids)[1..] == Fresh(ids[1..]);
      FreshOps(ids[1..], if k == 0 then 0 else k - 1);
      if k > 0 {
        assert ids[1..][k - 1..] == ids[k..];
      } else {
        assert ids[0..] == ids;
      }
    }
  }

  lemma {:induction false} LayoutPick<Q>(locked: seq<Entry<Q>>, ids: seq<Q>, k: nat)
    requires AllLocked(locked)
    ensures UnlockedCount(locked + Fresh(ids)) == |ids|
    ensures k <= |ids| ==> TopUnlocked(locked + Fresh(ids), k) == ids[..k]
    ensures k <= |ids| ==> DropUnlocked(locked + Fresh(ids), k) == locked + Fresh(ids[k..])
  {
    var s := locked + Fresh(ids);
    if locked == [] {
      assert s == Fresh(ids);
      FreshOps(ids, if k <= |ids| then k else 0);
    } else {
      assert s[1..] == locked[1..] + Fresh(ids);
      LayoutPick(locked[1..], ids, k);
      if k <= |ids| {
        assert [locked[0]] + (locked[1..] + Fresh(ids[k..])) == locked + Fresh(ids[k..]);
        assert ids[0..] == ids;
      }
    }
  }

  lemma {:induction false} LayoutAction<Q>(locked: seq<Entry<Q>>, ids: seq<Q>, k: nat, a: int)
    requires AllLocked(locked) && 1 <= k <= |ids|
    ensures AfterAction(locked + Fresh(ids), k, a) == locked + [Entry(ids[0], Locked(a))] + Fresh(ids[k..])
  {
    var s := locked + Fresh(ids);
    if locked == [] {
      assert s == Fresh(ids) && Fresh(ids)[1..] == Fresh(ids[1..]);
      FreshOps(ids[1..], k - 1);
      assert ids[1..][k - 1..] == ids[k..];
    } else {
      assert s[1..] == locked[1..] + Fresh(ids);
      LayoutAction(locked[1..], ids, k, a);
      assert [locked[0]] + (locked[1..] + [Entry(ids[0], Locked(a))] + Fresh(ids[k..]))
          == locked + [Entry(ids[0], Locked(a))] + Fresh(ids[k..]);
    }
  }

  /** A list of locked entries followed by unlocked ones: every operation acts on the unlocked part. */
  lemma LayoutOps<Q>(locked: seq<Entry<Q>>, ids: seq<Q>, k: nat, a: int)
    requires AllLocked(locked)
    ensures UnlockedCount(locked + Fresh(ids)) == |ids|
    ensures k <= |ids| ==> TopUnlocked(locked + Fresh(ids), k) == ids[..k]
    ensures k <= |ids| ==> DropUnlocked(locked + Fresh(ids), k) == locked + Fresh(ids[k..])
    ensures 1 <= k <= |ids| ==>
              AfterAction(locked + Fresh(ids), k, a) == locked + [Entry(ids[0], Locked(a))] + Fresh(ids[k..])
  {
    hide *;
    LayoutPick(locked, ids, k);
    if 1 <= k <= |ids| {
      LayoutAction(locked, ids, k, a);
    }
  }
}
