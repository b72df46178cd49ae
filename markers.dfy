/**
 * The ordered marker list of the store (`items`) and the list operations
 * behind `addItem`, `removeItem`, `updateItem` and `moveItem`
 * (src/stores/data.js).
 */
module Markers {
  import opened Wrappers

  /** Marker ids are strings (generated by nanoid in the UI). */
  type Id = string

  /** A marker: its id and an opaque payload (its position and title). */
  datatype Item<P> = Item(id: Id, payload: P)

  /** The ids of a marker list, in order. */
  function Ids<P>(s: seq<Item<P>>): (r: seq<Id>)
    ensures |r| == |s|
    ensures forall k :: 0 <= k < |s| ==> r[k] == s[k].id
  {
    if s == [] then [] else [s[0].id] + Ids(s[1..])
  }

  /** No two markers of the list share an id. */
  predicate UniqueIds<P>(s: seq<Item<P>>) {
    forall i, j :: 0 <= i < |s| && 0 <= j < |s| && s[i].id == s[j].id ==> i == j
  }

  // ---------------------------------------------------------------------
  // addItem: a copy of the list with the new marker at the end.

  /** Appending keeps every earlier marker at its index and puts the new one last. */
  function Append<P>(s: seq<Item<P>>, x: Item<P>): (r: seq<Item<P>>)
    ensures |r| == |s| + 1
    ensures r[..|s|] == s && r[|s|] == x
  {
    s + [x]
  }

  /** Appending a marker whose id is fresh keeps the ids unique. */
  lemma AppendKeepsUnique<P>(s: seq<Item<P>>, x: Item<P>)
    requires UniqueIds(s) && x.id !in Ids(s)
    ensures UniqueIds(Append(s, x))
  {
  }

  // ---------------------------------------------------------------------
  // removeItem: keep the markers whose id differs from the given one.

  /** The markers whose id differs from `id`, in their original order. */
  function Remove<P>(s: seq<Item<P>>, id: Id): (r: seq<Item<P>>)
    ensures |r| <= |s|
    ensures forall k :: 0 <= k < |r| ==> r[k] in s && r[k].id != id
    ensures forall k :: 0 <= k < |s| && s[k].id != id ==> s[k] in r
  {
    if s == [] then []
    else if s[0].id != id then [s[0]] + Remove(s[1..], id)
    else Remove(s[1..], id)
  }

  /** Filtering distributes over concatenation: the kept markers stay in their relative order. */
  lemma {:induction false} RemoveConcat<P>(a: seq<Item<P>>, b: seq<Item<P>>, id: Id)
    ensures Remove(a + b, id) == Remove(a, id) + Remove(b, id)
  {
    if a == [] {
      assert a + b == b;
    } else {
      assert (a + b)[0] == a[0];
      assert (a + b)[1..] == a[1..] + b;
      RemoveConcat(a[1..], b, id);
    }
  }

  /** Removing leaves the list unchanged exactly when no marker has that id. */
  lemma {:induction false} RemoveUnknown<P>(s: seq<Item<P>>, id: Id)
    ensures Remove(s, id) == s <==> id !in Ids(s)
  {
    if id in Ids(s) {
      var k :| 0 <= k < |s| && Ids(s)[k] == id;
      assert s[k] in s && s[k] !in Remove(s, id);
    } else if s != [] {
      assert Ids(s[1..]) == Ids(s)[1..];
      RemoveUnknown(s[1..], id);
    }
  }

  /** Removing twice is the same as removing once. */
  lemma RemoveIdempotent<P>(s: seq<Item<P>>, id: Id)
    ensures Remove(Remove(s, id), id) == Remove(s, id)
  {
  }

  /** Removing the marker just added (with a fresh id) restores the list. */
  lemma RemoveAfterAppend<P>(s: seq<Item<P>>, x: Item<P>)
    requires x.id !in Ids(s)
    ensures Remove(Append(s, x), x.id) == s
  {
    RemoveConcat(s, [x], x.id);
    RemoveUnknown(s, x.id);
    assert Remove([x], x.id) == [];
  }

  /** Removing keeps the ids unique. */
  lemma {:induction false} RemoveKeepsUnique<P>(s: seq<Item<P>>, id: Id)
    requires UniqueIds(s)
    ensures UniqueIds(Remove(s, id))
  {
    if s != [] {
      var tail := s[1..];
      assert UniqueIds(tail) by {
        forall i, j | 0 <= i < |tail| && 0 <= j < |tail| && tail[i].id == tail[j].id
          ensures i == j
        {
          assert s[i + 1].id == s[j + 1].id;
        }
      }
      RemoveKeepsUnique(tail, id);
      var rt := Remove(tail, id);
      if s[0].id != id {
        var r := [s[0]] + rt;
        forall k | 0 <= k < |rt| ensures rt[k].id != s[0].id {
          assert rt[k] in rt;
          var j :| 0 <= j < |tail| && tail[j] == rt[k];
          assert s[j + 1] == rt[k];
        }
        forall i, j | 0 <= i < |r| && 0 <= j < |r| && r[i].id == r[j].id
          ensures i == j
        {
          if i > 0 && j > 0 {
            assert rt[i - 1].id == rt[j - 1].id;
          }
        }
      }
    }
  }

  // ---------------------------------------------------------------------
  // updateItem: fall back to the item's own id when none is given, then
  // replace every marker with that id by the item.

  /**
   * The id `updateItem` matches on: the given id, or the item's own id when
   * the given one is falsy (missing or the empty string).
   */
  function UpdateTarget<P>(id: Option<Id>, item: Item<P>): (t: Id)
    ensures id.Some? && id.value != "" ==> t == id.value
    ensures id.None? || id.value == "" ==> t == item.id
  {
    if id.None? || id.value == "" then item.id else id.value
  }

  /** Every marker with id `id` is replaced by `item`; every other one stays at its index. */
  function Update<P>(s: seq<Item<P>>, id: Id, item: Item<P>): (r: seq<Item<P>>)
    ensures |r| == |s|
    ensures forall k :: 0 <= k < |s| ==> r[k] == if s[k].id == id then item else s[k]
  {
    if s == [] then []
    else [if s[0].id == id then item else s[0]] + Update(s[1..], id, item)
  }

  /** Applying the same update twice gives the same list as applying it once. */
  lemma UpdateIdempotent<P>(s: seq<Item<P>>, id: Id, item: Item<P>)
    ensures Update(Update(s, id, item), id, item) == Update(s, id, item)
  {
  }

  /** Updating an id that no marker has leaves the list unchanged. */
  lemma UpdateUnknown<P>(s: seq<Item<P>>, id: Id, item: Item<P>)
    requires id !in Ids(s)
    ensures Update(s, id, item) == s
  {
  }

  /** When the replacement carries the matched id, the id list is unchanged. */
  lemma UpdateKeepsIds<P>(s: seq<Item<P>>, item: Item<P>)
    ensures Ids(Update(s, item.id, item)) == Ids(s)
  {
  }

  /** Updating with a replacement that carries the matched id keeps the ids unique. */
  lemma UpdateKeepsUnique<P>(s: seq<Item<P>>, item: Item<P>)
    requires UniqueIds(s)
    ensures UniqueIds(Update(s, item.id, item))
  {
  }

  // ---------------------------------------------------------------------
  // moveItem: take the marker out at one index and put it back at another,
  // unless the target lies outside the list.

  /** The element at `i` taken out of the list (the removing splice). */
  function RemoveAt<T>(s: seq<T>, i: nat): (r: seq<T>)
    requires i < |s|
    ensures |r| == |s| - 1
    ensures forall k :: 0 <= k < |r| ==> r[k] == if k < i then s[k] else s[k + 1]
  {
    s[..i] + s[i + 1..]
  }

  /** `x` inserted before position `t` (the inserting splice). */
  function InsertAt<T>(s: seq<T>, t: nat, x: T): (r: seq<T>)
    requires t <= |s|
    ensures |r| == |s| + 1
    ensures forall k :: 0 <= k < |r| ==> r[k] == if k < t then s[k] else if k == t then x else s[k - 1]
  {
    s[..t] + [x] + s[t..]
  }

  /**
   * The position a splice starts at in a list of length `n`: a negative
   * index counts back from the end, and one before the start is clamped to 0.
   */
  function SpliceStart(index: int, n: nat): (i: int)
    ensures 0 <= index ==> i == index
    ensures index < 0 && 0 <= n + index ==> i == n + index && 0 <= i < n
    ensures n + index < 0 ==> i == 0
  {
    if index >= 0 then index else if n + index < 0 then 0 else n + index
  }

  /**
   * `moveItem(index, target)`: take out the marker at `index` (counted from
   * the end when negative) and insert it at `target`; a target outside the
   * list leaves the list as it is, whatever the index.
   */
  function Move<T>(s: seq<T>, index: int, target: int): (r: seq<T>)
    requires 0 <= target < |s| ==> index < |s|
    ensures |r| == |s|
    ensures multiset(r) == multiset(s)
    ensures 0 <= target < |s| ==> 0 <= SpliceStart(index, |s|) < |s| && r[target] == s[SpliceStart(index, |s|)]
    ensures target < 0 || target >= |s| ==> r == s
  {
    if target < 0 || target >= |s| then s
    else
      var i := SpliceStart(index, |s|);
      var rest := RemoveAt(s, i);
      RemoveAtMultiset(s, i);
      InsertAtMultiset(rest, target, s[i]);
      InsertAt(rest, target, s[i])
  }

  /** A negative index moves the same marker as the non-negative index it counts back to. */
  lemma MoveNegativeIndex<T>(s: seq<T>, index: int, target: int)
    requires index < 0 && |s| > 0
    ensures Move(s, index, target) == Move(s, if |s| + index < 0 then 0 else |s| + index, target)
  {
  }

  lemma RemoveAtMultiset<T>(s: seq<T>, i: nat)
    requires i < |s|
    ensures multiset(RemoveAt(s, i)) + multiset{s[i]} == multiset(s)
  {
    assert s == s[..i] + [s[i]] + s[i + 1..];
  }

  lemma InsertAtMultiset<T>(s: seq<T>, t: nat, x: T)
    requires t <= |s|
    ensures multiset(InsertAt(s, t, x)) == multiset(s) + multiset{x}
  {
    assert s == s[..t] + s[t..];
  }

  /** Where the element that `Move` puts at position `k` came from. */
  function MoveSource(index: nat, target: nat, k: nat): nat {
    if k == target then index
    else if index < target && index <= k < target then k + 1
    else if target < index && target < k <= index then k - 1
    else k
  }

  /** Position by position, `Move` shifts the markers between `index` and `target` by one. */
  lemma MoveAt<T>(s: seq<T>, index: nat, target: nat, k: nat)
    requires index < |s| && target < |s| && k < |s|
    ensures MoveSource(index, target, k) < |s|
    ensures Move(s, index, target)[k] == s[MoveSource(index, target, k)]
  {
    var rest := RemoveAt(s, index);
    var r := Move(s, index, target);
    assert r == InsertAt(rest, target, s[index]);
    if k < target {
      assert r[k] == rest[k];
    } else if k > target {
      assert r[k] == rest[k - 1];
    }
  }

  /** Different positions after a move come from different positions before it. */
  lemma MoveSourceInjective(index: nat, target: nat, n: nat, k1: nat, k2: nat)
    requires index < n && target < n && k1 < n && k2 < n && k1 != k2
    ensures MoveSource(index, target, k1) != MoveSource(index, target, k2)
  {
  }

  /** All markers other than the moved one keep their relative order. */
  lemma MoveKeepsOthersOrder<T>(s: seq<T>, index: nat, target: int)
    requires index < |s| && 0 <= target < |s|
    ensures RemoveAt(Move(s, index, target), target) == RemoveAt(s, index)
  {
  }

  /** Moving back from `target` to `index` undoes a move. */
  lemma MoveInverse<T>(s: seq<T>, index: nat, target: int)
    requires index < |s| && 0 <= target < |s|
    ensures Move(Move(s, index, target), target, index) == s
  {
    var r := Move(s, index, target);
    MoveKeepsOthersOrder(s, index, target);
    var back := Move(r, target, index);
    forall k | 0 <= k < |s| ensures back[k] == s[k] {
      if k != index {
        assert back[k] == RemoveAt(s, index)[if k < index then k else k - 1];
      }
    }
  }

  /** Moving keeps the ids unique. */
  lemma MoveKeepsUnique<P>(s: seq<Item<P>>, index: nat, target: int)
    requires index < |s| && UniqueIds(s)
    ensures UniqueIds(Move(s, index, target))
  {
    if 0 <= target < |s| {
      var r := Move(s, index, target);
      forall i, j | 0 <= i < |r| && 0 <= j < |r| && r[i].id == r[j].id
        ensures i == j
      {
        MoveAt(s, index, target, i);
        MoveAt(s, index, target, j);
        if i != j {
          MoveSourceInjective(index, target, |s|, i, j);
        }
      }
    }
  }

  /** Shifts `a[lo + 1..hi + 1]` down by one place, over `a[lo..hi]`. */
  method ShiftDown<T>(a: array<T>, lo: nat, hi: nat)
    requires lo <= hi < a.Length
    modifies a
    ensures forall j :: 0 <= j < a.Length ==> a[j] == if lo <= j < hi then old(a[j + 1]) else old(a[j])
  {
    var k := lo;
    while k < hi
      invariant lo <= k <= hi
      invariant forall j :: 0 <= j < a.Length ==> a[j] == if lo <= j < k then old(a[j + 1]) else old(a[j])
    {
      a[k] := a[k + 1];
      k := k + 1;
    }
  }

  /** Shifts `a[lo..hi]` up by one place, over `a[lo + 1..hi + 1]`. */
  method ShiftUp<T>(a: array<T>, lo: nat, hi: nat)
    requires lo <= hi < a.Length
    modifies a
    ensures forall j :: 0 <= j < a.Length ==> a[j] == if lo < j <= hi then old(a[j - 1]) else old(a[j])
  {
    var k := hi;
    while k > lo
      invariant lo <= k <= hi
      invariant forall j :: 0 <= j < a.Length ==> a[j] == if k < j <= hi then old(a[j - 1]) else old(a[j])
    {
      a[k] := a[k - 1];
      k := k - 1;
    }
  }

  /**
   * The in-place effect of the two splices on the live array: the elements
   * between `index` and `target` shift by one and the moved one lands at `target`.
   */
  method MoveInPlace<T>(a: array<T>, index: nat, target: nat)
    requires index < a.Length && target < a.Length
    modifies a
    ensures a[..] == Move(old(a[..]), index, target)
  {
    var x := a[index];
    if index < target {
      ShiftDown(a, index, target);
    } else {
      ShiftUp(a, target, index);
    }
    a[target] := x;
    ghost var was := old(a[..]);
    forall k | 0 <= k < a.Length ensures a[k] == Move(was, index, target)[k] {
      MoveAt(was, index, target, k);
    }
  }
}
