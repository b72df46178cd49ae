/**
 * How the user interface drives the store (src/components/UI/UI.js and
 * src/components/Viewer/Viewer.js): the move-down/move-up buttons, marker
 * clicks that toggle the active marker, and the rule that `updateItem` is
 * always called with the item's own id.
 */
module Callers {
  import opened Wrappers
  import opened Markers

  /** "Move down" calls `moveItem(index, index + 1)`: it swaps a marker with its successor; on the last marker it does nothing. */
  function MoveDown<T>(s: seq<T>, index: nat): (r: seq<T>)
    requires index < |s|
    ensures index + 1 < |s| ==> r == s[..index] + [s[index + 1], s[index]] + s[index + 2..]
    ensures index + 1 == |s| ==> r == s
  {
    var r := Move(s, index, index + 1);
    if index + 1 < |s| then
      assert forall k :: 0 <= k < |s| ==> r[k] == s[MoveSource(index, index + 1, k)] by {
        forall k | 0 <= k < |s| ensures r[k] == s[MoveSource(index, index + 1, k)] {
          MoveAt(s, index, index + 1, k);
        }
      }
      r
    else
      r
  }

  /** "Move up" calls `moveItem(index, index - 1)`: it swaps a marker with its predecessor; on the first marker it does nothing. */
  function MoveUp<T>(s: seq<T>, index: nat): (r: seq<T>)
    requires index < |s|
    ensures 0 < index ==> r == s[..index - 1] + [s[index], s[index - 1]] + s[index + 1..]
    ensures index == 0 ==> r == s
  {
    var r := Move(s, index, index - 1);
    if 0 < index then
      assert forall k :: 0 <= k < |s| ==> r[k] == s[MoveSource(index, index - 1, k)] by {
        forall k | 0 <= k < |s| ensures r[k] == s[MoveSource(index, index - 1, k)] {
          MoveAt(s, index, index - 1, k);
        }
      }
      r
    else
      r
  }

  /** Moving a marker up after moving it down puts it back. */
  lemma MoveUpUndoesMoveDown<T>(s: seq<T>, index: nat)
    requires index + 1 < |s|
    ensures MoveUp(MoveDown(s, index), index + 1) == s
  {
    MoveInverse(s, index, index + 1);
  }

  /** A click on a marker makes it active, or clears the active marker when it already was. */
  function ToggleActive(active: Option<Id>, clicked: Id): (r: Option<Id>)
    ensures r == Some(clicked) <==> active != Some(clicked)
    ensures r == None <==> active == Some(clicked)
  {
    if active == Some(clicked) then None else Some(clicked)
  }

  /** The marker-list operations the user interface issues. */
  datatype ItemOp<P> =
    | AddOp(item: Item<P>)
    | RemoveOp(id: Id)
    | UpdateOp(item: Item<P>)
    | MoveOp(index: nat, target: int)

  /**
   * The calls the user interface makes: an added marker has a freshly
   * generated id, an update names the item's own id, and a move starts from
   * a rendered index.
   */
  predicate Admissible<P>(s: seq<Item<P>>, op: ItemOp<P>) {
    match op
    case AddOp(item) => item.id !in Ids(s)
    case RemoveOp(_) => true
    case UpdateOp(_) => true
    case MoveOp(index, _) => index < |s|
  }

  /** One store operation on the marker list. */
  function Step<P>(s: seq<Item<P>>, op: ItemOp<P>): seq<Item<P>>
    requires Admissible(s, op)
  {
    match op
    case AddOp(item) => Append(s, item)
    case RemoveOp(id) => Remove(s, id)
    case UpdateOp(item) => Update(s, UpdateTarget(Some(item.id), item), item)
    case MoveOp(index, target) => Move(s, index, target)
  }

  /** Every operation of the run is admissible in the list it applies to. */
  predicate AdmissibleRun<P>(s: seq<Item<P>>, ops: seq<ItemOp<P>>)
    decreases |ops|
  {
    ops == [] || (Admissible(s, ops[0]) && AdmissibleRun(Step(s, ops[0]), ops[1..]))
  }

  /** The marker list after a run of operations. */
  function Run<P>(s: seq<Item<P>>, ops: seq<ItemOp<P>>): seq<Item<P>>
    requires AdmissibleRun(s, ops)
    decreases |ops|
  {
    if ops == [] then s else Run(Step(s, ops[0]), ops[1..])
  }

  /** One admissible operation keeps the marker ids unique. */
  lemma StepKeepsUnique<P>(s: seq<Item<P>>, op: ItemOp<P>)
    requires UniqueIds(s) && Admissible(s, op)
    ensures UniqueIds(Step(s, op))
  {
    match op
    case AddOp(item) => AppendKeepsUnique(s, item);
    case RemoveOp(id) => RemoveKeepsUnique(s, id);
    case UpdateOp(item) =>
      assert UpdateTarget(Some(item.id), item) == item.id;
      UpdateKeepsUnique(s, item);
    case MoveOp(index, target) => MoveKeepsUnique(s, index, target);
  }

  /** Any run of admissible add, remove, update and move calls keeps the marker ids unique. */
  lemma {:induction false} RunKeepsUnique<P>(s: seq<Item<P>>, ops: seq<ItemOp<P>>)
    requires UniqueIds(s) && AdmissibleRun(s, ops)
    ensures UniqueIds(Run(s, ops))
    decreases |ops|
  {
    if ops != [] {
      StepKeepsUnique(s, ops[0]);
      RunKeepsUnique(Step(s, ops[0]), ops[1..]);
    }
  }

  /** Swapping a two-marker list with "move down" on its first marker. */
  lemma SwapPair<T>(a: T, b: T)
    ensures Move([a, b], 0, 1) == [b, a]
  {
    var two := [a, b];
    assert two[..0] == [] && two[2..] == [];
    assert MoveDown(two, 0) == [b, a];
  }

  /** Removing the second of two markers with different ids keeps the first. */
  lemma RemoveSecondOfPair<P>(m1: Item<P>, m2: Item<P>)
    requires m1.id != m2.id
    ensures Remove([m2, m1], m1.id) == [m2]
  {
    var rest := [m2, m1][1..];
    assert rest == [m1] && rest[1..] == [];
    assert Remove(rest, m1.id) == [];
  }

  /** Add M1, add M2, move M1 down, remove M1: only M2 is left. */
  lemma AddMoveRemoveExample<P>(m1: Item<P>, m2: Item<P>)
    requires m1.id != m2.id
    ensures Move(Append(Append([], m1), m2), 0, 1) == [m2, m1]
    ensures Remove([m2, m1], m1.id) == [m2]
  {
    assert Append(Append([], m1), m2) == [m1, m2];
    SwapPair(m1, m2);
    RemoveSecondOfPair(m1, m2);
  }
}
