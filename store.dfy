/**
 * The `useData` store of src/stores/data.js: the model transform, the
 * visibility flag, the opaque model buffer, the marker list and the active
 * marker, with one setter per field, the list operations and `importData`.
 *
 * The store neither checks nor computes with transform values: they start
 * as numbers, but the sliders store the text of their input, so a value is
 * a `Scalar`, either a number or any string. The buffer is opaque (`B`), as
 * is a marker's payload (`P`).
 */
module Store {
  import opened Wrappers
  import opened Markers

  /** A transform value: a number, or the text a slider's input holds. */
  datatype Scalar = Num(number: real) | Text(text: string)

  /** A snapshot of every data field of the store. */
  datatype State<P, B> = State(
    buffer: Option<B>,
    scale: Scalar,
    positionX: Scalar, positionY: Scalar, positionZ: Scalar,
    rotationX: Scalar, rotationY: Scalar, rotationZ: Scalar,
    items: seq<Item<P>>,
    activeItemId: Option<Id>,
    modelIsHidden: bool)

  /** The top-level keys of the store's data. */
  datatype Key =
    | BufferKey | ScaleKey
    | PositionXKey | PositionYKey | PositionZKey
    | RotationXKey | RotationYKey | RotationZKey
    | ItemsKey | ActiveItemIdKey | ModelIsHiddenKey

  /** The value stored under a key. */
  datatype Value<P, B> =
    | BufferValue(buffer: Option<B>)
    | ScalarValue(scalar: Scalar)
    | ItemsValue(items: seq<Item<P>>)
    | IdValue(id: Option<Id>)
    | Flag(flag: bool)

  /** The value of a state under a key. */
  function Field<P, B>(st: State<P, B>, k: Key): Value<P, B> {
    match k
    case BufferKey => BufferValue(st.buffer)
    case ScaleKey => ScalarValue(st.scale)
    case PositionXKey => ScalarValue(st.positionX)
    case PositionYKey => ScalarValue(st.positionY)
    case PositionZKey => ScalarValue(st.positionZ)
    case RotationXKey => ScalarValue(st.rotationX)
    case RotationYKey => ScalarValue(st.rotationY)
    case RotationZKey => ScalarValue(st.rotationZ)
    case ItemsKey => ItemsValue(st.items)
    case ActiveItemIdKey => IdValue(st.activeItemId)
    case ModelIsHiddenKey => Flag(st.modelIsHidden)
  }

  /** Two states with the same value under every key are the same state. */
  lemma FieldsDetermineState<P, B>(st1: State<P, B>, st2: State<P, B>)
    requires forall k :: Field(st1, k) == Field(st2, k)
    ensures st1 == st2
  {
    assert Field(st1, BufferKey) == Field(st2, BufferKey);
    assert Field(st1, ScaleKey) == Field(st2, ScaleKey);
    assert Field(st1, PositionXKey) == Field(st2, PositionXKey);
    assert Field(st1, PositionYKey) == Field(st2, PositionYKey);
    assert Field(st1, PositionZKey) == Field(st2, PositionZKey);
    assert Field(st1, RotationXKey) == Field(st2, RotationXKey);
    assert Field(st1, RotationYKey) == Field(st2, RotationYKey);
    assert Field(st1, RotationZKey) == Field(st2, RotationZKey);
    assert Field(st1, ItemsKey) == Field(st2, ItemsKey);
    assert Field(st1, ActiveItemIdKey) == Field(st2, ActiveItemIdKey);
    assert Field(st1, ModelIsHiddenKey) == Field(st2, ModelIsHiddenKey);
  }

  /**
   * An imported document: the parsed JSON object, one optional entry per
   * top-level key (`None` when the key is absent). `buffer` and
   * `activeItemId` may be present with the value `null`, hence the nested
   * options.
   */
  datatype Doc<P, B> = Doc(
    buffer: Option<Option<B>>,
    scale: Option<Scalar>,
    positionX: Option<Scalar>, positionY: Option<Scalar>, positionZ: Option<Scalar>,
    rotationX: Option<Scalar>, rotationY: Option<Scalar>, rotationZ: Option<Scalar>,
    items: Option<seq<Item<P>>>,
    activeItemId: Option<Option<Id>>,
    modelIsHidden: Option<bool>)

  /** The document with no keys. */
  function EmptyDoc<P, B>(): (d: Doc<P, B>)
    ensures forall k :: Entry(d, k).None?
  {
    Doc(None, None, None, None, None, None, None, None, None, None, None)
  }

  /** The entry of a document under a key, if present. */
  function Entry<P, B>(d: Doc<P, B>, k: Key): Option<Value<P, B>> {
    match k
    case BufferKey => if d.buffer.Some? then Some(BufferValue(d.buffer.value)) else None
    case ScaleKey => if d.scale.Some? then Some(ScalarValue(d.scale.value)) else None
    case PositionXKey => if d.positionX.Some? then Some(ScalarValue(d.positionX.value)) else None
    case PositionYKey => if d.positionY.Some? then Some(ScalarValue(d.positionY.value)) else None
    case PositionZKey => if d.positionZ.Some? then Some(ScalarValue(d.positionZ.value)) else None
    case RotationXKey => if d.rotationX.Some? then Some(ScalarValue(d.rotationX.value)) else None
    case RotationYKey => if d.rotationY.Some? then Some(ScalarValue(d.rotationY.value)) else None
    case RotationZKey => if d.rotationZ.Some? then Some(ScalarValue(d.rotationZ.value)) else None
    case ItemsKey => if d.items.Some? then Some(ItemsValue(d.items.value)) else None
    case ActiveItemIdKey => if d.activeItemId.Some? then Some(IdValue(d.activeItemId.value)) else None
    case ModelIsHiddenKey => if d.modelIsHidden.Some? then Some(Flag(d.modelIsHidden.value)) else None
  }

  /** The document's value where present, the old one otherwise. */
  function Pick<T>(entry: Option<T>, current: T): T {
    if entry.Some? then entry.value else current
  }

  /**
   * `importData(doc)`, i.e. zustand's `set(doc)`: a shallow merge that
   * overwrites exactly the keys present in the document.
   */
  function Merge<P, B>(st: State<P, B>, d: Doc<P, B>): (r: State<P, B>)
    ensures forall k :: Field(r, k) == if Entry(d, k).Some? then Entry(d, k).value else Field(st, k)
  {
    State(
      Pick(d.buffer, st.buffer),
      Pick(d.scale, st.scale),
      Pick(d.positionX, st.positionX), Pick(d.positionY, st.positionY), Pick(d.positionZ, st.positionZ),
      Pick(d.rotationX, st.rotationX), Pick(d.rotationY, st.rotationY), Pick(d.rotationZ, st.rotationZ),
      Pick(d.items, st.items),
      Pick(d.activeItemId, st.activeItemId),
      Pick(d.modelIsHidden, st.modelIsHidden))
  }

  /** Importing a document with no keys changes nothing. */
  lemma MergeEmpty<P, B>(st: State<P, B>)
    ensures Merge(st, EmptyDoc()) == st
  {
  }

  /** Importing the same document twice is the same as importing it once. */
  lemma MergeIdempotent<P, B>(st: State<P, B>, d: Doc<P, B>)
    ensures Merge(Merge(st, d), d) == Merge(st, d)
  {
  }

  /** The keys that the export panel writes to JSON. */
  const ExportedKeys: set<Key> :=
    {ScaleKey, PositionXKey, PositionYKey, PositionZKey, RotationXKey, RotationYKey, RotationZKey, ItemsKey}

  /**
   * The object the export panel serializes (src/components/UI/UI.js):
   * the transform and the marker list, nothing else.
   */
  function Export<P, B>(st: State<P, B>): (d: Doc<P, B>)
    ensures forall k :: Entry(d, k).Some? <==> k in ExportedKeys
    ensures forall k :: Entry(d, k).Some? ==> Entry(d, k).value == Field(st, k)
  {
    Doc(None, Some(st.scale),
        Some(st.positionX), Some(st.positionY), Some(st.positionZ),
        Some(st.rotationX), Some(st.rotationY), Some(st.rotationZ),
        Some(st.items), None, None)
  }

  /**
   * Importing an export sets the exported keys to the exported state's
   * values and leaves the buffer, the active marker and the visibility flag
   * of the importing state as they were.
   */
  lemma ImportExport<P, B>(st: State<P, B>, into: State<P, B>)
    ensures forall k :: k in ExportedKeys ==> Field(Merge(into, Export(st)), k) == Field(st, k)
    ensures forall k :: k !in ExportedKeys ==> Field(Merge(into, Export(st)), k) == Field(into, k)
  {
  }

  /** Exporting after importing an export reproduces that export. */
  lemma ExportImportRoundTrip<P, B>(st: State<P, B>, into: State<P, B>)
    ensures Export(Merge(into, Export(st))) == Export(st)
  {
  }

  /** A state imported from its own export is unchanged. */
  lemma ImportOwnExport<P, B>(st: State<P, B>)
    ensures Merge(st, Export(st)) == st
  {
  }

  /** The store object: one mutable record shared by every component. */
  class Store<P, B> {
    var buffer: Option<B>
    var scale: Scalar
    var positionX: Scalar
    var positionY: Scalar
    var positionZ: Scalar
    var rotationX: Scalar
    var rotationY: Scalar
    var rotationZ: Scalar
    var items: seq<Item<P>>
    var activeItemId: Option<Id>
    var modelIsHidden: bool

    /** The current values of all data fields. */
    function Snapshot(): State<P, B>
      reads this
    {
      State(buffer, scale, positionX, positionY, positionZ,
            rotationX, rotationY, rotationZ, items, activeItemId, modelIsHidden)
    }

    /** The initial state: unit scale, zero position and rotation, no markers, nothing active or hidden, no buffer. */
    constructor ()
      ensures buffer == None && scale == Num(1.0)
      ensures positionX == Num(0.0) && positionY == Num(0.0) && positionZ == Num(0.0)
      ensures rotationX == Num(0.0) && rotationY == Num(0.0) && rotationZ == Num(0.0)
      ensures items == [] && activeItemId == None && !modelIsHidden
    {
      buffer := None;
      scale := Num(1.0);
      positionX, positionY, positionZ := Num(0.0), Num(0.0), Num(0.0);
      rotationX, rotationY, rotationZ := Num(0.0), Num(0.0), Num(0.0);
      items := [];
      activeItemId := None;
      modelIsHidden := false;
    }

    method SetBuffer(b: Option<B>)
      modifies this
      ensures Snapshot() == old(Snapshot()).(buffer := b)
    {
      buffer := b;
    }

    method SetScale(v: Scalar)
      modifies this
      ensures Snapshot() == old(Snapshot()).(scale := v)
    {
      scale := v;
    }

    method SetPositionX(v: Scalar)
      modifies this
      ensures Snapshot() == old(Snapshot()).(positionX := v)
    {
      positionX := v;
    }

    method SetPositionY(v: Scalar)
      modifies this
      ensures Snapshot() == old(Snapshot()).(positionY := v)
    {
      positionY := v;
    }

    method SetPositionZ(v: Scalar)
      modifies this
      ensures Snapshot() == old(Snapshot()).(positionZ := v)
    {
      positionZ := v;
    }

    method SetRotationX(v: Scalar)
      modifies this
      ensures Snapshot() == old(Snapshot()).(rotationX := v)
    {
      rotationX := v;
    }

    method SetRotationY(v: Scalar)
      modifies this
      ensures Snapshot() == old(Snapshot()).(rotationY := v)
    {
      rotationY := v;
    }

    method SetRotationZ(v: Scalar)
      modifies this
      ensures Snapshot() == old(Snapshot()).(rotationZ := v)
    {
      rotationZ := v;
    }

    method SetItems(s: seq<Item<P>>)
      modifies this
      ensures Snapshot() == old(Snapshot()).(items := s)
    {
      items := s;
    }

    method AddItem(x: Item<P>)
      modifies this
      ensures Snapshot() == old(Snapshot()).(items := Append(old(items), x))
    {
      items := Append(items, x);
    }

    /** Filters the marker out; the active marker id is left as it was, even when it names the removed marker. */
    method RemoveItem(id: Id)
      modifies this
      ensures Snapshot() == old(Snapshot()).(items := Remove(old(items), id))
    {
      items := Remove(items, id);
    }

    method UpdateItem(id: Option<Id>, item: Item<P>)
      modifies this
      ensures Snapshot() == old(Snapshot()).(items := Update(old(items), UpdateTarget(id, item), item))
    {
      var target := UpdateTarget(id, item);
      items := Update(items, target, item);
    }

    method SetActiveItemId(id: Option<Id>)
      modifies this
      ensures Snapshot() == old(Snapshot()).(activeItemId := id)
    {
      activeItemId := id;
    }

    /**
     * Moves the marker at `index` (counted from the end when negative) to
     * `target` on a copy of the list held as an array, then publishes the
     * array's contents; an out-of-range target returns early.
     */
    method MoveItem(index: int, target: int)
      requires 0 <= target < |items| ==> index < |items|
      modifies this
      ensures Snapshot() == old(Snapshot()).(items := Move(old(items), index, target))
    {
      if target >= |items| || target < 0 {
        return;
      }
      var live := items;
      var start := SpliceStart(index, |live|);
      var a := new Item<P>[|live|](k requires 0 <= k < |live| => live[k]);
      assert a[..] == live;
      MoveInPlace(a, start, target);
      assert Move(live, start, target) == Move(live, index, target);
      items := a[..];
    }

    method ImportData(d: Doc<P, B>)
      modifies this
      ensures Snapshot() == Merge(old(Snapshot()), d)
    {
      buffer := Pick(d.buffer, buffer);
      scale := Pick(d.scale, scale);
      positionX := Pick(d.positionX, positionX);
      positionY := Pick(d.positionY, positionY);
      positionZ := Pick(d.positionZ, positionZ);
      rotationX := Pick(d.rotationX, rotationX);
      rotationY := Pick(d.rotationY, rotationY);
      rotationZ := Pick(d.rotationZ, rotationZ);
      items := Pick(d.items, items);
      activeItemId := Pick(d.activeItemId, activeItemId);
      modelIsHidden := Pick(d.modelIsHidden, modelIsHidden);
    }

    method SetModelIsHidden(hidden: bool)
      modifies this
      ensures Snapshot() == old(Snapshot()).(modelIsHidden := hidden)
    {
      modelIsHidden := hidden;
    }
  }
}
