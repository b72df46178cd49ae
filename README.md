# vooo model editor: the `useData` store in Dafny

This project models the application state store of the vooo model editor
(`useData`, src/stores/data.js), a browser tool in which a user loads a GLB
model, transforms it with sliders, places annotated markers on it and
exports or imports the scene as JSON.

The store is one shared mutable record. It holds the model transform
(`scale`, `positionX/Y/Z`, `rotationX/Y/Z`), a visibility flag
(`modelIsHidden`), the opaque model `buffer`, the ordered marker list
`items` and the optional `activeItemId`. Its actions are one-field
setters, `addItem`, `removeItem`, `updateItem`, `moveItem` and the
shallow-merge `importData`.

Files:

- `wrappers.dfy`: `Option`, with `None` standing for `null` or an absent key.
- `markers.dfy` (module `Markers`): markers as `Item(id, payload)`. The new lists built by
  `addItem`, `removeItem` and `updateItem` are functions over `seq`. `moveItem`'s two
  splices are the function `Move` (built from `RemoveAt` and `InsertAt`). The in-place
  method `MoveInPlace` works on an array and is proved equal to `Move`. The file also holds
  the lemmas about order, idempotence, inverses and unique ids.
- `store.dfy` (module `Store`): the class `Store`, with one field per store field and one
  method per action. The `ensures` of each setter and list method gives the whole new state
  as the old `Snapshot()` with only its own field replaced. `importData` is `Merge` of a `Doc`, a record
  with one optional entry per top-level key. The export panel's object is `Export`.
- `callers.dfy` (module `Callers`): how the user interface drives the store. It covers
  move down and move up, toggling the active marker by clicking, and runs of add, remove,
  update and move calls as the interface issues them.

The store neither checks nor computes with transform values. They start as numbers, but the
sliders store the text of their input, so a transform value is a `Scalar`: a number or any
string. The buffer (`B`) and the marker payload (`P`: position and title) are opaque type
parameters.

## Model

| member | source | states |
|---|---|---|
| Store.Store.constructor | src/stores/data.js:4-19 | initial state: no buffer, scale 1, position and rotation all 0, no markers, no active marker, model not hidden |
| Store.Store.SetBuffer | src/stores/data.js:21 | overwrites the buffer and nothing else |
| Store.Store.SetScale | src/stores/data.js:23 | overwrites the scale and nothing else, with no clamping |
| Store.Store.SetPositionX | src/stores/data.js:25 | overwrites positionX and nothing else |
| Store.Store.SetPositionY | src/stores/data.js:26 | overwrites positionY and nothing else |
| Store.Store.SetPositionZ | src/stores/data.js:27 | overwrites positionZ and nothing else |
| Store.Store.SetRotationX | src/stores/data.js:29 | overwrites rotationX and nothing else |
| Store.Store.SetRotationY | src/stores/data.js:30 | overwrites rotationY and nothing else |
| Store.Store.SetRotationZ | src/stores/data.js:31 | overwrites rotationZ and nothing else |
| Store.Store.SetItems | src/stores/data.js:33 | replaces the marker list wholesale and nothing else |
| Store.Store.AddItem | src/stores/data.js:34 | the marker list becomes `Append` of the old one; every other field is unchanged |
| Store.Store.RemoveItem | src/stores/data.js:35-37 | the marker list becomes `Remove` of the old one; `activeItemId` stays as it was, even when it names the removed marker |
| Store.Store.UpdateItem | src/stores/data.js:38-48 | the marker list becomes `Update` at the id chosen by `UpdateTarget`; every other field is unchanged |
| Store.Store.SetActiveItemId | src/stores/data.js:49 | overwrites the active marker id (or clears it) and nothing else |
| Store.Store.MoveItem | src/stores/data.js:68-78 | the marker list becomes `Move` of the old one: unchanged for a target outside the list whatever the index, otherwise moved in place on an array and published as a copy |
| Store.Store.ImportData | src/stores/data.js:80-83 | the new state is `Merge` of the old state and the document |
| Store.Store.SetModelIsHidden | src/stores/data.js:85 | overwrites the visibility flag and nothing else |
| Markers.Append | src/stores/data.js:34 | length grows by one, every earlier marker keeps its index, the new one is last |
| Markers.AppendKeepsUnique | src/stores/data.js:34 | appending a marker with a fresh id keeps ids unique |
| Markers.Remove | src/stores/data.js:35-37 | every kept marker was in the list and has a different id; every marker with a different id is kept; the list never grows |
| Markers.RemoveConcat | src/stores/data.js:36 | the filter distributes over concatenation, so kept markers stay in their original relative order |
| Markers.RemoveUnknown | src/stores/data.js:35-37 | removing leaves the list unchanged if and only if no marker has that id |
| Markers.RemoveIdempotent | src/stores/data.js:35-37 | removing the same id twice equals removing it once |
| Markers.RemoveAfterAppend | src/stores/data.js:34-37 | removing a marker just appended with a fresh id gives back the original list |
| Markers.RemoveKeepsUnique | src/stores/data.js:35-37 | removing keeps ids unique |
| Markers.UpdateTarget | src/stores/data.js:41 | a falsy id (missing or empty) falls back to the item's own id; a truthy one is used as given |
| Markers.Update | src/stores/data.js:43-47 | same length; every marker with the id is replaced by the item, every other stays at its index |
| Markers.UpdateIdempotent | src/stores/data.js:38-48 | applying the same update twice equals applying it once |
| Markers.UpdateUnknown | src/stores/data.js:43-47 | updating an unknown id leaves the list unchanged |
| Markers.UpdateKeepsIds | src/stores/data.js:43-47 | with the item's own id as target, the id list is unchanged |
| Markers.UpdateKeepsUnique | src/stores/data.js:43-47 | with the item's own id as target, ids stay unique |
| Markers.RemoveAt | src/stores/data.js:73 | `splice(index, 1)`: one shorter, later elements shift down by one |
| Markers.InsertAt | src/stores/data.js:73 | `splice(target, 0, x)`: one longer, `x` at `target`, later elements shift up by one |
| Markers.SpliceStart | src/stores/data.js:73 | where a splice starts: a non-negative index as given, a negative one counted back from the end, clamped to 0 |
| Markers.Move | src/stores/data.js:68-78 | same length and the same multiset of markers; the marker at the splice start of `index` lands at `target`; a target below 0 or at or past the length leaves the list unchanged, whatever the index |
| Markers.MoveNegativeIndex | src/stores/data.js:73 | a negative index moves the same marker as the non-negative index it counts back to |
| Markers.MoveAt | src/stores/data.js:73 | position by position, markers between `index` and `target` shift by one toward `index`, the rest stay |
| Markers.MoveKeepsOthersOrder | src/stores/data.js:73 | taking the moved marker out of the result gives the original list without it, so all other markers keep their relative order |
| Markers.MoveInverse | src/stores/data.js:68-78 | moving back from `target` to `index` restores the list |
| Markers.MoveKeepsUnique | src/stores/data.js:68-78 | moving keeps ids unique |
| Markers.ShiftDown | src/stores/data.js:73 | the elements after the removed slot move down one place, up to the target; all others are untouched |
| Markers.ShiftUp | src/stores/data.js:73 | the elements from the target up to the removed slot move up one place; all others are untouched |
| Markers.MoveInPlace | src/stores/data.js:73 | the in-place shift on an array equals `Move` of the array's old contents |
| Store.Merge | src/stores/data.js:80-83 | shallow merge: under every key present in the document the new value is the document's, under every other key the old one |
| Store.MergeEmpty | src/stores/data.js:80-83 | importing a document with no keys changes nothing |
| Store.MergeIdempotent | src/stores/data.js:80-83 | importing the same document twice equals importing it once |
| Store.Export | src/components/UI/UI.js:470-483 | the exported object has exactly the scale, position, rotation and items keys, with the state's values |
| Store.ImportExport | src/stores/data.js:80-83 | importing an export sets the exported keys to their exported values and keeps the importing state's buffer, active marker and visibility flag |
| Store.ExportImportRoundTrip | src/components/UI/UI.js:470-483 | export after importing an export reproduces that export |
| Store.ImportOwnExport | src/stores/data.js:80-83 | importing a state's own export leaves the state unchanged |
| Callers.MoveDown | src/components/UI/UI.js:268-272 | `moveItem(i, i + 1)` swaps a marker with the next one and does nothing on the last marker |
| Callers.MoveUp | src/components/UI/UI.js:274-278 | `moveItem(i, i - 1)` swaps a marker with the previous one and does nothing on the first marker |
| Callers.MoveUpUndoesMoveDown | src/components/UI/UI.js:268-278 | moving a marker down then up restores the list |
| Callers.ToggleActive | src/components/Viewer/Viewer.js:143-145 | clicking makes the marker active if and only if it was not; otherwise the active marker is cleared |
| Callers.StepKeepsUnique | src/stores/data.js:34-77 | one add (fresh id), remove, update (item's own id) or move keeps ids unique |
| Callers.RunKeepsUnique | src/stores/data.js:34-77 | any run of such calls keeps the marker ids unique |
| Callers.AddMoveRemoveExample | src/stores/data.js:34-77 | add M1, add M2, move(0, 1) gives [M2, M1]; then removing M1 gives [M2] |

## Left out

- Store.Store.MoveItem: the source splices the live `items` array in place. Any component still
  holding the previously published array sees that mutation. The model works on a fresh
  array copied from the list, so that aliasing is not modelled. The published list is the same.
- Store.Store.MoveItem: when the target is inside the list, an index at or past the list's
  length is excluded by `requires`. In the source, `splice(index, 1)` then removes nothing and
  `undefined` is inserted at the target, so the list grows by one. The interface only passes
  rendered indices. A negative index is modelled: it counts back from the end, and one before the
  start is clamped to 0. A target outside the list returns before any splice, whatever the index,
  and the `requires` allows that call.
- Store.Merge: the model types every document entry. A JSON value of the wrong type
  (a list as `scale`, or a number as `items`, say) cannot be expressed. Nor can a key outside the store's data,
  which includes a key that overwrites one of the store's action functions.
- The JSON text is not modelled. `JSON.stringify` in the export panel and `JSON.parse`
  with its error handling in the import panel are library calls. A malformed document never
  reaches `importData`. The model assumes the parsed value is an object (`Doc`).
- Store.Store.ImportData: a parsed document that is not an object is not modelled. The import
  panel passes on any truthy parse result, such as `5`, `true`, `"abc"` or an array. Zustand's
  `set` then replaces the whole state with a number, string or boolean, actions included. For an
  array, it copies the index keys onto the state. `Merge` covers only object documents.
- Console logging in the store is not modelled.
- A numeric transform value is a `real`, not an IEEE double. The store does no arithmetic on it.
  The radians conversion in src/components/Viewer/Model.js is rendering, not store logic.
- Debounced edits, the rich-text editor, panel state, file intake (FileReader), GLB decoding
  and 3D rendering are user-interface, I/O or foreign-library code, so they are not modelled.
- Callers.RunKeepsUnique: an added marker's id comes from `nanoid()`, which is random. The
  model treats it as never colliding with an id already in the list (`Callers.Admissible`).
- Unique marker ids are not an invariant of `Store`. `setItems` and `importData` accept any
  list, duplicates included, just as the source does. Uniqueness is proved for the
  add, remove, update and move calls that the interface makes (`Callers.RunKeepsUnique`).
