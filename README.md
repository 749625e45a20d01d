# Plasticity editor core in Dafny

This project models three pieces of the Plasticity CAD editor and proves properties about them:

- **The command lifecycle** (`src/commands/Factory.ts`). A `GeometryFactory` moves through the states `none`, `updated`, `failed`, `cancelled` and `committed` under `update`, `commit`, `cancel` and `finish`. It also has a `transaction` helper that snapshots chosen fields plus `state` and rolls them back when a callback throws.
- **Undo/redo and deep cloning** (`src/History.ts`). `History` keeps two stacks of `(label, Memento)` pairs. `Clone` copies an editor state and threads a registry that maps each original object to its copy.
- **View-model bookkeeping** (`src/editor/VisualModel.ts`):
  - merging contiguous draw ranges (`GeometryGroupUtils.compact`);
  - the `face,…`, `edge,…` and `control-point,…` identity names;
  - how a solid's levels of detail expose edges and faces;
  - how `CurveGroup.slice` copies edge windows into one buffer;
  - how the curve and solid builders number what they build;
  - how a `Curve3D` becomes a fragment and lists its control points.

Files:

| file | module | contents |
|---|---|---|
| `wrappers.dfy` | `Wrappers` | `Option`, `Result` |
| `factory.dfy` | `Factory` | `GeometryFactory` class, the lifecycle as step functions, lemmas about runs of calls and about `transaction` |
| `history.dfy` | `UndoHistory` | memento records, the `History` class, undo/redo as functions, round-trip and timeline lemmas |
| `clone.dfy` | `Clone` | the object graph, `Clone` as a function over a session (heap plus registry), lemmas per object kind |
| `clone_session.dfy` | `CloneSession` | `Clone` as the source runs it: a `Cloner` object whose registry and heap are updated in place; its loops are proved against module `Clone` |
| `names.dfy` | `Names` | the three `simpleName` encoders, a reader for them, injectivity |
| `geometry_group.dfy` | `GeometryGroups` | `compact` on a consumable array, its reference definition and lemmas |
| `visual_model.dfy` | `VisualModel` | `Solid` LOD getters, `CurveGroup.get/slice`, `CurveBuilder`, `SolidBuilder`, `Curve3D` |

Modelling choices:

- **Hooks as outcomes.** The abstract hooks `doUpdate`, `doCommit` and `doCancel`, and the `transaction` callback, are parameters that say whether the hook returned or threw (and what it wrote).
- **Signals and hook calls.** Signal dispatches and hook calls are recorded in a ghost `trace` of events. Each event carries the state the hook observed.
- **Object graph.** The graph `Clone` walks is a heap (`seq<Object>`) addressed by index. A fresh copy is allocated by appending to the heap. The registry is a `map<Ref, Ref>`.
- **Stack depth.** `Clone` recurses without bound in the source. The model gives it a `fuel` parameter equal to the remaining stack depth. Running out gives `StackExhausted`, the model's counterpart of JavaScript's stack overflow.
- **Buffers.** Sequences of `real` stand for buffer contents. `slice` counts in samples (four bytes each in the source).

Where the code does something other than the obvious design, the model follows the code:

- `cancel` in state `updated` runs `doCancel` and then leaves `state` at `updated` (the case falls through to `return`).
- Nothing ever assigns `cancelled`.
- `commit` sets `committed` before `doCommit` runs, so the hook sees `committed`, and a throwing `doCommit` still leaves the factory committed.
- `transaction` swallows every error. After a failure with no earlier snapshot it restores nothing.
- The snapshot loop of `transaction` sits inside its `try`. A field that is `null` (for which `'clone' in` throws) or whose `clone()` throws stops the loop, and the catch restores from the partial snapshot. Every listed key not yet copied becomes `undefined`. So does `state`, unless `'state'` was itself listed before the throwing key (the keys may name any property of the factory). When the state becomes undefined, from then on `update`, `commit`, `cancel` and `finish` all throw (`Factory.UndefinedIsStuck`).
- `undo` and `redo` pop before calling `restoreFromMemento`. When that call throws, the popped pair is on neither stack and `historyChanged` is not dispatched (`UndoHistory.UndoThrowLosesEntry`). The timeline lemmas are about calls whose restore returns.
- `Clone` writes the registry only after the children are cloned. A child that refers back to an ancestor still being cloned is therefore cloned again, without end (`Clone.SelfReferenceExhaustsStack`).
- The `RefCounter` branch iterates the new, empty counter, so every cloned counter is empty.
- `History.add` does not clear the redo stack. A `redo` after an `add` replays the entry undone earlier (`UndoHistory.RedoAfterAddReplaysUndone`).
- `compact` merges on contiguity alone and drops `materialIndex` whenever two or more ranges are given. A single range comes back as it was, material included.

## Model

| member | source | states |
|---|---|---|
| Factory.UpdateStep | src/commands/Factory.ts:33-50 | from none/failed/updated: signal then `doUpdate`, ends `updated`, or ends `failed` and rethrows the same error; from committed/cancelled: invalid-state error, nothing changes |
| Factory.CommitStep | src/commands/Factory.ts:52-62 | from none/updated: state becomes `committed` before the signal and `doCommit`, and stays so even if `doCommit` throws; its items or its error are passed on; otherwise invalid-state error and no change |
| Factory.CancelStep | src/commands/Factory.ts:64-75 | state never changes; from updated, `doCancel` runs once, observing `updated`, and its error, if any, is rethrown unchanged; from none/cancelled/failed nothing happens; from committed or an undefined state, invalid-state error |
| Factory.FinishStep | src/commands/Factory.ts:18-27 | same state and effects as `commit`; succeeds exactly when `commit` would, and otherwise fails with `commit`'s own error (invalid state outside none/updated, or `doCommit`'s error passed on) |
| Factory.GeometryFactory.Update | src/commands/Factory.ts:33-50 | the new state, the appended trace and the result are those of `UpdateStep` |
| Factory.GeometryFactory.Commit | src/commands/Factory.ts:52-62 | the new state, the appended trace and the result are those of `CommitStep` |
| Factory.GeometryFactory.Cancel | src/commands/Factory.ts:64-75 | only the trace changes, by `CancelStep`'s effects; result is `CancelStep`'s |
| Factory.GeometryFactory.Finish | src/commands/Factory.ts:18-27 | state, trace and result are those of `FinishStep` |
| Factory.GeometryFactory.Transaction | src/commands/Factory.ts:77-101 | the snapshot loop, which may throw at an uncopyable field, and the rollback loop leave exactly the data `TransactionStep` describes |
| Factory.TransactionStep | src/commands/Factory.ts:77-101 | the reference definition of one `transaction` call; its properties are `TransactionSuccessRecords`, `TransactionSnapshotThrows`, `TransactionRollsBack`, `TransactionWithoutSnapshotKeepsCallbackEffects` and `TransactionRoundTrip` |
| Factory.FirstUncopyable | src/commands/Factory.ts:81-90 | the position of the first listed key whose field throws when copied, or the number of keys when none does; no earlier key is such a field |
| Factory.PartialState | src/commands/Factory.ts:80-98 | what the catch reads back as the state from a partial snapshot: the state when `state` was among the copied keys, undefined otherwise |
| Factory.RolledBack | src/commands/Factory.ts:92-99 | the catch block: listed keys and the state are written back from a snapshot |
| Factory.CollectSnapshot | src/commands/Factory.ts:81-90 | the snapshot loop stops at `FirstUncopyable`, reports whether it got through every key and whether it copied `state`, and collects exactly `SnapshotOf` the fields for the keys before that point |
| Factory.WriteBack | src/commands/Factory.ts:94-97 | the rollback loop leaves exactly `RestoreKeys` of the fields |
| Factory.SnapshotOf | src/commands/Factory.ts:81-90 | the snapshot holds exactly the listed keys that exist, each with the field's value |
| Factory.RestoreKeys | src/commands/Factory.ts:94-97 | listed keys take the snapshot's value (or vanish when it has none); every other field is untouched |
| Factory.CommitTwiceThrows | src/commands/Factory.ts:52-60 | after a commit from none/updated, a second commit throws an invalid-state error and does nothing |
| Factory.CommittedIsTerminal | src/commands/Factory.ts:18-75 | from `committed`, any sequence of calls leaves the state `committed` and runs no hook and no signal |
| Factory.CommitRunsAtMostOnce | src/commands/Factory.ts:52-58 | over any sequence of calls `doCommit` runs at most once, and never when starting committed or cancelled |
| Factory.ApplyCommitCount | src/commands/Factory.ts:52-58 | one call runs `doCommit` at most once, only from a committable state and then ending committed; from committed or cancelled a call changes nothing and runs nothing |
| Factory.CountPair | src/commands/Factory.ts:18-75 | the hook runs counted in a two-event trace are those of each event |
| Factory.CancelledNeverEntered | src/commands/Factory.ts:7-75 | no sequence of calls reaches `cancelled` from another state |
| Factory.HooksSeeTheirState | src/commands/Factory.ts:52-67 | in any run, every `doCommit` observes `committed` and every `doCancel` observes `updated` |
| Factory.CountAppend | src/commands/Factory.ts:18-75 | counting hook runs distributes over concatenated traces |
| Factory.TransactionSuccessRecords | src/commands/Factory.ts:78-91 | after a callback that returns, when every listed field can be copied, fields are as it left them and the snapshot holds the listed keys' values plus the state |
| Factory.TransactionSnapshotThrows | src/commands/Factory.ts:80-99 | when a listed field cannot be copied, the catch restores from the partial snapshot: keys copied before it keep their values, every later listed key becomes undefined, the state becomes undefined unless `state` was listed before that field, other fields are untouched |
| Factory.TransactionRollsBack | src/commands/Factory.ts:92-99 | after a callback that throws with a snapshot, the listed keys and the state come back from it; other fields keep the callback's writes |
| Factory.TransactionWithoutSnapshotKeepsCallbackEffects | src/commands/Factory.ts:92-100 | a throwing callback with no snapshot leaves everything as the callback left it, and nothing is rethrown |
| Factory.TransactionRoundTrip | src/commands/Factory.ts:77-101 | a transaction whose callback returns followed by one whose callback throws, over the same keys, leaves those keys, the snapshot and the state as the first left them, whether or not the first snapshot completed |
| Factory.UndefinedIsStuck | src/commands/Factory.ts:18-75 | once the state is undefined, every call throws and runs no hook and no signal, so the state stays undefined |
| UndoHistory.UndoMove | src/History.ts:57-68 | an empty undo stack gives false and leaves both stacks unchanged; otherwise the top pair is popped and its memento restored; it succeeds exactly when the restore returns, and then the pair is pushed on the redo stack; a throwing restore drops the popped pair and leaves the redo stack as it was |
| UndoHistory.RedoMove | src/History.ts:70-80 | an empty redo stack gives false and leaves both stacks unchanged; otherwise the top pair is popped and its memento restored; it succeeds exactly when the restore returns, and then the pair is pushed on the undo stack; a throwing restore drops the popped pair and leaves the undo stack as it was |
| UndoHistory.Outcome | src/History.ts:57-80 | what the caller sees: the restore's error when it threw, otherwise whether a pair moved |
| UndoHistory.History.Add | src/History.ts:53-55 | pushes `(name, state)` on the undo stack; the redo stack and the restores are untouched |
| UndoHistory.History.Undo | src/History.ts:57-68 | result (`Outcome`), stacks and restore calls are those `UndoMove` describes; `historyChanged` is dispatched only when the restore returned |
| UndoHistory.History.Redo | src/History.ts:70-80 | result (`Outcome`), stacks and restore calls are those `RedoMove` describes; `historyChanged` is dispatched only when the restore returned |
| UndoHistory.UndoThenRedo | src/History.ts:57-80 | a successful undo followed by redo gives back both stacks and restores the same memento |
| UndoHistory.RedoThenUndo | src/History.ts:57-80 | a successful redo followed by undo gives back both stacks |
| UndoHistory.UndoRestoresLastAdded | src/History.ts:53-68 | undo right after `add` restores the memento just added and moves that pair to the redo stack |
| UndoHistory.RedoAfterAddReplaysUndone | src/History.ts:53-80 | `add` keeps the redo stack, so redo after undo-then-add restores the undone memento on top of the added one |
| UndoHistory.ApplyKeepsTimeline | src/History.ts:57-80 | one undo or redo keeps the undo stack followed by the reversed redo stack unchanged |
| UndoHistory.RunKeepsTimeline | src/History.ts:57-80 | any sequence of undos and redos keeps that timeline and the combined size of the stacks |
| UndoHistory.UndoAllThenRedoAll | src/History.ts:57-80 | `k` undos followed by `k` redos return both stacks to where they started |
| UndoHistory.RunAppend | src/History.ts:57-80 | running two sequences of calls one after the other is running their concatenation |
| UndoHistory.UndoThrowLosesEntry | src/History.ts:57-68 | an undo whose restore throws removes the entry just before the cursor from the timeline and keeps the rest |
| UndoHistory.RedoThrowLosesEntry | src/History.ts:70-80 | a redo whose restore throws removes the entry just after the cursor from the timeline and keeps the rest |
| Clone.Clone | src/History.ts:83-147 | the reference definition of `Clone` over a session: registered objects first, then one branch per object kind, "Unsupported deep clone." otherwise; its properties are the `Clone.…Sound`, `…Cloned` and sharing lemmas below |
| Clone.CopyItem | src/History.ts:87-98 | a solid or space instance: clone the levels' objects in order, then store and register a new item with those levels |
| Clone.CopyGroup | src/History.ts:99-103 | a group: clone the children in order, then store and register a new group of the same kind |
| Clone.CopySet | src/History.ts:119-123 | a Set: clone the members in order, then store and register a new Set of the clones |
| Clone.CopyMap | src/History.ts:124-128 | a Map: clone each key then its value, then store and register a new Map of the cloned pairs |
| Clone.CopyWeakValueMap | src/History.ts:129-133 | a WeakValueMap: clone the values in order, then store and register a new map with the original keys |
| Clone.SetAdd | src/History.ts:120-123 | `Set.add`: the result holds exactly the old members and the new value; a value already present changes nothing, a new one goes last |
| Clone.CloneSound | src/History.ts:83-147 | a finished clone keeps all earlier objects and registry entries; an object ends registered to the clone returned; a number is returned unchanged and changes nothing |
| Clone.ItemSound | src/History.ts:87-98 | a finished clone of a solid or space instance extends the session and registers the original to the clone returned |
| Clone.GroupSound | src/History.ts:99-103 | a finished clone of a group extends the session and registers the original to the clone returned |
| Clone.SetSound | src/History.ts:119-123 | a finished clone of a Set extends the session and registers the original to the clone returned |
| Clone.MapSound | src/History.ts:124-128 | a finished clone of a Map extends the session and registers the original to the clone returned |
| Clone.WeakValueMapSound | src/History.ts:129-133 | a finished clone of a WeakValueMap extends the session and registers the original to the clone returned |
| Clone.AllocExtends | src/History.ts:145 | storing a copy keeps every earlier object and registry entry and registers the original to the copy |
| Clone.CloneSeqSound | src/History.ts:101-103 | cloning children in turn yields, one for one, the registered clones of the children |
| Clone.CloneEntriesSound | src/History.ts:126-128 | cloning map entries yields, one for one, the registered clones of keys and values |
| Clone.RegisteredObjectReturned | src/History.ts:85-86 | an object already in the registry comes back as its registered clone, with nothing changed |
| Clone.SharingPreserved | src/History.ts:85-86 | cloning the same value again in the same session returns the same clone and changes nothing |
| Clone.SharedChildClonedOnce | src/History.ts:99-103 | two references to one child clone to one object |
| Clone.KernelItemsAndSnapsShared | src/History.ts:106-118 | kernel items and snaps are their own clones, registered to themselves |
| Clone.RefCounterClonesEmpty | src/History.ts:110-116 | a RefCounter clones to a new, empty counter, registered |
| Clone.LeafCopied | src/History.ts:104-109 | topology items, curve segments and axes helpers become one new copy with the same kind and data, registered |
| Clone.UnsupportedThrows | src/History.ts:139-143 | strings and unknown objects throw "Unsupported deep clone." |
| Clone.GroupCloned | src/History.ts:99-103 | a group becomes a new group of the same kind whose children are the clones of the original children, in order |
| Clone.ItemCloned | src/History.ts:87-98 | a solid or space instance becomes a new item of the same kind and `disposable` flag, each level holding its original's clone at the same distance |
| Clone.SetCloned | src/History.ts:119-123 | a Set becomes a new Set whose members are exactly the clones of the original members |
| Clone.MapOfKeys | src/History.ts:124-128 | a map built by successive `set` has exactly the keys set, only pairs that were set, and no key twice |
| Clone.MapCloned | src/History.ts:124-128 | a Map becomes a new Map with no key twice, whose keys are the clones of the original keys and whose entries pair cloned keys with cloned values |
| Clone.WeakValueMapCloned | src/History.ts:129-133 | a WeakValueMap becomes a new one with the original keys, each value replaced by its clone |
| Clone.WeakValueMapCopied | src/History.ts:129-133 | the WeakValueMap copy holds the original keys, each with the registered clone of its value |
| Clone.RekeyedMap | src/History.ts:130-133 | rebuilding the map from cloned values keeps exactly the original keys, and every entry pairs an original key with the clone of its value |
| Clone.RekeyKeys | src/History.ts:130-133 | the pairs rebuilt from cloned values carry exactly the original keys |
| Clone.RekeyPairs | src/History.ts:130-133 | every rebuilt pair is an original key with the clone of that key's value |
| Clone.SelfReferenceExhaustsStack | src/History.ts:99-145 | a group that is its own first child is never registered in time, so cloning it exhausts any stack |
| Clone.MapSet | src/History.ts:127 | `Map.set` adds the key, holds the new pair and no pair that was not there before |
| Clone.MapSetReplaces | src/History.ts:127 | on a map with distinct keys, `set` keeps the keys distinct and the key's only pair is the new one: the old pair is replaced |
| Clone.MapOfUnique | src/History.ts:124-128 | a map built by successive `set` never holds a key twice |
| Clone.SetOf | src/History.ts:120-123 | the Set built by successive `add` holds exactly the values added |
| CloneSession.Cloner.Clone | src/History.ts:83-147 | the in-place clone returns, throws or overflows exactly as `Clone.Clone` says, and leaves the heap and registry it computes |
| CloneSession.Cloner.CloneObject | src/History.ts:87-145 | the dispatch on an unregistered object agrees with `Clone.Clone` |
| CloneSession.Cloner.CloneItem | src/History.ts:87-98 | result, heap and registry are those of `Clone.CopyItem`: the levels' objects cloned in order, then the new item stored and registered |
| CloneSession.Cloner.CloneGroup | src/History.ts:99-103 | result, heap and registry are those of `Clone.CopyGroup`: the children cloned in order, then the new group stored and registered |
| CloneSession.Cloner.CloneSet | src/History.ts:119-123 | result, heap and registry are those of `Clone.CopySet`: the members cloned in order, then the new Set stored and registered |
| CloneSession.Cloner.CloneMap | src/History.ts:124-128 | result, heap and registry are those of `Clone.CopyMap`: each key then its value cloned, then the new Map stored and registered |
| CloneSession.Cloner.CloneWeakValueMap | src/History.ts:129-133 | result, heap and registry are those of `Clone.CopyWeakValueMap`: the values cloned in order, then the new map stored and registered |
| CloneSession.Cloner.CloneChildren | src/History.ts:101-103 | the children loop agrees with `Clone.CloneSeq` |
| CloneSession.Cloner.CloneLevels | src/History.ts:96-98 | the LOD loop re-adds each level's clone at its distance, as `CloneSession.LevelEntries` (built on `Clone.CloneSeq` and `Clone.Relevel`) says |
| CloneSession.Cloner.CloneSetElements | src/History.ts:120-123 | the Set loop yields the Set of the clones |
| CloneSession.Cloner.CloneMapEntries | src/History.ts:125-128 | the Map loop yields the Map of the cloned pairs |
| CloneSession.Cloner.CloneWeakValues | src/History.ts:130-133 | the WeakValueMap loop yields the original keys with cloned values, as `CloneSession.WeakEntries` says |
| CloneSession.Cloner.Allocate | src/History.ts:145 | the copy is stored and the original is registered to it |
| CloneSession.SeqStep | src/History.ts:101-103 | cloning the next element either moves a sequence loop one element on or ends it with the error `Clone.CloneSeq` gives |
| CloneSession.EntriesStep | src/History.ts:126-128 | cloning the next key and value either moves the Map loop one entry on or ends it with the error `Clone.CloneEntries` gives |
| CloneSession.ItemOutcome | src/History.ts:87-98 | the outcome of the LOD loop decides `Clone.CopyItem`: a new item with the cloned levels, or the loop's error |
| CloneSession.WeakValueMapOutcome | src/History.ts:129-133 | the outcome of the weak-values loop decides `Clone.CopyWeakValueMap`: a new map with those entries, or the loop's error |
| CloneSession.RekeySnoc | src/History.ts:130-133 | rebuilding with one more cloned value sets that entry's key to it after the earlier pairs |
| CloneSession.RekeyAppend | src/History.ts:130-133 | rebuilding with one more cloned value appends one pair with the original key |
| CloneSession.MapOfSnoc | src/History.ts:127 | building a Map from one more pair is one more `set` |
| Names.SimpleName | src/editor/VisualModel.ts:133-135 | the `<kind>,<parent>,<index>` name reads back as exactly that kind, parent and index |
| Names.FaceSimpleName | src/editor/VisualModel.ts:378-380 | `face,<parent>,<index>` reads back as a face with that parent and index |
| Names.CurveEdgeSimpleName | src/editor/VisualModel.ts:329-331 | `edge,<parent>,<index>` reads back as an edge with that parent and index |
| Names.ControlPointSimpleName | src/editor/VisualModel.ts:133-135 | `control-point,<parent>,<index>` reads back as a control point with that parent and index |
| Names.ParseJoined | src/editor/VisualModel.ts:329-331 | a `kind,parent,index` text reads back as exactly that kind, parent and index |
| Names.ParseIntText | src/editor/VisualModel.ts:133-135 | the decimal text of an integer reads back as that integer |
| Names.ParseNegativeText | src/editor/VisualModel.ts:133-135 | a minus sign followed by a number's digits reads back as the negated number |
| Names.ParseNatText | src/editor/VisualModel.ts:133-135 | the decimal digits of a natural number read back as that number |
| Names.SimpleNameInjective | src/editor/VisualModel.ts:378-380 | two names of the encoders are equal exactly when kind, parent and index are equal |
| Names.KindsNeverCollide | src/editor/VisualModel.ts:133-135 | face, edge and control-point names never coincide |
| GeometryGroups.GroupArray.Shift | src/editor/VisualModel.ts:352 | removes and returns the first range, `undefined` on an empty array |
| GeometryGroups.Compact | src/editor/VisualModel.ts:351-374 | returns `Compacted` of the input; the caller's array loses its first element |
| GeometryGroups.Compacted | src/editor/VisualModel.ts:351-374 | the reference definition of `compact`: zero or one range as given, otherwise `Merged`; its properties are `CompactedProperties`, `CompactIdempotent` and `CompactPair` |
| GeometryGroups.Merged | src/editor/VisualModel.ts:356-373 | the loop of `compact` as a fold of `Absorb` over the ranges; its properties are `MergedProperties` and `MergedSeparated` |
| GeometryGroups.Absorb | src/editor/VisualModel.ts:361-372 | one turn of that loop: a range that starts where the last one ends extends it, any other is appended, both without material; its properties are `AbsorbStep` and `AbsorbFuses` |
| GeometryGroups.MergedProperties | src/editor/VisualModel.ts:356-373 | merged ranges: no more than the input, same total count, same first start and last end, no material, no two neighbours that still meet (`MergeOf`) |
| GeometryGroups.AbsorbStep | src/editor/VisualModel.ts:361-372 | absorbing one more range into a merge gives a merge of the longer list |
| GeometryGroups.AbsorbFuses | src/editor/VisualModel.ts:362-364 | when the range continues the last one, the fused range keeps the merge properties |
| GeometryGroups.CompactedProperties | src/editor/VisualModel.ts:351-374 | `compact` never lengthens the list, keeps the total count, and strips materials once two ranges are given |
| GeometryGroups.CompactIdempotent | src/editor/VisualModel.ts:351-374 | compacting a compacted list changes nothing |
| GeometryGroups.CompactPair | src/editor/VisualModel.ts:361-372 | two ranges that meet fuse with summed counts; two that do not stay apart |
| GeometryGroups.MergedSeparated | src/editor/VisualModel.ts:361-372 | ranges with no meeting neighbours and no material come out of the merge unchanged |
| VisualModel.CurveGroup.Get | src/editor/VisualModel.ts:419-421 | the `i`-th edge exactly for an index inside the array, `undefined` otherwise |
| VisualModel.FaceGroup.Get | src/editor/VisualModel.ts:470 | the `i`-th face exactly for an index inside the array, `undefined` otherwise |
| VisualModel.Solid.Edges | src/editor/VisualModel.ts:55 | defined exactly when there is a level, and then the last level's edge group |
| VisualModel.Solid.Faces | src/editor/VisualModel.ts:56 | defined exactly when there is a level, and then the last level's face group |
| VisualModel.Solid.Outline | src/editor/VisualModel.ts:83-86 | empty while hidden; otherwise defined exactly when there is a level, and then the last level's faces; every face it gives is among all faces |
| VisualModel.Solid.AllEdges | src/editor/VisualModel.ts:88-95 | the loop yields the levels' edges concatenated in level order |
| VisualModel.Solid.AllFaces | src/editor/VisualModel.ts:97-104 | the loop yields the levels' faces concatenated in level order |
| VisualModel.AllEdgesMembers | src/editor/VisualModel.ts:88-95 | an edge is in `allEdges` exactly when some level holds it |
| VisualModel.AllFacesMembers | src/editor/VisualModel.ts:97-104 | a face is in `allFaces` exactly when some level holds it |
| VisualModel.AllEdgesCount | src/editor/VisualModel.ts:88-95 | `allEdges` has as many entries as the levels have edges together |
| VisualModel.EdgeCountSnoc | src/editor/VisualModel.ts:88-95 | one more level adds its edge count |
| VisualModel.AllEdgesOf | src/editor/VisualModel.ts:88-95 | the reference definition of `allEdges`: the levels' edges, level after level |
| VisualModel.AllFacesOf | src/editor/VisualModel.ts:97-104 | the reference definition of `allFaces`: the levels' faces, level after level |
| VisualModel.LastLevelClosesAllEdges | src/editor/VisualModel.ts:54-95 | `edges` (the last level's group) is the tail of `allEdges` |
| VisualModel.LastLevelClosesAllFaces | src/editor/VisualModel.ts:56-104 | `faces` (the last level's group) is the tail of `allFaces` |
| VisualModel.OutlineClosesAllFaces | src/editor/VisualModel.ts:83-104 | while visible, `outline` is the tail of `allFaces` that the last level contributes |
| VisualModel.Windows | src/editor/VisualModel.ts:428-437 | the windows of the edges, one after the other, are as long as the edges' counts together |
| VisualModel.Slice | src/editor/VisualModel.ts:423-443 | the output buffer is exactly the edges' windows concatenated in argument order |
| VisualModel.CopyFirstWindow | src/editor/VisualModel.ts:432-437 | one turn of the copy loop: the first remaining edge's window lands at the offset, and the offset advances by its count |
| VisualModel.SliceStep | src/editor/VisualModel.ts:432-437 | the windows done so far plus the first remaining window, followed by the rest, are still all the windows |
| VisualModel.TotalCount | src/editor/VisualModel.ts:428-429 | the first loop sums the edges' counts |
| VisualModel.CopyWindow | src/editor/VisualModel.ts:433-436 | one `Buffer.copy`: the window lands at the offset and the part before it is kept |
| VisualModel.CountsInBuffer | src/editor/VisualModel.ts:428-429 | edges whose windows lie in the buffer have a non-negative total count |
| VisualModel.WindowsUnfold | src/editor/VisualModel.ts:432-437 | the windows start with the first edge's window |
| VisualModel.SliceOne | src/editor/VisualModel.ts:338-340 | slicing one edge gives its own window |
| VisualModel.InBufferAppend | src/editor/VisualModel.ts:428-437 | two lists of edges inside the buffer join into one |
| VisualModel.WindowsAppend | src/editor/VisualModel.ts:428-437 | slicing two lists one after the other is slicing their concatenation |
| VisualModel.CurveBuilder.Add | src/editor/VisualModel.ts:618-628 | appends one line whose user data is named `edge,<parent>,<i>` with index `i`; records the parent id |
| VisualModel.CurveBuilder.Build | src/editor/VisualModel.ts:630-661 | no lines give an empty group; otherwise one curve per line, the i-th with the i-th merged range and the i-th line's user data, whose name reads back as that parent and index |
| VisualModel.SolidBuilder.Add | src/editor/VisualModel.ts:521-526 | appends one level with the built edge group, the given faces and the distance (0 when missing); earlier levels are kept |
| VisualModel.SolidBuilder.Build | src/editor/VisualModel.ts:528-530 | returns the solid being built |
| VisualModel.NewControlPoint | src/editor/VisualModel.ts:139-146 | a control point is named so that its name reads back as its parent and index |
| VisualModel.ControlPointNamesDistinct | src/editor/VisualModel.ts:133-135 | two control points of one parent with different indices have different names |
| VisualModel.Curve3D.ParentItem | src/editor/VisualModel.ts:172-176 | succeeds exactly when the parent is a space instance, and then gives that parent, identified by its name; otherwise "Invalid precondition" |
| VisualModel.Curve3D.FragmentInfo | src/editor/VisualModel.ts:178-181 | defined exactly for a fragment, and then the curve's user data, which carries the untrimmed ancestor |
| VisualModel.Curve3D.Befragment | src/editor/VisualModel.ts:183-189 | names the curve "fragment", records start, stop and ancestor, clears the points' children; afterwards it is a fragment with that info |
| VisualModel.Curve3D.ControlPoints | src/editor/VisualModel.ts:195-205 | fails exactly when the parent is not a space instance; otherwise one control point per sample, the i-th with index i, all names distinct |
| VisualModel.Curve3D.MakePoint | src/editor/VisualModel.ts:207-210 | the control point at the index when the parent is a space instance; otherwise "Invalid precondition" |

## Left out

- Console logging (`console.log`, `console.warn`, `console.error`) is not modelled.
- Signal dispatch is recorded only as events in a ghost trace, or as a ghost counter in `History`.
- `doCommit` is asynchronous in callers; the model runs it synchronously.
- `Factory.GeometryFactory.Transaction`: which field values are `null` or have a throwing `clone()` is not computed from the values. It is a parameter, the set of uncopyable fields. A `clone()` that returns is taken as the value itself. Fields are values here, so aliasing between a field and its snapshot is not captured.
- The editor's `restoreFromMemento` is not part of this model. Whether it returns or throws is a parameter of `undo` and `redo`, and `History` records the mementos handed to it, in order.
- `Names.IntText`: ids and indices are mathematical integers printed in plain decimal. JavaScript numbers are doubles, exact only up to 2^53, and a template literal prints magnitudes from 10^21 on in exponent form (`1e+21`). Neither is modelled.
- `VisualModel.Solid.Outline` returns the last level's faces as a sequence, not the `FaceGroup` object that holds them.
- `Clone.Clone` follows what History.ts evidently intends, not what it does with the VisualModel.ts in this model. That file exports no `CurveEdgeGroup` and no `RecursiveGroup`; they appear only in its header comment. An `instanceof` against `undefined` throws a `TypeError`, so every value that gets past the `Solid`, `SpaceInstance` and `FaceGroup` tests, numbers included, would throw there. The model assumes both classes exist. It also assumes that a `SpaceInstance` has an `lod`, which VisualModel.ts:118-123 does not declare, so `object.lod.levels` would throw for it too.
- `Clone`'s THREE internals are abstracted:
  - `copy`, `clone(false)` and `add` become "new object with the same kind and data, then its cloned children in order";
  - `LOD.addLevel` is taken to append, so its sorting of levels by distance is not modelled;
  - `AxesHelper`'s own deep `clone()` is taken as a leaf copy.
- `Clone.Clone`: the registry is threaded as a value. Entries that a clone which later throws had already written are therefore not visible to the caller. The caller gets only the error, as in the source, where the map is usually discarded.
- `Clone.Clone` and `CloneSession.Cloner.Clone` take a `fuel` bound standing for the stack depth. Without it, self-referencing graphs would not terminate. The model does not state what depth JavaScript actually allows.
- `VisualModel.Slice`: requires every edge's window to lie inside the line buffer and counts to be non-negative. Node's `Buffer.copy` clamping and range errors for other windows are not modelled. Offsets are in samples, not bytes.
- `VisualModel.Slice` on a group built from no lines returns no samples. The source throws there, because such a group has no `instanceStart` attribute.
- `VisualModel.CurveBuilder.Build`: `mergePositions` and the pick-id encoder are not part of this model. Their output (one buffer and one draw range per line) is a parameter. Build requires one range per line, as the source assumes.
- `VisualModel.SolidBuilder.Add` accepts any curve group as the edges, where the source's type asks for an edge group built by `CurveBuilder<CurveEdge>`. `FaceGroupBuilder.build` (merging face meshes through `mergeBufferGeometries`) is not part of this model. The face group arrives already built. THREE's `Math.abs` on the distance is not modelled.
- Pickers, materials, layers, render orders and `dispose` are rendering glue and are not modelled. So are `Surface.build`, `PlaneInstanceBuilder.add`, `FaceGroupBuilder.add` (buffer setup), `ControlPointGroup.build` (kernel casts) and `SpaceInstanceBuilder`.
- The curve and face iterators are the `edges`/`faces` sequences themselves.
- `TopologyItem.parentItem` (the four-level parent walk) is not modelled.
- Gizmos and `MirrorFactory` are not part of this model.
