# 3d-food-builder editor core in Dafny

This project models the editing core of `src/index.js`, a touch-driven web editor. The user
picks 2-D outlines from a shape pool, extrudes them into solids, moves, rotates, stretches and
raises them, and can undo and redo each step. The model covers these parts:

- **Shapes** (`shapes.dfy`). A shape is a list of loops. Each loop has curves with optional
  first and last control points, and holes that are loops too. `transformShape` moves every
  control point in place. The model states it as a pure map, `MapLoops`, and implements it
  twice: as loop-and-recursion methods over values, and as an in-place update of a `Shape`
  heap object. Shapes are heap objects because the editor shares them by reference.
- **Extrusion depth** (`extrusion.dfy`). This is `lerp` and the depth the height slider
  selects, over reals.
- **Touch cache** (`touches.dfy`). This is the bookkeeping of `handleMoveZoom`: which touches
  of a batch count as moved, and the cache that replaces the previous one.
- **Editor** (`editing.dfy`). The class `Editor` holds the globals:
  - the history and its cursor;
  - the committed solids (`objectList`);
  - the solid being edited (`currentObject`) and its shape (`currentShape`);
  - the height slider value;
  - the four navigation buttons and the four input surfaces, as booleans.

  Its methods are `recordState`, `undoOp`, `redoOp`, `clearObjects`, `addShape`,
  `extrudeCurrentShape`, `handleMoveZoom`, and the touch listeners that keep one input
  surface active at a time. Every method preserves the history invariant `Valid()`:
  - the cursor is a valid index;
  - index 0 holds the sentinel;
  - undo, clear and done are enabled exactly above step 0;
  - redo is enabled exactly below the last entry;
  - an entry that placed a new shape holds a shape.
- **Scenarios** (`scenarios.dfy`). These are sequences of operations, verified from the
  methods' contracts alone.

The model keeps three behaviours of the code as they are:
- `clearObjects` leaves the list of committed solids as it is.
- An undo down to step 0 never pops that list.
- Undo and redo make the stored snapshot object itself the current shape. A later move or
  stretch therefore rewrites that history entry (`Scenarios.UndoThenStretchEditsSnapshot`).

A committed or current solid is a value, `Mesh(loops, depth)`: the outline and depth it was
built from. A history snapshot is a fresh `Shape` object carrying a copy of the loops, as
`cloneDeep` makes one.

## Model

| member | source | states |
|---|---|---|
| Shapes.CurvesVisitedOnce | src/index.js:476-481 | The points visited after mapping a list of curves are the original visit sequence (`v0` if present, `v1`, `v2`, `v3` if present, curve by curve) with `t` applied to each element once. |
| Shapes.VisitedOnce | src/index.js:474-484 | The same for loops, recursively through holes: each point of every loop and hole is transformed exactly once, in visit order. An empty shape visits nothing. |
| Shapes.MapKeepsLayout | src/index.js:474-484 | A transform keeps the shape's structure: the same number of loops, curves and holes, and `v0`/`v3` present exactly where they were. |
| Shapes.MapIdentity | src/index.js:474-484 | A transform that returns every point unchanged leaves the shape equal to what it was. |
| Shapes.MapCompose | src/index.js:474-484 | Two successive transforms equal one transform by their composition. |
| Shapes.TransformCurves | src/index.js:476-481 | The loop over curves returns exactly the mapped curves. |
| Shapes.TransformLoops | src/index.js:474-484 | The loop over loops, recursing into holes, returns exactly `MapLoops` of its input. |
| Shapes.TransformShape | src/index.js:474-484 | In place: the shape object's loops become `MapLoops` of their old value. |
| Shapes.Shape.constructor | src/index.js:511 | A deep copy: a new object holding the given loops. |
| Extrusion.Lerp | src/index.js:486-488 | `lerp(a, b, 0) == a` and `lerp(a, b, 1) == b`. |
| Extrusion.LerpMonotone | src/index.js:486-488 | For `a <= b`, lerp does not decrease as `t` grows. |
| Extrusion.LerpStrict | src/index.js:486-488 | For `a < b`, lerp strictly increases with `t`. |
| Extrusion.Depth | src/index.js:458 | Slider value 0 gives `minHeight` and value 100 gives `maxHeight`. |
| Extrusion.DepthMonotone | src/index.js:458 | For `minHeight <= maxHeight`, depth does not decrease as the slider value grows. |
| Extrusion.DepthStrict | src/index.js:458 | For `minHeight < maxHeight`, a higher slider value gives a strictly greater depth. |
| Extrusion.DepthBounds | src/index.js:458 | For a slider value in [0, 100] and `minHeight <= maxHeight`, depth lies in [minHeight, maxHeight]. |
| Touches.Moved | src/index.js:141-148 | There are at most as many moved touches as touches in the batch, and each is in the batch with an identifier in the previous cache. Which touches they are is pinned down by `MovedExactly`, and their batch order by `MovedAppend`. |
| Touches.MovedExactly | src/index.js:141-148 | A touch is moved if and only if it is in the batch and its identifier is in the previous cache. |
| Touches.MovedAppend | src/index.js:141-148 | Selection keeps batch order: moved touches of a concatenation are the moved touches of each part, in order. |
| Touches.CollectMoved | src/index.js:141-148 | The loop collects exactly `Moved(batch, cache)`. |
| Touches.CacheOfKeys | src/index.js:183-188 | The new cache's keys are exactly the identifiers of the batch. |
| Touches.CacheOfHoldsLast | src/index.js:183-188 | The new cache maps each identifier to the last touch of the batch with that identifier. |
| Touches.BuildCache | src/index.js:183-188 | The loop builds exactly `CacheOf(batch)`, starting from an empty cache. |
| Editing.PopThenPush | src/index.js:537-539 | Popping an array and pushing back what was popped restores it, also when it was empty (`pop()` then gives `undefined`). `Scenarios.UndoThenRedo` rests on this when the undo pops and the redo pushes the popped solid back. |
| Editing.Editor.constructor | src/index.js:26-32 | Initial state: cursor 0, history holding only the sentinel, nothing placed, the buttons, sliders and renderer disabled, the pool enabled. |
| Editing.Editor.Extrude | src/index.js:454-469 | The current solid is rebuilt from the current shape at the depth the slider selects. |
| Editing.Editor.RecordState | src/index.js:505-520 | The cursor goes up by one. Entries before it are kept and later entries are dropped. A fresh deep copy of the current shape (or none) is appended with the slider value and `isNew`, so `|history| == cursor + 1`. Undo, clear and done are enabled, redo is disabled, the renderer is enabled. The shape, both solids, the slider value and the touch cache are unchanged (the predicate `Recorded`). The invariant is kept. |
| Editing.Editor.Undo | src/index.js:522-545 | No-op while undo is disabled. Otherwise the cursor goes down by one and redo is enabled. At step 0, shape and solid become null, undo, clear, done, the sliders and the renderer are disabled, and the committed list is unchanged. Above 0, the list is popped into the current solid if and only if the entry left had `isNew`. The current shape becomes the entry's snapshot object itself. The height is restored and the solid re-extruded. The invariant is kept. |
| Editing.Editor.AddShape | src/index.js:492-503 | The old current solid, if any, is pushed on the committed list. The given shape becomes current, the height is reset to 50 and the solid is extruded. The sliders and the renderer are enabled. |
| Editing.Editor.Redo | src/index.js:547-563 | No-op while redo is disabled. Otherwise the cursor goes up by one. An `isNew` entry is replayed through addShape: push, the entry's snapshot object, height 50. Any other entry restores its snapshot object and height. Redo stays enabled if and only if the cursor is below the last entry. Undo, clear, done and the renderer are enabled. The invariant is kept. |
| Editing.Editor.Clear | src/index.js:565-585 | No-op while clear is disabled. Otherwise the history is the sentinel alone at step 0, shape and solid are null, all four buttons, both sliders and the renderer are disabled, and the committed list is left as it was. |
| Editing.Editor.HandleMoveZoom | src/index.js:134-189 | With no shape or more than two touches, the cache is emptied and the shape and solid are untouched. Otherwise one moved touch maps the shape by `pan` of its cached and current positions, and two map it by `pinch` of both pairs. In those two cases the solid is rebuilt; with no moved touch, nothing changes. The cache becomes exactly the batch. History, buttons and flags are unchanged. |
| Editing.Editor.RendererTouchMove | src/index.js:129-132 | handleMoveZoom runs only while the renderer is enabled. Otherwise nothing changes. |
| Editing.Editor.RendererTouchStart | src/index.js:397-402 | While the renderer is enabled: handleMoveZoom, then the sliders and the pool are disabled, leaving the renderer the only enabled surface. |
| Editing.Editor.RendererTouchEnd | src/index.js:403-410 | When the last touch lifts from an enabled renderer, all surfaces are enabled and a non-new entry is recorded as `RecordState` records it: a fresh copy of the current shape, the slider value, the dropped redo branch, and nothing else changed. Otherwise nothing changes. |
| Editing.Editor.AspectTouchStart | src/index.js:231-236 | An enabled aspect slider disables the height slider, the renderer and the pool. |
| Editing.Editor.AspectInput | src/index.js:222-230 | The current shape, if any, is stretched in place and its solid rebuilt. |
| Editing.Editor.AspectTouchEnd | src/index.js:237-245 | An enabled aspect slider re-enables every surface. Its reset stretches by a factor of 1, leaving the shape unchanged, and re-extrudes it, so the current solid is rebuilt when there is a shape and kept when there is none. A non-new entry holding a fresh copy of the shape is recorded, with the committed list, slider value and touch cache unchanged. |
| Editing.Editor.HeightTouchStart | src/index.js:252-257 | An enabled height slider disables the aspect slider, the renderer and the pool. |
| Editing.Editor.HeightInput | src/index.js:248-251 | The slider holds the new value, and the solid of the current shape, if any, is rebuilt at the new depth. |
| Editing.Editor.HeightTouchEnd | src/index.js:258-264 | An enabled height slider re-enables every surface and records a non-new entry holding a fresh copy of the current shape and the slider value. Shape, solids, slider value and touch cache are unchanged. |
| Editing.Editor.PoolTouchStart | src/index.js:289-298 | A touch on an enabled pool that no other touch holds disables the sliders and the renderer, leaving the pool the only enabled surface. |
| Scenarios.UndoFirstPlacement | src/index.js:505-545 | Placing a first shape, recording it and undoing returns to step 0 with no shape and no solid. The committed list is unchanged, undo is disabled and redo enabled. |
| Scenarios.PlaceStretchUndoTwice | src/index.js:492-545 | Clear, place, stretch and record, then undo twice: step 0 with no shape, no solid and the committed list unchanged, only redo enabled. Entry 1 holds the placed outline and is new; entry 2 holds the stretched outline and is not new; both are at height 50. |
| Scenarios.RedoPlacement | src/index.js:547-563 | Redo from step 0 onto a placement, with no current solid: the placed snapshot is current again at height 50, its solid is rebuilt at that depth, and nothing is committed. |
| Scenarios.PlaceMoveUndoRedo | src/index.js:492-563 | The whole sequence, with redo twice after the two undos: the stretched snapshot is current at height 50, as recorded in entry 2, and its solid is rebuilt at that depth. Entry 1 still holds the placed outline, the committed list is unchanged, and redo is disabled. |
| Scenarios.UndoThenRedo | src/index.js:522-563 | Undo then redo restores the cursor and the history. The current shape is the snapshot at the cursor. Redo is enabled if and only if there is a later entry. The committed list is restored exactly, except in one case: the undone entry placed a new shape above step 1 and the entry below holds a snapshot. There the list's last solid is replaced by a fresh extrusion of that snapshot at its recorded height. |
| Scenarios.RecordAfterUndo | src/index.js:505-545 | Recording after an undo keeps the entries before the cursor and drops the undone branch, so nothing is left to redo. |
| Scenarios.UndoThenStretchEditsSnapshot | src/index.js:536-541 | After an undo, stretching the current shape rewrites the history entry the cursor points to, because that entry and the current shape are the same object. |

## Left out

- The three.js scene, renderer, camera, animation loop, lights, material and ground are not modelled. Nor are adding and removing solids from the scene, or how `ExtrudeGeometry` builds a mesh. A solid is the value `Mesh(loops, depth)`, and the bevel options are not part of it.
- The numerics of the two gestures are not modelled. A one-touch move is a pixel-to-world translation and a two-touch pinch is a rotation and scaling built from `atan2`, `sqrt`, `cos` and `sin`. They are the function parameters `pan` and `pinch`. Floating-point arithmetic, and the division by zero when the previous two touches coincide, are outside the model.
- The aspect slider's factor `2 ** (value / 50 - 1)` and the ratio to the previous factor are not modelled; `AspectInput` takes the resulting stretch as a parameter, and the slider's own value and `prevAspect` are not modelled. The stretch on touch end is the identity, as the ratio there is 1.
- The shape pool's touchmove and touchend listeners are not modelled. These are drag-to-place bookkeeping, scroll offsets and the placement through `svgToShape`.
- `PoolTouchStart` takes the truthiness of the pool's stored touch identifier as a boolean. The code's test treats a held touch with identifier 0 as not held; that quirk is not modelled.
- `svgToShape`, `SVGLoader`, text-to-SVG, image tracing and file reading are not modelled: they produce shapes from outside input. Shapes enter the model through `AddShape`.
- STL export, the upload, `saveAs` and the confirmation dialogs (`saveObjects`) are not modelled. They are file and network I/O.
- The constants read from URL parameters (`minHeight`, `maxHeight`) are constructor parameters. The page markup's initial button and slider state is taken as disabled buttons and the initial height as a parameter.
- Ellipse curves, which carry no `v1`/`v2`, are not modelled: every curve has `v1` and `v2`.
- Slider input events are modelled as the listener body only. The browser does not deliver input to a disabled slider, but the model does not gate `AspectInput` and `HeightInput` on it.
- `RecordState` requires a current shape when it records a new placement, and the invariant requires every such entry to hold a shape. In the code every `recordState(true)` follows a placement. A null there would make the later redo fail inside `ExtrudeGeometry`.
- The model follows the code where a plainer description of the app would differ. Clearing does not empty the list of committed solids, and the current shape is not kept non-null exactly when the cursor is above 0: a shape dragged from the pool at step 0 is current before it is recorded.
