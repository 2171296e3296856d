/**
 * Sequences of editor operations, verified from the operations' contracts alone: what
 * the editor promises across several calls (an undo after the first placement, an
 * undo/redo round trip, a record that overwrites the redo branch) and what it does not
 * (a snapshot that is edited after an undo).
 */
module Scenarios {
  import opened Wrappers
  import opened Shapes
  import opened Extrusion
  import opened Editing

  /**
   * Placing a first shape and undoing it: back at step 0 with nothing being edited, and
   * the committed list as it was (the shape was never committed).
   */
  method UndoFirstPlacement(e: Editor, s: Shape)
    requires e.Valid()
    requires e.historyStep == 0 && e.currentObject == None
    modifies e
    ensures e.Valid()
    ensures e.historyStep == 0 && e.currentShape == null && e.currentObject == None
    ensures e.objectList == old(e.objectList)
    ensures !e.buttons.undo && e.buttons.redo && |e.history| == 2
  {
    e.AddShape(s);
    e.RecordState(true);
    e.Undo();
  }

  /**
   * Clear, place a shape, stretch it and record, then undo twice. Nothing is being
   * edited any more, only redo is enabled, and the history holds the two snapshots: the
   * shape as placed and the stretched shape, both at the reset height.
   */
  method PlaceStretchUndoTwice(e: Editor, a: Shape, stretch: Point -> Point)
    requires e.Valid() && e.buttons.clear
    modifies e, a
    ensures e.Valid()
    ensures e.historyStep == 0 && |e.history| == 3
    ensures e.currentShape == null && e.currentObject == None && e.objectList == old(e.objectList)
    ensures e.buttons == Buttons(false, false, true, false)
    ensures e.history[1].isNew && e.history[1].height == SliderReset
    ensures e.history[1].shape != null && e.history[1].shape.loops == old(a.loops)
    ensures !e.history[2].isNew && e.history[2].height == SliderReset
    ensures e.history[2].shape != null && e.history[2].shape.loops == MapLoops(old(a.loops), stretch)
  {
    e.Clear();
    e.AddShape(a);
    e.RecordState(true);
    e.AspectInput(stretch);
    e.RecordState(false);
    e.Undo();
    e.Undo();
  }

  /**
   * Redo from step 0 onto a placement, with nothing being edited: the placed snapshot is
   * current again at the reset height, its solid is rebuilt, and nothing is committed.
   */
  method RedoPlacement(e: Editor)
    requires e.Valid() && e.historyStep == 0 && |e.history| > 1 && e.history[1].isNew
    requires e.currentObject == None
    modifies e
    ensures e.Valid()
    ensures e.historyStep == 1 && e.history == old(e.history)
    ensures e.currentShape == e.history[1].shape && e.currentShape != null
    ensures e.height == SliderReset
    ensures e.currentObject == Some(Mesh(e.currentShape.loops, Depth(e.minHeight, e.maxHeight, SliderReset)))
    ensures e.objectList == old(e.objectList)
  {
    e.Redo();
  }

  /**
   * The whole sequence: clear, place, stretch and record, undo twice, redo twice. Each
   * redo brings back the snapshot and height recorded at that step: after the second the
   * stretched shape is current at the reset height with its solid rebuilt, the placed
   * outline is still in entry 1, and nothing was committed.
   */
  method PlaceMoveUndoRedo(e: Editor, a: Shape, stretch: Point -> Point)
    requires e.Valid() && e.buttons.clear
    modifies e, a
    ensures e.Valid()
    ensures e.historyStep == 2 && |e.history| == 3 && !e.buttons.redo
    ensures e.currentShape == e.history[2].shape && e.currentShape != null
    ensures e.currentShape.loops == MapLoops(old(a.loops), stretch)
    ensures e.height == SliderReset && e.history[2].height == SliderReset
    ensures e.currentObject == Some(Mesh(e.currentShape.loops, Depth(e.minHeight, e.maxHeight, SliderReset)))
    ensures e.history[1].shape != null && e.history[1].shape.loops == old(a.loops)
    ensures e.objectList == old(e.objectList)
  {
    PlaceStretchUndoTwice(e, a, stretch);
    RedoPlacement(e);
    e.Redo();
  }

  /**
   * Undo followed by redo: the cursor and the history are back where they were and the
   * current shape is the snapshot object at the cursor. The committed list is restored
   * exactly, except when the undone entry placed a new shape above step 1 and the entry
   * below it holds a snapshot: then the solid that undo popped was replaced by a fresh
   * extrusion of that snapshot, and that is what redo pushes back.
   */
  method UndoThenRedo(e: Editor)
    requires e.Valid() && e.buttons.undo
    modifies e
    ensures e.Valid()
    ensures e.historyStep == old(e.historyStep) && e.history == old(e.history)
    ensures e.currentShape == e.history[e.historyStep].shape
    ensures e.buttons.undo && (e.buttons.redo <==> e.historyStep < |e.history| - 1)
    ensures !e.history[e.historyStep].isNew || e.historyStep == 1 || e.history[e.historyStep - 1].shape == null ==>
              e.objectList == old(e.objectList)
    ensures e.history[e.historyStep].isNew && e.historyStep > 1 && e.history[e.historyStep - 1].shape != null ==>
              var below := e.history[e.historyStep - 1];
              e.objectList == Rest(old(e.objectList)) + [Mesh(below.shape.loops, Depth(e.minHeight, e.maxHeight, below.height))]
  {
    ghost var before := e.objectList;
    e.Undo();
    e.Redo();
    PopThenPush(before);
  }

  /** Recording after an undo drops the undone entry and everything after it: there is nothing left to redo. */
  method RecordAfterUndo(e: Editor)
    requires e.Valid() && e.buttons.undo
    modifies e
    ensures e.Valid()
    ensures e.historyStep == old(e.historyStep) && |e.history| == e.historyStep + 1
    ensures e.history[..e.historyStep] == old(e.history)[..e.historyStep]
    ensures !e.buttons.redo
  {
    e.Undo();
    e.RecordState(false);
  }

  /**
   * After an undo that lands on a step with a snapshot, the current shape IS that
   * snapshot, so stretching the shape in place rewrites the history entry: a later undo
   * and redo back to this step no longer restore what was recorded there.
   */
  method UndoThenStretchEditsSnapshot(e: Editor, stretch: Point -> Point)
    requires e.Valid() && e.buttons.undo && e.historyStep >= 2
    requires e.history[e.historyStep - 1].shape != null
    modifies e, e.history[e.historyStep - 1].shape
    ensures e.historyStep == old(e.historyStep) - 1 && e.history == old(e.history)
    ensures e.history[e.historyStep].shape.loops ==
              MapLoops(old(e.history[e.historyStep - 1].shape.loops), stretch)
  {
    e.Undo();
    e.AspectInput(stretch);
  }
}
