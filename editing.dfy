/**
 * The editor's global state (src/index.js:24-32) and the operations that change it:
 * the undo/redo history (recordState, undoOp, redoOp, clearObjects and addShape,
 * src/index.js:492-585), the touch handler that moves and zooms the current shape
 * (handleMoveZoom, src/index.js:134-189) and the enabling and disabling of the input
 * surfaces that keeps one gesture at a time (src/index.js:123-132, 231-264, 289-298,
 * 397-410). Buttons and sliders are enabled or disabled in the source by setting their
 * opacity to 1 or to `disabledOpacity`; here each is a boolean.
 */
module Editing {
  import opened Wrappers
  import opened Shapes
  import opened Extrusion
  import opened Touches

  /** An extruded solid. It is built from the loops and depth of the moment it was made, so it is a value. */
  datatype Mesh = Mesh(loops: seq<Loop>, depth: real)

  /** A history entry: a snapshot of the shape (or none), the height slider's value, and whether it placed a new shape. */
  datatype Entry = Entry(shape: Shape?, height: int, isNew: bool)

  /** The entry at index 0, "nothing placed yet"; its height is never read. */
  const Sentinel := Entry(null, 0, false)

  /** The value a slider is reset to (resetSideBar). */
  const SliderReset := 50

  /** The four navigation buttons; `true` is opacity 1, enabled. */
  datatype Buttons = Buttons(clear: bool, undo: bool, redo: bool, done: bool)

  /** The four input surfaces: aspect slider, height slider, renderer canvas, shape pool. */
  datatype Inputs = Inputs(aspect: bool, height: bool, renderer: bool, pool: bool)

  /** What `pop()` returns: the last element, or `undefined` on an empty array. */
  function Top<T>(s: seq<T>): Option<T>
  {
    if s == [] then None else Some(s[|s| - 1])
  }

  /** The array after `pop()`; popping an empty array leaves it empty. */
  function Rest<T>(s: seq<T>): seq<T>
  {
    if s == [] then [] else s[..|s| - 1]
  }

  /** Popping then pushing back what was popped restores the array, even when it was empty. */
  lemma PopThenPush<T>(s: seq<T>)
    ensures Rest(s) + OptionSeq(Top(s)) == s
  {
  }

  ghost predicate NewEntriesShaped(h: seq<Entry>)
  {
    forall k :: 0 < k < |h| && h[k].isNew ==> h[k].shape != null
  }

  /**
   * The history invariant. The cursor is a valid index and index 0 holds the sentinel.
   * The buttons are a function of the cursor: undo, clear and done are enabled exactly
   * when there is a step to go back to, redo exactly when there is one to go forward to.
   * An entry that placed a new shape has a shape.
   */
  ghost predicate HistoryInvariant(h: seq<Entry>, step: nat, b: Buttons)
  {
    && step < |h|
    && h[0] == Sentinel
    && b == Buttons(step > 0, step > 0, step < |h| - 1, step > 0)
    && NewEntriesShaped(h)
  }

  class Editor {
    /** The depth bounds, URL parameters in the source. */
    const minHeight: real
    const maxHeight: real

    // The history and its cursor.
    var historyStep: nat
    var history: seq<Entry>
    // The committed solids, the solid of the shape being edited, and that shape.
    var objectList: seq<Mesh>
    var currentObject: Option<Mesh>
    var currentShape: Shape?
    // The height slider's value.
    var height: int
    var buttons: Buttons
    var inputs: Inputs
    // handleMoveZoom's cache of the previous batch of touches.
    var tpCache: map<int, Touch>

    ghost predicate Valid()
      reads this
    {
      HistoryInvariant(history, historyStep, buttons)
    }

    /**
     * The state after loading: an empty history, nothing placed, the four buttons and the
     * two sliders disabled, the renderer disabled, the shape pool enabled. The initial
     * button opacities and slider value come from the page markup.
     */
    constructor (minHeight: real, maxHeight: real, height: int)
      ensures Valid()
      ensures this.minHeight == minHeight && this.maxHeight == maxHeight && this.height == height
      ensures historyStep == 0 && history == [Sentinel]
      ensures objectList == [] && currentObject == None && currentShape == null
      ensures buttons == Buttons(false, false, false, false)
      ensures inputs == Inputs(false, false, false, true)
      ensures tpCache == map[]
    {
      this.minHeight, this.maxHeight, this.height := minHeight, maxHeight, height;
      historyStep, history := 0, [Sentinel];
      objectList, currentObject, currentShape := [], None, null;
      buttons := Buttons(false, false, false, false);
      inputs := Inputs(false, false, false, true);
      tpCache := map[];
    }

    /** extrudeCurrentShape: the current solid is rebuilt from the current shape at the slider's depth. */
    method Extrude()
      requires currentShape != null
      modifies this`currentObject
      ensures currentObject == Some(Mesh(currentShape.loops, Depth(minHeight, maxHeight, height)))
    {
      currentObject := Some(Mesh(currentShape.loops, Depth(minHeight, maxHeight, height)));
    }

    /**
     * What one recordState leaves behind, apart from the input flags and the current
     * solid: the cursor one step further, the entries before it kept and the later ones
     * dropped, and a new last entry holding the slider value, `isNew` and either nothing
     * (no current shape) or a fresh deep copy of the current shape. Undo, clear and done
     * are enabled, redo is disabled; the shape, the committed list, the slider value and
     * the touch cache are as they were.
     */
    twostate predicate Recorded(isNew: bool)
      reads this, currentShape, if historyStep < |history| then {history[historyStep].shape} else {}
    {
      && historyStep == old(historyStep) + 1 && |history| == historyStep + 1
      && historyStep <= |old(history)|
      && history[..historyStep] == old(history)[..historyStep]
      && history[historyStep].height == height && history[historyStep].isNew == isNew
      && (currentShape == null ==> history[historyStep].shape == null)
      && (currentShape != null ==>
            && history[historyStep].shape != null
            && fresh(history[historyStep].shape)
            && history[historyStep].shape.loops == currentShape.loops)
      && buttons == Buttons(true, true, false, true)
      && currentShape == old(currentShape) && objectList == old(objectList)
      && height == old(height) && tpCache == old(tpCache)
    }

    /**
     * recordState: the cursor moves forward one step, every entry from the new step on
     * is dropped, and a deep copy of the current shape is appended with the slider value
     * and `isNew`. Undo, clear and done become enabled, redo disabled; the renderer is
     * enabled.
     */
    method RecordState(isNew: bool)
      requires Valid()
      requires isNew ==> currentShape != null
      modifies this
      ensures Valid()
      ensures Recorded(isNew)
      ensures inputs == old(inputs).(renderer := true)
      ensures currentObject == old(currentObject)
    {
      var step := historyStep + 1;
      var h := history;
      if step < |h| {
        h := h[..step];
      }
      assert h == old(history)[..step];
      var snapshot: Shape? := null;
      if currentShape != null {
        snapshot := new Shape(currentShape.loops);
      }
      h := h + [Entry(snapshot, height, isNew)];
      historyStep, history := step, h;
      buttons := Buttons(true, true, false, true);
      inputs := inputs.(renderer := true);
    }

    /**
     * undoOp. Ignored while undo is disabled. Otherwise the cursor moves back one step
     * and redo becomes enabled. Back at step 0, nothing is being edited any more and
     * undo, clear, done, the sliders and the renderer are disabled; the committed list is
     * not touched. Elsewhere, if the entry being left placed a new shape, the last
     * committed solid is popped into the current solid; the current shape becomes the
     * entry's snapshot object itself (not a copy) and the slider takes the entry's value,
     * and when that snapshot is a shape the current solid is rebuilt from it.
     */
    method Undo()
      requires Valid()
      modifies this
      ensures Valid()
      ensures !old(buttons.undo) ==> unchanged(this)
      ensures old(buttons.undo) ==>
                && historyStep == old(historyStep) - 1 && history == old(history)
                && buttons.redo && tpCache == old(tpCache)
      ensures old(buttons.undo) && historyStep == 0 ==>
                && currentShape == null && currentObject == None
                && buttons == Buttons(false, false, true, false)
                && inputs == old(inputs).(aspect := false, height := false, renderer := false)
                && objectList == old(objectList) && height == old(height)
      ensures old(buttons.undo) && historyStep > 0 ==>
                var left, here := history[historyStep + 1], history[historyStep];
                && currentShape == here.shape && height == here.height
                && objectList == (if left.isNew then Rest(old(objectList)) else old(objectList))
                && currentObject == (if here.shape != null then Some(Mesh(here.shape.loops, Depth(minHeight, maxHeight, here.height)))
                                     else if left.isNew then Top(old(objectList))
                                     else old(currentObject))
                && buttons == old(buttons).(redo := true)
                && inputs == old(inputs)
    {
      if !buttons.undo {
        return;
      }
      historyStep := historyStep - 1;
      if historyStep == 0 {
        currentObject := None;
        currentShape := null;
        inputs := inputs.(aspect := false, height := false, renderer := false);
        buttons := Buttons(false, false, true, false);
      } else {
        if history[historyStep + 1].isNew {
          currentObject := Top(objectList);
          objectList := Rest(objectList);
        }
        currentShape := history[historyStep].shape;
        height := history[historyStep].height;
        // The slider's input event re-extrudes when there is a shape.
        if currentShape != null {
          Extrude();
        }
        buttons := buttons.(redo := true);
      }
    }

    /**
     * addShape: the current solid, if any, is committed (pushed on the list); the
     * sliders are enabled and reset; the renderer is enabled; `shape` becomes the current
     * shape and is extruded at the reset height.
     */
    method AddShape(shape: Shape)
      modifies this
      ensures objectList == old(objectList) + OptionSeq(old(currentObject))
      ensures currentShape == shape && height == SliderReset
      ensures currentObject == Some(Mesh(shape.loops, Depth(minHeight, maxHeight, SliderReset)))
      ensures inputs == old(inputs).(aspect := true, height := true, renderer := true)
      ensures historyStep == old(historyStep) && history == old(history)
      ensures buttons == old(buttons) && tpCache == old(tpCache)
    {
      if currentObject.Some? {
        objectList := objectList + [currentObject.value];
      }
      inputs := inputs.(aspect := true, height := true, renderer := true);
      height := SliderReset;
      currentShape := shape;
      Extrude();
    }

    /**
     * redoOp. Ignored while redo is disabled. Otherwise the cursor moves forward one
     * step. An entry that placed a new shape is replayed through addShape with the
     * entry's snapshot object; any other entry's snapshot object becomes the current
     * shape with its slider value. Undo, clear, done and the renderer become enabled;
     * redo stays enabled exactly when there is still a later entry.
     */
    method Redo()
      requires Valid()
      modifies this
      ensures Valid()
      ensures !old(buttons.redo) ==> unchanged(this)
      ensures old(buttons.redo) ==>
                && historyStep == old(historyStep) + 1 && history == old(history)
                && buttons == Buttons(true, true, historyStep < |history| - 1, true)
                && inputs.renderer && inputs.pool == old(inputs.pool)
                && tpCache == old(tpCache)
      ensures old(buttons.redo) && history[historyStep].isNew ==>
                && currentShape == history[historyStep].shape && currentShape != null
                && height == SliderReset
                && objectList == old(objectList) + OptionSeq(old(currentObject))
                && currentObject == Some(Mesh(currentShape.loops, Depth(minHeight, maxHeight, SliderReset)))
                && inputs.aspect && inputs.height
      ensures old(buttons.redo) && !history[historyStep].isNew ==>
                var here := history[historyStep];
                && currentShape == here.shape && height == here.height
                && objectList == old(objectList)
                && currentObject == (if here.shape != null then Some(Mesh(here.shape.loops, Depth(minHeight, maxHeight, here.height)))
                                     else old(currentObject))
                && inputs.aspect == old(inputs.aspect) && inputs.height == old(inputs.height)
    {
      if !buttons.redo {
        return;
      }
      historyStep := historyStep + 1;
      if history[historyStep].isNew {
        AddShape(history[historyStep].shape);
      } else {
        currentShape := history[historyStep].shape;
        height := history[historyStep].height;
        if currentShape != null {
          Extrude();
        }
      }
      buttons := Buttons(true, true, historyStep != |history| - 1, true);
      inputs := inputs.(renderer := true);
    }

    /**
     * clearObjects. Ignored while clear is disabled. Otherwise the history goes back to
     * the sentinel alone at step 0, nothing is being edited, and the four buttons, the
     * sliders and the renderer are disabled. The committed solids are only taken off the
     * scene: the list itself keeps them.
     */
    method Clear()
      requires Valid()
      modifies this
      ensures Valid()
      ensures !old(buttons.clear) ==> unchanged(this)
      ensures old(buttons.clear) ==>
                && historyStep == 0 && history == [Sentinel]
                && currentShape == null && currentObject == None
                && buttons == Buttons(false, false, false, false)
                && inputs == old(inputs).(aspect := false, height := false, renderer := false)
                && objectList == old(objectList) && height == old(height) && tpCache == old(tpCache)
    {
      if !buttons.clear {
        return;
      }
      currentObject, currentShape := None, null;
      historyStep, history := 0, [Sentinel];
      buttons := Buttons(false, false, false, false);
      inputs := inputs.(aspect := false, height := false, renderer := false);
    }
  
    // -------------------------------------------------------------------------
    // Touch gestures on the current shape

    /**
     * What one run of handleMoveZoom does to the shape, its solid and the touch cache.
     * With no current shape or more than two touches the cache is emptied and nothing
     * else changes. Otherwise the moved touches are those of the batch whose identifier
     * was cached, in batch order; with one the shape is mapped by `pan` of its cached and
     * current positions, with two by `pinch` of both pairs, and in both cases the solid is
     * rebuilt; the cache then holds the batch.
     */
    twostate predicate MoveZoomed(batch: seq<Touch>, pan: (Touch, Touch) -> Point -> Point,
                                  pinch: (Touch, Touch, Touch, Touch) -> Point -> Point)
      reads this, currentShape
    {
      && currentShape == old(currentShape)
      && (currentShape == null || |batch| > 2 ==>
            && tpCache == map[] && currentObject == old(currentObject)
            && (currentShape != null ==> currentShape.loops == old(currentShape.loops)))
      && (currentShape != null && |batch| <= 2 ==>
            var prev := old(tpCache);
            var moved := Moved(batch, prev);
            && tpCache == CacheOf(batch)
            && (|moved| == 0 ==> currentShape.loops == old(currentShape.loops) && currentObject == old(currentObject))
            && (|moved| == 1 ==> currentShape.loops == MapLoops(old(currentShape.loops), pan(prev[moved[0].id], moved[0])))
            && (|moved| == 2 ==> currentShape.loops == MapLoops(old(currentShape.loops),
                                      pinch(prev[moved[0].id], prev[moved[1].id], moved[0], moved[1])))
            && (|moved| > 0 ==> currentObject == Some(Mesh(currentShape.loops, Depth(minHeight, maxHeight, height)))))
    }

    /**
     * handleMoveZoom for one batch of touches (`e.targetTouches`). The numeric transforms
     * of the two branches (a translation scaled from pixels to world units, and a
     * rotation and scaling about the first touch) are the parameters `pan` and `pinch`.
     * The shape is changed in place: a history entry that refers to the same object
     * changes with it.
     */
    method HandleMoveZoom(batch: seq<Touch>, pan: (Touch, Touch) -> Point -> Point,
                          pinch: (Touch, Touch, Touch, Touch) -> Point -> Point)
      requires Valid()
      modifies this, currentShape
      ensures Valid()
      ensures MoveZoomed(batch, pan, pinch)
      ensures historyStep == old(historyStep) && history == old(history) && objectList == old(objectList)
      ensures height == old(height) && buttons == old(buttons) && inputs == old(inputs)
    {
      if currentShape == null || |batch| > 2 {
        tpCache := map[];
        return;
      }
      var moved := CollectMoved(batch, tpCache);
      if |moved| == 1 {
        var p := moved[0];
        TransformShape(currentShape, pan(tpCache[p.id], p));
        Extrude();
      } else if |moved| == 2 {
        var p1, p2 := moved[0], moved[1];
        TransformShape(currentShape, pinch(tpCache[p1.id], tpCache[p2.id], p1, p2));
        Extrude();
      }
      tpCache := BuildCache(batch);
    }

    // -------------------------------------------------------------------------
    // One input surface at a time

    /** The renderer's touchmove listener (handleRendererTouch): handleMoveZoom unless the renderer is disabled. */
    method RendererTouchMove(batch: seq<Touch>, pan: (Touch, Touch) -> Point -> Point,
                             pinch: (Touch, Touch, Touch, Touch) -> Point -> Point)
      requires Valid()
      modifies this, currentShape
      ensures Valid()
      ensures !old(inputs.renderer) ==> unchanged(this) && (currentShape != null ==> unchanged(currentShape))
      ensures old(inputs.renderer) ==> MoveZoomed(batch, pan, pinch)
      ensures historyStep == old(historyStep) && history == old(history) && objectList == old(objectList)
      ensures height == old(height) && buttons == old(buttons) && inputs == old(inputs)
    {
      if !inputs.renderer {
        return;
      }
      HandleMoveZoom(batch, pan, pinch);
    }

    /**
     * The renderer's two touchstart listeners, in the order they were added:
     * handleMoveZoom, then the sliders and the shape pool are disabled, leaving the
     * renderer the only enabled surface. Both are ignored while the renderer is disabled.
     */
    method RendererTouchStart(batch: seq<Touch>, pan: (Touch, Touch) -> Point -> Point,
                              pinch: (Touch, Touch, Touch, Touch) -> Point -> Point)
      requires Valid()
      modifies this, currentShape
      ensures Valid()
      ensures !old(inputs.renderer) ==> unchanged(this) && (currentShape != null ==> unchanged(currentShape))
      ensures old(inputs.renderer) ==> MoveZoomed(batch, pan, pinch) && inputs == Inputs(false, false, true, false)
      ensures historyStep == old(historyStep) && history == old(history) && objectList == old(objectList)
      ensures height == old(height) && buttons == old(buttons)
    {
      if !inputs.renderer {
        return;
      }
      HandleMoveZoom(batch, pan, pinch);
      inputs := inputs.(aspect := false, height := false, pool := false);
    }

    /**
     * The renderer's touchend listener. Ignored while the renderer is disabled or while
     * `remaining` touches are still down; otherwise the sliders and the shape pool are
     * enabled again and the gesture's result is recorded.
     */
    method RendererTouchEnd(remaining: nat)
      requires Valid()
      modifies this
      ensures Valid()
      ensures !old(inputs.renderer) || remaining > 0 ==> unchanged(this)
      ensures old(inputs.renderer) && remaining == 0 ==>
                && inputs == Inputs(true, true, true, true)
                && Recorded(false) && currentObject == old(currentObject)
    {
      if !inputs.renderer || remaining > 0 {
        return;
      }
      inputs := inputs.(aspect := true, height := true, pool := true);
      RecordState(false);
    }

    /** The aspect slider's touchstart: unless it is disabled, the other three surfaces are disabled. */
    method AspectTouchStart()
      modifies this
      ensures !old(inputs.aspect) ==> unchanged(this)
      ensures old(inputs.aspect) ==> inputs == Inputs(true, false, false, false)
      ensures historyStep == old(historyStep) && history == old(history) && buttons == old(buttons)
      ensures currentShape == old(currentShape) && currentObject == old(currentObject) && objectList == old(objectList)
      ensures height == old(height) && tpCache == old(tpCache)
    {
      if !inputs.aspect {
        return;
      }
      inputs := inputs.(height := false, renderer := false, pool := false);
    }

    /**
     * The aspect slider's input: the shape, if any, is stretched vertically and
     * re-extruded. The stretch by the ratio of the new and the previous aspect factor is
     * the parameter `stretch`.
     */
    method AspectInput(stretch: Point -> Point)
      modifies this`currentObject, currentShape
      ensures currentShape != null ==>
                && currentShape.loops == MapLoops(old(currentShape.loops), stretch)
                && currentObject == Some(Mesh(currentShape.loops, Depth(minHeight, maxHeight, height)))
      ensures currentShape == null ==> currentObject == old(currentObject)
    {
      if currentShape != null {
        TransformShape(currentShape, stretch);
        Extrude();
      }
    }

    /**
     * The aspect slider's touchend. Unless it is disabled: the other surfaces are
     * enabled again, the slider is reset (its input event stretches the shape by a
     * factor of 1, which leaves it as it is, and re-extrudes it), and the state is
     * recorded.
     */
    method AspectTouchEnd()
      requires Valid()
      modifies this, currentShape
      ensures Valid()
      ensures !old(inputs.aspect) ==> unchanged(this) && (currentShape != null ==> unchanged(currentShape))
      ensures currentShape == old(currentShape)
      ensures currentShape != null ==> currentShape.loops == old(currentShape.loops)
      ensures old(inputs.aspect) ==>
                && inputs == Inputs(true, true, true, true)
                && Recorded(false)
                && (currentShape != null ==> currentObject == Some(Mesh(currentShape.loops, Depth(minHeight, maxHeight, height))))
                && (currentShape == null ==> currentObject == old(currentObject))
    {
      if !inputs.aspect {
        return;
      }
      inputs := inputs.(height := true, renderer := true, pool := true);
      if currentShape != null {
        var unit := (p: Point) => Point(p.x, p.y * 1.0);
        ghost var before := currentShape.loops;
        TransformShape(currentShape, unit);
        MapIdentity(before, unit);
        Extrude();
      }
      RecordState(false);
    }

    /** The height slider's touchstart: unless it is disabled, the other three surfaces are disabled. */
    method HeightTouchStart()
      modifies this
      ensures !old(inputs.height) ==> unchanged(this)
      ensures old(inputs.height) ==> inputs == Inputs(false, true, false, false)
      ensures historyStep == old(historyStep) && history == old(history) && buttons == old(buttons)
      ensures currentShape == old(currentShape) && currentObject == old(currentObject) && objectList == old(objectList)
      ensures height == old(height) && tpCache == old(tpCache)
    {
      if !inputs.height {
        return;
      }
      inputs := inputs.(aspect := false, renderer := false, pool := false);
    }

    /** The height slider's input: the slider holds `value`, and the shape, if any, is re-extruded at the new depth. */
    method HeightInput(value: int)
      modifies this`height, this`currentObject
      ensures height == value
      ensures currentShape != null ==> currentObject == Some(Mesh(currentShape.loops, Depth(minHeight, maxHeight, value)))
      ensures currentShape == null ==> currentObject == old(currentObject)
    {
      height := value;
      if currentShape != null {
        Extrude();
      }
    }

    /** The height slider's touchend. Unless it is disabled, the other surfaces are enabled again and the state is recorded. */
    method HeightTouchEnd()
      requires Valid()
      modifies this
      ensures Valid()
      ensures !old(inputs.height) ==> unchanged(this)
      ensures old(inputs.height) ==>
                && inputs == Inputs(true, true, true, true)
                && Recorded(false) && currentObject == old(currentObject)
    {
      if !inputs.height {
        return;
      }
      inputs := inputs.(aspect := true, renderer := true, pool := true);
      RecordState(false);
    }

    /**
     * A shape button's touchstart. Ignored while the pool is disabled or while another
     * touch already holds it (`held`, the truthiness of the pool's touch identifier);
     * otherwise the sliders and the renderer are disabled, leaving the pool the only
     * enabled surface.
     */
    method PoolTouchStart(held: bool)
      modifies this
      ensures held || !old(inputs.pool) ==> unchanged(this)
      ensures !held && old(inputs.pool) ==> inputs == Inputs(false, false, false, true)
      ensures historyStep == old(historyStep) && history == old(history) && buttons == old(buttons)
      ensures currentShape == old(currentShape) && currentObject == old(currentObject) && objectList == old(objectList)
      ensures height == old(height) && tpCache == old(tpCache)
    {
      if held || !inputs.pool {
        return;
      }
      inputs := inputs.(aspect := false, height := false, renderer := false);
    }
  }
}
