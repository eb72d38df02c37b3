/**
 * The editing session: the state the application keeps in `useState` fields
 * (src/App.tsx) and the canvas keeps beside it (src/components/Canvas.tsx),
 * with one method per event handler.
 *
 * Pointer positions, node positions after a gesture, the stage size, the
 * circle edge point, `Math.hypot` and the fresh ids made from `Date.now()`
 * come in as parameters.
 */
module Editor {
  import opened Types
  import opened Shapes
  import opened Snap
  import opened History

  /** `ShapeType | "select"`: the select tool or a drawing tool for one kind. */
  datatype Tool = SelectTool | DrawTool(kind: ShapeType)

  /** The guide lines shown while a drag is in progress. */
  datatype SnapLines = SnapLines(vertical: Option<real>, horizontal: Option<real>)

  /** JavaScript truthiness of `selectedId: string | null`: null and "" are false. */
  predicate Selected(selectedId: Option<string>) {
    selectedId.Some? && selectedId.value != ""
  }

  // ---------------------------------------------------------------------------
  // Key bindings; `key.toLowerCase() === "z"` holds exactly for "z" and "Z".
  // ---------------------------------------------------------------------------

  predicate IsUndoKey(key: string, ctrlKey: bool, metaKey: bool) {
    (ctrlKey || metaKey) && (key == "z" || key == "Z")
  }

  predicate IsDeleteKey(key: string) {
    key == "Backspace" || key == "Delete"
  }

  predicate IsCopyKey(key: string, ctrlKey: bool, metaKey: bool) {
    (ctrlKey || metaKey) && (key == "c" || key == "C")
  }

  predicate IsPasteKey(key: string, ctrlKey: bool, metaKey: bool) {
    (ctrlKey || metaKey) && (key == "v" || key == "V")
  }

  class Session {
    var shapes: seq<Shape>
    var history: seq<seq<Shape>>
    var currentStep: nat
    var selectedId: Option<string>
    var tool: Tool
    var draftShape: Option<Draft>
    var clipboard: Option<Shape>
    var snapLines: SnapLines
    var isPreviewing: bool

    /**
     * The session invariant: the history is well formed, and outside preview
     * a selection always comes with the select tool.
     */
    ghost predicate Valid()
      reads this
    {
      && WellFormed(history, currentStep)
      && (!isPreviewing && Selected(selectedId) ==> tool == SelectTool)
    }

    /** The initial state of App and Canvas. */
    constructor ()
      ensures Valid()
      ensures shapes == [] && history == [[]] && currentStep == 0
      ensures selectedId == None && tool == SelectTool && !isPreviewing
      ensures draftShape == None && clipboard == None && snapLines == SnapLines(None, None)
    {
      tool := SelectTool;
      shapes := [];
      selectedId := None;
      history := [[]];
      currentStep := 0;
      isPreviewing := false;
      draftShape := None;
      clipboard := None;
      snapLines := SnapLines(None, None);
    }

    // -------------------------------------------------------------------------
    // History
    // -------------------------------------------------------------------------

    /**
     * updateHistory: the steps after the current one are dropped, the new
     * collection becomes the last step, and the current step moves onto it.
     */
    method UpdateHistory(newShapes: seq<Shape>)
      requires Valid()
      modifies this`history, this`currentStep
      ensures Valid()
      ensures history == Commit(old(history), old(currentStep), newShapes)
      ensures currentStep == old(currentStep) + 1
      ensures |history| == currentStep + 1 && history[currentStep] == newShapes
      ensures history[..currentStep] == old(history)[..currentStep]
    {
      CommitKeepsWellFormed(history, currentStep, newShapes);
      history := Commit(history, currentStep, newShapes);
      currentStep := currentStep + 1;
    }

    /** The state handleUndo leaves, over every field of the session. */
    twostate predicate Undone()
      reads this
    {
      && old(currentStep) <= |old(history)|
      && UndoOutcome(shapes, currentStep, selectedId)
         == History.Undo(old(history), old(currentStep), old(shapes), old(selectedId))
      && history == old(history) && tool == old(tool) && draftShape == old(draftShape)
      && clipboard == old(clipboard) && snapLines == old(snapLines) && isPreviewing == old(isPreviewing)
    }

    /**
     * handleUndo: back one step when there is one, clearing the selection
     * when the restored snapshot lacks the selected shape.
     */
    method HandleUndo()
      requires Valid()
      modifies this`shapes, this`currentStep, this`selectedId
      ensures Valid() && Undone()
    {
      if currentStep > 0 {
        var prevStep := currentStep - 1;
        var prevShapes := history[prevStep];
        shapes := prevShapes;
        currentStep := prevStep;

        if !(selectedId.Some? && HasId(prevShapes, selectedId.value)) {
          selectedId := None;
        }
      }
    }

    // -------------------------------------------------------------------------
    // Dragging
    // -------------------------------------------------------------------------

    /**
     * handleShapeDragMove: the shapes carrying `id` move to the snapped
     * position and the guides are shown, as `Snap.DragMove` describes; an
     * unknown id changes nothing. No history step is made.
     */
    method HandleShapeDragMove(id: string, newX: real, newY: real,
                               stageWidth: real, stageHeight: real, edge: EdgePoint)
      requires Valid()
      modifies this`shapes, this`snapLines
      ensures Valid()
      ensures match Snap.DragMove(old(shapes), id, newX, newY, stageWidth, stageHeight, edge)
        case None => shapes == old(shapes) && snapLines == old(snapLines)
        case Some(d) => shapes == d.shapes && snapLines == SnapLines(d.vertical, d.horizontal)
    {
      var currentShape := FindById(shapes, id);
      if currentShape.None? {
        return;
      }
      var otherShapes := RemoveId(shapes, id);
      var prevX := currentShape.value.x;
      var snapped := ComputeSnap(otherShapes, prevX, newX, newY, stageWidth, stageHeight, edge);
      snapLines := SnapLines(snapped.vertical, snapped.horizontal);
      shapes := UpdateById(shapes, id, MoveTo(snapped.x, snapped.y));
    }

    /**
     * handleShapeDragEnd: outside preview, the guides disappear, the shapes
     * carrying `id` take the node's final position and the result is
     * committed.
     */
    method HandleShapeDragEnd(id: string, nodeX: real, nodeY: real)
      requires Valid()
      modifies this`shapes, this`snapLines, this`history, this`currentStep
      ensures Valid()
      ensures isPreviewing ==>
        shapes == old(shapes) && snapLines == old(snapLines)
        && history == old(history) && currentStep == old(currentStep)
      ensures !isPreviewing ==>
        && snapLines == SnapLines(None, None)
        && shapes == UpdateById(old(shapes), id, MoveTo(nodeX, nodeY))
        && history == Commit(old(history), old(currentStep), shapes)
        && currentStep == old(currentStep) + 1
    {
      if isPreviewing {
        return;
      }
      snapLines := SnapLines(None, None);
      var updatedShapes := UpdateById(shapes, id, MoveTo(nodeX, nodeY));
      UpdateHistory(updatedShapes);
      shapes := updatedShapes;
    }

    // -------------------------------------------------------------------------
    // Creating shapes on the stage
    // -------------------------------------------------------------------------

    /** handleStageClick: a click on the empty stage clears the selection. */
    method HandleStageClick(onEmptyStage: bool)
      requires Valid()
      modifies this`selectedId
      ensures Valid()
      ensures selectedId == if onEmptyStage then None else old(selectedId)
    {
      if onEmptyStage {
        selectedId := None;
      }
    }

    /**
     * handleStageMouseDown: with a drawing tool, a press on the empty stage
     * (where the pointer position is known) starts a zero-size draft at the
     * pointer; otherwise nothing happens.
     */
    method HandleStageMouseDown(onEmptyStage: bool, pointer: Option<Point>)
      requires Valid()
      modifies this`draftShape
      ensures Valid()
      ensures draftShape ==
        if tool.DrawTool? && onEmptyStage && pointer.Some? then Some(StartDraft(tool.kind, pointer.value))
        else old(draftShape)
    {
      if tool == SelectTool || !onEmptyStage {
        return;
      }
      if pointer.None? {
        return;
      }
      draftShape := Some(StartDraft(tool.kind, pointer.value));
    }

    /**
     * handleStageMouseMove: while drafting, the draft is sized to the
     * pointer; `dist` is `Math.hypot` of the pointer's offset from the anchor.
     */
    method HandleStageMouseMove(pointer: Point, dist: real)
      requires Valid()
      requires draftShape.Some? ==>
        IsHypot(dist, pointer.x - draftShape.value.x, pointer.y - draftShape.value.y)
      modifies this`draftShape
      ensures Valid()
      ensures draftShape ==
        if old(draftShape).Some? then Some(SizeDraft(old(draftShape).value, pointer, dist)) else None
    {
      if draftShape.None? {
        return;
      }
      draftShape := Some(SizeDraft(draftShape.value, pointer, dist));
    }

    /**
     * handleStageMouseUp: a draft of nonzero size is appended with the fresh
     * id and committed; a zero-size one is dropped without a trace. The draft
     * is cleared either way.
     */
    method HandleStageMouseUp(freshId: string)
      requires Valid()
      modifies this`shapes, this`history, this`currentStep, this`draftShape
      ensures Valid()
      ensures draftShape == None
      ensures old(draftShape).Some? && IsValidDraft(old(draftShape).value) ==>
        && shapes == old(shapes) + [Materialize(old(draftShape).value, freshId)]
        && history == Commit(old(history), old(currentStep), shapes)
        && currentStep == old(currentStep) + 1
      ensures !(old(draftShape).Some? && IsValidDraft(old(draftShape).value)) ==>
        shapes == old(shapes) && history == old(history) && currentStep == old(currentStep)
    {
      if draftShape.None? {
        return;
      }
      var isValidShape := IsValidDraft(draftShape.value);
      if isValidShape {
        var newShape := Materialize(draftShape.value, freshId);
        var newShapes := shapes + [newShape];
        shapes := newShapes;
        UpdateHistory(newShapes);
      }
      draftShape := None;
    }

    // -------------------------------------------------------------------------
    // Resizing
    // -------------------------------------------------------------------------

    /**
     * handleShapeTransformEnd for the rendered shape `target`: the shapes
     * carrying its id take the node's position and the clamped scaled size
     * for `target`'s kind, and the result is committed.
     */
    method HandleShapeTransformEnd(target: Shape, node: NodeBox)
      requires Valid()
      modifies this`shapes, this`history, this`currentStep
      ensures Valid()
      ensures shapes == UpdateById(old(shapes), target.id, TransformUpdates(target.kind, node))
      ensures history == Commit(old(history), old(currentStep), shapes)
      ensures currentStep == old(currentStep) + 1
    {
      var updates := TransformUpdates(target.kind, node);
      var updatedShapes := UpdateById(shapes, target.id, updates);
      shapes := updatedShapes;
      UpdateHistory(updatedShapes);
    }

    // -------------------------------------------------------------------------
    // Selection, tools and preview
    // -------------------------------------------------------------------------

    /**
     * The effect that runs whenever the selection, the preview mode or the
     * tool changes: outside preview, a selection forces the select tool.
     */
    method SyncToolWithSelection()
      requires WellFormed(history, currentStep)
      modifies this`tool
      ensures Valid()
      ensures tool == if !isPreviewing && Selected(selectedId) then SelectTool else old(tool)
    {
      if isPreviewing {
        return;
      }
      if Selected(selectedId) {
        tool := SelectTool;
      }
    }

    /** A click on a shape (clickable only outside preview) selects it. */
    method SelectShape(id: string)
      requires Valid()
      modifies this`selectedId, this`tool
      ensures Valid()
      ensures isPreviewing ==> selectedId == old(selectedId) && tool == old(tool)
      ensures !isPreviewing ==>
        selectedId == Some(id) && tool == (if id != "" then SelectTool else old(tool))
    {
      if isPreviewing {
        return;
      }
      selectedId := Some(id);
      SyncToolWithSelection();
    }

    /**
     * A toolbar drawing-tool button (shown only outside preview). While a
     * shape is selected the effect sets the select tool straight back.
     */
    method SetTool(kind: ShapeType)
      requires Valid()
      modifies this`tool
      ensures Valid()
      ensures isPreviewing ==> tool == old(tool)
      ensures !isPreviewing ==> tool == if Selected(selectedId) then SelectTool else DrawTool(kind)
    {
      if isPreviewing {
        return;
      }
      tool := DrawTool(kind);
      SyncToolWithSelection();
    }

    /** The toolbar's preview toggle. */
    method TogglePreview()
      requires Valid()
      modifies this`isPreviewing, this`tool
      ensures Valid()
      ensures isPreviewing == !old(isPreviewing)
      ensures tool == if !isPreviewing && Selected(selectedId) then SelectTool else old(tool)
    {
      isPreviewing := !isPreviewing;
      SyncToolWithSelection();
    }

    /** The toolbar's clear button: the collection empties; the history is left as it is. */
    method HandleClear()
      requires Valid()
      modifies this`shapes
      ensures Valid()
      ensures shapes == [] && history == old(history) && currentStep == old(currentStep)
    {
      shapes := [];
    }

    // -------------------------------------------------------------------------
    // Keyboard
    // -------------------------------------------------------------------------

    /** The state the delete binding leaves, over every field of the session. */
    twostate predicate DeletedSelection()
      reads this
    {
      && (Selected(old(selectedId)) ==>
            && shapes == RemoveId(old(shapes), old(selectedId).value)
            && history == Commit(old(history), old(currentStep), shapes)
            && currentStep == old(currentStep) + 1
            && selectedId == None)
      && (!Selected(old(selectedId)) ==>
            shapes == old(shapes) && history == old(history)
            && currentStep == old(currentStep) && selectedId == old(selectedId))
      && tool == old(tool) && draftShape == old(draftShape) && clipboard == old(clipboard)
      && snapLines == old(snapLines) && isPreviewing == old(isPreviewing)
    }

    /** Delete: the selected shape is removed, the result committed, the selection cleared. */
    method DeleteSelected()
      requires Valid()
      modifies this`shapes, this`history, this`currentStep, this`selectedId
      ensures Valid() && DeletedSelection()
    {
      if Selected(selectedId) {
        var newShapes := RemoveId(shapes, selectedId.value);
        shapes := newShapes;
        UpdateHistory(newShapes);
        selectedId := None;
      }
    }

    /** The state the copy binding leaves, over every field of the session. */
    twostate predicate CopiedSelection()
      reads this
    {
      && clipboard == (if Selected(old(selectedId)) then FindById(old(shapes), old(selectedId).value) else old(clipboard))
      && shapes == old(shapes) && history == old(history) && currentStep == old(currentStep)
      && selectedId == old(selectedId) && tool == old(tool) && draftShape == old(draftShape)
      && snapLines == old(snapLines) && isPreviewing == old(isPreviewing)
    }

    /**
     * Copy: the clipboard takes the selected shape, or becomes empty when no
     * shape carries the selected id.
     */
    method CopySelected()
      requires Valid()
      modifies this`clipboard
      ensures Valid() && CopiedSelection()
    {
      if Selected(selectedId) {
        var shapeToCopy := FindById(shapes, selectedId.value);
        clipboard := shapeToCopy;
      }
    }

    /** The state the paste binding leaves, over every field of the session. */
    twostate predicate PastedClipboard(freshId: string)
      reads this
    {
      && (old(clipboard).Some? ==>
            && shapes == old(shapes) + [Pasted(old(clipboard).value, freshId)]
            && history == Commit(old(history), old(currentStep), shapes)
            && currentStep == old(currentStep) + 1)
      && (old(clipboard).None? ==>
            shapes == old(shapes) && history == old(history) && currentStep == old(currentStep))
      && selectedId == old(selectedId) && tool == old(tool) && draftShape == old(draftShape)
      && clipboard == old(clipboard) && snapLines == old(snapLines) && isPreviewing == old(isPreviewing)
    }

    /** Paste: a copy of the clipboard, moved and given the fresh id, is appended and committed. */
    method Paste(freshId: string)
      requires Valid()
      modifies this`shapes, this`history, this`currentStep
      ensures Valid() && PastedClipboard(freshId)
    {
      if clipboard.Some? {
        var newShape := Pasted(clipboard.value, freshId);
        var newShapes := shapes + [newShape];
        shapes := newShapes;
        UpdateHistory(newShapes);
      }
    }

    /**
     * The keydown handler: ignored in preview; otherwise the one binding the
     * key matches runs (they are disjoint), and any other key does nothing.
     */
    method HandleKeyDown(key: string, ctrlKey: bool, metaKey: bool, freshId: string)
      requires Valid()
      modifies this
      ensures Valid()
      ensures old(isPreviewing) ==> unchanged(this)
      ensures !old(isPreviewing) && IsUndoKey(key, ctrlKey, metaKey) ==> Undone()
      ensures !old(isPreviewing) && IsDeleteKey(key) ==> DeletedSelection()
      ensures !old(isPreviewing) && IsCopyKey(key, ctrlKey, metaKey) ==> CopiedSelection()
      ensures !old(isPreviewing) && IsPasteKey(key, ctrlKey, metaKey) ==> PastedClipboard(freshId)
      ensures (!IsUndoKey(key, ctrlKey, metaKey) && !IsDeleteKey(key)
               && !IsCopyKey(key, ctrlKey, metaKey) && !IsPasteKey(key, ctrlKey, metaKey)) ==> unchanged(this)
    {
      if isPreviewing {
        return;
      }
      if IsUndoKey(key, ctrlKey, metaKey) {
        HandleUndo();
      } else if IsDeleteKey(key) {
        DeleteSelected();
      } else if IsCopyKey(key, ctrlKey, metaKey) {
        CopySelected();
      } else if IsPasteKey(key, ctrlKey, metaKey) {
        Paste(freshId);
      }
    }
  }

  /**
   * Drawing a rectangle from (10, 10) to (110, 60) on an empty canvas leaves
   * one 100 by 50 rectangle at (10, 10) with the fresh id, a history of two
   * steps, and the current step at 1.
   */
  method CreateRectangleScenario() returns (s: Session)
    ensures s.shapes == [Shape("1", Rect, 10.0, 10.0, 100.0, 50.0, 0.0, DraftStrokeWidth, DraftStroke)]
    ensures s.history == [[], s.shapes] && s.currentStep == 1
    ensures fresh(s) && s.Valid() && !s.isPreviewing && s.selectedId == None
  {
    s := new Session();
    s.SetTool(Rect);
    s.HandleStageMouseDown(true, Some(Point(10.0, 10.0)));
    // A rectangle draft ignores the pointer distance; any value that is
    // positive, as `Math.hypot(100, 50)` is, meets the precondition.
    s.HandleStageMouseMove(Point(110.0, 60.0), 112.0);
    s.HandleStageMouseUp("1");
  }

  /**
   * Drawing a rectangle, selecting it, deleting it and undoing brings the
   * rectangle back but not the selection: the delete cleared it, and undo
   * never restores one. The undone step stays in the history for a redo
   * that the editor never offers.
   */
  method DeleteThenUndoScenario() returns (s: Session)
    ensures s.shapes == [Shape("1", Rect, 10.0, 10.0, 100.0, 50.0, 0.0, DraftStrokeWidth, DraftStroke)]
    ensures s.selectedId == None && s.tool == SelectTool
    ensures s.currentStep == 1 && s.history == [[], s.shapes, []]
  {
    s := CreateRectangleScenario();
    s.SelectShape("1");
    s.DeleteSelected();
    s.HandleUndo();
  }
}
