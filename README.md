# Skeleton-layout editor: the editing engine

This project models the editing engine of the skeleton-layout editor, a browser
tool where the user draws rectangles and circles over a reference image. The
model covers:

- the `Shape` record (`src/lib/types.ts`), in module `Types`;
- the collection updates the canvas performs on that record: find, filter,
  position and size updates, drafts, resize clamping and paste copies
  (`src/components/Canvas.tsx`), in module `Shapes`;
- the snap engine of `handleShapeDragMove`, in module `Snap`:
  - `CheckSnap` is the threshold and hysteresis rule;
  - `Chain` folds it over a list of targets, so the last match wins;
  - `Snapped` states the whole snap as a pure function;
  - `ComputeSnap` is the `forEach` loop written imperatively, and it is proved equal to `Snapped`;
- the linear undo history as pure functions (`Commit` for `updateHistory`, `Undo` for
  `handleUndo` in `src/App.tsx`), in module `History`;
- the editing session, in module `Editor`: class `Session` holds the state App and Canvas keep
  in `useState` (`shapes`, `history`, `currentStep`, `selectedId`, `tool`,
  `draftShape`, `clipboard`, `snapLines`, `isPreviewing`) and has one method per
  event handler. Its invariant `Valid()` says two things:
  - the history is well formed: the step indexes a snapshot and snapshot 0 is empty;
  - outside preview, a selection always comes with the select tool. This is the
    effect at `src/components/Canvas.tsx:322-337`.

Coordinates are JavaScript numbers in the source and `real` here, and `===` on
them is exact equality. Parameters stand in for what the handlers read from
Konva or the browser:
- pointer and node positions;
- the stage size;
- the circle edge point, as the function `edge`;
- `Math.hypot`, as `dist`;
- the `Date.now()` ids, as `freshId`.

In two places the model follows the code where a reader might expect otherwise:
- A committed rectangle's width and height are pointer minus anchor, so they can
  be negative. Nothing normalises them to be non-negative
  (`src/components/Canvas.tsx:268-269`).
- The snap's hysteresis test compares with the moving shape's stored x on both
  axes, including when snapping y (`src/components/Canvas.tsx:121,126`).
  `Snap.VerticalHysteresisUsesStoredX` shows an input where this decides the
  outcome.

## Model

| member | source | states |
|---|---|---|
| Shapes.FindById | src/components/Canvas.tsx:111-112 | `find` by id: absent exactly when no shape carries the id; otherwise a shape with that id, namely the first one in the list |
| Shapes.RemoveId | src/components/Canvas.tsx:114 | `filter` by id: keeps exactly the shapes whose id differs, is no longer than the input, and returns the input unchanged when the id is absent |
| Shapes.RemoveIdAppend | src/components/Canvas.tsx:350 | removing an id from a concatenation is removing it from each part |
| Shapes.UpdateById | src/components/Canvas.tsx:215-217 | the id-keyed `map` with spread: same length; shapes with another id unchanged; shapes with the id take the merged fields; an unknown id changes nothing |
| Shapes.MoveOnlyRepositions | src/components/Canvas.tsx:227-229 | a position update by id changes only x and y of the matching shape, leaving id, kind, size and stroke as they were |
| Shapes.Max | src/components/Canvas.tsx:302 | `Math.max`: at least both arguments and equal to one of them |
| Shapes.TransformUpdates | src/components/Canvas.tsx:299-306 | the node's position; for a rectangle, width and height at least 5 and equal to the scaled size when that is 5 or more; for a circle, a radius at least 5 taken from half the scaled width |
| Shapes.ResizeKeepsMinimumSize | src/components/Canvas.tsx:301-313 | after a resize, the resized shape's relevant dimensions are at least 5 and its other fields are unchanged |
| Shapes.StartDraft | src/components/Canvas.tsx:249-258 | a draft of the tool's kind anchored at the pointer, with zero size, stroke width 3 and stroke "#000"; such a draft is never committed as it stands |
| Shapes.SizeDraft | src/components/Canvas.tsx:265-275 | a rectangle draft's width and height become pointer minus anchor (possibly negative); a circle draft's radius becomes the pointer distance; anchor, kind and stroke are kept |
| Shapes.Materialize | src/components/Canvas.tsx:287 | the committed shape carries every draft field plus the fresh id |
| Shapes.DraftKeptIffPointerMoved | src/components/Canvas.tsx:265-284 | a freshly sized draft is valid exactly when the pointer moved off the anchor: on both axes for a rectangle, on either axis for a circle |
| Shapes.Pasted | src/components/Canvas.tsx:362-367 | the copy has the fresh id and x and y each moved by 20; every other field equals the clipboard's |
| Shapes.PasteThenDeleteRestores | src/components/Canvas.tsx:348-370 | pasting under an id that is not yet used and then deleting that id gives back the original collection |
| Shapes.HasId | src/App.tsx:26 | no contract of its own: `.some(shape => shape.id === id)`; `Shapes.FindById` (absent exactly when it fails) and `History.Undo` (selection cleared exactly when it fails) state it |
| Shapes.Merge | src/components/Canvas.tsx:312 | no contract of its own: the `{ ...s, ...updates }` spread, where only the fields present in the update replace the shape's; `Shapes.UpdateById`, `Shapes.MoveOnlyRepositions` and `Shapes.ResizeKeepsMinimumSize` state it |
| Shapes.MoveTo | src/components/Canvas.tsx:216 | no contract of its own: the update that sets only x and y; `Shapes.MoveOnlyRepositions` states it |
| Shapes.IsHypot | src/components/Canvas.tsx:272 | no contract of its own: the facts about `Math.hypot` the model relies on (never negative; zero exactly when both offsets are zero); `Shapes.DraftKeptIffPointerMoved` uses them |
| Shapes.IsValidDraft | src/components/Canvas.tsx:281-284 | no contract of its own: `isValidShape`, a nonzero width and height for a rectangle or a nonzero radius for a circle; `Shapes.StartDraft`, `Shapes.DraftKeptIffPointerMoved` and `Editor.Session.HandleStageMouseUp` state it |
| Snap.TargetsOf | src/components/Canvas.tsx:136-182 | no contract of its own: the targets one other shape offers on an axis, in the source's order (a rectangle's near edge, far edge and centre; a circle's centre, then its unguided edge point); `Snap.RectangleTargetsAreGuided` and `Snap.GuidedShapeTargets` state its properties |
| Snap.Step | src/components/Canvas.tsx:145-146 | no contract of its own: one check, followed by setting the guide when the value now sits on a guided target; the `Chain*` lemmas state its properties |
| Snap.Chain | src/components/Canvas.tsx:135-203 | no contract of its own: the checks run in order, each consuming the previous result; `Snap.ChainAppend`, `Snap.ChainOutcome`, `Snap.ChainUnmatchedKeepsValue`, `Snap.ChainLastMatchWins` and `Snap.ChainGuideTracksValue` state its properties |
| Snap.Snapped | src/components/Canvas.tsx:117-203 | no contract of its own: the pure snap over the other shapes followed by the stage bounds, per axis; `Snap.SnappedIsCandidate`, `Snap.GuideMarksShapeOrBound`, `Snap.GuidesFollowPositionAmongRectangles` and `Snap.BoundSnapShowsGuide` state its properties, and `Snap.ComputeSnap` is proved equal to it |
| Snap.Abs | src/components/Canvas.tsx:125-126 | no contract of its own: `Math.abs`; `Snap.CheckSnap` states the distances it gives |
| Snap.Attracts | src/components/Canvas.tsx:129 | no contract of its own: the snap condition (distance under 10, and closer than the stored x or under 5); `Snap.CheckSnap` states it |
| Snap.AtCentre | src/components/Canvas.tsx:175-179 | no contract of its own: the proposed point is the circle's centre, where the source's edge point is NaN and cannot snap; `Snap.TargetsOf` leaves the edge target out there |
| Snap.ShapeTargets | src/components/Canvas.tsx:135-184 | no contract of its own: every other shape's targets, in collection order; `Snap.GuidedShapeTargets` and `Snap.RectangleTargetsAreGuided` state it, and `Snap.ComputeSnap` is proved to follow it |
| Snap.Candidates | src/components/Canvas.tsx:135-202 | no contract of its own: the shapes' targets followed by the bounds 0 and the stage extent; `Snap.BoundsComeLast` and `Snap.SnappedIsCandidate` state it |
| Snap.CheckSnap | src/components/Canvas.tsx:124-133 | the result is the target exactly when the distance is under 10 and either closer than the stored x or under 5; otherwise it is the value unchanged |
| Snap.ChainAppend | src/components/Canvas.tsx:135-203 | checks feed one another: running two target lists in turn is running their concatenation |
| Snap.ChainOutcome | src/components/Canvas.tsx:135-203 | a chained coordinate ends on its start or on one of the targets; its guide is the starting one or that of a guided target, never a circle edge point |
| Snap.ChainUnmatchedKeepsValue | src/components/Canvas.tsx:124-133 | when no target attracts the value that reaches it, the coordinate is left where it started |
| Snap.ChainLastMatchWins | src/components/Canvas.tsx:135-203 | when target i attracts the value that reaches it and no later target does, the coordinate ends exactly on target i |
| Snap.ChainGuideTracksValue | src/components/Canvas.tsx:145-172 | with guided targets only, a guide, once shown, sits where the coordinate is |
| Snap.GuidedShapeTargets | src/components/Canvas.tsx:135-184 | every guided target of the other shapes is a rectangle edge or centre, or a circle centre |
| Snap.RectangleTargetsAreGuided | src/components/Canvas.tsx:136-162 | every target a rectangle offers sets a guide when matched |
| Snap.SnappedIsCandidate | src/components/Canvas.tsx:135-203 | each snapped coordinate is the proposed one or a target of its axis; each guide is absent or a guided target |
| Snap.GuideMarksShapeOrBound | src/components/Canvas.tsx:145-202 | a shown guide lies on another shape's rectangle edge, rectangle centre or circle centre, or on a stage bound |
| Snap.GuidesFollowPositionAmongRectangles | src/components/Canvas.tsx:136-202 | when the other shapes are all rectangles, each guide shown equals the snapped coordinate |
| Snap.BoundSnapShowsGuide | src/components/Canvas.tsx:186-202 | the stage bounds are checked last, so a coordinate that ends on 0 or on the stage extent shows that bound's guide |
| Snap.BoundsComeLast | src/components/Canvas.tsx:192-202 | the same for a single axis from any starting state |
| Snap.RightEdgeScenario | src/components/Canvas.tsx:136-162 | x = 148 near a rectangle's right edge at 150 snaps there with a vertical guide at 150; a far-off y stays put without a guide |
| Snap.VerticalHysteresisUsesStoredX | src/components/Canvas.tsx:121-133 | the y snap depends on the stored x: the same y = 107 near an edge at 100 snaps when the stored x is 0 and not when it is 100 |
| Snap.DragMove | src/components/Canvas.tsx:110-217 | an unknown id leaves everything as it was; otherwise the position and guides are `Snapped` over the other shapes with the stored x of the first shape carrying the id, the length is kept, every shape with another id is unchanged, and the dragged shape changes only in x and y, which become the snapped position |
| Snap.SnapToShape | src/components/Canvas.tsx:135-184 | the `forEach` body for one other shape: each axis's coordinate and guide advance through that shape's targets in order |
| Snap.ComputeSnap | src/components/Canvas.tsx:117-209 | the loop over the other shapes, followed by the bound checks, yields exactly the pure snap result |
| History.WellFormed | src/App.tsx:12-13 | no contract of its own: the step indexes a snapshot and snapshot 0 is the initial empty collection; `History.CommitKeepsWellFormed` and `History.UndoKeepsWellFormed` state that it is kept |
| History.MinNat | src/components/Canvas.tsx:96 | no contract of its own: where `slice(0, step + 1)` stops on a short history; `History.Commit` states it |
| History.Commit | src/components/Canvas.tsx:94-100 | the new history keeps the snapshots up to the current step (up to the end of the history, if the step is past it) and ends with the committed snapshot |
| History.CommitKeepsWellFormed | src/components/Canvas.tsx:94-100 | from a well-formed history, a commit yields length step + 2, keeps steps 0..step, ends with the snapshot, and is well formed at step + 1 |
| History.Undo | src/App.tsx:18-30 | step 0 changes nothing; otherwise the previous snapshot is shown and the step drops by one; the selection is cleared exactly when that snapshot has no shape with the selected id, and kept otherwise |
| History.UndoKeepsWellFormed | src/App.tsx:19-23 | undo keeps the step within the history and snapshot 0 empty |
| History.UndoAfterCommit | src/App.tsx:19-23 | an undo right after a commit shows the snapshot that was current before it |
| History.CommitAfterUndoDropsRedo | src/components/Canvas.tsx:96 | a commit after an undo discards the undone step and every later one |
| Editor.Selected | src/components/Canvas.tsx:348 | no contract of its own: JavaScript truthiness of `selectedId` (null and "" are false), as tested at Canvas.tsx:325, 348 and 356; `Editor.Session.DeleteSelected`, `Editor.Session.CopySelected` and `Editor.Session.SyncToolWithSelection` state it |
| Editor.IsUndoKey | src/components/Canvas.tsx:343 | no contract of its own: Ctrl or Meta with "z" in either case; `Editor.Session.HandleKeyDown` states it |
| Editor.IsDeleteKey | src/components/Canvas.tsx:348 | no contract of its own: "Backspace" or "Delete", with any modifiers; `Editor.Session.HandleKeyDown` states it |
| Editor.IsCopyKey | src/components/Canvas.tsx:356 | no contract of its own: Ctrl or Meta with "c" in either case; `Editor.Session.HandleKeyDown` states it |
| Editor.IsPasteKey | src/components/Canvas.tsx:361 | no contract of its own: Ctrl or Meta with "v" in either case; `Editor.Session.HandleKeyDown` states it |
| Editor.Session.Valid | src/components/Canvas.tsx:322-326 | no contract of its own: the history invariant plus the effect's rule that, outside preview, a selection comes with the select tool; the constructor and every `Editor.Session` method ensure it |
| Editor.Session.constructor | src/App.tsx:9-16 | the initial session: the select tool, no shapes, no selection, history [[]] at step 0, not previewing, no draft, no clipboard and no guides |
| Editor.Session.UpdateHistory | src/components/Canvas.tsx:94-100 | the history becomes the commit of the new collection and the step moves onto it; the session stays valid |
| Editor.Session.HandleUndo | src/App.tsx:18-30 | the session takes the collection, step and selection of `History.Undo`; every other field is unchanged |
| Editor.Session.HandleShapeDragMove | src/components/Canvas.tsx:102-219 | the collection and guides become those of `Snap.DragMove`; an unknown id leaves both unchanged |
| Editor.Session.HandleShapeDragEnd | src/components/Canvas.tsx:221-233 | does nothing in preview; otherwise clears the guides, moves the dragged shape to the node position and commits the result |
| Editor.Session.HandleStageClick | src/components/Canvas.tsx:235-240 | a click on the empty stage clears the selection; any other click leaves it |
| Editor.Session.HandleStageMouseDown | src/components/Canvas.tsx:242-259 | a draft starts at the pointer only when a drawing tool is active, the press is on the empty stage and the pointer is known |
| Editor.Session.HandleStageMouseMove | src/components/Canvas.tsx:261-276 | while drafting, the draft is sized to the pointer; without a draft nothing happens |
| Editor.Session.HandleStageMouseUp | src/components/Canvas.tsx:278-294 | a valid draft is appended with the fresh id and committed; otherwise the shapes and history are unchanged; the draft is cleared in every case |
| Editor.Session.HandleShapeTransformEnd | src/components/Canvas.tsx:296-316 | the resized shape takes the clamped size updates and the result is committed |
| Editor.Session.SyncToolWithSelection | src/components/Canvas.tsx:322-326 | outside preview, a selection sets the select tool; otherwise the tool is kept; from a well-formed history this re-establishes `Valid()` |
| Editor.Session.SelectShape | src/components/Canvas.tsx:430 | outside preview, clicking a shape selects it and switches to the select tool; shapes cannot be clicked in preview |
| Editor.Session.SetTool | src/components/Toolbar.tsx:97 | outside preview, a drawing tool is chosen, except that a current selection sets the select tool straight back |
| Editor.Session.TogglePreview | src/components/Toolbar.tsx:147 | preview flips; leaving preview with a selection sets the select tool |
| Editor.Session.HandleClear | src/components/Toolbar.tsx:63-66 | the collection empties and the history is left as it is |
| Editor.Session.DeleteSelected | src/components/Canvas.tsx:348-354 | with a selection, the selected id is removed, the result committed and the selection cleared; otherwise nothing changes |
| Editor.Session.CopySelected | src/components/Canvas.tsx:356-359 | with a selection, the clipboard takes the shape found for it, or becomes empty when none is found; nothing else changes |
| Editor.Session.Paste | src/components/Canvas.tsx:361-371 | with a clipboard, the moved copy with the fresh id is appended and committed; with an empty clipboard nothing changes |
| Editor.Session.HandleKeyDown | src/components/Canvas.tsx:340-371 | ignored in preview; otherwise undo, delete, copy or paste runs according to the key, and any other key changes nothing |
| Editor.CreateRectangleScenario | src/components/Canvas.tsx:242-294 | dragging out a rectangle from (10, 10) to (110, 60) on a new session leaves one 100 by 50 rectangle, a history of two steps and step 1 |
| Editor.DeleteThenUndoScenario | src/App.tsx:18-30 | drawing a rectangle, selecting it, deleting it and undoing brings the rectangle back at step 1 without the selection, with the undone step still in the history |

## Left out

- Rendering is not modelled: the Konva stage, layers, shapes, guide lines and transformer, `batchDraw`, and the `AnimatedSkeleton` opacity animation (`Math.sin`). Together with the background image and the toolbar styling, these are display only.
- The `if (stage)` test in the drag move is not modelled: the stage always exists while shapes are dragged, so its size is a parameter.
- The circle edge point (a `Math.sqrt` distance and a division by it) is a function parameter. When the proposed point is the circle's centre, the source divides by zero, and the resulting NaN never snaps; the model skips that target there.
- `Shapes.SizeDraft`: `Math.hypot` is the parameter `dist`. The model only requires that it is non-negative and zero exactly when both offsets are zero, not that it equals the square root of the sum of squares, because the solver cannot reason about those products of reals.
- Fresh ids come from `Date.now()` in the source and are parameters here. Nothing in the source makes them unique, so the model does not assume ids are unique either. A paste and a draft in the same millisecond would share an id.
- The stage size (`window.innerWidth`, `window.innerHeight`) is a parameter.
- React's update batching, stale closures and effect scheduling are not modelled: each handler runs to completion on the state it sees, and the select-tool effect runs inside the method that changes its inputs. Registering event listeners and `preventDefault` are left out too.
- Resetting the node's scale after a resize acts on the rendered node only.
- The link from drag move to drag end is not modelled. During a drag the source writes the snapped position back to the Konva node, and `handleShapeDragEnd` reads the node's position, so the source commits the last snapped position. `Editor.Session.HandleShapeDragEnd` takes the node position as the free parameters `nodeX` and `nodeY`, and nothing ties them to the last `HandleShapeDragMove`.
- Floating-point rounding is not modelled: coordinates are exact reals.
- The background image, file drop, the code-generation dialog and its number formatting (`src/components/FileDropzone.tsx`, `src/components/Background.tsx`, `src/components/CodeBlock.tsx`) are I/O and markup outside the engine.
- Drag move and transform end run whenever they are called, although Konva makes shapes draggable only with the select tool and renders no transformer in preview. `Editor.Session.SelectShape` returns in preview because the preview branch renders no clickable shapes (`src/components/Canvas.tsx:399-414`). The key handler and `Editor.Session.HandleShapeDragEnd` keep the source's own `isPreviewing` tests (`src/components/Canvas.tsx:341`, `src/components/Canvas.tsx:223`).
