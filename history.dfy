/**
 * The linear undo history: a list of collection snapshots and the index of
 * the current one (updateHistory in src/components/Canvas.tsx, handleUndo in
 * src/App.tsx).
 */
module History {
  import opened Types
  import opened Shapes

  /**
   * The history invariant: the current step indexes a snapshot, and the
   * first snapshot is the empty collection the session starts with.
   */
  predicate WellFormed(history: seq<seq<Shape>>, step: nat) {
    step < |history| && history[0] == []
  }

  /** `Math.min` on step counts. */
  function MinNat(a: nat, b: nat): nat {
    if a <= b then a else b
  }

  /**
   * updateHistory's new history: `[...history.slice(0, step + 1), snapshot]`.
   * JavaScript's slice stops at the end of the list, so a step past the end
   * keeps every snapshot.
   */
  function Commit(history: seq<seq<Shape>>, step: nat, snapshot: seq<Shape>): (r: seq<seq<Shape>>)
    ensures |r| == MinNat(step + 1, |history|) + 1
    ensures forall i | 0 <= i < |r| - 1 :: r[i] == history[i]
    ensures r[|r| - 1] == snapshot
  {
    history[..MinNat(step + 1, |history|)] + [snapshot]
  }

  /**
   * A commit from a well-formed history keeps steps 0..step, drops every
   * later (redo) step, ends with the committed snapshot, and leaves a
   * well-formed history whose current step is the new one.
   */
  lemma CommitKeepsWellFormed(history: seq<seq<Shape>>, step: nat, snapshot: seq<Shape>)
    requires WellFormed(history, step)
    ensures var r := Commit(history, step, snapshot);
      && |r| == step + 2
      && r[..step + 1] == history[..step + 1]
      && r[step + 1] == snapshot
      && WellFormed(r, step + 1)
  {
  }

  /** What an undo leaves: the shown collection, the step and the selection. */
  datatype UndoOutcome = UndoOutcome(shapes: seq<Shape>, step: nat, selected: Option<string>)

  /**
   * handleUndo: at step 0 nothing changes; otherwise the previous snapshot is
   * shown, the step goes back by one, and the selection is cleared exactly
   * when the restored snapshot has no shape with the selected id. The history
   * itself is never touched.
   */
  function Undo(history: seq<seq<Shape>>, step: nat, shapes: seq<Shape>, selected: Option<string>): (r: UndoOutcome)
    requires step <= |history|
    ensures step == 0 ==> r == UndoOutcome(shapes, step, selected)
    ensures step > 0 ==> r.shapes == history[step - 1] && r.step == step - 1
    ensures r.selected == None || r.selected == selected
    ensures step > 0 && selected.Some? ==>
      (r.selected == None <==> forall s | s in history[step - 1] :: s.id != selected.value)
  {
    if step > 0 then
      var prevShapes := history[step - 1];
      var keep := selected.Some? && HasId(prevShapes, selected.value);
      UndoOutcome(prevShapes, step - 1, if keep then selected else None)
    else
      UndoOutcome(shapes, step, selected)
  }

  /** Undo keeps the history well formed. */
  lemma UndoKeepsWellFormed(history: seq<seq<Shape>>, step: nat, shapes: seq<Shape>, selected: Option<string>)
    requires WellFormed(history, step)
    ensures WellFormed(history, Undo(history, step, shapes, selected).step)
  {
  }

  /**
   * Undo right after a commit shows again the snapshot that was current
   * before the commit.
   */
  lemma UndoAfterCommit(history: seq<seq<Shape>>, step: nat, snapshot: seq<Shape>, selected: Option<string>)
    requires WellFormed(history, step)
    ensures var h := Commit(history, step, snapshot);
      var u := Undo(h, step + 1, snapshot, selected);
      u.shapes == history[step] && u.step == step
  {
  }

  /**
   * A commit after an undo from step k + 1 discards step k + 1 and every
   * later one: the history is steps 0..k followed by the new snapshot, so its
   * length is k + 2.
   */
  lemma CommitAfterUndoDropsRedo(history: seq<seq<Shape>>, step: nat, shapes: seq<Shape>,
                                 selected: Option<string>, snapshot: seq<Shape>)
    requires WellFormed(history, step) && step > 0
    ensures var u := Undo(history, step, shapes, selected);
      var h := Commit(history, u.step, snapshot);
      && h == history[..step] + [snapshot]
      && |h| == u.step + 2
  {
  }
}
