// The custom editor's undo/redo history (custom-design-canvas.tsx,
// recordHistory, handleUndo and handleRedo): a list of scene snapshots with
// a cursor, the two button flags and the flag that suppresses recording
// while an operation is in progress.

module CanvasHistory {
  import opened Types
  import opened CanvasScene

  /** The snapshots and the cursor, as values. */
  datatype History = History(snapshots: seq<Scene>, index: int)

  predicate ValidHistory(h: History)
  {
    0 <= h.index < |h.snapshots|
  }

  /** The initial history: one empty snapshot, cursor on it. */
  const Initial := History([EmptyScene], 0)

  function Current(h: History): Scene
    requires ValidHistory(h)
  {
    h.snapshots[h.index]
  }

  /**
   * A forced record: drop everything after the cursor; if the snapshot now on
   * top equals the current scene stop there, otherwise push it and move the
   * cursor onto it.
   */
  function Recorded(h: History, current: Scene): (r: History)
    requires ValidHistory(h)
    ensures ValidHistory(r) && Current(r) == current
    ensures r.index == |r.snapshots| - 1 && h.index + 1 <= |r.snapshots|
    ensures r.snapshots[..h.index + 1] == h.snapshots[..h.index + 1]
    ensures Current(h) == current ==> r == History(h.snapshots[..h.index + 1], h.index)
    ensures Current(h) != current ==> r.index == h.index + 1
  {
    var kept := h.snapshots[..h.index + 1];
    if kept[|kept| - 1] == current then History(kept, h.index)
    else History(kept + [current], h.index + 1)
  }

  function Undone(h: History): (r: History)
    requires ValidHistory(h)
    ensures ValidHistory(r) && r.snapshots == h.snapshots
    ensures r.index == if h.index > 0 then h.index - 1 else h.index
  {
    if h.index > 0 then History(h.snapshots, h.index - 1) else h
  }

  function Redone(h: History): (r: History)
    requires ValidHistory(h)
    ensures ValidHistory(r) && r.snapshots == h.snapshots
    ensures r.index == if h.index < |h.snapshots| - 1 then h.index + 1 else h.index
  {
    if h.index < |h.snapshots| - 1 then History(h.snapshots, h.index + 1) else h
  }

  /** Undo then redo returns to the same history, when there was something to undo. */
  lemma RedoAfterUndo(h: History)
    requires ValidHistory(h) && h.index > 0
    ensures Redone(Undone(h)) == h
  {
  }

  /** Redo then undo returns to the same history, when there was something to redo. */
  lemma UndoAfterRedo(h: History)
    requires ValidHistory(h) && h.index < |h.snapshots| - 1
    ensures Undone(Redone(h)) == h
  {
  }

  /**
   * A record that holds the scene already on top of the history changes
   * nothing, so the next undo goes back past that scene.  This is what the
   * editor's records of the rendered (pre-edit) scene amount to right after
   * the previous edit was recorded: the new edit gets no snapshot of its own.
   */
  lemma StaleRecordAddsNothing(h: History, s: Scene)
    requires ValidHistory(h) && h.index == |h.snapshots| - 1 && Current(h) == s
    ensures Recorded(h, s) == h
    ensures h.index > 0 ==> Current(Undone(Recorded(h, s))) == h.snapshots[h.index - 1]
  {
    assert h.snapshots[..h.index + 1] == h.snapshots;
  }

  /** After a record nothing is left to redo. */
  lemma NothingToRedoAfterRecord(h: History, current: Scene)
    requires ValidHistory(h)
    ensures Redone(Recorded(h, current)) == Recorded(h, current)
  {
  }

  /** Recording the same scene twice records it once. */
  lemma RecordIdempotent(h: History, current: Scene)
    requires ValidHistory(h)
    ensures Recorded(Recorded(h, current), current) == Recorded(h, current)
  {
    var r := Recorded(h, current);
    assert r.snapshots[..r.index + 1] == r.snapshots;
  }

  /** Undoing a record that added a snapshot brings back the scene before it. */
  lemma UndoAfterRecord(h: History, current: Scene)
    requires ValidHistory(h) && Current(h) != current
    ensures Current(Undone(Recorded(h, current))) == Current(h)
  {
    var kept := h.snapshots[..h.index + 1];
    assert (kept + [current])[h.index] == kept[h.index];
  }

  function UndoTimes(h: History, n: nat): (r: History)
    requires ValidHistory(h)
    ensures ValidHistory(r) && r.snapshots == h.snapshots
  {
    if n == 0 then h else Undone(UndoTimes(h, n - 1))
  }

  function RedoTimes(h: History, n: nat): (r: History)
    requires ValidHistory(h)
    ensures ValidHistory(r) && r.snapshots == h.snapshots
  {
    if n == 0 then h else Redone(RedoTimes(h, n - 1))
  }

  /** n undos move the cursor back n places, stopping at the first snapshot. */
  lemma {:induction false} UndoTimesIndex(h: History, n: nat)
    requires ValidHistory(h)
    ensures UndoTimes(h, n).index == if n <= h.index then h.index - n else 0
  {
    if n > 0 {
      UndoTimesIndex(h, n - 1);
    }
  }

  /** n redos move the cursor forward n places, stopping at the last snapshot. */
  lemma {:induction false} RedoTimesIndex(h: History, n: nat)
    requires ValidHistory(h)
    ensures RedoTimes(h, n).index ==
      if h.index + n <= |h.snapshots| - 1 then h.index + n else |h.snapshots| - 1
  {
    if n > 0 {
      RedoTimesIndex(h, n - 1);
    }
  }

  /** Up to the cursor, n undos followed by n redos restore the history. */
  lemma RedoTimesAfterUndoTimes(h: History, n: nat)
    requires ValidHistory(h) && n <= h.index
    ensures RedoTimes(UndoTimes(h, n), n) == h
  {
    var u := UndoTimes(h, n);
    UndoTimesIndex(h, n);
    RedoTimesIndex(u, n);
  }

  /**
   * The editor's history state. `canUndo`/`canRedo` are the React state the
   * toolbar buttons read; recordHistory leaves them untouched when it finds a
   * duplicate, so `canRedo` may stay true after the redo tail was dropped.
   */
  class EditHistory {
    var snapshots: seq<Scene>
    var index: int
    var canUndo: bool
    var canRedo: bool
    var inProgress: bool

    ghost predicate Valid()
      reads this
    {
      0 <= index < |snapshots|
      && canUndo == (index > 0)
      && (index < |snapshots| - 1 ==> canRedo)
    }

    function State(): History
      reads this
    {
      History(snapshots, index)
    }

    constructor ()
      ensures Valid() && State() == Initial
      ensures !canUndo && !canRedo && !inProgress
    {
      snapshots := [EmptyScene];
      index := 0;
      canUndo, canRedo := false, false;
      inProgress := false;
    }

    /** `recordHistory(force)` on the current scene. */
    method Record(current: Scene, force: bool)
      requires Valid()
      modifies this
      ensures Valid() && inProgress == old(inProgress)
      ensures old(inProgress) && !force ==> State() == old(State()) && canRedo == old(canRedo)
      ensures !(old(inProgress) && !force) ==> State() == Recorded(old(State()), current)
      ensures !(old(inProgress) && !force) && old(Current(State())) != current ==> !canRedo
    {
      if inProgress && !force {
        return;
      }
      snapshots := snapshots[..index + 1];
      if |snapshots| > 0 {
        var lastState := snapshots[|snapshots| - 1];
        if lastState == current {
          return;
        }
      }
      snapshots := snapshots + [current];
      index := |snapshots| - 1;
      canUndo := index > 0;
      canRedo := false;
    }

    /**
     * `handleUndo`: step the cursor back and hand the snapshot to restore to
     * the caller, which applies it with updateElements and clears the
     * selection. Recording stays suppressed until `FrameCallback`.
     */
    method Undo() returns (restore: Option<Scene>)
      requires Valid()
      modifies this
      ensures Valid() && State() == Undone(old(State()))
      ensures old(index) > 0 <==> restore.Some?
      ensures restore.Some? ==> restore.value == Current(State()) && inProgress && canRedo
      ensures restore.None? ==> inProgress == old(inProgress) && canRedo == old(canRedo)
    {
      restore := None;
      if index > 0 {
        inProgress := true;
        index := index - 1;
        restore := Some(snapshots[index]);
        canUndo := index > 0;
        canRedo := true;
      }
    }

    /** `handleRedo`, symmetric to `Undo`. */
    method Redo() returns (restore: Option<Scene>)
      requires Valid()
      modifies this
      ensures Valid() && State() == Redone(old(State()))
      ensures old(index) < |old(snapshots)| - 1 <==> restore.Some?
      ensures restore.Some? ==> restore.value == Current(State()) && inProgress && canUndo
      ensures restore.None? ==> inProgress == old(inProgress) && canRedo == old(canRedo)
    {
      restore := None;
      if index < |snapshots| - 1 {
        inProgress := true;
        index := index + 1;
        restore := Some(snapshots[index]);
        canUndo := true;
        canRedo := index < |snapshots| - 1;
      }
    }

    /** A mouse-down starts an operation: recording waits for the mouse-up. */
    method BeginOperation()
      requires Valid()
      modifies this
      ensures Valid() && inProgress && State() == old(State()) && canRedo == old(canRedo)
    {
      inProgress := true;
    }

    /** The `requestAnimationFrame` callback after undo or redo. */
    method FrameCallback()
      requires Valid()
      modifies this
      ensures Valid() && !inProgress && State() == old(State()) && canRedo == old(canRedo)
    {
      inProgress := false;
    }

    /** The end of `handleMouseUp`: a finished operation is recorded. */
    method EndOperation(current: Scene)
      requires Valid()
      modifies this
      ensures Valid() && !inProgress
      ensures old(inProgress) ==> State() == Recorded(old(State()), current)
      ensures !old(inProgress) ==> State() == old(State()) && canRedo == old(canRedo)
    {
      if inProgress {
        inProgress := false;
        Record(current, true);
      }
    }
  }
}
