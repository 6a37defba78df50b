/** The persisted value (drawn shapes) and the undo/redo history beside it. */
module ShapeHistory {

  /** One drawn element, tagged by the mode that drew it; its geometry is the mode's own
      business and opaque here. */
  datatype Shape = Shape(mode: string, geometry: seq<real>)

  /** The live shape list (`dataValue`) and the `deleted` stack, whose top is its last
      element (JavaScript's `push` and `pop`). */
  datatype History = History(live: seq<Shape>, deleted: seq<Shape>)

  /** `undo`: the last live shape moves onto the deleted stack; nothing happens when no
      shape is live. */
  function Undone(h: History): (r: History)
    ensures |h.live| == 0 ==> r == h
    ensures |h.live| > 0 ==>
      && |r.live| == |h.live| - 1
      && r.live + [h.live[|h.live| - 1]] == h.live
      && r.deleted == h.deleted + [h.live[|h.live| - 1]]
  {
    if |h.live| == 0 then h
    else History(h.live[..|h.live| - 1], h.deleted + [h.live[|h.live| - 1]])
  }

  /** `redo`: the top of the deleted stack goes back to the end of the live list; nothing
      happens when the stack is empty. */
  function Redone(h: History): (r: History)
    ensures |h.deleted| == 0 ==> r == h
    ensures |h.deleted| > 0 ==>
      && |r.deleted| == |h.deleted| - 1
      && r.deleted + [h.deleted[|h.deleted| - 1]] == h.deleted
      && r.live == h.live + [h.deleted[|h.deleted| - 1]]
  {
    if |h.deleted| == 0 then h
    else History(h.live + [h.deleted[|h.deleted| - 1]], h.deleted[..|h.deleted| - 1])
  }

  /** Redo exactly undoes an undo of a non-empty list, restoring both stacks. */
  lemma RedoAfterUndo(h: History)
    requires |h.live| > 0
    ensures Redone(Undone(h)) == h
  {
    var u := Undone(h);
    assert u.deleted[..|u.deleted| - 1] == h.deleted;
  }

  /** Undo exactly undoes a redo from a non-empty deleted stack. */
  lemma UndoAfterRedo(h: History)
    requires |h.deleted| > 0
    ensures Undone(Redone(h)) == h
  {
    var r := Redone(h);
    assert r.live[..|r.live| - 1] == h.live;
  }

  function Reversed(s: seq<Shape>): (r: seq<Shape>)
    ensures |r| == |s|
  {
    if |s| == 0 then [] else [s[|s| - 1]] + Reversed(s[..|s| - 1])
  }

  /** Everything drawn, undone shapes included, in drawing order: the live list followed by
      the deleted stack read from its top. Undo and redo move the boundary, never the shapes. */
  function Timeline(h: History): seq<Shape> {
    h.live + Reversed(h.deleted)
  }

  lemma ReversedPush(s: seq<Shape>, x: Shape)
    ensures Reversed(s + [x]) == [x] + Reversed(s)
  {
    assert (s + [x])[..|s|] == s;
  }

  /** Undo keeps the timeline and the total number of shapes. */
  lemma UndoKeepsTimeline(h: History)
    ensures Timeline(Undone(h)) == Timeline(h)
  {
    if |h.live| > 0 {
      var x := h.live[|h.live| - 1];
      ReversedPush(h.deleted, x);
      assert Timeline(Undone(h)) == h.live[..|h.live| - 1] + ([x] + Reversed(h.deleted));
      assert h.live[..|h.live| - 1] + [x] == h.live;
    }
  }

  /** Redo keeps the timeline as well. */
  lemma RedoKeepsTimeline(h: History)
    ensures Timeline(Redone(h)) == Timeline(h)
  {
    if |h.deleted| > 0 {
      var x := h.deleted[|h.deleted| - 1];
      var rest := h.deleted[..|h.deleted| - 1];
      assert h.deleted == rest + [x];
      ReversedPush(rest, x);
      assert Timeline(Redone(h)) == (h.live + [x]) + Reversed(rest);
    }
  }

  /** `k` undos in a row. */
  function UndoneTimes(h: History, k: nat): History
    decreases k
  {
    if k == 0 then h else UndoneTimes(Undone(h), k - 1)
  }

  /** `k` redos in a row. */
  function RedoneTimes(h: History, k: nat): History {
    if k == 0 then h else Redone(RedoneTimes(h, k - 1))
  }

  /** As many redos as there were undos, all of which removed a shape, restore the history. */
  lemma {:induction false} RedoAllUndone(h: History, k: nat)
    requires k <= |h.live|
    ensures RedoneTimes(UndoneTimes(h, k), k) == h
    decreases k
  {
    if k > 0 {
      RedoAllUndone(Undone(h), k - 1);
      RedoAfterUndo(h);
    }
  }

  /** `clearAll`: the live list is emptied and the deleted stack is kept. */
  function Cleared(h: History): (r: History)
    ensures Undone(r) == r
    ensures r.deleted == h.deleted
  {
    History([], h.deleted)
  }

  /** Because clearing keeps the deleted stack, a redo after a clear brings back the most
      recently undone shape onto the empty canvas. */
  lemma RedoAfterClear(h: History)
    requires |h.deleted| > 0
    ensures Redone(Cleared(h)).live == [h.deleted[|h.deleted| - 1]]
  {
  }
}
