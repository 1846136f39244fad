/**
 * The committed shape list and the redo stack, and the three operations that
 * move shapes between them: Undo pops the last committed shape onto the redo
 * stack, Redo pops the last redo entry back onto the list, and Commit appends
 * a finished draft. The most recently undone shape is the LAST redo entry.
 */
module History {
  import opened Geometry

  datatype Stacks = Stacks(shapes: seq<Shape>, redo: seq<Shape>)

  /** The Undo button is shown only while some shape is committed. */
  predicate CanUndo(h: Stacks) { h.shapes != [] }

  /**
   * The Redo button is shown while the redo stack is non-empty; its second
   * guard, comparing the list with a fresh empty array, always holds.
   */
  predicate CanRedo(h: Stacks) { h.redo != [] }

  function Undo(h: Stacks): (r: Stacks)
    requires CanUndo(h)
    ensures CanRedo(r)
    ensures r.shapes + [r.redo[|r.redo| - 1]] == h.shapes
    ensures r.redo[..|r.redo| - 1] == h.redo
    ensures |r.shapes| + |r.redo| == |h.shapes| + |h.redo|
  {
    var n := |h.shapes|;
    Stacks(h.shapes[..n - 1], h.redo + [h.shapes[n - 1]])
  }

  function Redo(h: Stacks): (r: Stacks)
    requires CanRedo(h)
    ensures CanUndo(r)
    ensures r.redo + [r.shapes[|r.shapes| - 1]] == h.redo
    ensures r.shapes[..|r.shapes| - 1] == h.shapes
    ensures |r.shapes| + |r.redo| == |h.shapes| + |h.redo|
  {
    var n := |h.redo|;
    Stacks(h.shapes + [h.redo[n - 1]], h.redo[..n - 1])
  }

  /** Committing a draft appends it to the list and leaves the redo stack alone. */
  function Commit(h: Stacks, draft: Shape): (r: Stacks)
    ensures CanUndo(r) && r.shapes[|r.shapes| - 1] == draft
    ensures |r.shapes| == |h.shapes| + 1 && r.shapes[..|h.shapes|] == h.shapes
    ensures r.redo == h.redo
  {
    Stacks(h.shapes + [draft], h.redo)
  }

  /** All shapes held on either stack, counted with multiplicity. */
  function Held(h: Stacks): multiset<Shape>
  {
    multiset(h.shapes) + multiset(h.redo)
  }

  /** Undo and Redo move a shape between the stacks and lose none. */
  lemma UndoRedoKeepHeld(h: Stacks)
    ensures CanUndo(h) ==> Held(Undo(h)) == Held(h)
    ensures CanRedo(h) ==> Held(Redo(h)) == Held(h)
  {
    if CanUndo(h) {
      var n := |h.shapes|;
      assert h.shapes == h.shapes[..n - 1] + [h.shapes[n - 1]];
    }
    if CanRedo(h) {
      var n := |h.redo|;
      assert h.redo == h.redo[..n - 1] + [h.redo[n - 1]];
    }
  }

  /** Undo immediately followed by Redo restores both stacks exactly. */
  lemma UndoThenRedo(h: Stacks)
    requires CanUndo(h)
    ensures CanRedo(Undo(h)) && Redo(Undo(h)) == h
  {
    var n := |h.shapes|;
    assert h.shapes[..n - 1] + [h.shapes[n - 1]] == h.shapes;
  }

  /** Redo immediately followed by Undo restores both stacks exactly. */
  lemma RedoThenUndo(h: Stacks)
    requires CanRedo(h)
    ensures CanUndo(Redo(h)) && Undo(Redo(h)) == h
  {
    var n := |h.redo|;
    assert h.redo[..n - 1] + [h.redo[n - 1]] == h.redo;
  }

  /**
   * Drawing a shape after an undo keeps the undone shape on the redo stack,
   * so a following Redo puts it back AFTER the new shape.
   */
  lemma CommitAfterUndoThenRedo(h: Stacks, d: Shape)
    requires CanUndo(h)
    ensures CanRedo(Commit(Undo(h), d))
    ensures Redo(Commit(Undo(h), d)) ==
      Stacks(h.shapes[..|h.shapes| - 1] + [d, h.shapes[|h.shapes| - 1]], h.redo)
  {
    var n := |h.shapes|;
    assert h.shapes[..n - 1] + [d] + [h.shapes[n - 1]] == h.shapes[..n - 1] + [d, h.shapes[n - 1]];
  }

  /**
   * Undoing k shapes takes the last k of the list and pushes them last-drawn
   * first, so the earliest of the k (the one undone last) ends on top.
   */
  function UndoMany(h: Stacks, k: nat): (r: Stacks)
    requires k <= |h.shapes|
    ensures r.shapes == h.shapes[..|h.shapes| - k]
    ensures |r.redo| == |h.redo| + k && r.redo[..|h.redo|] == h.redo
    ensures forall j :: |h.redo| <= j < |r.redo| ==> r.redo[j] == h.shapes[|h.shapes| + |h.redo| - 1 - j]
    decreases k
  {
    if k == 0 then h else UndoMany(Undo(h), k - 1)
  }

  /** Redoing k shapes, as the Redo button does when clicked k times. */
  function RedoMany(h: Stacks, k: nat): (r: Stacks)
    requires k <= |h.redo|
    ensures r.redo == h.redo[..|h.redo| - k]
    ensures |r.shapes| == |h.shapes| + k && r.shapes[..|h.shapes|] == h.shapes
    ensures forall j :: |h.shapes| <= j < |r.shapes| ==> r.shapes[j] == h.redo[|h.shapes| + |h.redo| - 1 - j]
    decreases k
  {
    if k == 0 then h else RedoMany(Redo(h), k - 1)
  }

  /** Redoing as many shapes as were undone restores both stacks. */
  lemma {:induction false} UndoManyThenRedoMany(h: Stacks, k: nat)
    requires k <= |h.shapes|
    ensures RedoMany(UndoMany(h, k), k) == h
  {
    var n, m := |h.shapes|, |h.redo|;
    var u := UndoMany(h, k);
    assert |u.redo| == m + k;
    var r := RedoMany(u, k);
    assert |r.shapes| == n;
    assert r.redo == h.redo;
    forall j | 0 <= j < n
      ensures r.shapes[j] == h.shapes[j]
    {
      if j < n - k {
        assert r.shapes[..n - k][j] == u.shapes[j];
      } else {
        assert r.shapes[j] == u.redo[n + m - 1 - j];
      }
    }
    assert r.shapes == h.shapes;
  }
}
