/**
 * The state of the drawing page and its event handlers: pointer down, move
 * and up on the canvas, and the Undo, Redo and Clear buttons, plus the tool,
 * colour and cursor pickers. Each handler is one atomic update of the state.
 */
module Home {
  import opened Wrappers
  import opened Geometry
  import History

  /** The canvas cursor. Only Grab changes what a pointer-down does. */
  datatype Cursor = Crosshair | Grab | Bucket

  class Editor {
    var shapes: seq<Shape>        // committed shapes, drawn in order
    var redo: seq<Shape>          // undone shapes, most recently undone last
    var draft: Option<Shape>      // the shape being sized by the current drag
    var isDrawing: bool
    var dragging: Option<nat>     // index of the shape being moved
    var cursor: Cursor
    var tool: ShapeKind
    var color: string

    /**
     * A shape is never moved and drawn at the same time. The constructor
     * establishes it and every handler keeps it; `Scene` uses it to show that
     * no draft is drawn during a drag.
     */
    predicate Valid()
      reads this
    {
      dragging.Some? ==> !isDrawing
    }

    /** The committed list and the redo stack as one value. */
    function AsStacks(): History.Stacks
      reads this
    {
      History.Stacks(shapes, redo)
    }

    /** What the canvas shows: every committed shape, then the draft while drawing. */
    function Scene(): (r: seq<Option<Primitive>>)
      reads this
      ensures |r| == |shapes| + (if isDrawing && draft.Some? then 1 else 0)
      ensures forall i :: 0 <= i < |shapes| ==> r[i] == Render(shapes[i])
      ensures isDrawing && draft.Some? ==> r[|shapes|] == Render(draft.value)
      ensures Valid() && dragging.Some? ==> |r| == |shapes|
    {
      RenderAll(shapes) + (if isDrawing && draft.Some? then [Render(draft.value)] else [])
    }

    constructor ()
      ensures Valid()
      ensures shapes == [] && redo == [] && draft == None && !isDrawing && dragging == None
      ensures cursor == Crosshair && tool == Rectangle && color == "white"
    {
      shapes, redo, draft := [], [], None;
      isDrawing, dragging := false, None;
      cursor, tool, color := Crosshair, Rectangle, "white";
    }

    /**
     * Pointer-down at (px, py). With the Grab cursor, the lowest shape under
     * the point starts being dragged. Otherwise, unless a drag is still
     * active, a new draft of the current tool and colour starts at the point
     * with zero extents.
     */
    method MouseDown(px: real, py: real)
      requires Valid()
      modifies this
      ensures Valid()
      ensures shapes == old(shapes) && redo == old(redo)
      ensures cursor == old(cursor) && tool == old(tool) && color == old(color)
      ensures old(cursor) == Grab && (exists i :: 0 <= i < |shapes| && Contains(px, py, shapes[i])) ==>
        dragging.Some? && dragging.value < |shapes| && Contains(px, py, shapes[dragging.value]) &&
        (forall j :: 0 <= j < dragging.value ==> !Contains(px, py, shapes[j])) &&
        !isDrawing && draft == old(draft)
      ensures (old(cursor) != Grab || forall i :: 0 <= i < |shapes| ==> !Contains(px, py, shapes[i])) ==>
        if old(dragging).Some? then
          dragging == old(dragging) && isDrawing == old(isDrawing) && draft == old(draft)
        else
          dragging == None && isDrawing &&
          draft == Some(Shape(old(tool), px, py, 0.0, 0.0, old(color)))
    {
      if cursor == Grab {
        var hit := FirstHit(shapes, px, py);
        if hit.Some? {
          dragging := hit;
          isDrawing := false;
          return;
        }
      }
      if dragging.Some? {
        return;
      }
      isDrawing := true;
      draft := Some(Shape(tool, px, py, 0.0, 0.0, color));
    }

    /**
     * Pointer-move to (px, py). While dragging shape i, its origin moves to the
     * point and nothing else changes; while drawing, the draft's far corner
     * follows the point. `ok` is false where the handler fails before changing
     * anything: the dragged index is past the end of the list, or drawing is on
     * with no draft left.
     */
    method MouseMove(px: real, py: real) returns (ok: bool)
      requires Valid()
      modifies this
      ensures Valid()
      ensures ok == ((old(dragging).Some? ==> old(dragging).value < |old(shapes)|) &&
                     (old(dragging).None? && old(isDrawing) ==> old(draft).Some?))
      ensures redo == old(redo) && dragging == old(dragging) && isDrawing == old(isDrawing)
      ensures cursor == old(cursor) && tool == old(tool) && color == old(color)
      ensures !ok ==> shapes == old(shapes) && draft == old(draft)
      ensures ok && old(dragging).Some? ==>
        var i := old(dragging).value;
        |shapes| == |old(shapes)| && draft == old(draft) &&
        shapes[i] == old(shapes)[i].(x := px, y := py) &&
        forall j :: 0 <= j < |shapes| && j != i ==> shapes[j] == old(shapes)[j]
      ensures ok && old(dragging).None? ==> shapes == old(shapes)
      ensures ok && old(dragging).None? && !old(isDrawing) ==> draft == old(draft)
      ensures ok && old(dragging).None? && old(isDrawing) ==>
        var d := old(draft).value;
        draft.Some? && draft.value.kind == d.kind && draft.value.color == d.color &&
        draft.value.x == d.x && draft.value.y == d.y &&
        draft.value.x + draft.value.width == px && draft.value.y + draft.value.height == py
    {
      if dragging.Some? {
        var i := dragging.value;
        if i >= |shapes| {
          return false;
        }
        shapes := shapes[i := shapes[i].(x := px, y := py)];
        return true;
      }
      if !isDrawing {
        return true;
      }
      if draft.None? {
        return false;
      }
      var d := draft.value;
      draft := Some(d.(width := px - d.x, height := py - d.y));
      return true;
    }

    /**
     * Pointer-up. Ends a drag if one is active; otherwise commits the draft as
     * the new last shape, without touching the redo stack.
     */
    method MouseUp()
      requires Valid()
      requires dragging.Some? || draft.Some?
      modifies this
      ensures Valid()
      ensures cursor == old(cursor) && tool == old(tool) && color == old(color)
      ensures dragging == None
      ensures old(dragging).Some? ==>
        shapes == old(shapes) && redo == old(redo) && draft == old(draft) && isDrawing == old(isDrawing)
      ensures old(dragging).None? ==>
        AsStacks() == History.Commit(old(AsStacks()), old(draft).value) && draft == None && !isDrawing
    {
      if dragging.Some? {
        dragging := None;
        return;
      }
      isDrawing := false;
      shapes := shapes + [draft.value];
      draft := None;
    }

    /** The Undo button, present only while some shape is committed. */
    method Undo() returns (done: bool)
      requires Valid()
      modifies this
      ensures Valid()
      ensures done == History.CanUndo(old(AsStacks()))
      ensures done ==> AsStacks() == History.Undo(old(AsStacks()))
      ensures !done ==> shapes == old(shapes) && redo == old(redo)
      ensures draft == old(draft) && isDrawing == old(isDrawing) && dragging == old(dragging)
      ensures cursor == old(cursor) && tool == old(tool) && color == old(color)
    {
      done := shapes != [];
      if done {
        redo := redo + [shapes[|shapes| - 1]];
        shapes := shapes[..|shapes| - 1];
      }
    }

    /** The Redo button, present while the redo stack is non-empty. */
    method Redo() returns (done: bool)
      requires Valid()
      modifies this
      ensures Valid()
      ensures done == History.CanRedo(old(AsStacks()))
      ensures done ==> AsStacks() == History.Redo(old(AsStacks()))
      ensures !done ==> shapes == old(shapes) && redo == old(redo)
      ensures draft == old(draft) && isDrawing == old(isDrawing) && dragging == old(dragging)
      ensures cursor == old(cursor) && tool == old(tool) && color == old(color)
    {
      done := redo != [];
      if done {
        shapes := shapes + [redo[|redo| - 1]];
        redo := redo[..|redo| - 1];
      }
    }

    /** The Clear button: empties both stacks and drops the draft, and nothing more. */
    method Clear()
      requires Valid()
      modifies this
      ensures Valid()
      ensures shapes == [] && redo == [] && draft == None
      ensures isDrawing == old(isDrawing) && dragging == old(dragging)
      ensures cursor == old(cursor) && tool == old(tool) && color == old(color)
    {
      shapes, redo, draft := [], [], None;
    }

    /** A tool button: later drafts take this shape type. */
    method SelectTool(kind: ShapeKind)
      requires Valid()
      modifies this`tool
      ensures Valid() && tool == kind
    {
      tool := kind;
    }

    /** A palette button: later drafts take this colour. */
    method SelectColor(c: string)
      requires Valid()
      modifies this`color
      ensures Valid() && color == c
    {
      color := c;
    }

    /** One of the three cursor icons. */
    method SelectCursor(c: Cursor)
      requires Valid()
      modifies this`cursor
      ensures Valid() && cursor == c
    {
      cursor := c;
    }
  }

  /**
   * A short session: draw one rectangle, undo it, redo it. The list ends as it
   * was after the drawing, and the redo stack ends empty.
   */
  method DrawUndoRedo(x0: real, y0: real, x1: real, y1: real)
  {
    var e := new Editor();
    e.MouseDown(x0, y0);
    var moved := e.MouseMove(x1, y1);
    assert moved;
    e.MouseUp();
    var drawn := Shape(Rectangle, x0, y0, x1 - x0, y1 - y0, "white");
    assert e.shapes == [drawn] && e.redo == [];
    var undone := e.Undo();
    assert undone && e.shapes == [] && e.redo == [drawn];
    var redone := e.Redo();
    assert redone && e.shapes == [drawn] && e.redo == [];
  }
}
