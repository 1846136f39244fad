# SVG drawer: drawing state and shape geometry

A model of the `Home` page of a browser vector-drawing tool. The user picks a shape
type (rectangle, circle, triangle, square) and a colour, drags on the canvas to place
and size a shape, can grab a committed shape and move it, and can undo, redo and clear.
All of that lives in one component, `src/pages/Home.jsx`, and is modelled here in four
modules:

- `Wrappers` (Wrappers.dfy): `Option`, standing for JavaScript's `null`.
- `Geometry` (Geometry.dfy): the `Shape` record; `Contains`, the point-in-shape test
  (`isPointInsideShape`); `Render`, the vector primitive a shape is drawn as
  (`renderShape`); `FirstHit`, the `findIndex` over the shape list. It also holds the
  lemmas that relate hit-testing to what is drawn.
- `History` (History.dfy): the committed list and the redo stack as a value `Stacks`.
  It has the Undo, Redo and Commit steps, their round trips, and repeated undo/redo.
- `Home` (Editor.dfy): class `Editor`. Its fields are the component's state. Its
  methods are the pointer handlers, the Undo/Redo/Clear buttons and the pickers. Each
  method's postcondition gives the whole new state in terms of the old one, using the
  `History` and `Geometry` functions. `Valid()` is the invariant that every handler
  keeps: a shape is never dragged while a draft is being drawn.
  `Home.DrawUndoRedo` is a short client session (draw, undo, redo) whose assertions
  follow from the handlers' contracts alone.

Coordinates are Dafny `real`s. They are exact, so this is not IEEE arithmetic. Every
`Math.sqrt` comparison in the source compares two non-negative sums of squares. Since
the square root is monotone, each is modelled as a comparison of the sums themselves.
A rendered circle therefore carries its squared radius, `width² + height²`.

Behaviour reproduced as the code has it:

- Committing a shape (pointer-up) does not clear the redo stack, so a later Redo puts
  an undone shape back after the newly drawn one (`History.CommitAfterUndoThenRedo`).
- The Redo guard `shapes != []` compares the list with a fresh array, so it always
  holds. Redo is available exactly when the redo stack is non-empty.
- Only the Grab cursor changes pointer-down. The Bucket cursor behaves like Crosshair.
- Rectangles and squares are hit-tested from the raw origin over the absolute extents.
  Rectangles are drawn normalised with `min`, and squares are drawn from the raw
  origin. So a rectangle dragged leftwards is drawn on one side of its origin but is
  hit on the other side (`Geometry.FlippedRectangleMissesItsCentre`). A square whose
  drag extents differ is hit outside the square that is drawn
  (`Geometry.UnevenSquareHitOutsideDrawn`).
- Clear does not reset `isDrawing` or the drag index, and Undo can shorten the list
  while a drag index is still set. In the source, a later pointer-move then throws a
  TypeError before changing any state. `Home.Editor.MouseMove` reports this as
  `ok == false` with the state unchanged.

## Model

| member | source | states |
|---|---|---|
| Geometry.Render | src/pages/Home.jsx:101-168 | A rectangle is drawn as the box spanned by its two drag corners, with non-negative width and height. A square is drawn at the raw origin with side min(abs w, abs h), which is non-negative, at most both absolute extents and equal to one of them. A circle is centred on the origin with squared radius w² + h². A triangle has its base from the origin along `width` and its apex over the base's midpoint, `height` above it. An unknown type draws nothing. |
| Geometry.RenderAll | src/pages/Home.jsx:203 | The committed shapes are drawn one primitive per shape, in list order. |
| Geometry.FirstHitFrom | src/pages/Home.jsx:20-22 | The result is the lowest index at or after the start whose shape contains the point, or none when no such shape does. |
| Geometry.FirstHit | src/pages/Home.jsx:20-22 | `findIndex`: the result is the lowest index whose shape contains the point, and it is none exactly when no shape contains the point. |
| Geometry.Contains | src/pages/Home.jsx:76-99 | `isPointInsideShape`. A rectangle or square is never hit left of or above its raw origin, whatever the drag direction. The triangle's three-vertex box reduces to the box between the origin and (x+w, y-h), because the apex's x lies between the base ends. The circle, triangle, square, rectangle and unknown-type cases are tied to `Render` by the lemmas below. |
| Geometry.CircleContainsCentreAndRim | src/pages/Home.jsx:86-88 | A circle contains its centre, the end of its drag vector, and every point at exactly the radius from the centre. |
| Geometry.CircleHitIsRenderedDisc | src/pages/Home.jsx:86-88 | The circle hit-test is exactly the closed disc that is drawn for the shape. |
| Geometry.TriangleBoxHoldsVertices | src/pages/Home.jsx:89-95 | The triangle's bounding-box test accepts all three drawn vertices. |
| Geometry.UnknownNeverHit | src/pages/Home.jsx:96-97 | A shape of unknown type is never hit. |
| Geometry.SquareRenderedInsideHitBox | src/pages/Home.jsx:150-157 | Every point of a drawn square lies inside the square's hit box. |
| Geometry.RectangleHitMatchesRendered | src/pages/Home.jsx:78-85 | For a rectangle with non-negative extents, a point is hit if and only if it lies in the drawn box. |
| Geometry.FlippedRectangleMissesItsCentre | src/pages/Home.jsx:78-85 | For a rectangle with negative width, the centre of the drawn box is not hit, while its mirror image on the other side of the origin is. |
| Geometry.UnevenSquareHitOutsideDrawn | src/pages/Home.jsx:150-157 | For a square dragged wider than tall, a point right of the drawn square but within the absolute width is still hit. |
| Geometry.RectangleRenderIgnoresDragDirection | src/pages/Home.jsx:108-115 | The shapes (x, y, w, h) and (x+w, y+h, -w, -h) are drawn as the same rectangle. |
| History.Undo | src/pages/Home.jsx:225-230 | Undo needs a non-empty list. It moves the last shape to the top (end) of the redo stack and leaves the rest of both stacks as they were. The total number of shapes is unchanged. |
| History.Redo | src/pages/Home.jsx:236-242 | Redo needs only a non-empty redo stack. It moves the top of the redo stack to the end of the list and leaves the rest of both as they were. The total is unchanged. |
| History.Commit | src/pages/Home.jsx:62-64 | Commit appends the draft as the new last shape, keeps the earlier shapes, and leaves the redo stack unchanged. |
| History.UndoRedoKeepHeld | src/pages/Home.jsx:228-241 | Undo and Redo keep the multiset of shapes held across both stacks. |
| History.UndoThenRedo | src/pages/Home.jsx:228-241 | Undo followed at once by Redo restores both stacks exactly. |
| History.RedoThenUndo | src/pages/Home.jsx:228-241 | Redo followed at once by Undo restores both stacks exactly. |
| History.CommitAfterUndoThenRedo | src/pages/Home.jsx:62-64 | After an undo, drawing a shape d and then redoing gives the old list minus its last shape, then d, then the undone shape. The redo stack is back to what it was. |
| History.UndoMany | src/pages/Home.jsx:225-230 | Undoing k times removes the last k shapes. It pushes them onto the redo stack last-drawn first, so the earliest of the k (the one undone last) ends on top. |
| History.RedoMany | src/pages/Home.jsx:236-242 | Redoing k times pops the top k redo entries and appends them to the list, top first. |
| History.UndoManyThenRedoMany | src/pages/Home.jsx:225-242 | Redoing as many times as one has just undone restores both stacks exactly. |
| Home.Editor.Scene | src/pages/Home.jsx:203-204 | The canvas shows every committed shape in order, then the draft, but only while drawing with a draft present. In a valid state no draft is shown while a shape is being dragged. |
| Home.Editor.constructor | src/pages/Home.jsx:7-14 | The initial state has empty stacks, no draft, no drag, no drawing, the rectangle tool, colour "white" and the crosshair cursor. |
| Home.Editor.MouseDown | src/pages/Home.jsx:16-32 | With Grab, when some shape contains the point, the drag index becomes the lowest such index and drawing stops. Otherwise, with a drag active, nothing changes. With no drag active, a draft of the current tool and colour starts at the point with zero extents. The stacks are unchanged. |
| Home.Editor.MouseMove | src/pages/Home.jsx:34-54 | While dragging shape i, only shape i's origin moves to the point. Its type, extents and colour, the other shapes and the list length stay the same. While drawing, the draft's far corner follows the point, and its origin, type and colour stay. The move fails, with no change, exactly when the drag index is past the end or, while drawing with no drag active, the draft is missing. When idle it succeeds and changes nothing. |
| Home.Editor.MouseUp | src/pages/Home.jsx:56-65 | During a drag, only the drag index is cleared. Otherwise the draft is committed (History.Commit), the draft is dropped and drawing stops. The redo stack is unchanged. |
| Home.Editor.Undo | src/pages/Home.jsx:225-230 | Acts exactly when the list is non-empty (`History.CanUndo`, the button's display guard), and then the stacks become History.Undo of the old stacks. Otherwise nothing changes. |
| Home.Editor.Redo | src/pages/Home.jsx:236-242 | Acts exactly when the redo stack is non-empty (`History.CanRedo`, the button's guard), and then the stacks become History.Redo of the old stacks. Otherwise nothing changes. |
| Home.Editor.Clear | src/pages/Home.jsx:250-256 | Empties the list and the redo stack and drops the draft. The drawing flag and the drag index are kept. |
| Home.Editor.SelectTool | src/pages/Home.jsx:211-214 | Later drafts take the chosen shape type. |
| Home.Editor.SelectColor | src/pages/Home.jsx:178-181 | Later drafts take the chosen colour. |
| Home.Editor.SelectCursor | src/pages/Home.jsx:186-188 | Sets the cursor to Crosshair, Grab or Bucket. |

## Left out

- `getMousePosition` (src/pages/Home.jsx:67-74) maps screen coordinates through the SVG
  screen matrix, which is DOM work. Pointer coordinates are parameters of the handlers.
- Export (src/pages/Home.jsx:261-273) serialises the canvas and downloads it through
  browser APIs. The Preview button (src/pages/Home.jsx:274-276) has no handler.
- Presentation in `renderShape`: stroke, stroke width, dash pattern, fill, the
  `preview` flag and React keys. None of them affects geometry. Layout and styling are
  left out too.
- IEEE floating point, NaN and infinities. `Math.sqrt` is replaced by comparisons of
  squares, which agree on exact reals.
- React state batching and re-rendering. Each handler is one atomic update.
- Home.Editor.MouseUp: requires a drag or a draft. With neither, the source appends
  `null` to the list, and rendering that list then fails. That path is not modelled.
- Home.Editor.Undo: a click with an empty list is modelled as having no effect,
  because the button is not rendered then. The handler's behaviour when forced with an
  empty list, which pushes `undefined`, is not modelled.
- Shape types come from the tool buttons as strings. Any string other than the four
  names is modelled as `Other(name)`.
- `src/components/ToolBar.jsx` is not part of this model. It is not used, it refers to
  undefined names, and its handlers repeat those of `Home`.
- `src/components/ColorPallete.jsx` and `src/App.jsx` are not part of this model. The
  first is unused UI and the second only lays out `Home`.
