/**
 * The collection updates the canvas handlers perform on the shape list
 * (src/components/Canvas.tsx): `find`, `filter` and `map` by id, the
 * `{ ...s, ...updates }` merge, the draft shape of a creation gesture, the
 * size rule applied when a resize ends, and the copy made by paste.
 * Every operation returns a new value; none changes its argument.
 */
module Shapes {
  import opened Types

  // ---------------------------------------------------------------------------
  // Lookup and removal by id
  // ---------------------------------------------------------------------------

  /** `shapes.some(s => s.id === id)` */
  predicate HasId(shapes: seq<Shape>, id: string) {
    exists k | 0 <= k < |shapes| :: shapes[k].id == id
  }

  /** `shapes.find(s => s.id === id)`: the first shape that carries `id`, if any. */
  function FindById(shapes: seq<Shape>, id: string): (r: Option<Shape>)
    ensures r.None? <==> !HasId(shapes, id)
    ensures r.Some? ==> r.value.id == id
    ensures r.Some? ==>
      exists k | 0 <= k < |shapes| :: shapes[k] == r.value && !HasId(shapes[..k], id)
  {
    if shapes == [] then None
    else if shapes[0].id == id then
      assert shapes[..0] == [];
      Some(shapes[0])
    else
      var r := FindById(shapes[1..], id);
      assert HasId(shapes[1..], id) ==> HasId(shapes, id);
      assert r.Some? ==> exists k | 1 <= k < |shapes| :: shapes[k] == r.value && !HasId(shapes[..k], id) by {
        if r.Some? {
          var j :| 0 <= j < |shapes[1..]| && shapes[1..][j] == r.value && !HasId(shapes[1..][..j], id);
          assert shapes[..j + 1] == [shapes[0]] + shapes[1..][..j];
        }
      }
      r
  }

  /** `shapes.filter(s => s.id !== id)`: every shape except those carrying `id`, in order. */
  function RemoveId(shapes: seq<Shape>, id: string): (r: seq<Shape>)
    ensures forall s :: s in r <==> s in shapes && s.id != id
    ensures |r| <= |shapes|
    ensures !HasId(shapes, id) ==> r == shapes
  {
    if shapes == [] then []
    else
      assert HasId(shapes[1..], id) ==> HasId(shapes, id);
      assert shapes == [shapes[0]] + shapes[1..];
      if shapes[0].id == id then RemoveId(shapes[1..], id)
      else [shapes[0]] + RemoveId(shapes[1..], id)
  }

  /** Filtering distributes over concatenation. */
  lemma {:induction false} RemoveIdAppend(a: seq<Shape>, b: seq<Shape>, id: string)
    ensures RemoveId(a + b, id) == RemoveId(a, id) + RemoveId(b, id)
  {
    if a == [] {
      assert a + b == b;
    } else {
      assert (a + b)[1..] == a[1..] + b;
      RemoveIdAppend(a[1..], b, id);
    }
  }

  // ---------------------------------------------------------------------------
  // Field updates by id
  // ---------------------------------------------------------------------------

  /**
   * The `Partial<Shape>` the handlers spread over a shape: they always set
   * the position, and a resize also sets the size fields of its kind.
   */
  datatype Updates = Updates(
    x: real,
    y: real,
    width: Option<real>,
    height: Option<real>,
    radius: Option<real>)

  /** `{ ...s, ...updates }` */
  function Merge(s: Shape, u: Updates): Shape {
    s.(x := u.x,
       y := u.y,
       width := if u.width.Some? then u.width.value else s.width,
       height := if u.height.Some? then u.height.value else s.height,
       radius := if u.radius.Some? then u.radius.value else s.radius)
  }

  /** The updates of a drag: `{ x, y }`. */
  function MoveTo(x: real, y: real): Updates {
    Updates(x, y, None, None, None)
  }

  /**
   * `shapes.map(s => s.id === id ? { ...s, ...updates } : s)`: the shapes
   * carrying `id` are merged with `u`, every other shape keeps its value and
   * place, and an id that no shape carries leaves the list as it was.
   */
  function UpdateById(shapes: seq<Shape>, id: string, u: Updates): (r: seq<Shape>)
    ensures |r| == |shapes|
    ensures forall k | 0 <= k < |shapes| && shapes[k].id != id :: r[k] == shapes[k]
    ensures forall k | 0 <= k < |shapes| && shapes[k].id == id :: r[k] == Merge(shapes[k], u)
    ensures !HasId(shapes, id) ==> r == shapes
  {
    if shapes == [] then []
    else
      var rest := UpdateById(shapes[1..], id, u);
      assert HasId(shapes[1..], id) ==> HasId(shapes, id);
      assert shapes == [shapes[0]] + shapes[1..];
      [if shapes[0].id == id then Merge(shapes[0], u) else shapes[0]] + rest
  }

  /**
   * A drag moves the shapes carrying `id` to (x, y) and changes nothing else:
   * not their kind, size or style, and no other shape.
   */
  lemma MoveOnlyRepositions(shapes: seq<Shape>, id: string, x: real, y: real, k: nat)
    requires k < |shapes|
    ensures |UpdateById(shapes, id, MoveTo(x, y))| == |shapes|
    ensures shapes[k].id == id ==> UpdateById(shapes, id, MoveTo(x, y))[k] == shapes[k].(x := x, y := y)
    ensures shapes[k].id != id ==> UpdateById(shapes, id, MoveTo(x, y))[k] == shapes[k]
  {
  }

  // ---------------------------------------------------------------------------
  // Resize end
  // ---------------------------------------------------------------------------

  /** The smallest size a resize may leave (`Math.max(5, ...)`). */
  const MinSize: real := 5.0

  /** `Math.max(a, b)` */
  function Max(a: real, b: real): (r: real)
    ensures r >= a && r >= b
    ensures r == a || r == b
  {
    if a >= b then a else b
  }

  /**
   * What the transformer node reports when a resize ends: its position, its
   * unscaled width and height (a circle node's width is its diameter) and the
   * scale factors the user dragged it to.
   */
  datatype NodeBox = NodeBox(x: real, y: real, width: real, height: real, scaleX: real, scaleY: real)

  /**
   * The updates handleShapeTransformEnd builds for a shape of kind `kind`:
   * the node's position, and a scaled size clamped below at `MinSize`
   * (width and height for a rectangle, half the scaled width as radius for
   * a circle).
   */
  function TransformUpdates(kind: ShapeType, n: NodeBox): (u: Updates)
    ensures u.x == n.x && u.y == n.y
    ensures kind == Rect ==>
      && u.radius == None && u.width.Some? && u.height.Some?
      && u.width.value >= MinSize && u.height.value >= MinSize
      && (n.width * n.scaleX >= MinSize ==> u.width.value == n.width * n.scaleX)
      && (n.width * n.scaleX < MinSize ==> u.width.value == MinSize)
      && (n.height * n.scaleY >= MinSize ==> u.height.value == n.height * n.scaleY)
      && (n.height * n.scaleY < MinSize ==> u.height.value == MinSize)
    ensures kind == Circle ==>
      && u.width == None && u.height == None && u.radius.Some?
      && u.radius.value >= MinSize
      && (n.width * n.scaleX / 2.0 >= MinSize ==> u.radius.value == n.width * n.scaleX / 2.0)
      && (n.width * n.scaleX / 2.0 < MinSize ==> u.radius.value == MinSize)
  {
    match kind
    case Rect =>
      Updates(n.x, n.y, Some(Max(MinSize, n.width * n.scaleX)), Some(Max(MinSize, n.height * n.scaleY)), None)
    case Circle =>
      Updates(n.x, n.y, None, None, Some(Max(MinSize, (n.width * n.scaleX) / 2.0)))
  }

  /**
   * After a resize of a shape of kind `kind`, every shape with that id has
   * the new position and a size of at least `MinSize` in the fields of that
   * kind, keeps its other fields, and no other shape changes.
   */
  lemma ResizeKeepsMinimumSize(shapes: seq<Shape>, id: string, kind: ShapeType, n: NodeBox, k: nat)
    requires k < |shapes| && shapes[k].id == id
    ensures var r := UpdateById(shapes, id, TransformUpdates(kind, n));
      && r[k].x == n.x && r[k].y == n.y
      && r[k].id == id && r[k].kind == shapes[k].kind
      && r[k].strokeWidth == shapes[k].strokeWidth && r[k].stroke == shapes[k].stroke
      && (kind == Rect ==> r[k].width >= MinSize && r[k].height >= MinSize && r[k].radius == shapes[k].radius)
      && (kind == Circle ==> r[k].radius >= MinSize && r[k].width == shapes[k].width && r[k].height == shapes[k].height)
  {
  }

  // ---------------------------------------------------------------------------
  // Draft shapes of a creation gesture
  // ---------------------------------------------------------------------------

  /** `Omit<Shape, "id">`: the shape a creation gesture is sizing. */
  datatype Draft = Draft(
    kind: ShapeType,
    x: real,
    y: real,
    width: real,
    height: real,
    radius: real,
    strokeWidth: real,
    stroke: string)

  const DraftStrokeWidth: real := 3.0
  const DraftStroke: string := "#000"

  /** The draft a press on the empty stage starts: anchored at the pointer, of zero size. */
  function StartDraft(kind: ShapeType, p: Point): (d: Draft)
    ensures d.kind == kind && d.x == p.x && d.y == p.y
    ensures d.width == 0.0 && d.height == 0.0 && d.radius == 0.0
    ensures d.strokeWidth == DraftStrokeWidth && d.stroke == DraftStroke
    ensures !IsValidDraft(d)
  {
    Draft(kind, p.x, p.y, 0.0, 0.0, 0.0, DraftStrokeWidth, DraftStroke)
  }

  /**
   * The facts about `dist == Math.hypot(dx, dy)` the model relies on: the
   * distance is never negative, and it is zero exactly when both differences
   * are zero.
   */
  predicate IsHypot(dist: real, dx: real, dy: real) {
    dist >= 0.0 && (dist == 0.0 <==> dx == 0.0 && dy == 0.0)
  }

  /**
   * The draft after the pointer moves to `p` (`dist` being the distance from
   * the anchor to `p`): a rectangle spans from its anchor to the pointer,
   * signed, so it may be negative; a circle takes the distance as radius.
   * The anchor, kind and style never change.
   */
  function SizeDraft(d: Draft, p: Point, dist: real): (r: Draft)
    ensures r.kind == d.kind && r.x == d.x && r.y == d.y
    ensures r.strokeWidth == d.strokeWidth && r.stroke == d.stroke
    ensures d.kind == Rect ==> r.width + d.x == p.x && r.height + d.y == p.y && r.radius == d.radius
    ensures d.kind == Circle ==> r.radius == dist && r.width == d.width && r.height == d.height
  {
    match d.kind
    case Rect => d.(width := p.x - d.x, height := p.y - d.y)
    case Circle => d.(radius := dist)
  }

  /** `isValidShape`: a rectangle needs a nonzero width and height, a circle a nonzero radius. */
  predicate IsValidDraft(d: Draft) {
    match d.kind
    case Rect => d.width != 0.0 && d.height != 0.0
    case Circle => d.radius != 0.0
  }

  /** `{ ...draftShape, id }` */
  function Materialize(d: Draft, id: string): (s: Shape)
    ensures s.id == id && s.kind == d.kind && s.x == d.x && s.y == d.y
    ensures s.width == d.width && s.height == d.height && s.radius == d.radius
    ensures s.strokeWidth == d.strokeWidth && s.stroke == d.stroke
  {
    Shape(id, d.kind, d.x, d.y, d.width, d.height, d.radius, d.strokeWidth, d.stroke)
  }

  /**
   * A draft started at `anchor` and last sized at `pointer` is kept exactly
   * when the pointer left the anchor's column and row (rectangle) or the
   * anchor itself (circle): a straight-line drag never makes a rectangle.
   */
  lemma DraftKeptIffPointerMoved(kind: ShapeType, anchor: Point, pointer: Point, dist: real)
    requires IsHypot(dist, pointer.x - anchor.x, pointer.y - anchor.y)
    ensures var d := SizeDraft(StartDraft(kind, anchor), pointer, dist);
      IsValidDraft(d) <==>
        if kind == Rect then pointer.x != anchor.x && pointer.y != anchor.y
        else pointer != anchor
  {
  }

  // ---------------------------------------------------------------------------
  // Paste
  // ---------------------------------------------------------------------------

  /** How far a pasted copy is moved from the copied shape, on each axis. */
  const PasteOffset: real := 20.0

  /** The copy paste appends: a fresh id, moved by `PasteOffset` on both axes, every other field the clipboard's. */
  function Pasted(c: Shape, freshId: string): (r: Shape)
    ensures r.id == freshId && r.x == c.x + PasteOffset && r.y == c.y + PasteOffset
    ensures r.(id := c.id, x := c.x, y := c.y) == c
  {
    c.(id := freshId, x := c.x + PasteOffset, y := c.y + PasteOffset)
  }

  /**
   * Pasting with an id no shape carries and then deleting that id gives back
   * the collection as it was before the paste.
   */
  lemma PasteThenDeleteRestores(shapes: seq<Shape>, c: Shape, freshId: string)
    requires !HasId(shapes, freshId)
    ensures RemoveId(shapes + [Pasted(c, freshId)], freshId) == shapes
  {
    RemoveIdAppend(shapes, [Pasted(c, freshId)], freshId);
    assert [Pasted(c, freshId)][1..] == [];
  }
}
