/**
 * The snap engine of a drag (handleShapeDragMove, src/components/Canvas.tsx).
 *
 * While a shape is dragged, the proposed position is pulled onto nearby
 * targets: the edges and centres of every other shape and the stage bounds.
 * Each target is checked by `CheckSnap` in a fixed order, each check taking
 * the running value the previous one produced, so the last target that
 * attracts wins. A check that lands exactly on a rectangle edge or centre, a
 * circle centre or a stage bound also places an alignment guide; a circle's
 * edge point never does.
 *
 * The two axes never interact: the x-chain and the y-chain only share their
 * inputs. The specification below therefore describes one axis as a fold
 * (`Chain`) over a list of targets (`Candidates`); `ComputeSnap` is the
 * source's loop, statement by statement, proved to compute that fold.
 */
module Snap {
  import opened Types
  import opened Shapes

  /** A value this close to a target (strictly) may snap onto it. */
  const SnapThreshold: real := 10.0
  /** A value this close to a target (strictly) snaps whatever its prior distance. */
  const HysteresisThreshold: real := 5.0

  function Abs(r: real): real {
    if r < 0.0 then -r else r
  }

  /**
   * The condition under which `value` is pulled onto `target`: it is within
   * `SnapThreshold`, and either closer than the dragged shape's stored x was,
   * or within `HysteresisThreshold`. The source compares with the stored x
   * on both axes.
   */
  predicate Attracts(value: real, target: real, prevX: real) {
    Abs(value - target) < SnapThreshold &&
    (Abs(value - target) < Abs(prevX - target) || Abs(value - target) < HysteresisThreshold)
  }

  /** checkSnap: `target` when it attracts `value`, otherwise `value` unchanged. */
  function CheckSnap(value: real, target: real, prevX: real): (r: real)
    ensures r == target <==> Attracts(value, target, prevX)
    ensures r != target ==> r == value
    ensures Abs(value - target) < HysteresisThreshold ==> r == target
    ensures SnapThreshold <= Abs(value - target) ==> r == value
  {
    var diff := Abs(value - target);
    var prevDiff := Abs(prevX - target);
    if diff < SnapThreshold && (diff < prevDiff || diff < HysteresisThreshold) then target else value
  }

  // ---------------------------------------------------------------------------
  // Targets
  // ---------------------------------------------------------------------------

  /** The x axis (vertical guides) and the y axis (horizontal guides). */
  datatype Axis = X | Y

  function Along(p: Point, axis: Axis): real {
    if axis == X then p.x else p.y
  }

  function Position(s: Shape, axis: Axis): real {
    if axis == X then s.x else s.y
  }

  function Extent(s: Shape, axis: Axis): real {
    if axis == X then s.width else s.height
  }

  /** A snap target on one axis; a guided target also places an alignment guide when it matches. */
  datatype Target = Target(at: real, guided: bool)

  /**
   * The point on a circle's circumference in the direction of the proposed
   * position (centre + radius * direction / distance). The source computes it
   * with a square root; the model takes it as given.
   */
  type EdgePoint = (Shape, real, real) -> Point

  /**
   * The proposed position is the circle's centre. The source then divides by
   * a zero distance; the resulting NaN edge point attracts nothing, so no edge
   * target exists.
   */
  predicate AtCentre(c: Shape, newX: real, newY: real) {
    newX == c.x && newY == c.y
  }

  /**
   * The targets one other shape offers on `axis`, in checking order: a
   * rectangle's near edge, far edge and centre; a circle's centre and then its
   * edge point.
   */
  function TargetsOf(s: Shape, axis: Axis, newX: real, newY: real, edge: EdgePoint): seq<Target> {
    match s.kind
    case Rect =>
      var near := Position(s, axis);
      [Target(near, true), Target(near + Extent(s, axis), true), Target(near + Extent(s, axis) / 2.0, true)]
    case Circle =>
      [Target(Position(s, axis), true)] +
      (if AtCentre(s, newX, newY) then [] else [Target(Along(edge(s, newX, newY), axis), false)])
  }

  /** The targets of all other shapes, in collection order. */
  function ShapeTargets(others: seq<Shape>, axis: Axis, newX: real, newY: real, edge: EdgePoint): seq<Target>
    decreases |others|
  {
    if others == [] then []
    else
      ShapeTargets(others[..|others| - 1], axis, newX, newY, edge)
      + TargetsOf(others[|others| - 1], axis, newX, newY, edge)
  }

  /** Every target on `axis`: those of the other shapes, then the stage bounds 0 and `stageExtent`. */
  function Candidates(others: seq<Shape>, axis: Axis, newX: real, newY: real, stageExtent: real, edge: EdgePoint): seq<Target> {
    ShapeTargets(others, axis, newX, newY, edge) + [Target(0.0, true), Target(stageExtent, true)]
  }

  // ---------------------------------------------------------------------------
  // The chain of checks on one axis
  // ---------------------------------------------------------------------------

  /** The running state of one axis: the snapped value so far and its guide line. */
  datatype AxisSnap = AxisSnap(value: real, guide: Option<real>)

  /** One check: snap the running value onto `t`, and move the guide there if `t` is guided and matched. */
  function Step(a: AxisSnap, t: Target, prevX: real): AxisSnap {
    var v := CheckSnap(a.value, t.at, prevX);
    AxisSnap(v, if t.guided && v == t.at then Some(t.at) else a.guide)
  }

  /** All checks over `ts` in order, each consuming the previous one's result. */
  function Chain(a: AxisSnap, ts: seq<Target>, prevX: real): AxisSnap
    decreases |ts|
  {
    if ts == [] then a else Step(Chain(a, ts[..|ts| - 1], prevX), ts[|ts| - 1], prevX)
  }

  /** The outcome of a drag-move's snapping: the position and the guide on each axis. */
  datatype SnapResult = SnapResult(x: real, y: real, vertical: Option<real>, horizontal: Option<real>)

  /**
   * The snapped position and guides for a shape whose stored x is `prevX`,
   * proposed at (newX, newY), among `others` on a stage of the given size.
   */
  function Snapped(others: seq<Shape>, prevX: real, newX: real, newY: real,
                   stageWidth: real, stageHeight: real, edge: EdgePoint): SnapResult
  {
    var h := Chain(AxisSnap(newX, None), Candidates(others, X, newX, newY, stageWidth, edge), prevX);
    var v := Chain(AxisSnap(newY, None), Candidates(others, Y, newX, newY, stageHeight, edge), prevX);
    SnapResult(h.value, v.value, h.guide, v.guide)
  }

  // ---------------------------------------------------------------------------
  // Properties of the chain
  // ---------------------------------------------------------------------------

  /** Checking `ts` then `us` is checking `ts + us`. */
  lemma {:induction false} ChainAppend(a: AxisSnap, ts: seq<Target>, us: seq<Target>, prevX: real)
    ensures Chain(a, ts + us, prevX) == Chain(Chain(a, ts, prevX), us, prevX)
    decreases |us|
  {
    if us == [] {
      assert ts + us == ts;
    } else {
      var n := |us| - 1;
      assert (ts + us)[..|ts + us| - 1] == ts + us[..n];
      ChainAppend(a, ts, us[..n], prevX);
    }
  }

  lemma ChainOfOne(a: AxisSnap, t1: Target, prevX: real)
    ensures Chain(a, [t1], prevX) == Step(a, t1, prevX)
  {
    assert [t1][..0] == [];
  }

  lemma ChainOfTwo(a: AxisSnap, t1: Target, t2: Target, prevX: real)
    ensures Chain(a, [t1, t2], prevX) == Step(Step(a, t1, prevX), t2, prevX)
  {
    assert [t1, t2][..1] == [t1];
    ChainOfOne(a, t1, prevX);
  }

  lemma ChainOfThree(a: AxisSnap, t1: Target, t2: Target, t3: Target, prevX: real)
    ensures Chain(a, [t1, t2, t3], prevX) == Step(Step(Step(a, t1, prevX), t2, prevX), t3, prevX)
  {
    assert [t1, t2, t3][..2] == [t1, t2];
    ChainOfTwo(a, t1, t2, prevX);
  }

  /**
   * The chain ends on its start value or on one of the targets, and its guide
   * is the starting guide or a guided target: an unguided (circle edge)
   * target never becomes a guide.
   */
  lemma {:induction false} ChainOutcome(a: AxisSnap, ts: seq<Target>, prevX: real)
    ensures var r := Chain(a, ts, prevX);
      && (r.value == a.value || exists i | 0 <= i < |ts| :: r.value == ts[i].at)
      && (r.guide == a.guide || exists i | 0 <= i < |ts| :: ts[i].guided && r.guide == Some(ts[i].at))
    decreases |ts|
  {
    if ts != [] {
      var n := |ts| - 1;
      var prefix := ts[..n];
      ChainOutcome(a, prefix, prevX);
      var b := Chain(a, prefix, prevX);
      var r := Chain(a, ts, prevX);
      assert r == Step(b, ts[n], prevX);
      if r.value != a.value && r.value != ts[n].at {
        var i :| 0 <= i < |prefix| && b.value == prefix[i].at;
        assert r.value == ts[i].at;
      }
      if r.guide != a.guide && r.guide != Some(ts[n].at) {
        var i :| 0 <= i < |prefix| && prefix[i].guided && b.guide == Some(prefix[i].at);
        assert ts[i].guided && r.guide == Some(ts[i].at);
      }
    }
  }

  /** When no target attracts the value that reaches it, the chain leaves the value where it started. */
  lemma {:induction false} ChainUnmatchedKeepsValue(a: AxisSnap, ts: seq<Target>, prevX: real)
    requires forall j | 0 <= j < |ts| :: !Attracts(Chain(a, ts[..j], prevX).value, ts[j].at, prevX)
    ensures Chain(a, ts, prevX).value == a.value
    decreases |ts|
  {
    if ts != [] {
      var n := |ts| - 1;
      forall j | 0 <= j < n
        ensures !Attracts(Chain(a, ts[..n][..j], prevX).value, ts[..n][j].at, prevX)
      {
        assert ts[..n][..j] == ts[..j];
      }
      ChainUnmatchedKeepsValue(a, ts[..n], prevX);
    }
  }

  /**
   * The last match wins: if the target at index `i` attracts the value that
   * reaches it and no later target attracts the value that reaches it, the
   * chain ends exactly on target `i`.
   */
  lemma {:induction false} ChainLastMatchWins(a: AxisSnap, ts: seq<Target>, i: nat, prevX: real)
    requires i < |ts|
    requires Attracts(Chain(a, ts[..i], prevX).value, ts[i].at, prevX)
    requires forall j | i < j < |ts| :: !Attracts(Chain(a, ts[..j], prevX).value, ts[j].at, prevX)
    ensures Chain(a, ts, prevX).value == ts[i].at
    decreases |ts|
  {
    var n := |ts| - 1;
    if i < n {
      forall j | i < j < n
        ensures !Attracts(Chain(a, ts[..n][..j], prevX).value, ts[..n][j].at, prevX)
      {
        assert ts[..n][..j] == ts[..j];
      }
      assert ts[..n][..i] == ts[..i];
      ChainLastMatchWins(a, ts[..n], i, prevX);
    } else {
      assert ts[..n] == ts[..i];
    }
  }

  /**
   * With only guided targets, a guide the chain shows always sits where the
   * value is.
   */
  lemma {:induction false} ChainGuideTracksValue(a: AxisSnap, ts: seq<Target>, prevX: real)
    requires forall t | t in ts :: t.guided
    requires a.guide.Some? ==> a.guide.value == a.value
    ensures var r := Chain(a, ts, prevX); r.guide.Some? ==> r.guide.value == r.value
    decreases |ts|
  {
    if ts != [] {
      var n := |ts| - 1;
      assert forall t | t in ts[..n] :: t in ts;
      ChainGuideTracksValue(a, ts[..n], prevX);
      assert ts[n] in ts;
    }
  }

  // ---------------------------------------------------------------------------
  // Properties of the snapped position and guides
  // ---------------------------------------------------------------------------

  /** `g` is one of the lines shape `s` shows guides on along `axis`: a rectangle's edges and centre, a circle's centre. */
  predicate IsLineOf(g: real, s: Shape, axis: Axis) {
    match s.kind
    case Rect =>
      g == Position(s, axis) || g == Position(s, axis) + Extent(s, axis)
      || g == Position(s, axis) + Extent(s, axis) / 2.0
    case Circle => g == Position(s, axis)
  }

  /** `g` is a guide line of one of `others` along `axis`. */
  predicate IsShapeLine(g: real, others: seq<Shape>, axis: Axis) {
    exists s | s in others :: IsLineOf(g, s, axis)
  }

  /** Every guided target of the other shapes lies on one of their guide lines (circle edge points are never guided). */
  lemma {:induction false} GuidedShapeTargets(others: seq<Shape>, axis: Axis, newX: real, newY: real, edge: EdgePoint)
    ensures forall t | t in ShapeTargets(others, axis, newX, newY, edge) && t.guided :: IsShapeLine(t.at, others, axis)
    decreases |others|
  {
    if others != [] {
      var n := |others| - 1;
      var prefix, last := others[..n], others[n];
      GuidedShapeTargets(prefix, axis, newX, newY, edge);
      assert others == prefix + [last];
      forall t | t in ShapeTargets(others, axis, newX, newY, edge) && t.guided
        ensures IsShapeLine(t.at, others, axis)
      {
        if t in ShapeTargets(prefix, axis, newX, newY, edge) {
          var s :| s in prefix && IsLineOf(t.at, s, axis);
          assert s in others;
        } else {
          assert t in TargetsOf(last, axis, newX, newY, edge);
          assert IsLineOf(t.at, last, axis);
        }
      }
    }
  }

  /** Rectangles offer only guided targets. */
  lemma {:induction false} RectangleTargetsAreGuided(others: seq<Shape>, axis: Axis, newX: real, newY: real, edge: EdgePoint)
    requires forall s | s in others :: s.kind == Rect
    ensures forall t | t in ShapeTargets(others, axis, newX, newY, edge) :: t.guided
    decreases |others|
  {
    if others != [] {
      var n := |others| - 1;
      assert others == others[..n] + [others[n]];
      RectangleTargetsAreGuided(others[..n], axis, newX, newY, edge);
    }
  }

  /**
   * Each snapped coordinate is the proposed one or one of its axis's targets;
   * each guide is absent or a guided target of its axis, so it marks a
   * rectangle edge or centre, a circle centre or a stage bound, never a circle
   * edge point.
   */
  lemma SnappedIsCandidate(others: seq<Shape>, prevX: real, newX: real, newY: real,
                           stageWidth: real, stageHeight: real, edge: EdgePoint)
    ensures var r := Snapped(others, prevX, newX, newY, stageWidth, stageHeight, edge);
      var xs := Candidates(others, X, newX, newY, stageWidth, edge);
      var ys := Candidates(others, Y, newX, newY, stageHeight, edge);
      && (r.x == newX || exists t | t in xs :: r.x == t.at)
      && (r.y == newY || exists t | t in ys :: r.y == t.at)
      && (r.vertical.Some? ==> exists t | t in xs :: t.guided && r.vertical == Some(t.at))
      && (r.horizontal.Some? ==> exists t | t in ys :: t.guided && r.horizontal == Some(t.at))
  {
    var xs := Candidates(others, X, newX, newY, stageWidth, edge);
    var ys := Candidates(others, Y, newX, newY, stageHeight, edge);
    ChainOutcome(AxisSnap(newX, None), xs, prevX);
    ChainOutcome(AxisSnap(newY, None), ys, prevX);
  }

  /**
   * A guide line, when shown, lies on a rectangle edge or centre or a circle
   * centre of another shape, or on a stage bound.
   */
  lemma GuideMarksShapeOrBound(others: seq<Shape>, prevX: real, newX: real, newY: real,
                               stageWidth: real, stageHeight: real, edge: EdgePoint)
    ensures var r := Snapped(others, prevX, newX, newY, stageWidth, stageHeight, edge);
      && (r.vertical.Some? ==>
            r.vertical.value == 0.0 || r.vertical.value == stageWidth || IsShapeLine(r.vertical.value, others, X))
      && (r.horizontal.Some? ==>
            r.horizontal.value == 0.0 || r.horizontal.value == stageHeight || IsShapeLine(r.horizontal.value, others, Y))
  {
    SnappedIsCandidate(others, prevX, newX, newY, stageWidth, stageHeight, edge);
    GuidedShapeTargets(others, X, newX, newY, edge);
    GuidedShapeTargets(others, Y, newX, newY, edge);
  }

  /**
   * Among rectangles only (no circle edge point can move the value away from
   * its guide), every guide shown lies exactly on the snapped coordinate.
   */
  lemma GuidesFollowPositionAmongRectangles(others: seq<Shape>, prevX: real, newX: real, newY: real,
                                            stageWidth: real, stageHeight: real, edge: EdgePoint)
    requires forall s | s in others :: s.kind == Rect
    ensures var r := Snapped(others, prevX, newX, newY, stageWidth, stageHeight, edge);
      && (r.vertical.Some? ==> r.vertical.value == r.x)
      && (r.horizontal.Some? ==> r.horizontal.value == r.y)
  {
    RectangleTargetsAreGuided(others, X, newX, newY, edge);
    RectangleTargetsAreGuided(others, Y, newX, newY, edge);
    ChainGuideTracksValue(AxisSnap(newX, None), Candidates(others, X, newX, newY, stageWidth, edge), prevX);
    ChainGuideTracksValue(AxisSnap(newY, None), Candidates(others, Y, newX, newY, stageHeight, edge), prevX);
  }

  /** The stage bounds come last: a coordinate that ends on a bound always shows that bound's guide. */
  lemma BoundSnapShowsGuide(others: seq<Shape>, prevX: real, newX: real, newY: real,
                            stageWidth: real, stageHeight: real, edge: EdgePoint)
    ensures var r := Snapped(others, prevX, newX, newY, stageWidth, stageHeight, edge);
      && ((r.x == 0.0 || r.x == stageWidth) ==> r.vertical == Some(r.x))
      && ((r.y == 0.0 || r.y == stageHeight) ==> r.horizontal == Some(r.y))
  {
    BoundsComeLast(others, X, newX, newY, stageWidth, edge, AxisSnap(newX, None), prevX);
    BoundsComeLast(others, Y, newX, newY, stageHeight, edge, AxisSnap(newY, None), prevX);
  }

  lemma BoundsComeLast(others: seq<Shape>, axis: Axis, newX: real, newY: real, stageExtent: real,
                       edge: EdgePoint, a: AxisSnap, prevX: real)
    ensures var r := Chain(a, Candidates(others, axis, newX, newY, stageExtent, edge), prevX);
      (r.value == 0.0 || r.value == stageExtent) ==> r.guide == Some(r.value)
  {
    var shapeTs := ShapeTargets(others, axis, newX, newY, edge);
    ChainAppend(a, shapeTs, [Target(0.0, true), Target(stageExtent, true)], prevX);
    ChainOfTwo(Chain(a, shapeTs, prevX), Target(0.0, true), Target(stageExtent, true), prevX);
  }

  /**
   * Another rectangle at x = 100 with width 50 (edges 100 and 150): a shape
   * dragged to x = 148 snaps onto the right edge and shows a vertical guide
   * there, while its y, far from every target, stays put.
   */
  lemma RightEdgeScenario(prevX: real, edge: EdgePoint)
    ensures var other := Shape("other", Rect, 100.0, 100.0, 50.0, 40.0, 0.0, 3.0, "#000");
      Snapped([other], prevX, 148.0, 300.0, 800.0, 600.0, edge)
        == SnapResult(150.0, 300.0, Some(150.0), None)
  {
    var other := Shape("other", Rect, 100.0, 100.0, 50.0, 40.0, 0.0, 3.0, "#000");
    assert [other][..0] == [];
    var xs := TargetsOf(other, X, 148.0, 300.0, edge);
    var ys := TargetsOf(other, Y, 148.0, 300.0, edge);
    assert ShapeTargets([other], X, 148.0, 300.0, edge) == xs;
    assert ShapeTargets([other], Y, 148.0, 300.0, edge) == ys;
    var boundsX := [Target(0.0, true), Target(800.0, true)];
    var boundsY := [Target(0.0, true), Target(600.0, true)];
    ChainAppend(AxisSnap(148.0, None), xs, boundsX, prevX);
    ChainAppend(AxisSnap(300.0, None), ys, boundsY, prevX);
    ChainOfThree(AxisSnap(148.0, None), xs[0], xs[1], xs[2], prevX);
    ChainOfThree(AxisSnap(300.0, None), ys[0], ys[1], ys[2], prevX);
    ChainOfTwo(AxisSnap(150.0, Some(150.0)), boundsX[0], boundsX[1], prevX);
    ChainOfTwo(AxisSnap(300.0, None), boundsY[0], boundsY[1], prevX);
  }

  /**
   * The hysteresis test on the y axis compares with the stored x, not the
   * stored y: the same proposed y = 107, 7 units below a rectangle's top edge
   * at y = 100, snaps when the shape's stored x is 0 and does not when it is
   * 100.
   */
  lemma VerticalHysteresisUsesStoredX(edge: EdgePoint)
    ensures var other := Shape("other", Rect, 100.0, 100.0, 50.0, 40.0, 0.0, 3.0, "#000");
      && Snapped([other], 0.0, 300.0, 107.0, 800.0, 600.0, edge).y == 100.0
      && Snapped([other], 100.0, 300.0, 107.0, 800.0, 600.0, edge).y == 107.0
  {
    var other := Shape("other", Rect, 100.0, 100.0, 50.0, 40.0, 0.0, 3.0, "#000");
    assert [other][..0] == [];
    var ys := TargetsOf(other, Y, 300.0, 107.0, edge);
    assert ShapeTargets([other], Y, 300.0, 107.0, edge) == ys;
    var boundsY := [Target(0.0, true), Target(600.0, true)];
    ChainAppend(AxisSnap(107.0, None), ys, boundsY, 0.0);
    ChainAppend(AxisSnap(107.0, None), ys, boundsY, 100.0);
    ChainOfThree(AxisSnap(107.0, None), ys[0], ys[1], ys[2], 0.0);
    ChainOfThree(AxisSnap(107.0, None), ys[0], ys[1], ys[2], 100.0);
    ChainOfTwo(Chain(AxisSnap(107.0, None), ys, 0.0), boundsY[0], boundsY[1], 0.0);
    ChainOfTwo(Chain(AxisSnap(107.0, None), ys, 100.0), boundsY[0], boundsY[1], 100.0);
  }

  // ---------------------------------------------------------------------------
  // The drag-move update
  // ---------------------------------------------------------------------------

  /** What a drag-move produces: the new collection, the snapped position and the two guides. */
  datatype DragResult = DragResult(shapes: seq<Shape>, x: real, y: real,
                                   vertical: Option<real>, horizontal: Option<real>)

  /**
   * The state update of handleShapeDragMove: nothing when no shape has the
   * dragged id; otherwise the position and guides are those snapped among
   * the other shapes, with the stored x of the first shape carrying the id as
   * `prevX`; the shapes carrying the id move there and nothing else changes.
   */
  function DragMove(shapes: seq<Shape>, id: string, newX: real, newY: real,
                    stageWidth: real, stageHeight: real, edge: EdgePoint): (r: Option<DragResult>)
    ensures r.None? <==> !HasId(shapes, id)
    ensures r.Some? ==> |r.value.shapes| == |shapes|
    ensures r.Some? ==>
      forall k | 0 <= k < |shapes| && shapes[k].id != id :: r.value.shapes[k] == shapes[k]
    ensures r.Some? ==>
      forall k | 0 <= k < |shapes| && shapes[k].id == id ::
        r.value.shapes[k] == shapes[k].(x := r.value.x, y := r.value.y)
    ensures r.Some? ==>
      var s := Snapped(RemoveId(shapes, id), FindById(shapes, id).value.x,
                       newX, newY, stageWidth, stageHeight, edge);
      && r.value.x == s.x && r.value.y == s.y
      && r.value.vertical == s.vertical && r.value.horizontal == s.horizontal
  {
    match FindById(shapes, id)
    case None => None
    case Some(current) =>
      var s := Snapped(RemoveId(shapes, id), current.x, newX, newY, stageWidth, stageHeight, edge);
      Some(DragResult(UpdateById(shapes, id, MoveTo(s.x, s.y)), s.x, s.y, s.vertical, s.horizontal))
  }

  // ---------------------------------------------------------------------------
  // The source's loop
  // ---------------------------------------------------------------------------

  /**
   * The `forEach` callback of handleShapeDragMove for one other shape: the
   * checks against its targets, in the source's order, on the running x, y
   * and guides.
   */
  method SnapToShape(other: Shape, prevX: real, newX: real, newY: real, edge: EdgePoint,
                     x0: AxisSnap, y0: AxisSnap) returns (x1: AxisSnap, y1: AxisSnap)
    ensures x1 == Chain(x0, TargetsOf(other, X, newX, newY, edge), prevX)
    ensures y1 == Chain(y0, TargetsOf(other, Y, newX, newY, edge), prevX)
  {
    var snappedX, verticalLine := x0.value, x0.guide;
    var snappedY, horizontalLine := y0.value, y0.guide;
    match other.kind {
      case Rect =>
        var left := other.x;
        var right := other.x + other.width;
        var top := other.y;
        var bottom := other.y + other.height;
        var centerX := other.x + other.width / 2.0;
        var centerY := other.y + other.height / 2.0;

        snappedX := CheckSnap(snappedX, left, prevX);
        if snappedX == left { verticalLine := Some(left); }
        ghost var sx1 := Step(x0, Target(left, true), prevX);
        assert AxisSnap(snappedX, verticalLine) == sx1;
        snappedX := CheckSnap(snappedX, right, prevX);
        if snappedX == right { verticalLine := Some(right); }
        ghost var sx2 := Step(sx1, Target(right, true), prevX);
        assert AxisSnap(snappedX, verticalLine) == sx2;
        snappedX := CheckSnap(snappedX, centerX, prevX);
        if snappedX == centerX { verticalLine := Some(centerX); }
        ghost var sx3 := Step(sx2, Target(centerX, true), prevX);
        assert AxisSnap(snappedX, verticalLine) == sx3;

        snappedY := CheckSnap(snappedY, top, prevX);
        if snappedY == top { horizontalLine := Some(top); }
        ghost var sy1 := Step(y0, Target(top, true), prevX);
        assert AxisSnap(snappedY, horizontalLine) == sy1;
        snappedY := CheckSnap(snappedY, bottom, prevX);
        if snappedY == bottom { horizontalLine := Some(bottom); }
        ghost var sy2 := Step(sy1, Target(bottom, true), prevX);
        assert AxisSnap(snappedY, horizontalLine) == sy2;
        snappedY := CheckSnap(snappedY, centerY, prevX);
        if snappedY == centerY { horizontalLine := Some(centerY); }
        ghost var sy3 := Step(sy2, Target(centerY, true), prevX);
        assert AxisSnap(snappedY, horizontalLine) == sy3;

        ChainOfThree(x0, Target(left, true), Target(right, true), Target(centerX, true), prevX);
        ChainOfThree(y0, Target(top, true), Target(bottom, true), Target(centerY, true), prevX);
      case Circle =>
        var centerX := other.x;
        var centerY := other.y;

        snappedX := CheckSnap(snappedX, centerX, prevX);
        if snappedX == centerX { verticalLine := Some(centerX); }
        snappedY := CheckSnap(snappedY, centerY, prevX);
        if snappedY == centerY { horizontalLine := Some(centerY); }

        // Edge snapping; at the centre the source's edge point is NaN and matches nothing.
        if !AtCentre(other, newX, newY) {
          var e := edge(other, newX, newY);
          snappedX := CheckSnap(snappedX, e.x, prevX);
          snappedY := CheckSnap(snappedY, e.y, prevX);
          ChainOfTwo(x0, Target(centerX, true), Target(e.x, false), prevX);
          ChainOfTwo(y0, Target(centerY, true), Target(e.y, false), prevX);
        } else {
          ChainOfOne(x0, Target(centerX, true), prevX);
          ChainOfOne(y0, Target(centerY, true), prevX);
        }
    }
    x1, y1 := AxisSnap(snappedX, verticalLine), AxisSnap(snappedY, horizontalLine);
  }

  /**
   * The snapping part of handleShapeDragMove as the source runs it: a pass
   * over the other shapes that reassigns the running x, y and guides, then
   * the stage bounds. It computes exactly `Snapped`.
   */
  method ComputeSnap(others: seq<Shape>, prevX: real, newX: real, newY: real,
                     stageWidth: real, stageHeight: real, edge: EdgePoint) returns (r: SnapResult)
    ensures r == Snapped(others, prevX, newX, newY, stageWidth, stageHeight, edge)
  {
    var snappedX, snappedY := newX, newY;
    var verticalLine: Option<real> := None;
    var horizontalLine: Option<real> := None;
    ghost var startX, startY := AxisSnap(newX, None), AxisSnap(newY, None);

    var i := 0;
    while i < |others|
      invariant 0 <= i <= |others|
      invariant AxisSnap(snappedX, verticalLine) == Chain(startX, ShapeTargets(others[..i], X, newX, newY, edge), prevX)
      invariant AxisSnap(snappedY, horizontalLine) == Chain(startY, ShapeTargets(others[..i], Y, newX, newY, edge), prevX)
    {
      var other := others[i];
      var beforeX, beforeY := AxisSnap(snappedX, verticalLine), AxisSnap(snappedY, horizontalLine);
      var afterX, afterY := SnapToShape(other, prevX, newX, newY, edge, beforeX, beforeY);
      snappedX, verticalLine := afterX.value, afterX.guide;
      snappedY, horizontalLine := afterY.value, afterY.guide;
      assert others[..i + 1][..i] == others[..i];
      ChainAppend(startX, ShapeTargets(others[..i], X, newX, newY, edge), TargetsOf(other, X, newX, newY, edge), prevX);
      ChainAppend(startY, ShapeTargets(others[..i], Y, newX, newY, edge), TargetsOf(other, Y, newX, newY, edge), prevX);
      i := i + 1;
    }
    assert others[..i] == others;

    ghost var shapesX, shapesY := AxisSnap(snappedX, verticalLine), AxisSnap(snappedY, horizontalLine);
    snappedX := CheckSnap(snappedX, 0.0, prevX);
    if snappedX == 0.0 { verticalLine := Some(0.0); }
    snappedX := CheckSnap(snappedX, stageWidth, prevX);
    if snappedX == stageWidth { verticalLine := Some(stageWidth); }

    snappedY := CheckSnap(snappedY, 0.0, prevX);
    if snappedY == 0.0 { horizontalLine := Some(0.0); }
    snappedY := CheckSnap(snappedY, stageHeight, prevX);
    if snappedY == stageHeight { horizontalLine := Some(stageHeight); }

    ChainOfTwo(shapesX, Target(0.0, true), Target(stageWidth, true), prevX);
    ChainOfTwo(shapesY, Target(0.0, true), Target(stageHeight, true), prevX);
    ChainAppend(startX, ShapeTargets(others, X, newX, newY, edge), [Target(0.0, true), Target(stageWidth, true)], prevX);
    ChainAppend(startY, ShapeTargets(others, Y, newX, newY, edge), [Target(0.0, true), Target(stageHeight, true)], prevX);
    r := SnapResult(snappedX, snappedY, verticalLine, horizontalLine);
  }
}
