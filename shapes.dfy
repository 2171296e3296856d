/**
 * The planar shapes produced by three.js: a shape is an array of loops, each loop a
 * list of curve segments plus the loops that are its holes. `transformShape`
 * (src/index.js:474-484) walks this structure and applies a point transform to every
 * control point in place. Here the walk is a method over the loop values, specified by
 * the pure map `MapLoops`, and the top-level array is the class `Shape`, a heap object
 * that can be shared by reference.
 */
module Shapes {
  import opened Wrappers

  /** A control point; the source mutates its `x` and `y` fields. */
  datatype Point = Point(x: real, y: real)

  /**
   * A line or Bézier segment. `v1` and `v2` always exist; `v0` and `v3` exist only on the
   * quadratic and cubic kinds (a line curve has neither, a quadratic has no `v3`).
   */
  datatype Curve = Curve(v0: Option<Point>, v1: Point, v2: Point, v3: Option<Point>)

  /**
   * A closed path and its holes. A hole is itself a loop: the container type is shared,
   * so holes may in principle have holes of their own. A loop without a `holes`
   * field in the source is a loop with no holes here.
   */
  datatype Loop = Loop(curves: seq<Curve>, holes: seq<Loop>)

  // ---------------------------------------------------------------------------
  // Specification: the pure map over every control point

  function MapOption(o: Option<Point>, t: Point -> Point): Option<Point>
  {
    match o
    case None => None
    case Some(p) => Some(t(p))
  }

  function MapCurve(c: Curve, t: Point -> Point): Curve
  {
    Curve(MapOption(c.v0, t), t(c.v1), t(c.v2), MapOption(c.v3, t))
  }

  function MapCurves(cs: seq<Curve>, t: Point -> Point): seq<Curve>
  {
    seq(|cs|, j requires 0 <= j < |cs| => MapCurve(cs[j], t))
  }

  /** Every loop, every curve of it, every present control point and, recursively, every hole, mapped by `t`. */
  function MapLoops(ls: seq<Loop>, t: Point -> Point): seq<Loop>
    decreases ls
  {
    seq(|ls|, i requires 0 <= i < |ls| => MapLoop(ls[i], t))
  }

  function MapLoop(l: Loop, t: Point -> Point): Loop
    decreases l
  {
    Loop(MapCurves(l.curves, t), MapLoops(l.holes, t))
  }

  // ---------------------------------------------------------------------------
  // The control points in the order transformShape visits them: loop by loop, each
  // loop's curves first (v0 if present, v1, v2, v3 if present), then its holes.

  function CurvePoints(c: Curve): seq<Point>
  {
    OptionSeq(c.v0) + [c.v1, c.v2] + OptionSeq(c.v3)
  }

  function CurvesPoints(cs: seq<Curve>): seq<Point>
  {
    if cs == [] then [] else CurvePoints(cs[0]) + CurvesPoints(cs[1..])
  }

  function LoopsPoints(ls: seq<Loop>): seq<Point>
    decreases ls
  {
    if ls == [] then [] else LoopPoints(ls[0]) + LoopsPoints(ls[1..])
  }

  function LoopPoints(l: Loop): seq<Point>
    decreases l
  {
    CurvesPoints(l.curves) + LoopsPoints(l.holes)
  }

  /** `t` applied once to each point of a sequence. */
  function Apply(ps: seq<Point>, t: Point -> Point): (r: seq<Point>)
    ensures |r| == |ps|
    ensures forall k :: 0 <= k < |ps| ==> r[k] == t(ps[k])
  {
    seq(|ps|, k requires 0 <= k < |ps| => t(ps[k]))
  }

  /** Two shapes with the same loops, curves, optional control points and holes, whatever the coordinates. */
  ghost predicate SameLayout(a: seq<Loop>, b: seq<Loop>)
    decreases a
  {
    && |a| == |b|
    && forall i :: 0 <= i < |a| ==>
         && |a[i].curves| == |b[i].curves|
         && (forall j :: 0 <= j < |a[i].curves| ==>
               (a[i].curves[j].v0.Some? <==> b[i].curves[j].v0.Some?) &&
               (a[i].curves[j].v3.Some? <==> b[i].curves[j].v3.Some?))
         && SameLayout(a[i].holes, b[i].holes)
  }

  /** Mapping a concatenation maps each part. */
  lemma ApplyConcat(a: seq<Point>, b: seq<Point>, t: Point -> Point)
    ensures Apply(a + b, t) == Apply(a, t) + Apply(b, t)
  {
  }

  lemma {:induction false} CurvesVisitedOnce(cs: seq<Curve>, t: Point -> Point)
    ensures CurvesPoints(MapCurves(cs, t)) == Apply(CurvesPoints(cs), t)
  {
    if cs != [] {
      var m := MapCurves(cs, t);
      assert m[1..] == MapCurves(cs[1..], t);
      CurvesVisitedOnce(cs[1..], t);
      ApplyConcat(CurvePoints(cs[0]), CurvesPoints(cs[1..]), t);
      assert CurvePoints(m[0]) == Apply(CurvePoints(cs[0]), t);
    }
  }

  /**
   * transformShape applies `t` exactly once to every control point: the points of the
   * mapped shape, in visiting order, are those of the original with `t` applied to each.
   */
  lemma {:induction false} VisitedOnce(ls: seq<Loop>, t: Point -> Point)
    ensures LoopsPoints(MapLoops(ls, t)) == Apply(LoopsPoints(ls), t)
    decreases ls
  {
    if ls != [] {
      var m := MapLoops(ls, t);
      assert m[0] == Loop(MapCurves(ls[0].curves, t), MapLoops(ls[0].holes, t));
      assert m[1..] == MapLoops(ls[1..], t);
      CurvesVisitedOnce(ls[0].curves, t);
      VisitedOnce(ls[0].holes, t);
      VisitedOnce(ls[1..], t);
      ApplyConcat(CurvesPoints(ls[0].curves), LoopsPoints(ls[0].holes), t);
      ApplyConcat(LoopPoints(ls[0]), LoopsPoints(ls[1..]), t);
    }
  }

  /** The map keeps every loop, curve, optional point and hole where it was, in every depth of holes. */
  lemma {:induction false} MapKeepsLayout(ls: seq<Loop>, t: Point -> Point)
    ensures SameLayout(MapLoops(ls, t), ls)
    decreases ls
  {
    var m := MapLoops(ls, t);
    forall i | 0 <= i < |ls|
      ensures SameLayout(m[i].holes, ls[i].holes)
    {
      assert m[i] == MapLoop(ls[i], t);
      MapKeepsLayout(ls[i].holes, t);
    }
  }

  /** An identity transform leaves every control point, and so the shape, unchanged. */
  lemma {:induction false} MapIdentity(ls: seq<Loop>, t: Point -> Point)
    requires forall p :: t(p) == p
    ensures MapLoops(ls, t) == ls
    decreases ls
  {
    var m := MapLoops(ls, t);
    forall i | 0 <= i < |ls|
      ensures m[i] == ls[i]
    {
      MapIdentity(ls[i].holes, t);
      assert MapCurves(ls[i].curves, t) == ls[i].curves;
    }
  }

  function Then(f: Point -> Point, g: Point -> Point): Point -> Point
  {
    p => g(f(p))
  }

  /** Two transforms applied one after the other are one transform by their composition. */
  lemma {:induction false} MapCompose(ls: seq<Loop>, f: Point -> Point, g: Point -> Point)
    ensures MapLoops(MapLoops(ls, f), g) == MapLoops(ls, Then(f, g))
    decreases ls
  {
    var a, b := MapLoops(MapLoops(ls, f), g), MapLoops(ls, Then(f, g));
    forall i | 0 <= i < |ls|
      ensures a[i] == b[i]
    {
      MapCompose(ls[i].holes, f, g);
      assert MapCurves(MapCurves(ls[i].curves, f), g) == MapCurves(ls[i].curves, Then(f, g));
    }
  }

  // ---------------------------------------------------------------------------
  // The traversal, as the source runs it: loop over loops and curves, update each
  // control point, recurse into the holes.

  /** The curve loop of transformShape: each curve's present points are replaced by their images. */
  method TransformCurves(cs: seq<Curve>, t: Point -> Point) returns (r: seq<Curve>)
    ensures r == MapCurves(cs, t)
  {
    r := cs;
    var j := 0;
    while j < |r|
      invariant 0 <= j <= |r| == |cs|
      invariant forall k :: 0 <= k < j ==> r[k] == MapCurve(cs[k], t)
      invariant forall k :: j <= k < |r| ==> r[k] == cs[k]
    {
      var c := r[j];
      var v0 := c.v0;
      if v0.Some? {
        v0 := Some(t(v0.value));
      }
      var v1 := t(c.v1);
      var v2 := t(c.v2);
      var v3 := c.v3;
      if v3.Some? {
        v3 := Some(t(v3.value));
      }
      r := r[j := Curve(v0, v1, v2, v3)];
      j := j + 1;
    }
  }

  /** The loop over loops of transformShape, with its recursive call on each loop's holes. */
  method TransformLoops(ls: seq<Loop>, t: Point -> Point) returns (r: seq<Loop>)
    ensures r == MapLoops(ls, t)
    decreases ls
  {
    r := ls;
    var i := 0;
    while i < |r|
      invariant 0 <= i <= |r| == |ls|
      invariant forall k :: 0 <= k < i ==> r[k] == MapLoop(ls[k], t)
      invariant forall k :: i <= k < |r| ==> r[k] == ls[k]
    {
      var curves := TransformCurves(r[i].curves, t);
      var holes := TransformLoops(r[i].holes, t);
      r := r[i := Loop(curves, holes)];
      i := i + 1;
    }
  }

  /**
   * The array of loops the source calls a shape. It is a heap object: history entries
   * and the shape being edited can refer to the same one.
   */
  class Shape {
    var loops: seq<Loop>

    /** Also the model of `cloneDeep`: a fresh object holding the same loops. */
    constructor (loops: seq<Loop>)
      ensures this.loops == loops
    {
      this.loops := loops;
    }
  }

  /** transformShape: every control point of `shape` is replaced in place by its image under `t`. */
  method TransformShape(shape: Shape, t: Point -> Point)
    modifies shape
    ensures shape.loops == MapLoops(old(shape.loops), t)
  {
    shape.loops := TransformLoops(shape.loops, t);
  }
}
