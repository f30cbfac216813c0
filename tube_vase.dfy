/**
 * `tube_to_vase_definition`: one vase section per time step in which a
 * chosen tube is present, whose polygon is the convex hull of the tube's
 * cells in that time step. The planar geometry (convex hull, buffering,
 * validity) is shapely's and is passed in as an oracle.
 */
module TubeVase {
  import opened Errors
  import opened Grids

  /** An (x, y) coordinate pair. */
  datatype Point = Point(x: real, y: real)

  /** The shapely operations the conversion relies on, over geometries of type G. */
  datatype Geometry<!G> = Geometry(
    convexHull: seq<Point> -> G,    // MultiPoint(points).convex_hull
    isEmpty: G -> bool,             // geometry.is_empty
    isPolygon: G -> bool,           // isinstance(geometry, Polygon)
    isValid: G -> bool,             // geometry.is_valid
    buffer: (G, real) -> G)         // geometry.buffer(distance)

  /** The distance of the second buffering attempt. */
  const SmallBuffer: real := 0.000000001

  /** `_hull_to_polygon`: an empty hull has no polygon; a polygon is kept as
      it is; anything else (a point or a line) is buffered by 0 and then by
      1e-9, and the first buffered result that is a valid polygon is taken. */
  function HullToPolygon<G>(geo: Geometry<G>, hull: G): (r: Option<G>)
    ensures r.Some? ==> !geo.isEmpty(hull) && geo.isPolygon(r.value)
    ensures r.Some? && r.value != hull ==> geo.isValid(r.value)
    ensures !geo.isEmpty(hull) && geo.isPolygon(hull) ==> r == Some(hull)
    ensures r.None? <==>
              geo.isEmpty(hull) ||
              (!geo.isPolygon(hull) &&
               !(geo.isPolygon(geo.buffer(hull, 0.0)) && geo.isValid(geo.buffer(hull, 0.0))) &&
               !(geo.isPolygon(geo.buffer(hull, SmallBuffer)) && geo.isValid(geo.buffer(hull, SmallBuffer))))
  {
    if geo.isEmpty(hull) then None
    else if geo.isPolygon(hull) then Some(hull)
    else
      var buffered := geo.buffer(hull, 0.0);
      if geo.isPolygon(buffered) && geo.isValid(buffered) then Some(buffered)
      else
        var bufferedSmall := geo.buffer(hull, SmallBuffer);
        if geo.isPolygon(bufferedSmall) && geo.isValid(bufferedSmall) then Some(bufferedSmall)
        else None
  }

  datatype VaseSection<G> = VaseSection(time: real, polygon: G)

  datatype VaseDefinition<G> = VaseDefinition(sections: seq<VaseSection<G>>, interp: string)

  // ---------------------------------------------------------------- one time step

  /** A time step of the tube cube: rows along y, each row along x. */
  ghost predicate IsPlane(plane: seq<seq<int>>, ys: seq<real>, xs: seq<real>) {
    |plane| == |ys| && forall y :: 0 <= y < |plane| ==> |plane[y]| == |xs|
  }

  /** The tube occupies some cell of the time step. */
  ghost predicate Present(plane: seq<seq<int>>, id: int) {
    exists y, x :: 0 <= y < |plane| && 0 <= x < |plane[y]| && plane[y][x] == id
  }

  /** `[(x_coords[x], y_coords[y]) for y, x in zip(*np.nonzero(slice == id))]`,
      from cell (y, x) on in row-major order. */
  function PointsFrom(plane: seq<seq<int>>, ys: seq<real>, xs: seq<real>, id: int, y: nat, x: nat): (r: seq<Point>)
    requires IsPlane(plane, ys, xs)
    decreases |plane| - y, |xs| - x
    ensures forall p :: p in r <==>
              exists y', x' :: y <= y' < |plane| && 0 <= x' < |xs| && (y' > y || x' >= x) &&
                plane[y'][x'] == id && p == Point(xs[x'], ys[y'])
  {
    if y >= |plane| then []
    else if x >= |xs| then PointsFrom(plane, ys, xs, id, y + 1, 0)
    else
      var rest := PointsFrom(plane, ys, xs, id, y, x + 1);
      if plane[y][x] == id then [Point(xs[x], ys[y])] + rest else rest
  }

  /** The points of the tube's cells in the time step: exactly the
      coordinates of the cells holding the tube's id. */
  function SlicePoints(plane: seq<seq<int>>, ys: seq<real>, xs: seq<real>, id: int): (r: seq<Point>)
    requires IsPlane(plane, ys, xs)
    ensures forall p :: p in r <==>
              exists y, x :: 0 <= y < |plane| && 0 <= x < |xs| && plane[y][x] == id && p == Point(xs[x], ys[y])
  {
    PointsFrom(plane, ys, xs, id, 0, 0)
  }

  /** A time step has points exactly when the tube is present in it. */
  lemma PointsIffPresent(plane: seq<seq<int>>, ys: seq<real>, xs: seq<real>, id: int)
    requires IsPlane(plane, ys, xs)
    ensures |SlicePoints(plane, ys, xs, id)| > 0 <==> Present(plane, id)
  {
    var r := SlicePoints(plane, ys, xs, id);
    if |r| > 0 {
      assert r[0] in r;
    }
    if Present(plane, id) {
      var y, x :| 0 <= y < |plane| && 0 <= x < |plane[y]| && plane[y][x] == id;
      assert Point(xs[x], ys[y]) in r;
    }
  }

  /** The section a time step contributes: none if the tube is absent or its
      polygon is missing or invalid, else one at the step's time coordinate. */
  function SectionAt<G>(geo: Geometry<G>, plane: seq<seq<int>>, ys: seq<real>, xs: seq<real>, time: real, id: int)
    : (r: seq<VaseSection<G>>)
    requires IsPlane(plane, ys, xs)
    ensures |r| <= 1
    ensures |r| == 1 ==> |SlicePoints(plane, ys, xs, id)| > 0 && r[0].time == time && geo.isValid(r[0].polygon) &&
                         HullToPolygon(geo, geo.convexHull(SlicePoints(plane, ys, xs, id))) == Some(r[0].polygon)
    ensures |r| == 0 <==> |SlicePoints(plane, ys, xs, id)| == 0 ||
                          HullToPolygon(geo, geo.convexHull(SlicePoints(plane, ys, xs, id))).None? ||
                          !geo.isValid(HullToPolygon(geo, geo.convexHull(SlicePoints(plane, ys, xs, id))).value)
  {
    var points := SlicePoints(plane, ys, xs, id);
    if |points| == 0 then []
    else
      var polygon := HullToPolygon(geo, geo.convexHull(points));
      if polygon.None? || !geo.isValid(polygon.value) then []
      else [VaseSection(time, polygon.value)]
  }

  /** Time step t of the aligned cube is a plane over its y and x coordinates. */
  lemma StepIsPlane(a: Cube<int>, t: nat)
    requires WellFormed(a) && t < |a.coords[0]|
    ensures IsPlane(a.data[t], a.coords[1], a.coords[2])
  {
  }

  /** The section time step t of the aligned cube contributes. */
  function StepSection<G>(geo: Geometry<G>, a: Cube<int>, id: int, t: nat): (r: seq<VaseSection<G>>)
    requires WellFormed(a) && t < |a.coords[0]|
    ensures |r| <= 1
  {
    StepIsPlane(a, t);
    SectionAt(geo, a.data[t], a.coords[1], a.coords[2], a.coords[0][t], id)
  }

  /** What each time step of the aligned cube contributes, in time-axis order. */
  function Steps<G>(geo: Geometry<G>, a: Cube<int>, id: int): (r: seq<seq<VaseSection<G>>>)
    requires WellFormed(a)
    ensures |r| == |a.coords[0]| && forall t :: 0 <= t < |r| ==> r[t] == StepSection(geo, a, id, t)
  {
    seq(|a.coords[0]|, t requires 0 <= t < |a.coords[0]| => StepSection(geo, a, id, t))
  }

  /** The contributions of the steps one after the other. */
  function Flatten<X>(steps: seq<seq<X>>): seq<X> {
    if |steps| == 0 then [] else Flatten(steps[..|steps| - 1]) + steps[|steps| - 1]
  }

  lemma FlattenNext<X>(steps: seq<seq<X>>, n: nat)
    requires n < |steps|
    ensures Flatten(steps[..n + 1]) == Flatten(steps[..n]) + steps[n]
  {
    assert steps[..n + 1][..n] == steps[..n];
  }

  /** The indices of the steps that contribute something, ascending. */
  function Contributing<X>(steps: seq<seq<X>>): (r: seq<nat>)
    ensures forall i, j :: 0 <= i < j < |r| ==> r[i] < r[j]
    ensures forall t: nat :: t in r <==> t < |steps| && |steps[t]| > 0
    ensures forall k :: 0 <= k < |r| ==> r[k] < |steps|
  {
    if |steps| == 0 then []
    else
      var rest := Contributing(steps[..|steps| - 1]);
      assert forall i :: 0 <= i < |rest| ==> rest[i] in rest;
      if |steps[|steps| - 1]| > 0 then rest + [|steps| - 1] else rest
  }

  /** When every step contributes at most one entry, the flattened list holds
      the entries of the contributing steps, one each, in step order. */
  lemma {:induction false} FlattenSingletons<X>(steps: seq<seq<X>>)
    requires forall t :: 0 <= t < |steps| ==> |steps[t]| <= 1
    ensures var s, c := Flatten(steps), Contributing(steps);
            |s| == |c| && forall k :: 0 <= k < |s| ==> [s[k]] == steps[c[k]]
  {
    if |steps| > 0 {
      FlattenSingletons(steps[..|steps| - 1]);
    }
  }

  /** The sections of the tube, in time-axis order. */
  function Sections<G>(geo: Geometry<G>, a: Cube<int>, id: int): seq<VaseSection<G>>
    requires WellFormed(a)
  {
    Flatten(Steps(geo, a, id))
  }

  /** The k-th section is the one of the k-th contributing time step: the
      steps are taken in increasing order, a step holding the tube whose
      polygon is valid is never skipped, and every section lies at its step's
      time coordinate with a valid polygon hulled from the tube's cells there. */
  lemma SectionsInAxisOrder<G>(geo: Geometry<G>, a: Cube<int>, id: int)
    requires WellFormed(a)
    ensures var s, c := Sections(geo, a, id), Contributing(Steps(geo, a, id));
            |s| == |c| &&
            (forall i, j :: 0 <= i < j < |c| ==> c[i] < c[j]) &&
            (forall t: nat :: t in c <==> t < |a.coords[0]| && |StepSection(geo, a, id, t)| == 1) &&
            forall k :: 0 <= k < |s| ==> c[k] < |a.coords[0]| && [s[k]] == StepSection(geo, a, id, c[k])
  {
    var steps := Steps(geo, a, id);
    FlattenSingletons(steps);
    var c := Contributing(steps);
    forall k | 0 <= k < |c| ensures c[k] < |a.coords[0]| {
      assert c[k] in c;
    }
  }

  /** The per-step loop of `tube_to_vase_definition`. */
  method CollectSections<G>(geo: Geometry<G>, a: Cube<int>, tubeId: int) returns (sections: seq<VaseSection<G>>)
    requires WellFormed(a)
    ensures sections == Sections(geo, a, tubeId)
  {
    ghost var steps := Steps(geo, a, tubeId);
    sections := [];
    for idx := 0 to |a.coords[0]|
      invariant sections == Flatten(steps[..idx])
    {
      FlattenNext(steps, idx);
      StepIsPlane(a, idx);
      assert steps[idx] == SectionAt(geo, a.data[idx], a.coords[1], a.coords[2], a.coords[0][idx], tubeId);
      var points := SlicePoints(a.data[idx], a.coords[1], a.coords[2], tubeId);
      if |points| == 0 {
        continue;
      }
      var hull := geo.convexHull(points);
      var polygon := HullToPolygon(geo, hull);
      if polygon.None? || !geo.isValid(polygon.value) {
        continue;
      }
      sections := sections + [VaseSection(a.coords[0][idx], polygon.value)];
    }
    assert steps[..|a.coords[0]|] == steps;
  }

  // ---------------------------------------------------------------- tube_to_vase_definition

  /** `tube_to_vase_definition`: an unsupported hull method is rejected before
      anything else, then a missing dim, then a repeated dim name; the sections
      are collected time step by time step; a tube with no section is an error. */
  method TubeToVase<G>(geo: Geometry<G>, tubeDa: Cube<int>, tubeId: int, timeDim: string, yDim: string, xDim: string,
                       hullMethod: string, interp: string)
    returns (r: Result<VaseDefinition<G>>)
    requires WellFormed(tubeDa)
    ensures hullMethod != "convex" ==> r == Err(ValueError(BadHullMethod(hullMethod)))
    ensures hullMethod == "convex" && CheckDims(tubeDa.dims, timeDim, yDim, xDim).Some? ==>
              r == Err(CheckDims(tubeDa.dims, timeDim, yDim, xDim).value)
    ensures hullMethod == "convex" && CheckDims(tubeDa.dims, timeDim, yDim, xDim).None? ==>
              var order := AxisOrder(tubeDa.dims, timeDim, yDim, xDim);
              (order.Err? ==> r == Err(ValueError(NotPermutation))) &&
              (order.Ok? ==>
                 var a := Align(tubeDa, order.value);
                 var sections := Sections(geo, a, tubeId);
                 r == if sections == [] then Err(ValueError(NoSections(tubeId)))
                      else Ok(VaseDefinition(sections, interp)))
  {
    if hullMethod != "convex" {
      return Err(ValueError(BadHullMethod(hullMethod)));
    }
    var missing := CheckDims(tubeDa.dims, timeDim, yDim, xDim);
    if missing.Some? {
      return Err(missing.value);
    }
    var order := AxisOrder(tubeDa.dims, timeDim, yDim, xDim);
    if order.Err? {
      return Err(order.error);
    }
    var a := Align(tubeDa, order.value);
    var sections := CollectSections(geo, a, tubeId);
    if sections == [] {
      return Err(ValueError(NoSections(tubeId)));
    }
    return Ok(VaseDefinition(sections, interp));
  }
}
