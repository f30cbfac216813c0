/**
 * The `tubes` verb: mask a cube, label its tubes, tabulate them, pick one
 * by rule or by id and turn it into a vase definition. Handing that
 * definition to the vase plot is not part of this model.
 */
module TubesVerb {
  import opened Errors
  import opened Grids
  import opened TubeMask
  import opened TubeLabel
  import opened TubeMetrics
  import opened TubeVase

  /** What a custom rule returned when applied to the cube: something other
      than a DataArray, or a mask (already cast to booleans). */
  datatype CustomMask = NotDataArray | MaskArray(mask: Cube<bool>)

  /** The `rule` argument: a rule name, or a custom rule, given here by its result. */
  datatype Rule = NamedRule(name: string) | CustomRule(result: CustomMask)

  /** The `select` argument: "longest" / "largest", or an explicit tube id. */
  datatype Selector = ByName(name: string) | ById(tubeId: int)

  /** The cube handed to a custom rule is a well-formed mask when it is a DataArray. */
  ghost predicate RuleWellFormed(rule: Rule) {
    rule.CustomRule? && rule.result.MaskArray? ==> WellFormed(rule.result.mask)
  }

  /** Step 1: the suitability mask. The "ndvi" rule thresholds the cube; any
      other rule name is a ValueError; a custom rule's result must be a
      DataArray (else TypeError) with exactly the cube's dims (else ValueError). */
  function SuitabilityMask(rule: Rule, da: Cube<Value>, lo: real, hi: real,
                           timeDim: string, yDim: string, xDim: string): (r: Result<Cube<bool>>)
    requires WellFormed(da) && RuleWellFormed(rule)
    ensures r.Ok? ==> WellFormed(r.value) && r.value.dims == da.dims
    ensures rule == NamedRule("ndvi") ==> r == ComputeSuitability(da, lo, hi, timeDim, yDim, xDim)
    ensures rule.NamedRule? && rule.name != "ndvi" ==> r == Err(ValueError(UnknownRule(rule.name)))
    ensures rule == CustomRule(NotDataArray) ==> r == Err(TypeError(CustomNotArray))
    ensures rule.CustomRule? && rule.result.MaskArray? ==>
              r == if rule.result.mask.dims == da.dims then Ok(rule.result.mask)
                   else Err(ValueError(CustomDimsMismatch))
  {
    match rule
    case NamedRule(name) =>
      if name == "ndvi" then ComputeSuitability(da, lo, hi, timeDim, yDim, xDim)
      else Err(ValueError(UnknownRule(name)))
    case CustomRule(NotDataArray) => Err(TypeError(CustomNotArray))
    case CustomRule(MaskArray(mask)) =>
      if mask.dims != da.dims then Err(ValueError(CustomDimsMismatch)) else Ok(mask)
  }

  // ---------------------------------------------------------------- step 4: selection

  /** `a` comes strictly before `b` in `sort_values([n_voxels, duration_steps], ascending=False)`. */
  predicate Larger(a: TubeRow, b: TubeRow) {
    a.nVoxels > b.nVoxels || (a.nVoxels == b.nVoxels && a.durationSteps > b.durationSteps)
  }

  /** The sort key of "largest" (n_voxels first) or "longest" (duration_steps first). */
  predicate Beats(a: TubeRow, b: TubeRow, largest: bool) {
    if largest then Larger(a, b) else Above(a, b)
  }

  /** The row the stable descending sort puts first: a row no other row beats,
      which beats every row before it. */
  function FirstBest(rows: seq<TubeRow>, largest: bool): (i: nat)
    requires |rows| > 0
    ensures i < |rows|
    ensures forall j :: 0 <= j < |rows| ==> !Beats(rows[j], rows[i], largest)
    ensures forall j :: 0 <= j < i ==> Beats(rows[i], rows[j], largest)
  {
    if |rows| == 1 then 0
    else
      var i := FirstBest(rows[..|rows| - 1], largest);
      if Beats(rows[|rows| - 1], rows[i], largest) then |rows| - 1 else i
  }

  predicate HasId(rows: seq<TubeRow>, id: int) {
    exists i :: 0 <= i < |rows| && rows[i].tubeId == id
  }

  /** Step 4 on a non-empty table: "longest" and "largest" take the first row
      of the table sorted by their key, an explicit id must be in the table. */
  function SelectTube(rows: seq<TubeRow>, select: Selector): (r: Result<int>)
    requires |rows| > 0
    ensures r.Ok? ==> HasId(rows, r.value)
    ensures select == ByName("longest") || select == ByName("largest") ==>
              var largest := select == ByName("largest");
              r.Ok? && (exists i :: 0 <= i < |rows| && r.value == rows[i].tubeId &&
                         (forall j :: 0 <= j < |rows| ==> !Beats(rows[j], rows[i], largest)) &&
                         (forall j :: 0 <= j < i ==> Beats(rows[i], rows[j], largest)))
    ensures select.ByName? && select.name != "longest" && select.name != "largest" ==>
              r == Err(ValueError(BadSelect(select.name)))
    ensures select.ById? ==> (r.Ok? <==> HasId(rows, select.tubeId))
    ensures select.ById? ==> r == Ok(select.tubeId) || r == Err(ValueError(TubeNotFound(select.tubeId)))
  {
    match select
    case ByName(name) =>
      if name == "longest" then Ok(rows[FirstBest(rows, false)].tubeId)
      else if name == "largest" then Ok(rows[FirstBest(rows, true)].tubeId)
      else Err(ValueError(BadSelect(name)))
    case ById(id) =>
      if exists i :: 0 <= i < |rows| && rows[i].tubeId == id then Ok(id)
      else Err(ValueError(TubeNotFound(id)))
  }

  /** When one tube has more voxels and the other lasts longer (say 10 voxels
      over 2 steps against 3 voxels over 5), "largest" picks the first and
      "longest" the second, whatever their order in the table. */
  lemma LargestVersusLongest(a: TubeRow, b: TubeRow)
    requires a.nVoxels > b.nVoxels && b.durationSteps > a.durationSteps
    ensures SelectTube([a, b], ByName("largest")) == Ok(a.tubeId)
    ensures SelectTube([b, a], ByName("largest")) == Ok(a.tubeId)
    ensures SelectTube([a, b], ByName("longest")) == Ok(b.tubeId)
    ensures SelectTube([b, a], ByName("longest")) == Ok(b.tubeId)
  {
    assert [a, b][..1] == [a] && [b, a][..1] == [b];
  }

  /** On the metrics table, which is already ranked by duration and size,
      "longest" is the tube of the first row. */
  lemma LongestIsFirst(rows: seq<TubeRow>)
    requires |rows| > 0 && Ranked(rows)
    ensures SelectTube(rows, ByName("longest")) == Ok(rows[0].tubeId)
  {
    var i := FirstBest(rows, false);
    assert i > 0 ==> Above(rows[i], rows[0]);
    assert forall j :: 0 < j < |rows| ==> Above(rows[0], rows[j]) || SameKey(rows[0], rows[j]);
  }

  /** The row a rule selects has the greatest duration ("longest") or the
      greatest voxel count ("largest") in the table. */
  lemma SelectedRow(rows: seq<TubeRow>, select: Selector, id: int) returns (k: nat)
    requires |rows| > 0 && SelectTube(rows, select) == Ok(id)
    requires select == ByName("longest") || select == ByName("largest")
    ensures k < |rows| && rows[k].tubeId == id
    ensures select == ByName("longest") ==> forall j :: 0 <= j < |rows| ==> rows[j].durationSteps <= rows[k].durationSteps
    ensures select == ByName("largest") ==> forall j :: 0 <= j < |rows| ==> rows[j].nVoxels <= rows[k].nVoxels
  {
    var largest := select == ByName("largest");
    k :| 0 <= k < |rows| && id == rows[k].tubeId && (forall j :: 0 <= j < |rows| ==> !Beats(rows[j], rows[k], largest));
  }

  /** The tube a rule selects from the metrics table is a labelled tube, and
      no tube lasts longer than the "longest" one nor is bigger than the
      "largest" one. */
  lemma SelectedTube(tubeDa: Cube<int>, timeDim: string, yDim: string, xDim: string, select: Selector, id: int)
    requires WellFormed(tubeDa)
    requires ComputeTubeMetrics(tubeDa, timeDim, yDim, xDim).Ok?
    requires var rows := ComputeTubeMetrics(tubeDa, timeDim, yDim, xDim).value.rows;
             |rows| > 0 && SelectTube(rows, select) == Ok(id)
    ensures AxisOrder(tubeDa.dims, timeDim, yDim, xDim).Ok?
    ensures var a := Align(tubeDa, AxisOrder(tubeDa.dims, timeDim, yDim, xDim).value);
            id in PositiveLabels(a) &&
            (select == ByName("longest") ==>
               forall other :: other in PositiveLabels(a) ==> |TimeValues(a, other)| <= |TimeValues(a, id)|) &&
            (select == ByName("largest") ==>
               forall other :: other in PositiveLabels(a) ==> |VoxelsOf(a, other)| <= |VoxelsOf(a, id)|)
  {
    MetricsFaithful(tubeDa, timeDim, yDim, xDim);
    var a := Align(tubeDa, AxisOrder(tubeDa.dims, timeDim, yDim, xDim).value);
    SelectedAmong(a, ComputeTubeMetrics(tubeDa, timeDim, yDim, xDim).value.rows, select, id);
  }

  /** `SelectedTube` for any table of rows that summarise the tubes of `a`, one row per tube. */
  lemma SelectedAmong(a: Cube<int>, rows: seq<TubeRow>, select: Selector, id: int)
    requires WellFormed(a) && |rows| > 0 && SelectTube(rows, select) == Ok(id)
    requires (set row | row in rows :: row.tubeId) == PositiveLabels(a)
    requires forall row :: row in rows ==> Summarises(a, row)
    ensures id in PositiveLabels(a)
    ensures select == ByName("longest") ==>
              forall other :: other in PositiveLabels(a) ==> |TimeValues(a, other)| <= |TimeValues(a, id)|
    ensures select == ByName("largest") ==>
              forall other :: other in PositiveLabels(a) ==> |VoxelsOf(a, other)| <= |VoxelsOf(a, id)|
  {
    var i :| 0 <= i < |rows| && rows[i].tubeId == id;
    assert rows[i] in rows;
    if select == ByName("longest") || select == ByName("largest") {
      var k := SelectedRow(rows, select, id);
      assert rows[k] in rows;
      forall other | other in PositiveLabels(a)
        ensures select == ByName("longest") ==> |TimeValues(a, other)| <= |TimeValues(a, id)|
        ensures select == ByName("largest") ==> |VoxelsOf(a, other)| <= |VoxelsOf(a, id)|
      {
        var j := RowOf(rows, other);
        assert rows[j] in rows;
      }
    }
  }

  function RowOf(rows: seq<TubeRow>, id: int): (j: nat)
    requires id in (set row | row in rows :: row.tubeId)
    ensures j < |rows| && rows[j].tubeId == id
  {
    if rows[0].tubeId == id then 0 else 1 + RowOf(rows[1..], id)
  }

  // ---------------------------------------------------------------- the pipeline

  /** What labelling leaves to do: tabulate, refuse an empty table, select,
      and build the vase of the selected tube with nearest interpolation. */
  ghost function VaseOutcome<G>(geo: Geometry<G>, tubeDa: Cube<int>, select: Selector, hullMethod: string,
                                timeDim: string, yDim: string, xDim: string): Result<VaseDefinition<G>>
    requires WellFormed(tubeDa)
    requires CheckDims(tubeDa.dims, timeDim, yDim, xDim).None? && AxisOrder(tubeDa.dims, timeDim, yDim, xDim).Ok?
  {
    var rows := ComputeTubeMetrics(tubeDa, timeDim, yDim, xDim).value.rows;
    if rows == [] then Err(ValueError(NoTubes))
    else
      match SelectTube(rows, select)
      case Err(e) => Err(e)
      case Ok(id) =>
        if hullMethod != "convex" then Err(ValueError(BadHullMethod(hullMethod)))
        else
          var sections := Sections(geo, Align(tubeDa, AxisOrder(tubeDa.dims, timeDim, yDim, xDim).value), id);
          if sections == [] then Err(ValueError(NoSections(id)))
          else Ok(VaseDefinition(sections, "nearest"))
  }

  /** The labelling conditions of `label_tubes` hold for the mask and its tube cube. */
  ghost predicate LabelsOf(mask: Cube<bool>, connectivity: int, timeDim: string, yDim: string, xDim: string,
                           tubes: Tubes)
    requires WellFormed(mask)
  {
    CheckDims(mask.dims, timeDim, yDim, xDim).None? &&
    AxisOrder(mask.dims, timeDim, yDim, xDim).Ok? &&
    ConnectivityStructure(connectivity).Ok? &&
    var p := AxisOrder(mask.dims, timeDim, yDim, xDim).value;
    var m := Align(mask, p);
    WellFormed(tubes.cube) && tubes.cube.dims == mask.dims && tubes.cube.coords == mask.coords &&
    IsLabelling(m.data, ExtentOf(m), ConnectivityStructure(connectivity).value, Align(tubes.cube, p).data, tubes.tubeCount)
  }

  /** Tube `id` of the aligned label cube `a` is one `select` asks for: a
      labelled tube, the given id itself, or one that no tube outlasts
      ("longest") or outgrows ("largest"). */
  ghost predicate Chosen(a: Cube<int>, select: Selector, id: int)
    requires WellFormed(a)
  {
    id in PositiveLabels(a) &&
    (select.ById? ==> id == select.tubeId) &&
    (select == ByName("longest") ==>
       forall other :: other in PositiveLabels(a) ==> |TimeValues(a, other)| <= |TimeValues(a, id)|) &&
    (select == ByName("largest") ==>
       forall other :: other in PositiveLabels(a) ==> |VoxelsOf(a, other)| <= |VoxelsOf(a, id)|)
  }

  /** Steps 1 to 5 of the verb applied to a cube. Errors surface in the
      order the steps run: the mask, then labelling (a missing dim, a
      repeated dim, a bad connectivity), then an empty table, the selection
      and the vase conversion. `tubes` is the labelling the result is built
      on; a vase is the non-empty sections, with nearest interpolation, of
      a tube that the selector asks for. */
  method Pipeline<G>(geo: Geometry<G>, da: Cube<Value>, rule: Rule, lo: real, hi: real, connectivity: int,
                     select: Selector, hullMethod: string, timeDim: string, yDim: string, xDim: string)
    returns (r: Result<VaseDefinition<G>>, ghost tubes: Tubes)
    requires WellFormed(da) && RuleWellFormed(rule)
    ensures var mask := SuitabilityMask(rule, da, lo, hi, timeDim, yDim, xDim);
            mask.Err? ==> r == Err(mask.error)
    ensures var mask := SuitabilityMask(rule, da, lo, hi, timeDim, yDim, xDim);
            mask.Ok? && CheckDims(mask.value.dims, timeDim, yDim, xDim).Some? ==>
              r == Err(CheckDims(mask.value.dims, timeDim, yDim, xDim).value)
    ensures var mask := SuitabilityMask(rule, da, lo, hi, timeDim, yDim, xDim);
            mask.Ok? && CheckDims(mask.value.dims, timeDim, yDim, xDim).None? &&
            AxisOrder(mask.value.dims, timeDim, yDim, xDim).Err? ==>
              r == Err(ValueError(NotPermutation))
    ensures var mask := SuitabilityMask(rule, da, lo, hi, timeDim, yDim, xDim);
            mask.Ok? && CheckDims(mask.value.dims, timeDim, yDim, xDim).None? &&
            AxisOrder(mask.value.dims, timeDim, yDim, xDim).Ok? && ConnectivityStructure(connectivity).Err? ==>
              r == Err(ValueError(BadConnectivity(connectivity)))
    ensures var mask := SuitabilityMask(rule, da, lo, hi, timeDim, yDim, xDim);
            mask.Ok? && CheckDims(mask.value.dims, timeDim, yDim, xDim).None? &&
            AxisOrder(mask.value.dims, timeDim, yDim, xDim).Ok? && ConnectivityStructure(connectivity).Ok? ==>
              LabelsOf(mask.value, connectivity, timeDim, yDim, xDim, tubes) &&
              r == VaseOutcome(geo, tubes.cube, select, hullMethod, timeDim, yDim, xDim)
    ensures r.Ok? ==>
              WellFormed(tubes.cube) && AxisOrder(tubes.cube.dims, timeDim, yDim, xDim).Ok? &&
              var a := Align(tubes.cube, AxisOrder(tubes.cube.dims, timeDim, yDim, xDim).value);
              r.value.interp == "nearest" && r.value.sections != [] &&
              exists id :: Chosen(a, select, id) && r.value.sections == Sections(geo, a, id)
  {
    tubes := Tubes(Cube([], [], []), 0, connectivity);
    var mask := SuitabilityMask(rule, da, lo, hi, timeDim, yDim, xDim);
    if mask.Err? {
      return Err(mask.error), tubes;
    }
    var labelled := LabelTubes(mask.value, connectivity, timeDim, yDim, xDim);
    if labelled.Err? {
      return Err(labelled.error), tubes;
    }
    var tubeDa := labelled.value.cube;
    tubes := labelled.value;
    var metrics := ComputeTubeMetrics(tubeDa, timeDim, yDim, xDim);
    if metrics.value.rows == [] {
      return Err(ValueError(NoTubes)), tubes;
    }
    var chosen := SelectTube(metrics.value.rows, select);
    if chosen.Err? {
      return Err(chosen.error), tubes;
    }
    SelectionChosen(tubeDa, timeDim, yDim, xDim, select, chosen.value);
    r := TubeToVase(geo, tubeDa, chosen.value, timeDim, yDim, xDim, hullMethod, "nearest");
  }

  /** The tube a selector picks from the metrics table is one it asks for. */
  lemma SelectionChosen(tubeDa: Cube<int>, timeDim: string, yDim: string, xDim: string, select: Selector, id: int)
    requires WellFormed(tubeDa)
    requires ComputeTubeMetrics(tubeDa, timeDim, yDim, xDim).Ok?
    requires var rows := ComputeTubeMetrics(tubeDa, timeDim, yDim, xDim).value.rows;
             |rows| > 0 && SelectTube(rows, select) == Ok(id)
    ensures AxisOrder(tubeDa.dims, timeDim, yDim, xDim).Ok?
    ensures Chosen(Align(tubeDa, AxisOrder(tubeDa.dims, timeDim, yDim, xDim).value), select, id)
  {
    SelectedTube(tubeDa, timeDim, yDim, xDim, select, id);
  }
}
