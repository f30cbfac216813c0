/**
 * `compute_tube_metrics`: one row per tube id of a labelled cube, with its
 * duration, size, time span, spatial extent and cells per time step, sorted
 * by duration and then size, both descending.
 */
module TubeMetrics {
  import opened Errors
  import opened Grids
  import opened Aggregates

  // ---------------------------------------------------------------- the voxel table

  function Label(g: Grid<int>, v: Voxel): int {
    if InGrid(g, v) then g[v.t][v.y][v.x] else 0
  }

  /** Strictly increasing in raster order. */
  predicate RasterSorted(vs: seq<Voxel>) {
    forall i, j :: 0 <= i < j < |vs| ==> RasterBefore(vs[i], vs[j])
  }

  /** `np.nonzero(values > 0)` from raster position `v` on: the labelled voxels
      not before `v`, in raster order. */
  function NonzeroFrom(g: Grid<int>, e: Extent, v: Voxel): (r: seq<Voxel>)
    requires Fits(g, e)
    decreases e.nt - v.t, e.ny - v.y, e.nx - v.x
    ensures forall w :: w in r <==> InBox(w, e) && !RasterBefore(w, v) && Label(g, w) > 0
    ensures RasterSorted(r)
  {
    if v.t >= e.nt then []
    else if v.y >= e.ny then NonzeroFrom(g, e, Voxel(v.t + 1, 0, 0))
    else if v.x >= e.nx then NonzeroFrom(g, e, Voxel(v.t, v.y + 1, 0))
    else
      var rest := NonzeroFrom(g, e, Voxel(v.t, v.y, v.x + 1));
      assert forall j :: 0 <= j < |rest| ==> RasterBefore(v, rest[j]) by {
        forall j | 0 <= j < |rest| ensures RasterBefore(v, rest[j]) {
          assert rest[j] in rest;
        }
      }
      if g[v.t][v.y][v.x] > 0 then [v] + rest else rest
  }

  /** `np.nonzero(values > 0)`: every labelled voxel once, in raster order. */
  function Nonzero(g: Grid<int>, e: Extent): (r: seq<Voxel>)
    requires Fits(g, e)
    ensures forall w :: w in r <==> InBox(w, e) && Label(g, w) > 0
    ensures RasterSorted(r)
  {
    NonzeroFrom(g, e, Voxel(0, 0, 0))
  }

  /** One row of the voxel DataFrame: the tube id and the coordinate values of the voxel. */
  datatype Obs = Obs(id: int, time: real, y: real, x: real)

  function ObsAt(c: Cube<int>, v: Voxel): Obs
    requires WellFormed(c) && InBox(v, ExtentOf(c))
  {
    Obs(c.data[v.t][v.y][v.x], c.coords[0][v.t], c.coords[1][v.y], c.coords[2][v.x])
  }

  /** The DataFrame built from `values[mask]` and the coordinates indexed by `np.nonzero`. */
  function Frame(c: Cube<int>, vs: seq<Voxel>): (r: seq<Obs>)
    requires WellFormed(c) && forall v :: v in vs ==> InBox(v, ExtentOf(c))
    ensures |r| == |vs| && forall i :: 0 <= i < |vs| ==> r[i] == ObsAt(c, vs[i])
  {
    if |vs| == 0 then [] else [ObsAt(c, vs[0])] + Frame(c, vs[1..])
  }

  // ---------------------------------------------------------------- grouping

  /** The rows of group `id`, in table order. */
  function Select(os: seq<Obs>, id: int): (r: seq<Obs>)
    ensures forall o :: o in r <==> o in os && o.id == id
    ensures |r| <= |os|
  {
    if |os| == 0 then []
    else
      var rest := Select(os[1..], id);
      assert forall o :: o in os ==> o == os[0] || o in os[1..];
      if os[0].id == id then [os[0]] + rest else rest
  }

  function Times(os: seq<Obs>): (r: seq<real>)
    ensures |r| == |os| && forall i :: 0 <= i < |os| ==> r[i] == os[i].time
  {
    seq(|os|, i requires 0 <= i < |os| => os[i].time)
  }

  function Ys(os: seq<Obs>): (r: seq<real>)
    ensures |r| == |os| && forall i :: 0 <= i < |os| ==> r[i] == os[i].y
  {
    seq(|os|, i requires 0 <= i < |os| => os[i].y)
  }

  function Xs(os: seq<Obs>): (r: seq<real>)
    ensures |r| == |os| && forall i :: 0 <= i < |os| ==> r[i] == os[i].x
  {
    seq(|os|, i requires 0 <= i < |os| => os[i].x)
  }

  predicate Increasing(ks: seq<int>) {
    forall i, j :: 0 <= i < j < |ks| ==> ks[i] < ks[j]
  }

  /** A value below every entry of an increasing list extends it in front. */
  lemma ConsIncreasing(a: int, s: seq<int>)
    requires Increasing(s) && forall x :: x in s ==> a < x
    ensures Increasing([a] + s)
  {
    forall i, j | 0 <= i < j < |[a] + s| ensures ([a] + s)[i] < ([a] + s)[j] {
      if i == 0 {
        assert s[j - 1] in s;
      }
    }
  }

  /** `k` added to the strictly increasing list `ks`, unless already there. */
  function AddKey(k: int, ks: seq<int>): (r: seq<int>)
    requires Increasing(ks)
    ensures Increasing(r)
    ensures forall x :: x in r <==> x == k || x in ks
  {
    if |ks| == 0 then [k]
    else if k < ks[0] then
      assert forall x :: x in ks ==> k < x by {
        forall x | x in ks ensures k < x {
          var i :| 0 <= i < |ks| && ks[i] == x;
          assert i == 0 || ks[0] < ks[i];
        }
      }
      ConsIncreasing(k, ks);
      [k] + ks
    else if k == ks[0] then ks
    else
      assert Increasing(ks[1..]) by {
        forall i, j | 0 <= i < j < |ks[1..]| ensures ks[1..][i] < ks[1..][j] {
          assert ks[1..][i] == ks[i + 1] && ks[1..][j] == ks[j + 1];
        }
      }
      var rest := AddKey(k, ks[1..]);
      assert forall x :: x in ks ==> x == ks[0] || x in ks[1..];
      assert forall x :: x in rest ==> ks[0] < x by {
        forall x | x in rest ensures ks[0] < x {
          if x != k {
            var i :| 0 <= i < |ks[1..]| && ks[1..][i] == x;
            assert ks[1..][i] == ks[i + 1];
          }
        }
      }
      ConsIncreasing(ks[0], rest);
      [ks[0]] + rest
  }

  /** The ids in the `tube_id` column. */
  function IdsOf(os: seq<Obs>): set<int> {
    set o | o in os :: o.id
  }

  lemma SelectNonEmpty(os: seq<Obs>, k: int)
    requires k in IdsOf(os)
    ensures |Select(os, k)| > 0
  {
    var o :| o in os && o.id == k;
    assert o in Select(os, k);
  }

  /** The group keys of `groupby("tube_id")`: each id once, ascending. */
  function Keys(os: seq<Obs>): (ks: seq<int>)
    ensures Increasing(ks)
    ensures forall k :: k in ks <==> k in IdsOf(os)
  {
    if |os| == 0 then []
    else
      var rest := Keys(os[1..]);
      assert forall o :: o in os ==> o == os[0] || o in os[1..];
      AddKey(os[0].id, rest)
  }

  /** One row of the metrics table. */
  datatype TubeRow = TubeRow(
    tubeId: int,
    durationSteps: nat,
    nVoxels: nat,
    timeStart: real,
    timeEnd: real,
    yMin: real,
    yMax: real,
    xMin: real,
    xMax: real,
    cellsPerTimestepMean: real,
    cellsPerTimestepMax: nat)

  /** The column names of the metrics table, in order. */
  const Columns: seq<string> := [
    "tube_id", "duration_steps", "n_voxels", "time_start", "time_end",
    "y_min", "y_max", "x_min", "x_max",
    "cells_per_timestep_mean", "cells_per_timestep_max"]

  datatype Table = Table(columns: seq<string>, rows: seq<TubeRow>)

  /** The aggregates of one group (all rows with the same id): `nunique` and
      `size`, min and max of each coordinate column, and the mean and max of
      the per-time-value counts. */
  function GroupRow(group: seq<Obs>): (r: TubeRow)
    requires |group| > 0
  {
    var ts := Times(group);
    var d := Distinct(ts);
    assert ts[0] in d;
    var perTime := Counts(ts, d);
    TubeRow(group[0].id, |d|, |group|, Min(ts), Max(ts), Min(Ys(group)), Max(Ys(group)),
            Min(Xs(group)), Max(Xs(group)), Mean(perTime), MaxCount(perTime))
  }

  /** The unsorted metrics table: one row per key, keys ascending. */
  function Grouped(os: seq<Obs>): (rows: seq<TubeRow>)
    ensures |rows| == |Keys(os)|
  {
    var ks := Keys(os);
    seq(|ks|, i requires 0 <= i < |ks| =>
      SelectNonEmpty(os, ks[i]);
      GroupRow(Select(os, ks[i])))
  }

  // ---------------------------------------------------------------- sorting

  /** `a` goes strictly before `b` under `by=["duration_steps", "n_voxels"], ascending=False`. */
  predicate Above(a: TubeRow, b: TubeRow) {
    a.durationSteps > b.durationSteps || (a.durationSteps == b.durationSteps && a.nVoxels > b.nVoxels)
  }

  predicate SameKey(a: TubeRow, b: TubeRow) {
    a.durationSteps == b.durationSteps && a.nVoxels == b.nVoxels
  }

  /** Non-increasing in (duration_steps, n_voxels). */
  predicate Sorted(rows: seq<TubeRow>) {
    forall i, j :: 0 <= i < j < |rows| ==> !Above(rows[j], rows[i])
  }

  /** Sorted, with ties in ascending tube id: a strict total order. */
  predicate Ranked(rows: seq<TubeRow>) {
    forall i, j :: 0 <= i < j < |rows| ==>
      Above(rows[i], rows[j]) || (SameKey(rows[i], rows[j]) && rows[i].tubeId < rows[j].tubeId)
  }

  /** Puts `x` after the rows that go strictly before it and before the others (stable). */
  function Insert(x: TubeRow, rows: seq<TubeRow>): (r: seq<TubeRow>)
    ensures multiset(r) == multiset(rows) + multiset{x}
  {
    if |rows| == 0 then [x]
    else if Above(rows[0], x) then
      assert rows == [rows[0]] + rows[1..];
      [rows[0]] + Insert(x, rows[1..])
    else [x] + rows
  }

  /** `sort_values(by=["duration_steps", "n_voxels"], ascending=[False, False])`,
      stable as pandas' multi-column sort is. */
  function SortRows(rows: seq<TubeRow>): (r: seq<TubeRow>)
    ensures multiset(r) == multiset(rows)
  {
    if |rows| == 0 then []
    else
      assert rows == [rows[0]] + rows[1..];
      Insert(rows[0], SortRows(rows[1..]))
  }

  lemma {:induction false} InsertRanked(x: TubeRow, rows: seq<TubeRow>)
    requires Ranked(rows) && forall y :: y in rows ==> x.tubeId < y.tubeId
    ensures Ranked(Insert(x, rows))
  {
    if |rows| > 0 && Above(rows[0], x) {
      InsertRanked(x, rows[1..]);
      var r := Insert(x, rows);
      var rest := Insert(x, rows[1..]);
      assert r == [rows[0]] + rest;
      forall j | 0 < j < |r| ensures Above(r[0], r[j]) || (SameKey(r[0], r[j]) && r[0].tubeId < r[j].tubeId) {
        assert r[j] in multiset(rest);
        assert r[j] in multiset(rows[1..]) + multiset{x};
        if r[j] != x {
          var k :| 0 <= k < |rows[1..]| && rows[1..][k] == r[j];
          assert rows[k + 1] == r[j];
        }
      }
    }
  }

  /** Sorting a table whose ids ascend ranks it: ties keep ascending id order. */
  lemma {:induction false} SortRanked(rows: seq<TubeRow>)
    requires forall i, j :: 0 <= i < j < |rows| ==> rows[i].tubeId < rows[j].tubeId
    ensures Ranked(SortRows(rows))
  {
    if |rows| > 0 {
      SortRanked(rows[1..]);
      var s := SortRows(rows[1..]);
      forall y | y in s ensures rows[0].tubeId < y.tubeId {
        assert y in multiset(rows[1..]);
        var k :| 0 <= k < |rows[1..]| && rows[1..][k] == y;
        assert rows[k + 1] == y;
      }
      InsertRanked(rows[0], s);
    }
  }

  lemma RankedIsSorted(rows: seq<TubeRow>)
    requires Ranked(rows)
    ensures Sorted(rows)
  {
  }

  // ---------------------------------------------------------------- compute_tube_metrics

  /** The voxel DataFrame of an aligned (time, y, x) label cube. */
  function Observations(a: Cube<int>): (os: seq<Obs>)
    requires WellFormed(a)
  {
    var nz := Nonzero(a.data, ExtentOf(a));
    Frame(a, nz)
  }

  /** `compute_tube_metrics`: a missing dim is a ValueError (in time, y, x order),
      as is a repeated name in the transpose; a cube without positive labels
      gives the empty table with the eleven columns; otherwise one row per id,
      ranked. */
  function ComputeTubeMetrics(tubeDa: Cube<int>, timeDim: string, yDim: string, xDim: string): (r: Result<Table>)
    requires WellFormed(tubeDa)
    ensures CheckDims(tubeDa.dims, timeDim, yDim, xDim).Some? ==>
              r == Err(CheckDims(tubeDa.dims, timeDim, yDim, xDim).value)
    ensures CheckDims(tubeDa.dims, timeDim, yDim, xDim).None? && AxisOrder(tubeDa.dims, timeDim, yDim, xDim).Err? ==>
              r == Err(ValueError(NotPermutation))
    ensures r.Ok? <==> CheckDims(tubeDa.dims, timeDim, yDim, xDim).None? && AxisOrder(tubeDa.dims, timeDim, yDim, xDim).Ok?
    ensures r.Ok? ==> r.value.columns == Columns && Ranked(r.value.rows)
  {
    match CheckDims(tubeDa.dims, timeDim, yDim, xDim)
    case Some(err) => Err(err)
    case None =>
      match AxisOrder(tubeDa.dims, timeDim, yDim, xDim)
      case Err(err) => Err(err)
      case Ok(p) =>
        var a := Align(tubeDa, p);
        var os := Observations(a);
        if |os| == 0 then Ok(Table(Columns, []))
        else
          var grouped := Grouped(os);
          GroupedIdsAscend(os);
          SortRanked(grouped);
          Ok(Table(Columns, SortRows(grouped)))
  }

  lemma GroupedIdsAscend(os: seq<Obs>)
    ensures forall i, j :: 0 <= i < j < |Grouped(os)| ==> Grouped(os)[i].tubeId < Grouped(os)[j].tubeId
  {
    RowIds(os);
  }

  // ---------------------------------------------------------------- what each row states

  /** The voxels labelled `id`. */
  ghost function VoxelsOf(a: Cube<int>, id: int): set<Voxel>
    requires WellFormed(a)
  {
    set v | v in BoxSet(ExtentOf(a)) && Label(a.data, v) == id
  }

  /** The positive labels of the cube. */
  ghost function PositiveLabels(a: Cube<int>): set<int>
    requires WellFormed(a)
  {
    set v | v in BoxSet(ExtentOf(a)) && Label(a.data, v) > 0 :: Label(a.data, v)
  }

  /** The time, y and x coordinate values of the voxels labelled `id`. */
  ghost function TimeValues(a: Cube<int>, id: int): set<real>
    requires WellFormed(a)
  {
    set v | v in VoxelsOf(a, id) :: a.coords[0][v.t]
  }

  ghost function YValues(a: Cube<int>, id: int): set<real>
    requires WellFormed(a)
  {
    set v | v in VoxelsOf(a, id) :: a.coords[1][v.y]
  }

  ghost function XValues(a: Cube<int>, id: int): set<real>
    requires WellFormed(a)
  {
    set v | v in VoxelsOf(a, id) :: a.coords[2][v.x]
  }

  /** The time coordinate value of voxel `v`. */
  function TimeOf(a: Cube<int>, v: Voxel): real {
    if |a.coords| > 0 && v.t < |a.coords[0]| then a.coords[0][v.t] else 0.0
  }

  /** The number of voxels of `vs` at time value `t`. */
  ghost function CountIn(a: Cube<int>, vs: set<Voxel>, t: real): nat {
    |set v | v in vs && TimeOf(a, v) == t|
  }

  /** The number of voxels of tube `id` at time value `t`. */
  ghost function CountAt(a: Cube<int>, id: int, t: real): nat
    requires WellFormed(a)
  {
    CountIn(a, VoxelsOf(a, id), t)
  }

  /** `m` is the greatest number of voxels tube `id` has at one of its time values. */
  ghost predicate MostAtOneTime(a: Cube<int>, id: int, m: nat)
    requires WellFormed(a)
  {
    (exists t :: t in TimeValues(a, id) && CountAt(a, id, t) == m) &&
    forall t :: t in TimeValues(a, id) ==> CountAt(a, id, t) <= m
  }

  ghost predicate Least(m: real, s: set<real>) {
    m in s && forall x :: x in s ==> m <= x
  }

  ghost predicate Greatest(m: real, s: set<real>) {
    m in s && forall x :: x in s ==> x <= m
  }

  /** What a metrics row says about its tube, in terms of the label cube:
      its size, its number of distinct time values, its time span and
      bounding box in coordinate values, and the cells per time step: their
      mean, and their maximum as the greatest voxel count at one time value. */
  ghost predicate Summarises(a: Cube<int>, row: TubeRow)
    requires WellFormed(a)
  {
    var id := row.tubeId;
    id > 0 &&
    row.nVoxels == |VoxelsOf(a, id)| > 0 &&
    row.durationSteps == |TimeValues(a, id)| > 0 &&
    Least(row.timeStart, TimeValues(a, id)) && Greatest(row.timeEnd, TimeValues(a, id)) &&
    Least(row.yMin, YValues(a, id)) && Greatest(row.yMax, YValues(a, id)) &&
    Least(row.xMin, XValues(a, id)) && Greatest(row.xMax, XValues(a, id)) &&
    row.cellsPerTimestepMean == (row.nVoxels as real) / (row.durationSteps as real) &&
    row.cellsPerTimestepMean <= row.cellsPerTimestepMax as real &&
    MostAtOneTime(a, id, row.cellsPerTimestepMax)
  }

  /** The voxels of `vs` labelled `id`, in order. */
  function Matching(g: Grid<int>, vs: seq<Voxel>, id: int): (r: seq<Voxel>)
    ensures forall v :: v in r <==> v in vs && Label(g, v) == id
    ensures RasterSorted(vs) ==> RasterSorted(r)
  {
    if |vs| == 0 then []
    else
      var rest := Matching(g, vs[1..], id);
      assert forall v :: v in vs ==> v == vs[0] || v in vs[1..];
      assert RasterSorted(vs) ==> forall j :: 0 <= j < |rest| ==> RasterBefore(vs[0], rest[j]) by {
        if RasterSorted(vs) {
          forall j | 0 <= j < |rest| ensures RasterBefore(vs[0], rest[j]) {
            assert rest[j] in vs[1..];
          }
        }
      }
      if Label(g, vs[0]) == id then [vs[0]] + rest else rest
  }

  lemma SortedNoDups(vs: seq<Voxel>)
    requires RasterSorted(vs)
    ensures NoDups(vs)
  {
  }

  /** Grouping the voxel table by id is building it from the matching voxels. */
  lemma {:induction false} SelectFrame(a: Cube<int>, vs: seq<Voxel>, id: int)
    requires WellFormed(a) && forall v :: v in vs ==> InBox(v, ExtentOf(a))
    ensures Select(Frame(a, vs), id) == Frame(a, Matching(a.data, vs, id))
  {
    if |vs| > 0 {
      SelectFrame(a, vs[1..], id);
      assert Frame(a, vs)[1..] == Frame(a, vs[1..]);
      assert ObsAt(a, vs[0]).id == Label(a.data, vs[0]);
    }
  }

  /** Every row of the grouped table summarises the tube it names. */
  lemma GroupedRow(a: Cube<int>, row: TubeRow)
    requires WellFormed(a) && row in Grouped(Observations(a))
    ensures Summarises(a, row)
  {
    var nz := Nonzero(a.data, ExtentOf(a));
    var os := Observations(a);
    var i :| 0 <= i < |Grouped(os)| && Grouped(os)[i] == row;
    var id := Keys(os)[i];
    SelectNonEmpty(os, id);
    var m := Matching(a.data, nz, id);
    SelectFrame(a, nz, id);
    assert Grouped(os)[i] == GroupRow(Frame(a, m));
    assert m[0] in nz;
    SortedNoDups(m);
    GroupSummary(a, id, m);
  }

  lemma GroupSummary(a: Cube<int>, id: int, m: seq<Voxel>)
    requires WellFormed(a) && |m| > 0 && NoDups(m)
    requires forall v :: v in m <==> InBox(v, ExtentOf(a)) && Label(a.data, v) == id && id > 0
    ensures Summarises(a, GroupRow(Frame(a, m)))
  {
    var group := Frame(a, m);
    var ts, ys, xs := Times(group), Ys(group), Xs(group);
    assert m[0] in m;
    assert group[0].id == id;
    assert (set v | v in m) == VoxelsOf(a, id);
    NoDupsCard(m);
    ColumnValues(a, m, id, ts, ys, xs);
    MeanOfCounts(ts);
    CountsAtTimes(a, m, VoxelsOf(a, id), ts);
    RowSummarises(a, id, GroupRow(group), ts, ys, xs, |group|);
  }

  /** A row built from columns holding exactly the tube's coordinate values,
      one entry per voxel, summarises the tube. */
  lemma RowSummarises(a: Cube<int>, id: int, row: TubeRow, ts: seq<real>, ys: seq<real>, xs: seq<real>, n: nat)
    requires WellFormed(a) && id > 0 && |ts| > 0 && |ys| > 0 && |xs| > 0 && |Distinct(ts)| > 0
    requires row == TubeRow(id, |Distinct(ts)|, n, Min(ts), Max(ts), Min(ys), Max(ys), Min(xs), Max(xs),
                            Mean(Counts(ts, Distinct(ts))), MaxCount(Counts(ts, Distinct(ts))))
    requires n == |ts| == |VoxelsOf(a, id)|
    requires (set x | x in ts) == TimeValues(a, id) && forall x :: x in ts <==> x in TimeValues(a, id)
    requires forall x :: x in ys <==> x in YValues(a, id)
    requires forall x :: x in xs <==> x in XValues(a, id)
    requires forall t :: Count(ts, t) == CountAt(a, id, t)
    ensures Summarises(a, row)
  {
    MaxOfCounts(a, id, ts);
    ColumnExtent(ts, TimeValues(a, id));
    ColumnExtent(ys, YValues(a, id));
    ColumnExtent(xs, XValues(a, id));
    DistinctCount(ts);
    MeanOfCounts(ts);
  }

  /** Counting a value in a column computed entry by entry from a list without
      repeats counts the list's entries that give that value. */
  lemma {:induction false} CountMapped<V>(m: seq<V>, ts: seq<real>, f: V -> real, t: real)
    requires NoDups(m) && |ts| == |m| && forall i :: 0 <= i < |m| ==> ts[i] == f(m[i])
    ensures Count(ts, t) == |Hits(m, f, t)|
  {
    if |m| > 0 {
      var rest := m[1..];
      assert NoDups(rest);
      CountMapped(rest, ts[1..], f, t);
      assert m[0] !in rest;
      assert forall v :: v in m <==> v == m[0] || v in rest;
      var here := set v | v in m && f(v) == t;
      var later := set v | v in rest && f(v) == t;
      if f(m[0]) == t {
        assert here == later + {m[0]};
      } else {
        assert here == later;
      }
    }
  }

  /** The entries of `m` that `f` takes to `t`. */
  ghost function Hits<V>(m: seq<V>, f: V -> real, t: real): set<V> {
    set v | v in m && f(v) == t
  }

  /** A group's time column holds the time value of each of its voxels. */
  lemma TimesOfGroup(a: Cube<int>, m: seq<Voxel>, ts: seq<real>)
    requires WellFormed(a) && (forall v :: v in m ==> InBox(v, ExtentOf(a))) && ts == Times(Frame(a, m))
    ensures |ts| == |m| && forall i :: 0 <= i < |m| ==> ts[i] == TimeOf(a, m[i])
  {
    forall i | 0 <= i < |m| ensures ts[i] == TimeOf(a, m[i]) {
      assert m[i] in m;
      assert Frame(a, m)[i] == ObsAt(a, m[i]);
    }
  }

  /** A group's time column counts each time value as often as the group has voxels there. */
  lemma CountsAtTimes(a: Cube<int>, m: seq<Voxel>, vs: set<Voxel>, ts: seq<real>)
    requires WellFormed(a) && NoDups(m) && (forall v :: v in m ==> InBox(v, ExtentOf(a)))
    requires (set v | v in m) == vs && ts == Times(Frame(a, m))
    ensures forall t :: Count(ts, t) == CountIn(a, vs, t)
  {
    TimesOfGroup(a, m, ts);
    forall t ensures Count(ts, t) == CountIn(a, vs, t) {
      CountOneTime(a, m, vs, ts, t);
    }
  }

  lemma CountOneTime(a: Cube<int>, m: seq<Voxel>, vs: set<Voxel>, ts: seq<real>, t: real)
    requires NoDups(m) && (set v | v in m) == vs
    requires |ts| == |m| && forall i :: 0 <= i < |m| ==> ts[i] == TimeOf(a, m[i])
    ensures Count(ts, t) == CountIn(a, vs, t)
  {
    var time := v => TimeOf(a, v);
    CountMapped(m, ts, time, t);
    var counted := set v | v in vs && TimeOf(a, v) == t;
    assert Hits(m, time, t) == counted;
    assert CountIn(a, vs, t) == |counted|;
  }

  /** The largest per-time-value count of a tube's time column is the
      greatest number of its voxels at one time value. */
  lemma MaxOfCounts(a: Cube<int>, id: int, ts: seq<real>)
    requires WellFormed(a) && |ts| > 0
    requires forall x :: x in ts <==> x in TimeValues(a, id)
    requires forall t :: Count(ts, t) == CountAt(a, id, t)
    ensures MostAtOneTime(a, id, MaxCount(Counts(ts, Distinct(ts))))
  {
    var count := t => CountAt(a, id, t);
    MaxIsGreatest(ts, TimeValues(a, id), count);
  }

  /** The largest count of a column's distinct values is the count of one of
      its values and at least the count of each. */
  lemma MaxIsGreatest(ts: seq<real>, values: set<real>, count: real -> nat)
    requires |ts| > 0 && (forall x :: x in ts ==> x in values) && (forall x :: x in values ==> x in ts)
    requires forall t :: Count(ts, t) == count(t)
    ensures exists t :: t in values && count(t) == MaxCount(Counts(ts, Distinct(ts)))
    ensures forall t :: t in values ==> count(t) <= MaxCount(Counts(ts, Distinct(ts)))
  {
    var d := Distinct(ts);
    assert ts[0] in d;
    var c := Counts(ts, d);
    assert forall i :: 0 <= i < |d| ==> c[i] == count(d[i]);
    forall i | 0 <= i < |d| ensures d[i] in values {
      assert d[i] in d;
      assert d[i] in ts;
    }
    CountsBound(d, c, values, count, MaxCount(c));
  }

  /** The greatest of the counts of a list of values is the count of one of them and bounds all. */
  lemma CountsBound(d: seq<real>, c: seq<nat>, values: set<real>, count: real -> nat, top: nat)
    requires |c| == |d| && forall i :: 0 <= i < |d| ==> c[i] == count(d[i])
    requires (forall i :: 0 <= i < |d| ==> d[i] in values) && (forall x :: x in values ==> x in d)
    requires top in c && forall x :: x in c ==> x <= top
    ensures exists t :: t in values && count(t) == top
    ensures forall t :: t in values ==> count(t) <= top
  {
    var i :| 0 <= i < |c| && c[i] == top;
    var w := d[i];
    assert w in values && count(w) == top;
    forall t | t in values ensures count(t) <= top {
      var j :| 0 <= j < |d| && d[j] == t;
      assert c[j] in c;
    }
  }

  /** The min and max of a non-empty column are the least and greatest of its values. */
  lemma ColumnExtent(col: seq<real>, values: set<real>)
    requires |col| > 0 && forall x :: x in col <==> x in values
    ensures Least(Min(col), values) && Greatest(Max(col), values)
  {
  }

  /** The coordinate columns of the group of `id`, as sets, are its coordinate values. */
  lemma ColumnValues(a: Cube<int>, m: seq<Voxel>, id: int, ts: seq<real>, ys: seq<real>, xs: seq<real>)
    requires WellFormed(a) && (forall v :: v in m ==> InBox(v, ExtentOf(a)))
    requires (set v | v in m) == VoxelsOf(a, id)
    requires ts == Times(Frame(a, m)) && ys == Ys(Frame(a, m)) && xs == Xs(Frame(a, m))
    ensures (set x | x in ts) == TimeValues(a, id)
    ensures (set x | x in ys) == YValues(a, id)
    ensures (set x | x in xs) == XValues(a, id)
    ensures forall x :: x in ts <==> x in TimeValues(a, id)
    ensures forall x :: x in ys <==> x in YValues(a, id)
    ensures forall x :: x in xs <==> x in XValues(a, id)
  {
    forall x | x in ts ensures x in TimeValues(a, id) {
      var i :| 0 <= i < |ts| && ts[i] == x;
      assert m[i] in VoxelsOf(a, id);
    }
    forall x | x in TimeValues(a, id) ensures x in ts {
      var v :| v in VoxelsOf(a, id) && a.coords[0][v.t] == x;
      var i :| 0 <= i < |m| && m[i] == v;
      assert ts[i] == x;
    }
    forall x | x in ys ensures x in YValues(a, id) {
      var i :| 0 <= i < |ys| && ys[i] == x;
      assert m[i] in VoxelsOf(a, id);
    }
    forall x | x in YValues(a, id) ensures x in ys {
      var v :| v in VoxelsOf(a, id) && a.coords[1][v.y] == x;
      var i :| 0 <= i < |m| && m[i] == v;
      assert ys[i] == x;
    }
    forall x | x in xs ensures x in XValues(a, id) {
      var i :| 0 <= i < |xs| && xs[i] == x;
      assert m[i] in VoxelsOf(a, id);
    }
    forall x | x in XValues(a, id) ensures x in xs {
      var v :| v in VoxelsOf(a, id) && a.coords[2][v.x] == x;
      var i :| 0 <= i < |m| && m[i] == v;
      assert xs[i] == x;
    }
  }

  /** The mean of the per-time-value counts is the group size over the number of time values. */
  lemma MeanOfCounts(ts: seq<real>)
    requires |ts| > 0
    ensures |Distinct(ts)| > 0
    ensures Mean(Counts(ts, Distinct(ts))) == (|ts| as real) / (|Distinct(ts)| as real)
    ensures Mean(Counts(ts, Distinct(ts))) <= MaxCount(Counts(ts, Distinct(ts))) as real
  {
    var d := Distinct(ts);
    assert ts[0] in d;
    var c := Counts(ts, d);
    CountsSum(ts, d);
    assert Sum(c) == |ts| && |c| == |d|;
    MeanAtMostMax(c);
  }

  /** The ids of the grouped table are the ids of the voxel table. */
  lemma GroupedIds(os: seq<Obs>)
    ensures (set row | row in Grouped(os) :: row.tubeId) == IdsOf(os)
  {
    RowIds(os);
    GroupedIdsCover(os);
    GroupedIdsUsed(os);
  }

  lemma GroupedIdsCover(os: seq<Obs>)
    ensures forall id :: id in IdsOf(os) ==> id in (set row | row in Grouped(os) :: row.tubeId)
  {
    var ks := Keys(os);
    var rows := Grouped(os);
    RowIds(os);
    forall id | id in IdsOf(os) ensures id in (set row | row in rows :: row.tubeId) {
      var i :| 0 <= i < |ks| && ks[i] == id;
      assert rows[i] in rows;
    }
  }

  lemma GroupedIdsUsed(os: seq<Obs>)
    ensures forall id :: id in (set row | row in Grouped(os) :: row.tubeId) ==> id in IdsOf(os)
  {
    var ks := Keys(os);
    var rows := Grouped(os);
    RowIds(os);
    forall row | row in rows ensures row.tubeId in IdsOf(os) {
      var i :| 0 <= i < |rows| && rows[i] == row;
      assert ks[i] in ks;
    }
  }

  lemma RowIds(os: seq<Obs>)
    ensures forall i :: 0 <= i < |Grouped(os)| ==> Grouped(os)[i].tubeId == Keys(os)[i]
  {
    var ks := Keys(os);
    forall i | 0 <= i < |ks| ensures Grouped(os)[i].tubeId == ks[i] {
      var g := Select(os, ks[i]);
      SelectNonEmpty(os, ks[i]);
      assert g[0] in g;
    }
  }

  /** The `tube_id` column holds exactly the positive labels. */
  lemma ObservedIds(a: Cube<int>)
    requires WellFormed(a)
    ensures IdsOf(Observations(a)) == PositiveLabels(a)
  {
    var e := ExtentOf(a);
    var nz := Nonzero(a.data, e);
    var os := Observations(a);
    forall id | id in PositiveLabels(a) ensures id in IdsOf(os) {
      var v :| v in BoxSet(e) && Label(a.data, v) > 0 && Label(a.data, v) == id;
      var k :| 0 <= k < |nz| && nz[k] == v;
      assert os[k] == ObsAt(a, v);
      assert os[k] in os;
    }
    forall id | id in IdsOf(os) ensures id in PositiveLabels(a) {
      var o :| o in os && o.id == id;
      var k :| 0 <= k < |os| && os[k] == o;
      assert nz[k] in nz;
      assert nz[k] in BoxSet(e) && Label(a.data, nz[k]) == id;
    }
  }

  /** What the metrics table states about the label cube aligned to (time, y, x):
      the rows' ids are exactly its positive labels, each once, every row
      summarises its tube, and the table is empty exactly when nothing is labelled. */
  lemma MetricsFaithful(tubeDa: Cube<int>, timeDim: string, yDim: string, xDim: string)
    requires WellFormed(tubeDa)
    requires ComputeTubeMetrics(tubeDa, timeDim, yDim, xDim).Ok?
    ensures CheckDims(tubeDa.dims, timeDim, yDim, xDim).None?
    ensures AxisOrder(tubeDa.dims, timeDim, yDim, xDim).Ok?
    ensures var a := Align(tubeDa, AxisOrder(tubeDa.dims, timeDim, yDim, xDim).value);
            var rows := ComputeTubeMetrics(tubeDa, timeDim, yDim, xDim).value.rows;
            (set row | row in rows :: row.tubeId) == PositiveLabels(a) &&
            (forall i, j :: 0 <= i < j < |rows| ==> rows[i].tubeId != rows[j].tubeId) &&
            (forall row :: row in rows ==> Summarises(a, row)) &&
            (rows == [] <==> PositiveLabels(a) == {})
  {
    var p := AxisOrder(tubeDa.dims, timeDim, yDim, xDim).value;
    MetricsRows(tubeDa, timeDim, yDim, xDim);
    TableFaithful(Align(tubeDa, p), ComputeTubeMetrics(tubeDa, timeDim, yDim, xDim).value.rows);
  }

  /** The sorted grouped table of an aligned cube: its ids are the positive
      labels, each once, and every row summarises its tube. */
  lemma TableFaithful(a: Cube<int>, rows: seq<TubeRow>)
    requires WellFormed(a) && rows == SortRows(Grouped(Observations(a)))
    ensures (set row | row in rows :: row.tubeId) == PositiveLabels(a)
    ensures forall i, j :: 0 <= i < j < |rows| ==> rows[i].tubeId != rows[j].tubeId
    ensures forall row :: row in rows ==> Summarises(a, row)
    ensures rows == [] <==> PositiveLabels(a) == {}
  {
    var os := Observations(a);
    var grouped := Grouped(os);
    GroupedIds(os);
    ObservedIds(a);
    GroupedIdsAscend(os);
    PermutedTable(grouped, rows);
    TableRows(a, grouped, rows);
    EmptyIds(rows, PositiveLabels(a));
  }

  lemma TableRows(a: Cube<int>, grouped: seq<TubeRow>, rows: seq<TubeRow>)
    requires WellFormed(a) && grouped == Grouped(Observations(a))
    requires forall row :: row in rows ==> row in grouped
    ensures forall row :: row in rows ==> Summarises(a, row)
  {
    forall row | row in rows ensures Summarises(a, row) {
      GroupedRow(a, row);
    }
  }

  lemma EmptyIds(rows: seq<TubeRow>, ids: set<int>)
    requires (set row | row in rows :: row.tubeId) == ids
    ensures rows == [] <==> ids == {}
  {
    if rows != [] {
      assert rows[0].tubeId in ids;
    }
  }

  /** The rows of the table are the sorted grouped rows of the aligned cube. */
  lemma MetricsRows(tubeDa: Cube<int>, timeDim: string, yDim: string, xDim: string)
    requires WellFormed(tubeDa)
    requires ComputeTubeMetrics(tubeDa, timeDim, yDim, xDim).Ok?
    ensures CheckDims(tubeDa.dims, timeDim, yDim, xDim).None?
    ensures AxisOrder(tubeDa.dims, timeDim, yDim, xDim).Ok?
    ensures var os := Observations(Align(tubeDa, AxisOrder(tubeDa.dims, timeDim, yDim, xDim).value));
            ComputeTubeMetrics(tubeDa, timeDim, yDim, xDim).value.rows == SortRows(Grouped(os))
  {
    var p := AxisOrder(tubeDa.dims, timeDim, yDim, xDim).value;
    var os := Observations(Align(tubeDa, p));
    if |os| == 0 {
      assert Keys(os) == [];
    }
  }

  /** A reordering of a table with strictly ascending ids has the same rows and ids, each id once. */
  lemma PermutedTable(grouped: seq<TubeRow>, rows: seq<TubeRow>)
    requires forall i, j :: 0 <= i < j < |grouped| ==> grouped[i].tubeId < grouped[j].tubeId
    requires multiset(rows) == multiset(grouped)
    ensures forall row :: row in rows <==> row in grouped
    ensures (set row | row in rows :: row.tubeId) == (set row | row in grouped :: row.tubeId)
    ensures forall i, j :: 0 <= i < j < |rows| ==> rows[i].tubeId != rows[j].tubeId
    ensures rows == [] <==> grouped == []
  {
    assert forall row :: row in rows <==> row in multiset(rows);
    assert forall row :: row in grouped <==> row in multiset(grouped);
    assert |rows| == |multiset(rows)| == |grouped|;
    forall i, j | 0 <= i < j < |rows| ensures rows[i].tubeId != rows[j].tubeId {
      DistinctIds(grouped, rows, i, j);
    }
  }

  /** A permutation of a table with strictly ascending ids repeats no id. */
  lemma DistinctIds(grouped: seq<TubeRow>, rows: seq<TubeRow>, i: nat, j: nat)
    requires forall i, j :: 0 <= i < j < |grouped| ==> grouped[i].tubeId < grouped[j].tubeId
    requires multiset(rows) == multiset(grouped) && i < j < |rows|
    ensures rows[i].tubeId != rows[j].tubeId
  {
    assert rows[i] in multiset(grouped) && rows[j] in multiset(grouped);
    var i' :| 0 <= i' < |grouped| && grouped[i'] == rows[i];
    var j' :| 0 <= j' < |grouped| && grouped[j'] == rows[j];
    if i' == j' {
      // the same row twice in `rows` would occur twice in `grouped`
      assert multiset(rows)[rows[i]] >= 2 by {
        MultisetTwice(rows, i, j);
      }
      MultisetOnce(grouped, i');
    }
  }

  lemma MultisetTwice<X>(s: seq<X>, i: nat, j: nat)
    requires i < j < |s| && s[i] == s[j]
    ensures multiset(s)[s[i]] >= 2
  {
    assert s == s[..i] + [s[i]] + s[i + 1..j] + [s[j]] + s[j + 1..];
  }

  lemma MultisetOnce(s: seq<TubeRow>, i: nat)
    requires i < |s| && forall i, j :: 0 <= i < j < |s| ==> s[i].tubeId < s[j].tubeId
    ensures multiset(s)[s[i]] == 1
  {
    assert s == s[..i] + [s[i]] + s[i + 1..];
    assert s[i] !in s[..i] && s[i] !in s[i + 1..];
  }

  // ---------------------------------------------------------------- the metrics test case

  /** The tube cube of the metrics test: tube 1 in the first two time steps, tube 2 in the third. */
  function TwoTubes(): (c: Cube<int>)
    ensures WellFormed(c)
  {
    Cube(["time", "y", "x"], [[0.0, 1.0, 2.0], [0.0, 1.0], [0.0, 1.0]],
         [[[1, 0], [0, 0]], [[1, 1], [0, 0]], [[0, 2], [2, 0]]])
  }

  /** Every voxel of the test cube holds 0, 1 or 2, and 1 only in the first two time steps. */
  lemma TwoTubesLabels(v: Voxel)
    requires InBox(v, ExtentOf(TwoTubes()))
    ensures var l := Label(TwoTubes().data, v); l == 0 || l == 1 || l == 2
    ensures Label(TwoTubes().data, v) == 1 ==> v.t < 2
  {
  }

  /** The metrics test: the table of the test cube holds tubes 1 and 2, and
      tube 1 lasts two time steps. */
  lemma TwoTubesMetrics(c: Cube<int>)
    requires c == TwoTubes()
    ensures ComputeTubeMetrics(c, "time", "y", "x").Ok?
    ensures var rows := ComputeTubeMetrics(c, "time", "y", "x").value.rows;
            (set row | row in rows :: row.tubeId) == {1, 2} &&
            forall row :: row in rows && row.tubeId == 1 ==> row.durationSteps == 2
  {
    assert AxisOrder(c.dims, "time", "y", "x").value == [0, 1, 2];
    TwoTubesSets(c);
    assert |TimeValues(c, 1)| == 2 by {
      assert TimeValues(c, 1) == {0.0} + {1.0};
    }
    MetricsInOrder(c, "time", "y", "x");
  }

  /** The table of a cube whose dims are already (time, y, x): one row per
      positive label, each lasting as many time steps as its tube occupies. */
  lemma MetricsInOrder(c: Cube<int>, timeDim: string, yDim: string, xDim: string)
    requires WellFormed(c) && c.dims == [timeDim, yDim, xDim]
    requires AxisOrder(c.dims, timeDim, yDim, xDim).Ok? && AxisOrder(c.dims, timeDim, yDim, xDim).value == [0, 1, 2]
    ensures ComputeTubeMetrics(c, timeDim, yDim, xDim).Ok?
    ensures var rows := ComputeTubeMetrics(c, timeDim, yDim, xDim).value.rows;
            (set row | row in rows :: row.tubeId) == PositiveLabels(c) &&
            forall row :: row in rows ==> row.durationSteps == |TimeValues(c, row.tubeId)|
  {
    MetricsFaithful(c, timeDim, yDim, xDim);
    AlignIdentity(c);
  }

  /** Tubes 1 and 2 are the labels of the test cube, and tube 1 occupies times 0 and 1. */
  lemma TwoTubesSets(c: Cube<int>)
    requires c == TwoTubes()
    ensures PositiveLabels(c) == {1, 2}
    ensures TimeValues(c, 1) == {0.0, 1.0}
  {
    var e := ExtentOf(c);
    assert Label(c.data, Voxel(0, 0, 0)) == 1 && Voxel(0, 0, 0) in BoxSet(e);
    assert Label(c.data, Voxel(2, 0, 1)) == 2 && Voxel(2, 0, 1) in BoxSet(e);
    forall v | v in BoxSet(e) && Label(c.data, v) > 0 ensures Label(c.data, v) in {1, 2} {
      TwoTubesLabels(v);
    }
    assert Voxel(0, 0, 0) in VoxelsOf(c, 1) && Voxel(1, 0, 0) in VoxelsOf(c, 1);
    forall v | v in VoxelsOf(c, 1) ensures c.coords[0][v.t] in {0.0, 1.0} {
      TwoTubesLabels(v);
    }
  }
}
