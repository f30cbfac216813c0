# cubedynamics tube pipeline, modelled in Dafny

This project models the tube-detection core of `cubedynamics`:
- thresholding an NDVI cube into a suitability mask;
- labelling the 3-D connected components ("tubes") of that mask across (time, y, x);
- summarising each tube in a ranked metrics table;
- selecting one tube;
- turning the selected tube into a vase definition, a time-ordered list of hull polygons.

It also models two standalone helpers that sit beside this pipeline:
- the GeoJSON bounding-box helpers of the gridMET streaming module;
- the time/y/x inference of `utils/dims.py`.

Modules, in dependency order:

| file | module | models |
|---|---|---|
| `errors.dfy` | `Errors` | the `ValueError` / `TypeError` / `OverflowError` raised by the core, each with the reason its message gives; `Result`, `Option` |
| `grids.dfy` | `Grids` | a 3-D DataArray (`Cube`: dim names, coordinate axes, nested data); the dims check; `transpose` as an axis permutation with its round trip |
| `tube_mask.dfy` | `TubeMask` | `compute_suitability_from_ndvi` |
| `tube_label.dfy` | `TubeLabel` | `_connectivity_structure`; `scipy.ndimage.label` as a flood fill over an `array3`; `label_tubes` |
| `aggregates.dfy` | `Aggregates` | the pandas reductions: `min`, `max`, `nunique`, `size`, `mean` |
| `tube_metrics.dfy` | `TubeMetrics` | `compute_tube_metrics`, as the nonzero frame, the group-by and the two-key descending sort |
| `tube_vase.dfy` | `TubeVase` | `_hull_to_polygon`; `tube_to_vase_definition` with its loop over time steps |
| `tubes_verb.dfy` | `TubesVerb` | steps 1 to 5 of the `tubes` verb's inner function: mask rule, labelling, metrics, selection, vase |
| `geojson.dfy` | `GeoJson` | `_extract_coordinates` and `_geojson_bounds` over a JSON value type |
| `dims.dfy` | `Dims` | `_infer_time_y_x_dims`, with the configured `TIME_DIM` as a parameter |

## Modelling choices

**Cubes.**
- A DataArray is `Grids.Cube<T>`: three distinct dim names, one coordinate sequence per dim, and the data as nested sequences in dims order.
- `transpose(time_dim, y_dim, x_dim)` is `Grids.Align`, a reordering by an axis permutation (`Perm`).
- `AlignRoundTrip` proves that transposing back restores the cube exactly. That is what `label_tubes` relies on when it returns its result in the mask's original dims.
- When two of the requested dim names coincide, xarray's transpose raises a ValueError. The model gives `NotPermutation` for this case.

**Labelling.**
- `scipy.ndimage.label` is written out as a labelling algorithm, `TubeLabel.LabelComponents`:
  - a raster scan over a mutable `array3<int>`;
  - each unlabelled true voxel starts a flood fill with a worklist.
- It is proved against the relation `IsLabelling`:
  - background is exactly the false voxels;
  - ids lie in 1..count and every id is used;
  - adjacent true voxels share a label;
  - voxels with the same label are joined by a path;
  - ids are numbered in the raster order of each component's first voxel.
- A structure of rank 3 and connectivity k links two voxels whose offsets are each at most 1 and sum to at most k:
  - k = 1 is the 6-neighbourhood;
  - k = 3 is the 26-neighbourhood.

**Metrics.**
- The DataFrame is the sequence of observations `(tube_id, time, y, x)` in `np.nonzero` (row-major) order.
- The group-by gives one row per id, in ascending id order.
- `sort_values(..., ascending=[False, False])` is a stable insertion sort on (duration, n_voxels) descending.
- `MetricsFaithful` ties every row back to the cube (`Summarises`):
  - the row's tube occupies exactly those voxels;
  - it touches exactly those time values;
  - its extents are the min and max of the touched coordinate values;
  - its per-time-step mean is n_voxels / duration, and its per-time-step max is the greatest number of its voxels at one time value.

**Geometry.**
- shapely is an oracle, `TubeVase.Geometry`, a record of functions passed as a parameter:
  - `convexHull`;
  - `isEmpty`;
  - `isPolygon` (for `isinstance(..., Polygon)`);
  - `isValid`;
  - `buffer`.
- Everything the core decides from these answers is modelled and proved.

**JSON values.**
- GeoJSON input is a `GeoJson.Json` value.
- Python's `bool` is an `int`, so it counts as a number.
- `float(s)` of a string goes through a `parse` oracle.
- `float(i)` of an int whose magnitude is at least 2^1024 - 2^970 (it would round to 2^1024) is Python's `OverflowError`.

## Where the code and the design description differ (the model follows the code)

- **Error types:** the code raises `ValueError` for missing dims, bad connectivity, an unknown rule, a bad selector, a missing tube id and zero sections. It raises `TypeError` for a custom rule that does not return a DataArray. It has no dedicated error types.
- **Degenerate hulls:** the code tries `buffer(0)` before the small `buffer(1e-9)`. A hull that is already a `Polygon` is returned unchecked by `_hull_to_polygon`; its validity is checked afterwards by the caller.
- **Section order:**
  - Sections follow the index order of the time axis (`SectionsInAxisOrder`).
  - Their times strictly increase only when the time coordinate does.
  - The code never checks that it does.
- **Selecting "longest" or "largest":** the code sorts again and takes `iloc[0]`. Among rows tied on both keys, this is the first row of the metrics table (`FirstBest`).
- **Cube dims:** cubes are exactly 3-D. The `cube` argument of `tube_to_vase_definition` is never read by the code, so the model leaves it out.

## Model

| member | source | states |
|---|---|---|
| Grids.CheckDims | src/cubedynamics/tubes.py:39-41 | no error iff all three names are dims; otherwise the first missing of time, y, x is reported, in that order |
| Grids.AxisOrder | src/cubedynamics/tubes.py:81 | the transpose succeeds iff the three names are distinct, and then reorders the dims to exactly (time, y, x); otherwise a ValueError |
| Grids.Align | src/cubedynamics/tubes.py:125 | the transposed cube is well formed, with dims and coordinate axes reordered by the permutation |
| Grids.Transpose | src/cubedynamics/tubes.py:125-126 | the transposed values form a box of the permuted shape, and entry i is the original entry at the permuted index |
| Grids.TransposeRoundTrip | src/cubedynamics/tubes.py:93-95 | transposing by p and then by its inverse gives back the original data |
| Grids.AlignRoundTrip | src/cubedynamics/tubes.py:80-95 | aligning to (time, y, x) and back to the original dims restores the cube: dims, coordinates and data |
| Grids.AlignIdentity | src/cubedynamics/tubes.py:125 | a cube already in (time, y, x) order is unchanged by the transpose |
| Grids.PermuteInverse | src/cubedynamics/tubes.py:80-95 | reordering dims by p and then by its inverse restores them |
| Grids.InverseInverse | src/cubedynamics/tubes.py:93-95 | the inverse of the inverse axis order is the order itself |
| TubeMask.ComputeSuitability | src/cubedynamics/tubes.py:22-46 | errors exactly when a dim is missing, with that dim; otherwise same dims and coordinates, and a voxel is true iff its value is a number with lo <= v <= hi (NaN gives false) |
| TubeLabel.ConnectivityStructure | src/cubedynamics/tubes.py:49-54 | 6 gives structure connectivity 1, 26 gives 3, anything else is a ValueError |
| TubeLabel.FaceAdjacency | src/cubedynamics/tubes.py:50-51 | under connectivity 1, neighbours differ by one step along exactly one axis |
| TubeLabel.FullAdjacency | src/cubedynamics/tubes.py:52-53 | under connectivity 3, neighbours are the other voxels of the 3x3x3 block |
| TubeLabel.AdjacentSymmetric | src/cubedynamics/tubes.py:49-54 | adjacency is symmetric |
| TubeLabel.Neighbours | src/cubedynamics/tubes.py:84 | the neighbour set is exactly the in-box voxels adjacent to u |
| TubeLabel.LabelComponents | src/cubedynamics/tubes.py:84 | the label grid has the mask's extent and is a labelling of it: background iff false, ids 1..count all used, adjacent true voxels agree, same id implies connected, ids in raster order of first voxels |
| TubeLabel.Flood | src/cubedynamics/tubes.py:84 | one flood fill gives the seed the next id and labels its whole component, keeping the labelling invariant and the scan position |
| TubeLabel.ScanRow | src/cubedynamics/tubes.py:84 | scanning one row floods every new component met and moves the scan invariant to the end of the row |
| TubeLabel.ScanPlane | src/cubedynamics/tubes.py:84 | scanning one time step row by row moves the scan invariant to the end of the step |
| TubeLabel.Conclude | src/cubedynamics/tubes.py:84 | once every true voxel is scanned and no flood is pending, the grid is a labelling with one component per seed |
| TubeLabel.LabelsAreComponents | src/cubedynamics/tubes.py:84 | two true voxels share a label iff they are connected through true voxels |
| TubeLabel.ConnectedSameLabel | src/cubedynamics/tubes.py:84 | connected true voxels share a label |
| TubeLabel.PathKeepsLabel | src/cubedynamics/tubes.py:84 | every voxel along a path of true voxels has the label of the path's start |
| TubeLabel.JoinPaths | src/cubedynamics/tubes.py:84 | two paths from a common start connect their ends |
| TubeLabel.LabellingConserves | src/cubedynamics/tubes.py:84-97 | the true voxels are exactly the voxels with a positive label, and the ids in use are exactly 1..tube_count |
| TubeLabel.NoTrueNoTubes | src/cubedynamics/tubes.py:84-97 | an all-false mask labels every voxel 0 and has tube count 0 |
| TubeLabel.LabelTubes | src/cubedynamics/tubes.py:57-99 | the missing dim, then a non-distinct dim order, then a bad connectivity are reported, in that order; Ok iff none; the result keeps the mask's dims and coordinates, records the connectivity, and transposed to (time, y, x) is a labelling of the transposed mask under the chosen structure |
| TubeLabel.ThreeDiagonalTubes | tests/test_tubes.py:27-43 | the three diagonally placed voxels of the test mask make three tubes under 6-connectivity |
| TubeLabel.DiagonalApart | tests/test_tubes.py:27-43 | in that mask, two distinct true voxels get distinct positive labels under 6-connectivity |
| TubeLabel.DiagonalId | tests/test_tubes.py:27-43 | each id in use in that mask labels one of its three true voxels |
| TubeLabel.OneDiagonalTube | src/cubedynamics/tubes.py:52-53 | the same mask under 26-connectivity is a single tube |
| Aggregates.Min | src/cubedynamics/tubes.py:165-170 | the minimum is an entry of the column and at most every entry |
| Aggregates.Max | src/cubedynamics/tubes.py:165-170 | the maximum is an entry of the column and at least every entry |
| Aggregates.Distinct | src/cubedynamics/tubes.py:163 | the distinct values are exactly the column's values, each once |
| Aggregates.DistinctCount | src/cubedynamics/tubes.py:163 | `nunique` is the size of the set of values |
| Aggregates.NoDupsCard | src/cubedynamics/tubes.py:163 | a list without repeats has as many entries as distinct values |
| Aggregates.Count | src/cubedynamics/tubes.py:172 | a count is at most the column length, and positive iff the value occurs |
| Aggregates.Counts | src/cubedynamics/tubes.py:172 | one count per group key, in key order |
| Aggregates.CountsSum | src/cubedynamics/tubes.py:164-172 | the per-time-step counts of a tube add up to its voxel count |
| Aggregates.MaxCount | src/cubedynamics/tubes.py:174 | the maximum count, taken as `Max` of the counts as numbers, is one of the counts and at least every count |
| Aggregates.MeanAtMostMax | src/cubedynamics/tubes.py:173-174 | the mean cells per time step is at most the maximum |
| TubeMetrics.Nonzero | src/cubedynamics/tubes.py:127-145 | exactly the voxels with a positive label, in strictly increasing row-major order |
| TubeMetrics.Frame | src/cubedynamics/tubes.py:146-159 | one observation per nonzero voxel: its id and its time, y and x coordinate values |
| TubeMetrics.Select | src/cubedynamics/tubes.py:161 | a group holds exactly the observations with that id |
| TubeMetrics.Keys | src/cubedynamics/tubes.py:161 | the group keys are strictly ascending and are exactly the ids observed |
| TubeMetrics.Matching | src/cubedynamics/tubes.py:146 | the voxels with a given id, in the order they had |
| TubeMetrics.Grouped | src/cubedynamics/tubes.py:161-190 | one row per group key |
| TubeMetrics.GroupedIdsAscend | src/cubedynamics/tubes.py:178 | the grouped rows have strictly ascending tube ids |
| TubeMetrics.GroupedIds | src/cubedynamics/tubes.py:161-178 | the grouped rows' ids are exactly the ids observed |
| TubeMetrics.GroupSummary | src/cubedynamics/tubes.py:163-174 | the row built from all voxels of one id summarises that tube, its per-time-step max being the greatest voxel count at one time value |
| TubeMetrics.CountMapped | src/cubedynamics/tubes.py:172 | counting a value in a column computed entry by entry from a list without repeats counts the entries that give that value |
| TubeMetrics.CountOneTime | src/cubedynamics/tubes.py:172 | counting a time value in a group's time column counts the group's voxels at that time value |
| TubeMetrics.TimesOfGroup | src/cubedynamics/tubes.py:163-164 | a group's time column holds the time coordinate value of each of its voxels, in order |
| TubeMetrics.CountsAtTimes | src/cubedynamics/tubes.py:172 | each time value is counted in a tube's time column as often as the tube has voxels at it |
| TubeMetrics.MaxOfCounts | src/cubedynamics/tubes.py:172-174 | the per-time-step max of a tube is the greatest number of its voxels at one time value, and that number is attained |
| TubeMetrics.MaxIsGreatest | src/cubedynamics/tubes.py:172-174 | the largest count of a column's distinct values is attained by one value and at least the count of every value |
| TubeMetrics.CountsBound | src/cubedynamics/tubes.py:174 | the greatest of the counts of a list of values is the count of one value and bounds the count of every value |
| TubeMetrics.GroupedRow | src/cubedynamics/tubes.py:161-190 | every grouped row summarises its tube in the aligned cube, in all eleven columns |
| TubeMetrics.ColumnValues | src/cubedynamics/tubes.py:163-171 | the time, y and x columns of a group hold exactly the tube's touched coordinate values |
| TubeMetrics.MeanOfCounts | src/cubedynamics/tubes.py:172-174 | the mean cells per time step is n_voxels / duration and at most the max |
| TubeMetrics.ObservedIds | src/cubedynamics/tubes.py:145-146 | the ids observed are exactly the positive labels present in the cube |
| TubeMetrics.SelectFrame | src/cubedynamics/tubes.py:146-161 | selecting a group from the frame is the frame of that tube's voxels |
| TubeMetrics.Insert | src/cubedynamics/tubes.py:192-194 | inserting adds exactly one row to the multiset of rows |
| TubeMetrics.InsertRanked | src/cubedynamics/tubes.py:192-194 | inserting a row with a smaller id into a ranked table keeps it ranked |
| TubeMetrics.SortRows | src/cubedynamics/tubes.py:192-194 | the sorted table is a permutation of the grouped rows |
| TubeMetrics.SortRanked | src/cubedynamics/tubes.py:192-194 | rows in ascending id order come out ranked: (duration, n_voxels) descending, ties in ascending id order |
| TubeMetrics.RankedIsSorted | src/cubedynamics/tubes.py:192-194 | each adjacent pair has a greater duration, or equal duration and at least as many voxels |
| TubeMetrics.PermutedTable | src/cubedynamics/tubes.py:192-194 | the sorted table has the same rows and ids as the grouped one, without repeated ids, and is empty iff it is |
| TubeMetrics.ComputeTubeMetrics | src/cubedynamics/tubes.py:102-196 | a missing dim or a non-distinct dim order is an error, and Ok otherwise; the table has the eleven columns and its rows are ranked |
| TubeMetrics.MetricsRows | src/cubedynamics/tubes.py:125-194 | the table rows are the sorted groups of the aligned cube's observations |
| TubeMetrics.TableFaithful | src/cubedynamics/tubes.py:129-194 | the rows of the table built from an aligned cube have exactly its positive labels as ids, each once, each summarising its tube in all eleven columns; empty iff no label is positive |
| TubeMetrics.MetricsFaithful | src/cubedynamics/tubes.py:102-196 | the table has exactly the positive labels as ids, each once; each row's duration, voxel count, time span, y and x extents are those of its tube, its cells-per-time-step mean is n_voxels / duration and its max the greatest number of its voxels at one time value; the table is empty iff no voxel is labelled |
| TubeMetrics.MetricsInOrder | src/cubedynamics/tubes.py:125-163 | for a cube already in (time, y, x) order, the table's ids are its positive labels and each duration is the number of distinct time values the tube touches |
| TubeMetrics.TwoTubesLabels | tests/test_tubes.py:46-57 | the test cube holds labels 0, 1 and 2 only, and tube 1 lies in the first two time steps |
| TubeMetrics.TwoTubesSets | tests/test_tubes.py:46-57 | the test cube's positive labels are {1, 2}, and tube 1 touches times 0 and 1 |
| TubeMetrics.TwoTubesMetrics | tests/test_tubes.py:46-77 | the test cube's table has ids {1, 2}, and tube 1 lasts two time steps |
| TubeVase.HullToPolygon | src/cubedynamics/tubes.py:199-213 | None iff the hull is empty, or it is not a polygon and neither buffer(0) nor buffer(1e-9) is a valid polygon; a polygon hull is returned as is; a repaired hull is a valid polygon |
| TubeVase.SlicePoints | src/cubedynamics/tubes.py:259-260 | the points are exactly the (x, y) coordinate pairs of the slice's voxels with that id |
| TubeVase.PointsFrom | src/cubedynamics/tubes.py:259-260 | the points from a scan position on are the coordinate pairs of the id's voxels at or after it |
| TubeVase.PointsIffPresent | src/cubedynamics/tubes.py:256-263 | a slice has points iff the id occurs in it, so the two skip checks agree |
| TubeVase.SectionAt | src/cubedynamics/tubes.py:253-272 | at most one section per time step; a section has the step's time and the valid polygon repaired from the hull of the slice's points; none iff there are no points, no polygon, or an invalid one |
| TubeVase.Steps | src/cubedynamics/tubes.py:252 | one entry per time coordinate, each the section of that step |
| TubeVase.Contributing | src/cubedynamics/tubes.py:252-272 | the time indices with a section, strictly increasing |
| TubeVase.FlattenSingletons | src/cubedynamics/tubes.py:250-272 | concatenating steps of at most one section each gives one section per contributing step, in step order |
| TubeVase.SectionsInAxisOrder | src/cubedynamics/tubes.py:250-272 | the k-th section is the section of the k-th contributing time index, and these indices strictly increase |
| TubeVase.CollectSections | src/cubedynamics/tubes.py:250-272 | the loop over time steps appends exactly the model's sections |
| TubeVase.TubeToVase | src/cubedynamics/tubes.py:216-277 | a hull method other than "convex", then a missing dim, then a non-distinct dim order are reported, in that order; no sections is a ValueError naming the tube; otherwise the vase holds the sections in time order with the given interp |
| TubesVerb.SuitabilityMask | src/cubedynamics/verbs/tubes.py:41-55 | "ndvi" is the NDVI threshold; another name is a ValueError; a custom rule must return a DataArray (else TypeError) with the input's dims (else ValueError) |
| TubesVerb.FirstBest | src/cubedynamics/verbs/tubes.py:78-82 | no row ranks above the chosen one under the key, and it ranks above every earlier row |
| TubesVerb.SelectTube | src/cubedynamics/verbs/tubes.py:77-90 | "longest"/"largest" give the first best row's id under their key; another name is a ValueError; an explicit id is accepted iff it is in the table |
| TubesVerb.LongestIsFirst | src/cubedynamics/verbs/tubes.py:79-80 | on the ranked metrics table, "longest" is the first row's tube |
| TubesVerb.LargestVersusLongest | src/cubedynamics/verbs/tubes.py:79-82 | with one tube bigger and the other longer, "largest" and "longest" choose them respectively, in either table order |
| TubesVerb.SelectedRow | src/cubedynamics/verbs/tubes.py:78-85 | the selected row has the maximum duration ("longest") or the maximum voxel count ("largest") |
| TubesVerb.SelectedAmong | src/cubedynamics/verbs/tubes.py:78-90 | on a faithful table, the selected id is a tube, and no tube lasts longer or has more voxels, as requested |
| TubesVerb.SelectedTube | src/cubedynamics/verbs/tubes.py:66-90 | the selected id labels some voxel, and no tube touches more time values ("longest") or holds more voxels ("largest") |
| TubesVerb.SelectionChosen | src/cubedynamics/verbs/tubes.py:66-90 | the tube a selector picks from the metrics table is a labelled tube, the given id, or one no tube outlasts ("longest") or outgrows ("largest") |
| TubesVerb.RowOf | src/cubedynamics/verbs/tubes.py:89 | an id in the table has a row |
| TubesVerb.Pipeline | src/cubedynamics/verbs/tubes.py:40-102 | mask errors, then a missing dim, a non-distinct dim order and a bad connectivity are reported, in that order; otherwise the tubes are a labelling of the mask, and the outcome is no tubes, the selection error, the hull method error, no sections, or the vase of the selected tube with "nearest"; a vase is always the non-empty sections of a labelled tube that the selector asks for (the given id, or one no tube outlasts or outgrows) |
| GeoJson.Find | src/cubedynamics/gridmet_streaming.py:131 | the index of the key when it is present (a mapping's keys are unique, so it is the only entry with that key); None iff no entry has the key |
| GeoJson.ToFloat | src/cubedynamics/gridmet_streaming.py:145-146 | bools and floats convert; an int converts to its value iff its magnitude is below the double overflow bound and is an OverflowError otherwise; a string converts iff Python's parser accepts it; every failure reports the float conversion |
| GeoJson.IntPositions | src/cubedynamics/gridmet_streaming.py:144-147 | a position whose first entry is an int beyond the double range is an OverflowError whatever follows; within range it converts exactly |
| GeoJson.ExtractCoordinates | src/cubedynamics/gridmet_streaming.py:127-153 | the recursive extraction computes exactly the positions (or the error) the GeoJSON model gives |
| GeoJson.ExtractAll | src/cubedynamics/gridmet_streaming.py:148-151 | the loop over parts collects their positions in order, stopping at the first error |
| GeoJson.CoordinatesOfAppend | src/cubedynamics/gridmet_streaming.py:148-151 | the positions of two runs of parts are the positions of each, concatenated |
| GeoJson.JoinAssoc | src/cubedynamics/gridmet_streaming.py:135 | extending collected positions is associative, errors included |
| GeoJson.FeatureCollectionConcat | src/cubedynamics/gridmet_streaming.py:132-136 | splitting a collection's features splits its positions the same way; no features key gives none |
| GeoJson.FeatureCollectionParts | src/cubedynamics/gridmet_streaming.py:132-136 | a collection's positions are those of its features in order |
| GeoJson.FeatureGeometry | src/cubedynamics/gridmet_streaming.py:137-138 | a Feature's positions are its geometry's; none without a geometry or with a null one |
| GeoJson.PositionFromFirstTwo | src/cubedynamics/gridmet_streaming.py:143-147 | a list starting with two numbers is one position of its first two entries; one number alone gives none |
| GeoJson.NothingElse | src/cubedynamics/gridmet_streaming.py:141-153 | strings, null, numbers, the empty list and lists starting with a string hold no positions |
| GeoJson.GeojsonBounds | src/cubedynamics/gridmet_streaming.py:107-124 | a non-mapping is a TypeError; extraction errors pass through; no positions is a ValueError; otherwise the bounds contain every position and each bound is attained |
| GeoJson.Attained | src/cubedynamics/gridmet_streaming.py:117-124 | a value among the longitudes or latitudes is that of some position |
| Dims.Lower | src/cubedynamics/utils/dims.py:58-61 | same length, with the letters A-Z lowered and nothing else changed |
| Dims.First | src/cubedynamics/utils/dims.py:60-63 | the first index whose flag is set, or None iff none is |
| Dims.Longest | src/cubedynamics/utils/dims.py:76-78 | an index of greatest size, with every earlier dim strictly smaller |
| Dims.TimeIndex | src/cubedynamics/utils/dims.py:57-78 | the chosen time dim is a dim of the object |
| Dims.NamedTimeFirst | src/cubedynamics/utils/dims.py:57-63 | with a time-like name present, time is the first dim with such a name |
| Dims.DatetimeTimeSecond | src/cubedynamics/utils/dims.py:65-72 | without a time-like name, time is the first dim with datetime coordinates |
| Dims.LongestTimeLast | src/cubedynamics/utils/dims.py:74-78 | with neither, three or more dims give the first longest dim, and two dims give no time dim |
| Dims.SpatialMembers | src/cubedynamics/utils/dims.py:80 | the spatial dims are exactly the dims not named like the time dim |
| Dims.SpatialRemovesOne | src/cubedynamics/utils/dims.py:80 | with distinct names, removing the time dim removes just it and keeps the others in order |
| Dims.SpatialNone | src/cubedynamics/utils/dims.py:80 | without a dim of that name nothing is removed |
| Dims.DimsOf | src/cubedynamics/utils/dims.py:36-51 | a DataArray's own dims; a Dataset needs exactly one data variable (else ValueError); anything else is a TypeError |
| Dims.FindTimeLike | src/cubedynamics/utils/dims.py:57-63 | the loop stops at the first dim whose lowered name is a time candidate, or finds none iff there is none |
| Dims.FindDatetime | src/cubedynamics/utils/dims.py:65-72 | the loop stops at the first dim with datetime coordinates, or finds none iff there is none |
| Dims.FindTime | src/cubedynamics/utils/dims.py:57-78 | the time dim chosen by the three rules, in order of preference |
| Dims.SpatialPair | src/cubedynamics/utils/dims.py:80-87 | fewer than two other dims is a ValueError; otherwise y and x are the last two dims other than time, and both differ from it |
| TubeMetrics.ColumnExtent | src/cubedynamics/tubes.py:165-170 | the min and max of a coordinate column are the least and greatest coordinate values the tube touches |
| TubeMetrics.RowSummarises | src/cubedynamics/tubes.py:163-174 | a row built from the columns of all of a tube's voxels states its size, duration, span, extents, mean cells per time step, and max cells per time step as the greatest voxel count at one time value |
| Dims.InferTimeYXDims | src/cubedynamics/utils/dims.py:16-87 | errors in source order (object type, variable count, fewer than 2 dims, fewer than 2 spatial dims); otherwise time by the three rules, and y, x the last two other dims, both different from time |
| Dims.TimeAndXRejected | src/cubedynamics/utils/dims.py:80-84 | dims (time, x) resolve time and leave one spatial dim, which is rejected |

## Left out

- 4-D cubes (a band axis): the model's DataArray has exactly three dims, the ones all four backend functions transpose to.
- shapely geometry (`MultiPoint`, `convex_hull`, `buffer`, `is_valid`) is an oracle parameter; no geometry is computed.
- Floating point: data, coordinates and time values are exact reals (an in-range int coordinate converts to its exact value, where `float()` rounds it to 53 bits); NaN data is `Missing`, and NaN or infinite coordinates are not modelled; `datetime64` times are reals.
- The `name` attribute (`ndvi_suitability`, `tube_id`) and the bool/int dtypes of the returned DataArrays carry no behaviour and are not modelled; `tube_count` and `connectivity` are fields of `TubeLabel.Tubes`.
- scipy's own two-pass labelling algorithm is replaced by a flood fill proved to meet the same output relation, so ids, count and background agree; its run time and memory are not modelled.
- Step 6 of the verb, `vase_verb(...)` and the plot keyword arguments: plotting is outside this model.
- TubesVerb.SuitabilityMask: a custom rule is given by what it returns (not a DataArray, or a mask); calling arbitrary Python code is not modelled.
- The unused `cube` argument of `tube_to_vase_definition` is dropped.
- `int(select)` for a non-integer selector and `int(row["tube_id"])` are not modelled: explicit selectors are integers.
- Streaming, HTTP and caching of `gridmet_streaming.py` (everything but the two GeoJSON helpers) are I/O and not modelled.
- GeoJson: tuples, bytes and other `Mapping`/`Sequence` types are represented by the JSON list, string and dictionary cases; `float()` of a string is the `parse` oracle.
- GeoJson.GeojsonBounds: `min`/`max` over NaN coordinates are not modelled.
- Dims.Lower: lowers ASCII letters only, not the full Unicode case mapping of `str.lower()`.
- Dims: `TIME_DIM` from `cubedynamics.config` is the parameter `timeName`; a dim without a coordinate counts as not datetime, as `dim in da.coords` fails for it.
