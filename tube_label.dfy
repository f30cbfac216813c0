/**
 * `label_tubes`: 3-D connected-component labelling of a boolean mask in
 * (time, y, x) order, as `scipy.ndimage.label` computes it, here by a raster
 * scan that floods each new component from its first voxel with a worklist.
 */
module TubeLabel {
  import opened Errors
  import opened Grids

  // ---------------------------------------------------------------- connectivity

  /** The `connectivity` argument of `generate_binary_structure(rank=3, ...)`:
      1 marks the 6 face neighbours, 3 marks all 26 neighbours. */
  type Rank3Connectivity = k: nat | k == 1 || k == 3 witness 1

  /** `_connectivity_structure`: 6 and 26 select the two structures; any other value is a ValueError. */
  function ConnectivityStructure(connectivity: int): (r: Result<Rank3Connectivity>)
    ensures r.Ok? <==> connectivity == 6 || connectivity == 26
    ensures connectivity == 6 ==> r == Ok(1)
    ensures connectivity == 26 ==> r == Ok(3)
    ensures r.Err? ==> r.error == ValueError(BadConnectivity(connectivity))
  {
    if connectivity == 6 then Ok(1)
    else if connectivity == 26 then Ok(3)
    else Err(ValueError(BadConnectivity(connectivity)))
  }

  function Dist(a: nat, b: nat): nat {
    if a <= b then b - a else a - b
  }

  /** The binary structure of rank 3 marks an offset when each of its
      coordinates is -1, 0 or 1 and their absolute values sum to at most k;
      two distinct voxels are linked when their offset is marked. */
  predicate Adjacent(k: Rank3Connectivity, u: Voxel, v: Voxel) {
    u != v && Dist(u.t, v.t) <= 1 && Dist(u.y, v.y) <= 1 && Dist(u.x, v.x) <= 1 &&
    Dist(u.t, v.t) + Dist(u.y, v.y) + Dist(u.x, v.x) <= k
  }

  /** Under 6-connectivity the neighbours differ by 1 along exactly one axis. */
  lemma FaceAdjacency(u: Voxel, v: Voxel)
    ensures Adjacent(1, u, v) <==>
      (Dist(u.t, v.t) == 1 && u.y == v.y && u.x == v.x) ||
      (u.t == v.t && Dist(u.y, v.y) == 1 && u.x == v.x) ||
      (u.t == v.t && u.y == v.y && Dist(u.x, v.x) == 1)
  {
  }

  /** Under 26-connectivity the neighbours are the other voxels of the 3x3x3 block. */
  lemma FullAdjacency(u: Voxel, v: Voxel)
    ensures Adjacent(3, u, v) <==>
      u != v && Dist(u.t, v.t) <= 1 && Dist(u.y, v.y) <= 1 && Dist(u.x, v.x) <= 1
  {
  }

  lemma AdjacentSymmetric(k: Rank3Connectivity, u: Voxel, v: Voxel)
    ensures Adjacent(k, u, v) <==> Adjacent(k, v, u)
  {
  }

  /** The in-box neighbours of `u`. */
  function Neighbours(k: Rank3Connectivity, e: Extent, u: Voxel): (s: set<Voxel>)
    ensures forall w :: w in s <==> InBox(w, e) && Adjacent(k, u, w)
  {
    set w | w in BoxSet(e) && Adjacent(k, u, w)
  }

  // ---------------------------------------------------------------- components

  /** The mask value at `v`; false outside the grid. */
  function Lit(mask: Grid<bool>, v: Voxel): bool {
    InGrid(mask, v) && mask[v.t][v.y][v.x]
  }

  /** The label at `v`; 0 outside the grid. */
  function LabelAt(labels: Grid<int>, v: Voxel): int {
    if InGrid(labels, v) then labels[v.t][v.y][v.x] else 0
  }

  /** A chain of true voxels, each linked to the next. */
  ghost predicate IsPath(mask: Grid<bool>, k: Rank3Connectivity, p: seq<Voxel>) {
    |p| > 0 &&
    (forall i :: 0 <= i < |p| ==> Lit(mask, p[i])) &&
    (forall i :: 0 <= i < |p| - 1 ==> Adjacent(k, p[i], p[i + 1]))
  }

  /** `u` and `v` lie in the same connected component of the mask. */
  ghost predicate Connected(mask: Grid<bool>, k: Rank3Connectivity, u: Voxel, v: Voxel) {
    exists p :: IsPath(mask, k, p) && p[0] == u && p[|p| - 1] == v
  }

  /** The positive labels in use. */
  ghost function Ids(e: Extent, labels: Grid<int>): set<int> {
    set v | v in BoxSet(e) && LabelAt(labels, v) > 0 :: LabelAt(labels, v)
  }

  /** Label 0 is background: exactly the false voxels. */
  ghost predicate BackgroundIsFalse(mask: Grid<bool>, e: Extent, labels: Grid<int>) {
    forall v {:trigger LabelAt(labels, v)} :: InBox(v, e) ==> (LabelAt(labels, v) == 0 <==> !Lit(mask, v))
  }

  ghost predicate IdsInRange(e: Extent, labels: Grid<int>, count: nat) {
    forall v {:trigger LabelAt(labels, v)} :: InBox(v, e) ==> 0 <= LabelAt(labels, v) <= count
  }

  ghost predicate IdsUsed(e: Extent, labels: Grid<int>, count: nat) {
    forall id :: 1 <= id <= count ==> id in Ids(e, labels)
  }

  /** Linked true voxels share a label. */
  ghost predicate NeighboursAgree(mask: Grid<bool>, e: Extent, k: Rank3Connectivity, labels: Grid<int>) {
    forall u, v {:trigger Adjacent(k, u, v)} :: InBox(u, e) && InBox(v, e) && Adjacent(k, u, v) && Lit(mask, u) && Lit(mask, v) ==>
      LabelAt(labels, u) == LabelAt(labels, v)
  }

  /** Voxels sharing a positive label are connected. */
  ghost predicate SameLabelConnected(mask: Grid<bool>, e: Extent, k: Rank3Connectivity, labels: Grid<int>) {
    forall u, v {:trigger Connected(mask, k, u, v)} :: InBox(u, e) && InBox(v, e) && LabelAt(labels, u) != 0 && LabelAt(labels, u) == LabelAt(labels, v) ==>
      Connected(mask, k, u, v)
  }

  /** Some voxel labelled `id` comes before `v` in raster order. */
  ghost predicate SeenBefore(e: Extent, labels: Grid<int>, id: int, v: Voxel) {
    exists w :: InBox(w, e) && LabelAt(labels, w) == id && RasterBefore(w, v)
  }

  /** Ids follow the raster order of each component's first voxel: a voxel of
      a higher id is preceded by some voxel of every lower id. */
  ghost predicate RasterNumbered(e: Extent, labels: Grid<int>) {
    forall id, v {:trigger SeenBefore(e, labels, id, v)} :: InBox(v, e) && 0 < id < LabelAt(labels, v) ==> SeenBefore(e, labels, id, v)
  }

  /** What `scipy.ndimage.label(mask, structure)` returns, as a relation
      between the mask, the label grid and the feature count. */
  ghost predicate IsLabelling(mask: Grid<bool>, e: Extent, k: Rank3Connectivity, labels: Grid<int>, count: nat) {
    BackgroundIsFalse(mask, e, labels) && IdsInRange(e, labels, count) && IdsUsed(e, labels, count) &&
    NeighboursAgree(mask, e, k, labels) && SameLabelConnected(mask, e, k, labels) &&
    RasterNumbered(e, labels)
  }

  // ---------------------------------------------------------------- properties of a labelling

  function Reverse<X>(s: seq<X>): (r: seq<X>)
    ensures |r| == |s| && forall i :: 0 <= i < |s| ==> r[i] == s[|s| - 1 - i]
  {
    if s == [] then [] else Reverse(s[1..]) + [s[0]]
  }

  lemma ReversePath(mask: Grid<bool>, k: Rank3Connectivity, p: seq<Voxel>)
    requires IsPath(mask, k, p)
    ensures IsPath(mask, k, Reverse(p))
  {
    var r := Reverse(p);
    forall i | 0 <= i < |r| - 1 ensures Adjacent(k, r[i], r[i + 1]) {
      assert r[i] == p[|p| - 1 - i] && r[i + 1] == p[|p| - 2 - i];
      AdjacentSymmetric(k, p[|p| - 2 - i], p[|p| - 1 - i]);
    }
  }

  /** Two paths from a common start join into a path between their ends. */
  lemma JoinPaths(mask: Grid<bool>, k: Rank3Connectivity, p: seq<Voxel>, q: seq<Voxel>)
    requires IsPath(mask, k, p) && IsPath(mask, k, q) && p[0] == q[0]
    ensures Connected(mask, k, p[|p| - 1], q[|q| - 1])
  {
    ReversePath(mask, k, p);
    var r := Reverse(p);
    var j := r + q[1..];
    forall i | 0 <= i < |j| - 1 ensures Adjacent(k, j[i], j[i + 1]) {
      if i < |r| - 1 {
        assert j[i] == r[i] && j[i + 1] == r[i + 1];
      } else {
        assert j[i] == q[i - |r| + 1] && j[i + 1] == q[i - |r| + 2];
      }
    }
    forall i | 0 <= i < |j| ensures Lit(mask, j[i]) {
      if i >= |r| { assert j[i] == q[i - |r| + 1]; }
    }
    assert IsPath(mask, k, j);
    assert j[0] == p[|p| - 1] && j[|j| - 1] == q[|q| - 1];
  }

  /** Every voxel along a path carries the label of its start. */
  lemma {:induction false} PathKeepsLabel(mask: Grid<bool>, e: Extent, k: Rank3Connectivity,
                                          labels: Grid<int>, p: seq<Voxel>, i: nat)
    requires Fits(mask, e) && NeighboursAgree(mask, e, k, labels)
    requires IsPath(mask, k, p) && i < |p|
    ensures LabelAt(labels, p[i]) == LabelAt(labels, p[0])
  {
    if i > 0 {
      PathKeepsLabel(mask, e, k, labels, p, i - 1);
      assert Adjacent(k, p[i - 1], p[i]);
      assert Lit(mask, p[i - 1]) && Lit(mask, p[i]);
      assert InBox(p[i - 1], e) && InBox(p[i], e);
    }
  }

  /** The labels are exactly the connected components: two true voxels share
      a label if and only if they are connected. */
  lemma LabelsAreComponents(mask: Grid<bool>, e: Extent, k: Rank3Connectivity,
                            labels: Grid<int>, count: nat, u: Voxel, v: Voxel)
    requires Fits(mask, e) && IsLabelling(mask, e, k, labels, count)
    requires InBox(u, e) && InBox(v, e) && Lit(mask, u) && Lit(mask, v)
    ensures LabelAt(labels, u) == LabelAt(labels, v) <==> Connected(mask, k, u, v)
  {
    if Connected(mask, k, u, v) {
      ConnectedSameLabel(mask, e, k, labels, u, v);
    }
  }

  lemma ConnectedSameLabel(mask: Grid<bool>, e: Extent, k: Rank3Connectivity, labels: Grid<int>, u: Voxel, v: Voxel)
    requires Fits(mask, e) && NeighboursAgree(mask, e, k, labels) && Connected(mask, k, u, v)
    ensures LabelAt(labels, u) == LabelAt(labels, v)
  {
    var p :| IsPath(mask, k, p) && p[0] == u && p[|p| - 1] == v;
    PathKeepsLabel(mask, e, k, labels, p, |p| - 1);
  }

  /** Conservation: the lit voxels of the mask are exactly the voxels with a
      positive label, and the ids in use are exactly 1..count. */
  lemma LabellingConserves(mask: Grid<bool>, e: Extent, k: Rank3Connectivity, labels: Grid<int>, count: nat)
    requires IsLabelling(mask, e, k, labels, count)
    ensures (set v | v in BoxSet(e) && Lit(mask, v)) == (set v | v in BoxSet(e) && LabelAt(labels, v) > 0)
    ensures forall id :: id in Ids(e, labels) <==> 1 <= id <= count
  {
    forall id | id in Ids(e, labels) ensures 1 <= id <= count {
      var v :| v in BoxSet(e) && LabelAt(labels, v) > 0 && LabelAt(labels, v) == id;
    }
  }

  // ---------------------------------------------------------------- the flood fill

  predicate ArrayFits(a: array3<int>, e: Extent) {
    a.Length0 == e.nt && a.Length1 == e.ny && a.Length2 == e.nx
  }

  /** The contents of the label array, as a grid. */
  function Snap(a: array3<int>): (g: Grid<int>)
    reads a
  {
    seq(a.Length0, t requires 0 <= t < a.Length0 reads a =>
      seq(a.Length1, y requires 0 <= y < a.Length1 reads a =>
        seq(a.Length2, x requires 0 <= x < a.Length2 reads a => a[t, y, x])))
  }

  /** The ghost grid `g` holds what the label array holds. */
  ghost predicate Mirrors(a: array3<int>, e: Extent, g: Grid<int>)
    reads a
  {
    ArrayFits(a, e) && Fits(g, e) && forall v :: InBox(v, e) ==> a[v.t, v.y, v.x] == LabelAt(g, v)
  }

  /** A mirrored array reads back as its ghost grid. */
  lemma SnapMirror(a: array3<int>, e: Extent, g: Grid<int>)
    requires Mirrors(a, e, g)
    ensures Snap(a) == g
  {
    var s := Snap(a);
    forall t | 0 <= t < e.nt ensures s[t] == g[t] {
      forall y | 0 <= y < e.ny ensures s[t][y] == g[t][y] {
        forall x | 0 <= x < e.nx ensures s[t][y][x] == g[t][y][x] {
          assert InBox(Voxel(t, y, x), e);
        }
      }
    }
  }

  /** `g` with `id` at `w`. */
  function Put(g: Grid<int>, w: Voxel, id: int): Grid<int>
    requires InGrid(g, w)
  {
    g[w.t := g[w.t][w.y := g[w.t][w.y][w.x := id]]]
  }

  ghost function Unlabelled(e: Extent, g: Grid<int>): set<Voxel> {
    set v | v in BoxSet(e) && LabelAt(g, v) == 0
  }

  ghost predicate Bounded(e: Extent, g: Grid<int>, n: nat) {
    forall v {:trigger LabelAt(g, v)} :: InBox(v, e) ==> 0 <= LabelAt(g, v) <= n
  }

  ghost predicate OnMask(mask: Grid<bool>, e: Extent, g: Grid<int>) {
    forall v {:trigger LabelAt(g, v)} :: InBox(v, e) && LabelAt(g, v) != 0 ==> Lit(mask, v)
  }

  /** seeds[i] carries id i + 1, and the seeds come in raster order. */
  ghost predicate SeedsOk(e: Extent, g: Grid<int>, seeds: seq<Voxel>) {
    (forall i :: 0 <= i < |seeds| ==> InBox(seeds[i], e) && LabelAt(g, seeds[i]) == i + 1) &&
    (forall i, j :: 0 <= i < j < |seeds| ==> RasterBefore(seeds[i], seeds[j]))
  }

  /** No voxel of a component comes before its seed. */
  ghost predicate SeedsFirst(e: Extent, g: Grid<int>, seeds: seq<Voxel>) {
    forall v {:trigger LabelAt(g, v)} :: InBox(v, e) && 0 < LabelAt(g, v) <= |seeds| ==> !RasterBefore(v, seeds[LabelAt(g, v) - 1])
  }

  /** `paths` leads from its component's seed to each labelled voxel. */
  ghost predicate PathsOk(mask: Grid<bool>, e: Extent, k: Rank3Connectivity, g: Grid<int>,
                          seeds: seq<Voxel>, paths: map<Voxel, seq<Voxel>>) {
    forall v {:trigger LabelAt(g, v)} :: InBox(v, e) && 0 < LabelAt(g, v) <= |seeds| ==>
      v in paths && IsPath(mask, k, paths[v]) &&
      paths[v][0] == seeds[LabelAt(g, v) - 1] && paths[v][|paths[v]| - 1] == v
  }

  ghost predicate FrontierOk(e: Extent, g: Grid<int>, frontier: set<Voxel>, id: int) {
    forall v :: v in frontier ==> InBox(v, e) && LabelAt(g, v) == id
  }

  /** All true neighbours of `v` carry its label. */
  ghost predicate Closed(mask: Grid<bool>, e: Extent, k: Rank3Connectivity, g: Grid<int>, v: Voxel) {
    forall w {:trigger Adjacent(k, v, w)} :: InBox(w, e) && Adjacent(k, v, w) && Lit(mask, w) ==> LabelAt(g, w) == LabelAt(g, v)
  }

  ghost predicate ClosedOutside(mask: Grid<bool>, e: Extent, k: Rank3Connectivity, g: Grid<int>, frontier: set<Voxel>) {
    forall v {:trigger Closed(mask, e, k, g, v)} :: InBox(v, e) && LabelAt(g, v) != 0 && v !in frontier ==> Closed(mask, e, k, g, v)
  }

  /** The label array between steps of the flood fill: components 1..|seeds|
      are labelled, seeds[i] is the first voxel of component i + 1, and every
      labelled voxel off the worklist has all its true neighbours labelled alike. */
  ghost predicate State(mask: Grid<bool>, e: Extent, k: Rank3Connectivity, g: Grid<int>,
                        seeds: seq<Voxel>, frontier: set<Voxel>, paths: map<Voxel, seq<Voxel>>) {
    Bounded(e, g, |seeds|) && OnMask(mask, e, g) && SeedsOk(e, g, seeds) && SeedsFirst(e, g, seeds) &&
    PathsOk(mask, e, k, g, seeds, paths) && FrontierOk(e, g, frontier, |seeds|) &&
    ClosedOutside(mask, e, k, g, frontier)
  }

  /** Every true voxel strictly before `pos` in raster order is labelled. */
  ghost predicate ScannedBefore(mask: Grid<bool>, e: Extent, g: Grid<int>, pos: Voxel) {
    forall v {:trigger LabelAt(g, v)} :: InBox(v, e) && RasterBefore(v, pos) && Lit(mask, v) ==> LabelAt(g, v) != 0
  }

  /** `g1` is `g0` with `id` written at `w`. */
  ghost predicate OnlyAt(e: Extent, g0: Grid<int>, g1: Grid<int>, w: Voxel, id: int) {
    LabelAt(g1, w) == id && forall v :: InBox(v, e) && v != w ==> LabelAt(g1, v) == LabelAt(g0, v)
  }

  /** Writing one label leaves every other label, and so the scan, as it was. */
  lemma WriteKeepsScan(mask: Grid<bool>, e: Extent, g0: Grid<int>, g1: Grid<int>, w: Voxel, id: int, pos: Voxel)
    requires ScannedBefore(mask, e, g0, pos) && OnlyAt(e, g0, g1, w, id) && id != 0
    ensures ScannedBefore(mask, e, g1, pos)
  {
    forall v | InBox(v, e) && RasterBefore(v, pos) && Lit(mask, v) ensures LabelAt(g1, v) != 0 {
      if v != w {
        assert LabelAt(g0, v) != 0;
      }
    }
  }

  lemma SeedKeepsBounds(mask: Grid<bool>, e: Extent, g0: Grid<int>, g1: Grid<int>, n: nat, seed: Voxel)
    requires Bounded(e, g0, n) && OnMask(mask, e, g0) && InBox(seed, e) && Lit(mask, seed)
    requires OnlyAt(e, g0, g1, seed, n + 1)
    ensures Bounded(e, g1, n + 1) && OnMask(mask, e, g1) && FrontierOk(e, g1, {seed}, n + 1)
  {
  }

  lemma SeedKeepsSeeds(mask: Grid<bool>, e: Extent, g0: Grid<int>, g1: Grid<int>, seeds: seq<Voxel>, seed: Voxel)
    requires SeedsOk(e, g0, seeds) && SeedsFirst(e, g0, seeds) && Bounded(e, g0, |seeds|)
    requires InBox(seed, e) && LabelAt(g0, seed) == 0
    requires forall i :: 0 <= i < |seeds| ==> RasterBefore(seeds[i], seed)
    requires OnlyAt(e, g0, g1, seed, |seeds| + 1)
    ensures SeedsOk(e, g1, seeds + [seed]) && SeedsFirst(e, g1, seeds + [seed])
  {
    var seeds' := seeds + [seed];
    forall i | 0 <= i < |seeds'| ensures LabelAt(g1, seeds'[i]) == i + 1 {
      if i < |seeds| {
        assert LabelAt(g0, seeds[i]) == i + 1;
      }
    }
    forall v | InBox(v, e) && 0 < LabelAt(g1, v) <= |seeds'| ensures !RasterBefore(v, seeds'[LabelAt(g1, v) - 1]) {
      if v != seed {
        assert LabelAt(g0, v) == LabelAt(g1, v);
      }
    }
  }

  lemma SeedKeepsPaths(mask: Grid<bool>, e: Extent, k: Rank3Connectivity, g0: Grid<int>, g1: Grid<int>,
                       seeds: seq<Voxel>, paths: map<Voxel, seq<Voxel>>, seed: Voxel)
    requires PathsOk(mask, e, k, g0, seeds, paths) && Bounded(e, g0, |seeds|)
    requires Lit(mask, seed) && OnlyAt(e, g0, g1, seed, |seeds| + 1)
    ensures PathsOk(mask, e, k, g1, seeds + [seed], paths[seed := [seed]])
  {
    var seeds', paths' := seeds + [seed], paths[seed := [seed]];
    assert IsPath(mask, k, [seed]);
    forall v | InBox(v, e) && 0 < LabelAt(g1, v) <= |seeds'|
      ensures v in paths' && IsPath(mask, k, paths'[v]) &&
              paths'[v][0] == seeds'[LabelAt(g1, v) - 1] && paths'[v][|paths'[v]| - 1] == v
    {
      if v != seed {
        assert LabelAt(g0, v) == LabelAt(g1, v);
      }
    }
  }

  /** Giving the seed the next id starts a flood with the seed alone on the worklist. */
  lemma SeedStep(mask: Grid<bool>, e: Extent, k: Rank3Connectivity, g0: Grid<int>, g1: Grid<int>,
                 seeds: seq<Voxel>, paths: map<Voxel, seq<Voxel>>, seed: Voxel)
    requires State(mask, e, k, g0, seeds, {}, paths)
    requires InBox(seed, e) && Lit(mask, seed) && LabelAt(g0, seed) == 0
    requires ScannedBefore(mask, e, g0, seed)
    requires forall i :: 0 <= i < |seeds| ==> RasterBefore(seeds[i], seed)
    requires OnlyAt(e, g0, g1, seed, |seeds| + 1)
    ensures State(mask, e, k, g1, seeds + [seed], {seed}, paths[seed := [seed]])
    ensures ScannedBefore(mask, e, g1, seed)
  {
    SeedKeepsBounds(mask, e, g0, g1, |seeds|, seed);
    SeedKeepsSeeds(mask, e, g0, g1, seeds, seed);
    SeedKeepsPaths(mask, e, k, g0, g1, seeds, paths, seed);
    MarkKeepsClosed(mask, e, k, g0, g1, {}, seed, |seeds| + 1);
    assert {} + {seed} == {seed};
    WriteKeepsScan(mask, e, g0, g1, seed, |seeds| + 1, seed);
  }

  lemma MarkKeepsClosed(mask: Grid<bool>, e: Extent, k: Rank3Connectivity, g0: Grid<int>, g1: Grid<int>,
                        frontier: set<Voxel>, w: Voxel, id: int)
    requires ClosedOutside(mask, e, k, g0, frontier) && LabelAt(g0, w) == 0 && OnlyAt(e, g0, g1, w, id)
    ensures ClosedOutside(mask, e, k, g1, frontier + {w})
  {
    forall v | InBox(v, e) && LabelAt(g1, v) != 0 && v !in frontier + {w} ensures Closed(mask, e, k, g1, v) {
      assert LabelAt(g0, v) != 0 && Closed(mask, e, k, g0, v);
      forall w' | InBox(w', e) && Adjacent(k, v, w') && Lit(mask, w') ensures LabelAt(g1, w') == LabelAt(g1, v) {
        assert LabelAt(g0, w') == LabelAt(g0, v);
      }
    }
  }

  lemma MarkKeepsPaths(mask: Grid<bool>, e: Extent, k: Rank3Connectivity, g0: Grid<int>, g1: Grid<int>,
                       seeds: seq<Voxel>, paths: map<Voxel, seq<Voxel>>, u: Voxel, w: Voxel)
    requires PathsOk(mask, e, k, g0, seeds, paths) && |seeds| > 0
    requires InBox(u, e) && LabelAt(g0, u) == |seeds| && InBox(w, e) && Adjacent(k, u, w) && Lit(mask, w)
    requires OnlyAt(e, g0, g1, w, |seeds|) && u != w
    ensures PathsOk(mask, e, k, g1, seeds, paths[w := paths[u] + [w]])
  {
    var q := paths[u] + [w];
    assert q[|q| - 2] == u;
    assert IsPath(mask, k, q);
    forall v | InBox(v, e) && 0 < LabelAt(g1, v) <= |seeds|
      ensures v in paths[w := q] && IsPath(mask, k, paths[w := q][v]) &&
              paths[w := q][v][0] == seeds[LabelAt(g1, v) - 1] && paths[w := q][v][|paths[w := q][v]| - 1] == v
    {
      if v != w {
        assert LabelAt(g0, v) == LabelAt(g1, v);
      }
    }
  }

  /** An unlabelled true voxel does not come before a position the scan has passed. */
  lemma UnlabelledNotScanned(mask: Grid<bool>, e: Extent, g: Grid<int>, w: Voxel, pos: Voxel)
    requires ScannedBefore(mask, e, g, pos)
    requires LabelAt(g, w) == 0 && InBox(w, e) && Lit(mask, w)
    ensures !RasterBefore(w, pos)
  {
  }

  lemma MarkKeepsSeedsOk(e: Extent, g0: Grid<int>, g1: Grid<int>, seeds: seq<Voxel>, w: Voxel)
    requires SeedsOk(e, g0, seeds) && LabelAt(g0, w) == 0 && OnlyAt(e, g0, g1, w, |seeds|)
    ensures SeedsOk(e, g1, seeds)
  {
    forall i | 0 <= i < |seeds| ensures LabelAt(g1, seeds[i]) == i + 1 {
      assert LabelAt(g0, seeds[i]) == i + 1;
    }
  }

  lemma MarkKeepsSeedsFirst(e: Extent, g0: Grid<int>, g1: Grid<int>, seeds: seq<Voxel>, w: Voxel)
    requires SeedsFirst(e, g0, seeds) && |seeds| > 0 && !RasterBefore(w, seeds[|seeds| - 1])
    requires OnlyAt(e, g0, g1, w, |seeds|)
    ensures SeedsFirst(e, g1, seeds)
  {
    forall v | InBox(v, e) && 0 < LabelAt(g1, v) <= |seeds| ensures !RasterBefore(v, seeds[LabelAt(g1, v) - 1]) {
      if v != w {
        assert LabelAt(g0, v) == LabelAt(g1, v);
      }
    }
  }

  lemma MarkKeepsSeeds(mask: Grid<bool>, e: Extent, g0: Grid<int>, g1: Grid<int>, seeds: seq<Voxel>, w: Voxel)
    requires SeedsOk(e, g0, seeds) && SeedsFirst(e, g0, seeds) && |seeds| > 0
    requires LabelAt(g0, w) == 0 && InBox(w, e) && Lit(mask, w)
    requires ScannedBefore(mask, e, g0, seeds[|seeds| - 1])
    requires OnlyAt(e, g0, g1, w, |seeds|)
    ensures SeedsOk(e, g1, seeds) && SeedsFirst(e, g1, seeds)
  {
    UnlabelledNotScanned(mask, e, g0, w, seeds[|seeds| - 1]);
    MarkKeepsSeedsOk(e, g0, g1, seeds, w);
    MarkKeepsSeedsFirst(e, g0, g1, seeds, w);
  }

  lemma MarkKeepsRest(mask: Grid<bool>, e: Extent, g0: Grid<int>, g1: Grid<int>, seeds: seq<Voxel>,
                      frontier: set<Voxel>, w: Voxel)
    requires Bounded(e, g0, |seeds|) && OnMask(mask, e, g0) && FrontierOk(e, g0, frontier, |seeds|) && |seeds| > 0
    requires LabelAt(g0, w) == 0 && InBox(w, e) && Lit(mask, w) && OnlyAt(e, g0, g1, w, |seeds|)
    ensures Bounded(e, g1, |seeds|) && OnMask(mask, e, g1) && FrontierOk(e, g1, frontier + {w}, |seeds|)
  {
  }

  /** Labelling an unlabelled true neighbour `w` of worklist voxel `u` with
      the current id and putting `w` on the worklist keeps the flood invariant. */
  lemma MarkStep(mask: Grid<bool>, e: Extent, k: Rank3Connectivity, g0: Grid<int>, g1: Grid<int>,
                 seeds: seq<Voxel>, frontier: set<Voxel>, paths: map<Voxel, seq<Voxel>>, u: Voxel, w: Voxel)
    requires State(mask, e, k, g0, seeds, frontier, paths)
    requires u in frontier && InBox(w, e) && Adjacent(k, u, w) && Lit(mask, w) && LabelAt(g0, w) == 0
    requires |seeds| > 0 && ScannedBefore(mask, e, g0, seeds[|seeds| - 1])
    requires OnlyAt(e, g0, g1, w, |seeds|)
    ensures State(mask, e, k, g1, seeds, frontier + {w}, paths[w := paths[u] + [w]])
    ensures ScannedBefore(mask, e, g1, seeds[|seeds| - 1])
  {
    assert LabelAt(g0, u) == |seeds|;
    MarkKeepsClosed(mask, e, k, g0, g1, frontier, w, |seeds|);
    MarkKeepsPaths(mask, e, k, g0, g1, seeds, paths, u, w);
    MarkKeepsSeeds(mask, e, g0, g1, seeds, w);
    MarkKeepsRest(mask, e, g0, g1, seeds, frontier, w);
    WriteKeepsScan(mask, e, g0, g1, w, |seeds|, seeds[|seeds| - 1]);
  }

  /** A true neighbour of a worklist voxel that is already labelled carries the current id. */
  lemma LabelledNeighbour(mask: Grid<bool>, e: Extent, k: Rank3Connectivity, g: Grid<int>,
                          seeds: seq<Voxel>, frontier: set<Voxel>, paths: map<Voxel, seq<Voxel>>,
                          u: Voxel, w: Voxel)
    requires State(mask, e, k, g, seeds, frontier, paths)
    requires u in frontier && InBox(w, e) && Adjacent(k, u, w) && Lit(mask, w) && LabelAt(g, w) != 0
    ensures LabelAt(g, w) == |seeds|
  {
    if w !in frontier {
      assert Closed(mask, e, k, g, w);
      AdjacentSymmetric(k, u, w);
    }
  }

  /** Once every true neighbour of `u` carries its id, `u` may leave the worklist. */
  lemma CloseStep(mask: Grid<bool>, e: Extent, k: Rank3Connectivity, g: Grid<int>,
                  seeds: seq<Voxel>, frontier: set<Voxel>, paths: map<Voxel, seq<Voxel>>, u: Voxel)
    requires State(mask, e, k, g, seeds, frontier + {u}, paths)
    requires forall w :: InBox(w, e) && Adjacent(k, u, w) && Lit(mask, w) ==> LabelAt(g, w) == |seeds|
    ensures State(mask, e, k, g, seeds, frontier, paths)
  {
    assert LabelAt(g, u) == |seeds|;
  }

  /** Labelling an unlabelled voxel leaves fewer unlabelled voxels. */
  lemma WriteShrinks(e: Extent, g0: Grid<int>, g1: Grid<int>, w: Voxel, id: int)
    requires OnlyAt(e, g0, g1, w, id) && id != 0 && InBox(w, e) && LabelAt(g0, w) == 0
    ensures |Unlabelled(e, g1)| < |Unlabelled(e, g0)|
  {
    assert w in Unlabelled(e, g0);
    assert Unlabelled(e, g1) == Unlabelled(e, g0) - {w};
  }

  /** Writes `id` at `w`, in the array and in its ghost mirror. */
  method Write(a: array3<int>, e: Extent, w: Voxel, id: int, ghost g: Grid<int>) returns (ghost g': Grid<int>)
    requires Mirrors(a, e, g) && InBox(w, e)
    modifies a
    ensures Mirrors(a, e, g') && OnlyAt(e, g, g', w, id)
  {
    a[w.t, w.y, w.x] := id;
    g' := Put(g, w, id);
  }

  /** Handles one neighbour `w` of worklist voxel `u`: an unlabelled true
      `w` gets the current id and joins the worklist. */
  method Spread(mask: Grid<bool>, e: Extent, k: Rank3Connectivity, a: array3<int>, u: Voxel, w: Voxel, id: nat,
                frontier: set<Voxel>, ghost seeds: seq<Voxel>, ghost paths: map<Voxel, seq<Voxel>>, ghost g: Grid<int>)
    returns (frontier': set<Voxel>, ghost paths': map<Voxel, seq<Voxel>>, ghost g': Grid<int>)
    requires id == |seeds| > 0 && Mirrors(a, e, g) && u !in frontier && InBox(w, e) && Adjacent(k, u, w)
    requires State(mask, e, k, g, seeds, frontier + {u}, paths)
    requires ScannedBefore(mask, e, g, seeds[|seeds| - 1])
    modifies a
    ensures Mirrors(a, e, g') && u !in frontier'
    ensures State(mask, e, k, g', seeds, frontier' + {u}, paths')
    ensures ScannedBefore(mask, e, g', seeds[|seeds| - 1])
    ensures Lit(mask, w) ==> LabelAt(g', w) == id
    ensures forall v :: InBox(v, e) && LabelAt(g, v) != 0 ==> LabelAt(g', v) == LabelAt(g, v)
    ensures |Unlabelled(e, g')| < |Unlabelled(e, g)| || (g' == g && frontier' == frontier)
  {
    frontier', paths', g' := frontier, paths, g;
    if Lit(mask, w) && a[w.t, w.y, w.x] == 0 {
      g' := Write(a, e, w, id, g);
      WriteShrinks(e, g, g', w, id);
      MarkStep(mask, e, k, g, g', seeds, frontier + {u}, paths, u, w);
      paths' := paths[w := paths[u] + [w]];
      assert frontier + {u} + {w} == (frontier + {w}) + {u};
      frontier' := frontier + {w};
    } else if Lit(mask, w) {
      LabelledNeighbour(mask, e, k, g, seeds, frontier + {u}, paths, u, w);
    }
  }

  /** Takes `u` off the worklist once all its true neighbours carry its id. */
  method Visit(mask: Grid<bool>, e: Extent, k: Rank3Connectivity, a: array3<int>, u: Voxel, id: nat,
               frontier: set<Voxel>, ghost seeds: seq<Voxel>, ghost paths: map<Voxel, seq<Voxel>>, ghost g: Grid<int>)
    returns (frontier': set<Voxel>, ghost paths': map<Voxel, seq<Voxel>>, ghost g': Grid<int>)
    requires id == |seeds| > 0 && Mirrors(a, e, g) && u !in frontier
    requires State(mask, e, k, g, seeds, frontier + {u}, paths)
    requires ScannedBefore(mask, e, g, seeds[|seeds| - 1])
    modifies a
    ensures Mirrors(a, e, g')
    ensures State(mask, e, k, g', seeds, frontier', paths')
    ensures ScannedBefore(mask, e, g', seeds[|seeds| - 1])
    ensures |Unlabelled(e, g')| < |Unlabelled(e, g)| || (g' == g && frontier' == frontier)
  {
    frontier', paths', g' := frontier, paths, g;
    var todo := Neighbours(k, e, u);
    ghost var all := todo;
    while todo != {}
      invariant todo <= all
      invariant Mirrors(a, e, g') && u !in frontier'
      invariant State(mask, e, k, g', seeds, frontier' + {u}, paths')
      invariant ScannedBefore(mask, e, g', seeds[|seeds| - 1])
      invariant forall w :: w in all && w !in todo && Lit(mask, w) ==> LabelAt(g', w) == id
      invariant |Unlabelled(e, g')| < |Unlabelled(e, g)| || (g' == g && frontier' == frontier)
      decreases todo
    {
      var w :| w in todo;
      todo := todo - {w};
      ghost var prev := g';
      frontier', paths', g' := Spread(mask, e, k, a, u, w, id, frontier', seeds, paths', g');
      forall w' | w' in all && w' !in todo && Lit(mask, w') ensures LabelAt(g', w') == id {
        if w' != w {
          assert LabelAt(prev, w') == id;
        }
      }
    }
    CloseStep(mask, e, k, g', seeds, frontier', paths', u);
  }

  /** Takes some voxel off a non-empty worklist and visits it. */
  method Expand(mask: Grid<bool>, e: Extent, k: Rank3Connectivity, a: array3<int>, id: nat,
                frontier: set<Voxel>, ghost seeds: seq<Voxel>, ghost paths: map<Voxel, seq<Voxel>>, ghost g: Grid<int>)
    returns (frontier': set<Voxel>, ghost paths': map<Voxel, seq<Voxel>>, ghost g': Grid<int>)
    requires id == |seeds| > 0 && Mirrors(a, e, g) && frontier != {}
    requires State(mask, e, k, g, seeds, frontier, paths)
    requires ScannedBefore(mask, e, g, seeds[|seeds| - 1])
    modifies a
    ensures Mirrors(a, e, g')
    ensures State(mask, e, k, g', seeds, frontier', paths')
    ensures ScannedBefore(mask, e, g', seeds[|seeds| - 1])
    ensures |Unlabelled(e, g')| < |Unlabelled(e, g)| || (|Unlabelled(e, g')| == |Unlabelled(e, g)| && |frontier'| < |frontier|)
  {
    var u :| u in frontier;
    assert (frontier - {u}) + {u} == frontier;
    frontier', paths', g' := Visit(mask, e, k, a, u, id, frontier - {u}, seeds, paths, g);
  }

  /** The flood is over when the worklist is empty. */
  lemma FloodDone(mask: Grid<bool>, e: Extent, k: Rank3Connectivity, g: Grid<int>,
                  seeds: seq<Voxel>, frontier: set<Voxel>, paths: map<Voxel, seq<Voxel>>)
    requires State(mask, e, k, g, seeds, frontier, paths) && frontier == {}
    ensures State(mask, e, k, g, seeds, {}, paths)
  {
  }

  /** Gives `seed` the next id and starts its flood. */
  method Plant(mask: Grid<bool>, e: Extent, k: Rank3Connectivity, a: array3<int>, seed: Voxel, id: nat,
               ghost seeds: seq<Voxel>, ghost paths: map<Voxel, seq<Voxel>>, ghost g: Grid<int>)
    returns (ghost g': Grid<int>)
    requires id == |seeds| + 1 && Mirrors(a, e, g)
    requires InBox(seed, e) && Lit(mask, seed) && LabelAt(g, seed) == 0
    requires State(mask, e, k, g, seeds, {}, paths)
    requires ScannedBefore(mask, e, g, seed)
    requires forall i :: 0 <= i < |seeds| ==> RasterBefore(seeds[i], seed)
    modifies a
    ensures Mirrors(a, e, g')
    ensures State(mask, e, k, g', seeds + [seed], {seed}, paths[seed := [seed]])
    ensures ScannedBefore(mask, e, g', seed)
  {
    g' := Write(a, e, seed, id, g);
    SeedStep(mask, e, k, g, g', seeds, paths, seed);
  }

  /** Labels the whole component of `seed` with id |seeds| + 1. */
  method Flood(mask: Grid<bool>, e: Extent, k: Rank3Connectivity, a: array3<int>, seed: Voxel, id: nat,
               ghost seeds: seq<Voxel>, ghost paths: map<Voxel, seq<Voxel>>, ghost g: Grid<int>)
    returns (ghost paths': map<Voxel, seq<Voxel>>, ghost g': Grid<int>)
    requires id == |seeds| + 1 && Mirrors(a, e, g)
    requires InBox(seed, e) && Lit(mask, seed) && LabelAt(g, seed) == 0
    requires State(mask, e, k, g, seeds, {}, paths)
    requires ScannedBefore(mask, e, g, seed)
    requires forall i :: 0 <= i < |seeds| ==> RasterBefore(seeds[i], seed)
    modifies a
    ensures Mirrors(a, e, g')
    ensures State(mask, e, k, g', seeds + [seed], {}, paths')
    ensures ScannedBefore(mask, e, g', seed)
  {
    ghost var seeds' := seeds + [seed];
    g' := Plant(mask, e, k, a, seed, id, seeds, paths, g);
    assert seeds'[|seeds'| - 1] == seed;
    paths' := paths[seed := [seed]];
    var frontier := {seed};
    while frontier != {}
      invariant Mirrors(a, e, g')
      invariant State(mask, e, k, g', seeds', frontier, paths')
      invariant ScannedBefore(mask, e, g', seeds'[|seeds'| - 1])
      decreases |Unlabelled(e, g')|, |frontier|
    {
      frontier, paths', g' := Expand(mask, e, k, a, id, frontier, seeds', paths', g');
    }
    FloodDone(mask, e, k, g', seeds', frontier, paths');
  }

  /** The scan loop's invariant at raster position `pos`: every component met
      so far is labelled, its seed comes before `pos`, and the worklist is empty. */
  ghost predicate Scan(mask: Grid<bool>, e: Extent, k: Rank3Connectivity, g: Grid<int>,
                       seeds: seq<Voxel>, paths: map<Voxel, seq<Voxel>>, pos: Voxel) {
    State(mask, e, k, g, seeds, {}, paths) && ScannedBefore(mask, e, g, pos) &&
    forall i :: 0 <= i < |seeds| ==> RasterBefore(seeds[i], pos)
  }

  lemma ScanNextX(mask: Grid<bool>, e: Extent, k: Rank3Connectivity, g: Grid<int>,
                  seeds: seq<Voxel>, paths: map<Voxel, seq<Voxel>>, t: nat, y: nat, x: nat)
    requires Scan(mask, e, k, g, seeds, paths, Voxel(t, y, x))
    requires Lit(mask, Voxel(t, y, x)) ==> LabelAt(g, Voxel(t, y, x)) != 0
    ensures Scan(mask, e, k, g, seeds, paths, Voxel(t, y, x + 1))
  {
    forall v | InBox(v, e) && RasterBefore(v, Voxel(t, y, x + 1)) && Lit(mask, v) ensures LabelAt(g, v) != 0 {
      if v != Voxel(t, y, x) {
        assert RasterBefore(v, Voxel(t, y, x));
      }
    }
  }

  lemma ScanNextY(mask: Grid<bool>, e: Extent, k: Rank3Connectivity, g: Grid<int>,
                  seeds: seq<Voxel>, paths: map<Voxel, seq<Voxel>>, t: nat, y: nat)
    requires Scan(mask, e, k, g, seeds, paths, Voxel(t, y, e.nx))
    ensures Scan(mask, e, k, g, seeds, paths, Voxel(t, y + 1, 0))
  {
    forall v | InBox(v, e) && RasterBefore(v, Voxel(t, y + 1, 0)) && Lit(mask, v) ensures LabelAt(g, v) != 0 {
      assert RasterBefore(v, Voxel(t, y, e.nx));
    }
    forall i | 0 <= i < |seeds| ensures RasterBefore(seeds[i], Voxel(t, y + 1, 0)) {
      assert RasterBefore(seeds[i], Voxel(t, y, e.nx));
    }
  }

  lemma ScanNextT(mask: Grid<bool>, e: Extent, k: Rank3Connectivity, g: Grid<int>,
                  seeds: seq<Voxel>, paths: map<Voxel, seq<Voxel>>, t: nat)
    requires Scan(mask, e, k, g, seeds, paths, Voxel(t, e.ny, 0))
    ensures Scan(mask, e, k, g, seeds, paths, Voxel(t + 1, 0, 0))
  {
    forall v | InBox(v, e) && RasterBefore(v, Voxel(t + 1, 0, 0)) && Lit(mask, v) ensures LabelAt(g, v) != 0 {
      assert RasterBefore(v, Voxel(t, e.ny, 0));
    }
    forall i | 0 <= i < |seeds| ensures RasterBefore(seeds[i], Voxel(t + 1, 0, 0)) {
      assert InBox(seeds[i], e);
    }
  }

  /** After flooding the new component seeded at `v`, the scan moves past `v`. */
  lemma ScanSeeded(mask: Grid<bool>, e: Extent, k: Rank3Connectivity, g: Grid<int>,
                   seeds: seq<Voxel>, paths: map<Voxel, seq<Voxel>>, t: nat, y: nat, x: nat)
    requires State(mask, e, k, g, seeds + [Voxel(t, y, x)], {}, paths)
    requires ScannedBefore(mask, e, g, Voxel(t, y, x))
    requires forall i :: 0 <= i < |seeds| ==> RasterBefore(seeds[i], Voxel(t, y, x))
    ensures Scan(mask, e, k, g, seeds + [Voxel(t, y, x)], paths, Voxel(t, y, x + 1))
  {
    var v, seeds' := Voxel(t, y, x), seeds + [Voxel(t, y, x)];
    assert LabelAt(g, seeds'[|seeds|]) == |seeds| + 1;
    forall w | InBox(w, e) && RasterBefore(w, Voxel(t, y, x + 1)) && Lit(mask, w) ensures LabelAt(g, w) != 0 {
      if w != v {
        assert RasterBefore(w, v);
      }
    }
    forall i | 0 <= i < |seeds'| ensures RasterBefore(seeds'[i], Voxel(t, y, x + 1)) {
      if i < |seeds| {
        assert RasterBefore(seeds[i], v);
      }
    }
  }

  /** Scans row `y` of time step `t`, flooding every new component met. */
  method ScanRow(mask: Grid<bool>, e: Extent, k: Rank3Connectivity, a: array3<int>, t: nat, y: nat, count: nat,
                 ghost seeds: seq<Voxel>, ghost paths: map<Voxel, seq<Voxel>>, ghost g: Grid<int>)
    returns (count': nat, ghost seeds': seq<Voxel>, ghost paths': map<Voxel, seq<Voxel>>, ghost g': Grid<int>)
    requires t < e.nt && y < e.ny && Mirrors(a, e, g) && count == |seeds|
    requires Scan(mask, e, k, g, seeds, paths, Voxel(t, y, 0))
    modifies a
    ensures Mirrors(a, e, g') && count' == |seeds'|
    ensures Scan(mask, e, k, g', seeds', paths', Voxel(t, y, e.nx))
  {
    count', seeds', paths', g' := count, seeds, paths, g;
    var x := 0;
    while x < e.nx
      invariant 0 <= x <= e.nx && Mirrors(a, e, g') && count' == |seeds'|
      invariant Scan(mask, e, k, g', seeds', paths', Voxel(t, y, x))
    {
      var v := Voxel(t, y, x);
      if Lit(mask, v) && a[t, y, x] == 0 {
        paths', g' := Flood(mask, e, k, a, v, count' + 1, seeds', paths', g');
        ScanSeeded(mask, e, k, g', seeds', paths', t, y, x);
        seeds' := seeds' + [v];
        count' := count' + 1;
      } else {
        ScanNextX(mask, e, k, g', seeds', paths', t, y, x);
      }
      x := x + 1;
    }
  }

  /** Scans time step `t`, row by row. */
  method ScanPlane(mask: Grid<bool>, e: Extent, k: Rank3Connectivity, a: array3<int>, t: nat, count: nat,
                   ghost seeds: seq<Voxel>, ghost paths: map<Voxel, seq<Voxel>>, ghost g: Grid<int>)
    returns (count': nat, ghost seeds': seq<Voxel>, ghost paths': map<Voxel, seq<Voxel>>, ghost g': Grid<int>)
    requires t < e.nt && Mirrors(a, e, g) && count == |seeds|
    requires Scan(mask, e, k, g, seeds, paths, Voxel(t, 0, 0))
    modifies a
    ensures Mirrors(a, e, g') && count' == |seeds'|
    ensures Scan(mask, e, k, g', seeds', paths', Voxel(t, e.ny, 0))
  {
    count', seeds', paths', g' := count, seeds, paths, g;
    var y := 0;
    while y < e.ny
      invariant 0 <= y <= e.ny && Mirrors(a, e, g') && count' == |seeds'|
      invariant Scan(mask, e, k, g', seeds', paths', Voxel(t, y, 0))
    {
      count', seeds', paths', g' := ScanRow(mask, e, k, a, t, y, count', seeds', paths', g');
      ScanNextY(mask, e, k, g', seeds', paths', t, y);
      y := y + 1;
    }
  }

  /** `scipy.ndimage.label`: labels the connected components of `mask` under
      connectivity `k`, scanning in raster order and flooding each new component. */
  method LabelComponents(mask: Grid<bool>, e: Extent, k: Rank3Connectivity) returns (labels: Grid<int>, count: nat)
    requires Fits(mask, e)
    ensures Fits(labels, e)
    ensures IsLabelling(mask, e, k, labels, count)
  {
    var a := new int[e.nt, e.ny, e.nx]((t, y, x) => 0);
    ghost var g := Snap(a);
    assert Mirrors(a, e, g);
    ghost var seeds: seq<Voxel> := [];
    ghost var paths: map<Voxel, seq<Voxel>> := map[];
    count := 0;
    var t := 0;
    while t < e.nt
      invariant 0 <= t <= e.nt && Mirrors(a, e, g) && count == |seeds|
      invariant Scan(mask, e, k, g, seeds, paths, Voxel(t, 0, 0))
    {
      count, seeds, paths, g := ScanPlane(mask, e, k, a, t, count, seeds, paths, g);
      ScanNextT(mask, e, k, g, seeds, paths, t);
      t := t + 1;
    }
    SnapMirror(a, e, g);
    labels := Snap(a);
    Conclude(mask, e, k, labels, seeds, paths);
  }

  /** Once every true voxel is labelled and the worklist is empty, the
      label grid is a labelling of the mask. */
  lemma Conclude(mask: Grid<bool>, e: Extent, k: Rank3Connectivity,
                 labels: Grid<int>, seeds: seq<Voxel>, paths: map<Voxel, seq<Voxel>>)
    requires State(mask, e, k, labels, seeds, {}, paths)
    requires ScannedBefore(mask, e, labels, Voxel(e.nt, 0, 0))
    ensures IsLabelling(mask, e, k, labels, |seeds|)
  {
    forall id | 1 <= id <= |seeds| ensures id in Ids(e, labels) {
      assert LabelAt(labels, seeds[id - 1]) == id && seeds[id - 1] in BoxSet(e);
    }
    forall u, v | InBox(u, e) && InBox(v, e) && Adjacent(k, u, v) && Lit(mask, u) && Lit(mask, v)
      ensures LabelAt(labels, u) == LabelAt(labels, v)
    {
      assert RasterBefore(u, Voxel(e.nt, 0, 0));
      assert Closed(mask, e, k, labels, u);
    }
    forall u, v | InBox(u, e) && InBox(v, e) && LabelAt(labels, u) != 0 && LabelAt(labels, u) == LabelAt(labels, v)
      ensures Connected(mask, k, u, v)
    {
      JoinPaths(mask, k, paths[u], paths[v]);
    }
    forall id, v | InBox(v, e) && 0 < id < LabelAt(labels, v) ensures SeenBefore(e, labels, id, v) {
      var w := seeds[id - 1];
      assert RasterBefore(w, seeds[LabelAt(labels, v) - 1]);
      assert LabelAt(labels, w) == id;
    }
    forall v | InBox(v, e) ensures LabelAt(labels, v) == 0 <==> !Lit(mask, v) {
      assert RasterBefore(v, Voxel(e.nt, 0, 0));
    }
  }

  // ---------------------------------------------------------------- label_tubes

  /** The labelled DataArray: tube ids in the mask's own dims order, and the
      `tube_count` and `connectivity` attributes. */
  datatype Tubes = Tubes(cube: Cube<int>, tubeCount: nat, connectivity: int)

  /** `label_tubes`: checks the dims, aligns the mask to (time, y, x), labels
      it and puts the labels back in the mask's dims order. The errors come in
      source order: a missing dim, a non-permutation, a bad connectivity. */
  method LabelTubes(maskDa: Cube<bool>, connectivity: int, timeDim: string, yDim: string, xDim: string)
    returns (r: Result<Tubes>)
    requires WellFormed(maskDa)
    ensures CheckDims(maskDa.dims, timeDim, yDim, xDim).Some? ==>
              r == Err(CheckDims(maskDa.dims, timeDim, yDim, xDim).value)
    ensures CheckDims(maskDa.dims, timeDim, yDim, xDim).None? ==>
              (AxisOrder(maskDa.dims, timeDim, yDim, xDim).Err? ==> r == Err(ValueError(NotPermutation))) &&
              (AxisOrder(maskDa.dims, timeDim, yDim, xDim).Ok? && ConnectivityStructure(connectivity).Err? ==>
                 r == Err(ValueError(BadConnectivity(connectivity))))
    ensures r.Ok? <==>
              CheckDims(maskDa.dims, timeDim, yDim, xDim).None? &&
              AxisOrder(maskDa.dims, timeDim, yDim, xDim).Ok? &&
              ConnectivityStructure(connectivity).Ok?
    ensures r.Ok? ==>
              CheckDims(maskDa.dims, timeDim, yDim, xDim).None? &&
              AxisOrder(maskDa.dims, timeDim, yDim, xDim).Ok? &&
              ConnectivityStructure(connectivity).Ok? &&
              var p := AxisOrder(maskDa.dims, timeDim, yDim, xDim).value;
              var m := Align(maskDa, p);
              WellFormed(r.value.cube) &&
              r.value.cube.dims == maskDa.dims && r.value.cube.coords == maskDa.coords &&
              r.value.connectivity == connectivity &&
              Align(r.value.cube, p).dims == [timeDim, yDim, xDim] &&
              IsLabelling(m.data, ExtentOf(m), ConnectivityStructure(connectivity).value,
                          Align(r.value.cube, p).data, r.value.tubeCount)
  {
    var missing := CheckDims(maskDa.dims, timeDim, yDim, xDim);
    if missing.Some? {
      return Err(missing.value);
    }
    var order := AxisOrder(maskDa.dims, timeDim, yDim, xDim);
    if order.Err? {
      return Err(order.error);
    }
    var p := order.value;
    var m := Align(maskDa, p);
    var structure := ConnectivityStructure(connectivity);
    if structure.Err? {
      return Err(structure.error);
    }
    var labels, count := LabelComponents(m.data, ExtentOf(m), structure.value);
    var aligned := Cube(m.dims, m.coords, labels);
    var restored := Align(aligned, Inverse(p));
    AlignRoundTrip(aligned, Inverse(p));
    InverseInverse(p);
    PermuteInverse(maskDa.dims, p);
    PermuteInverse(maskDa.coords, p);
    r := Ok(Tubes(restored, count, connectivity));
  }

  /** An all-false mask has no tubes: every label is background and the count is 0. */
  lemma NoTrueNoTubes(mask: Grid<bool>, e: Extent, k: Rank3Connectivity, labels: Grid<int>, count: nat)
    requires IsLabelling(mask, e, k, labels, count)
    requires forall v :: InBox(v, e) ==> !Lit(mask, v)
    ensures count == 0
    ensures forall v :: InBox(v, e) ==> LabelAt(labels, v) == 0
  {
    assert forall v :: v in BoxSet(e) ==> LabelAt(labels, v) == 0;
    assert Ids(e, labels) == {};
    assert count >= 1 ==> 1 in Ids(e, labels);
  }

  /** The labelling test case: a 2 x 3 x 3 mask with three diagonally placed
      true voxels has three tubes under 6-connectivity, since no two of them
      share a face. */
  lemma ThreeDiagonalTubes(labels: Grid<int>, count: nat)
    requires IsLabelling(DiagonalMask(), Extent(2, 3, 3), 1, labels, count)
    ensures count == 3
  {
    var a, b, c := Voxel(0, 0, 0), Voxel(0, 2, 2), Voxel(1, 1, 1);
    DiagonalApart(labels, count, a, b);
    DiagonalApart(labels, count, a, c);
    DiagonalApart(labels, count, b, c);
    if count > 3 {
      DiagonalId(1, labels, count, 1);
      DiagonalId(1, labels, count, 2);
      DiagonalId(1, labels, count, 3);
      DiagonalId(1, labels, count, 4);
    }
  }

  /** The same mask under 26-connectivity is one tube: the voxel at time 1
      touches both voxels of time 0 at a corner. */
  lemma OneDiagonalTube(labels: Grid<int>, count: nat)
    requires IsLabelling(DiagonalMask(), Extent(2, 3, 3), 3, labels, count)
    ensures count == 1
  {
    var mask, e := DiagonalMask(), Extent(2, 3, 3);
    var a, b, c := Voxel(0, 0, 0), Voxel(0, 2, 2), Voxel(1, 1, 1);
    assert Lit(mask, a) && Lit(mask, b) && Lit(mask, c);
    assert Adjacent(3, a, c) && Adjacent(3, b, c);
    assert InBox(a, e) && InBox(b, e) && InBox(c, e);
    assert LabelAt(labels, a) == LabelAt(labels, c) == LabelAt(labels, b);
    assert 0 < LabelAt(labels, c) <= count;
    if count > 1 {
      DiagonalId(3, labels, count, 1);
      DiagonalId(3, labels, count, 2);
    }
  }

  /** The true voxels of the test mask. */
  lemma DiagonalLit(v: Voxel)
    requires InBox(v, Extent(2, 3, 3)) && Lit(DiagonalMask(), v)
    ensures v == Voxel(0, 0, 0) || v == Voxel(0, 2, 2) || v == Voxel(1, 1, 1)
  {
  }

  /** Each id in use is the label of one of the three true voxels. */
  lemma DiagonalId(k: Rank3Connectivity, labels: Grid<int>, count: nat, id: int)
    requires IsLabelling(DiagonalMask(), Extent(2, 3, 3), k, labels, count)
    requires 1 <= id <= count
    ensures id == LabelAt(labels, Voxel(0, 0, 0)) || id == LabelAt(labels, Voxel(0, 2, 2)) ||
            id == LabelAt(labels, Voxel(1, 1, 1))
  {
    var e := Extent(2, 3, 3);
    assert id in Ids(e, labels);
    var v :| v in BoxSet(e) && LabelAt(labels, v) > 0 && LabelAt(labels, v) == id;
    DiagonalLit(v);
  }

  /** Two distinct true voxels of the test mask get distinct labels: neither
      has a true face neighbour, so no path joins them. */
  lemma DiagonalApart(labels: Grid<int>, count: nat, u: Voxel, v: Voxel)
    requires IsLabelling(DiagonalMask(), Extent(2, 3, 3), 1, labels, count)
    requires u in {Voxel(0, 0, 0), Voxel(0, 2, 2), Voxel(1, 1, 1)}
    requires v in {Voxel(0, 0, 0), Voxel(0, 2, 2), Voxel(1, 1, 1)} && u != v
    ensures 0 < LabelAt(labels, u) <= count && LabelAt(labels, u) != LabelAt(labels, v)
  {
    var mask, e := DiagonalMask(), Extent(2, 3, 3);
    assert InBox(u, e) && InBox(v, e) && Lit(mask, u);
    if LabelAt(labels, u) == LabelAt(labels, v) {
      assert Connected(mask, 1, u, v);
      var q :| IsPath(mask, 1, q) && q[0] == u && q[|q| - 1] == v;
      assert Adjacent(1, q[0], q[1]) && Lit(mask, q[1]);
      assert InBox(q[1], e);
      DiagonalLit(q[1]);
    }
  }

  /** The mask of that test case, [[[T,F,F],[F,F,F],[F,F,T]], [[F,F,F],[F,T,F],[F,F,F]]]. */
  function DiagonalMask(): (m: Grid<bool>)
    ensures Fits(m, Extent(2, 3, 3))
  {
    [[[true, false, false], [false, false, false], [false, false, true]],
     [[false, false, false], [false, true, false], [false, false, false]]]
  }
}
