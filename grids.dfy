/**
 * Labelled 3-D arrays (the part of xarray.DataArray the tube pipeline uses):
 * named dimensions, one coordinate axis per dimension, and voxel data stored
 * in dimension order. Transposition is an index permutation.
 */
module Grids {
  import opened Errors

  /** Voxel data indexed [axis 0][axis 1][axis 2]. */
  type Grid<T> = seq<seq<seq<T>>>

  /** A voxel index triple (in canonical (time, y, x) order once aligned). */
  datatype Voxel = Voxel(t: nat, y: nat, x: nat)

  /** The shape of a grid: the lengths of its three axes. */
  datatype Extent = Extent(nt: nat, ny: nat, nx: nat)

  /** `g` is an n0 x n1 x n2 box. */
  ghost predicate IsBox<T>(g: Grid<T>, n0: nat, n1: nat, n2: nat) {
    |g| == n0 &&
    forall t :: 0 <= t < n0 ==> |g[t]| == n1 && forall y :: 0 <= y < n1 ==> |g[t][y]| == n2
  }

  ghost predicate Fits<T>(g: Grid<T>, e: Extent) {
    IsBox(g, e.nt, e.ny, e.nx)
  }

  predicate InBox(v: Voxel, e: Extent) {
    v.t < e.nt && v.y < e.ny && v.x < e.nx
  }

  predicate InGrid<T>(g: Grid<T>, v: Voxel) {
    v.t < |g| && v.y < |g[v.t]| && v.x < |g[v.t][v.y]|
  }

  function Cell<T>(g: Grid<T>, v: Voxel): T
    requires InGrid(g, v)
  {
    g[v.t][v.y][v.x]
  }

  /** The finite set of voxels of a box. */
  function BoxSet(e: Extent): (s: set<Voxel>)
    ensures forall v :: v in s <==> InBox(v, e)
  {
    set t: nat, y: nat, x: nat | t < e.nt && y < e.ny && x < e.nx :: Voxel(t, y, x)
  }

  /** `u` comes strictly before `v` in row-major (C) order, the order of `np.nonzero`. */
  predicate RasterBefore(u: Voxel, v: Voxel) {
    u.t < v.t || (u.t == v.t && (u.y < v.y || (u.y == v.y && u.x < v.x)))
  }

  // ---------------------------------------------------------------- axis permutations

  /** An order of the three axes: canonical axis k is original axis p[k]. */
  predicate IsPerm(p: seq<nat>) {
    |p| == 3 && p[0] < 3 && p[1] < 3 && p[2] < 3 &&
    p[0] != p[1] && p[0] != p[2] && p[1] != p[2]
  }

  type Perm = p: seq<nat> | IsPerm(p) witness [0, 1, 2]

  /** The position at which `p` names original axis `a`. */
  function Pos(p: Perm, a: nat): (k: nat)
    requires a < 3
    ensures k < 3 && p[k] == a
  {
    if p[0] == a then 0 else if p[1] == a then 1 else 2
  }

  function Inverse(p: Perm): (q: Perm)
    ensures forall k :: 0 <= k < 3 ==> q[p[k]] == k && p[q[k]] == k
  {
    [Pos(p, 0), Pos(p, 1), Pos(p, 2)]
  }

  lemma InverseInverse(p: Perm)
    ensures Inverse(Inverse(p)) == p
  {
    var q := Inverse(p);
    var r := Inverse(q);
    assert r[0] == p[0] && r[1] == p[1] && r[2] == p[2] by {
      assert q[p[0]] == 0 && q[p[1]] == 1 && q[p[2]] == 2;
    }
  }

  /** Reorders a three-entry sequence (a shape, the dims, the coordinate axes). */
  function Permute<X>(s: seq<X>, p: Perm): (r: seq<X>)
    requires |s| == 3
    ensures |r| == 3 && forall k :: 0 <= k < 3 ==> r[k] == s[p[k]]
  {
    [s[p[0]], s[p[1]], s[p[2]]]
  }

  lemma PermuteInverse<X>(s: seq<X>, p: Perm)
    requires |s| == 3
    ensures Permute(Permute(s, p), Inverse(p)) == s
  {
    var r := Permute(Permute(s, p), Inverse(p));
    assert r[0] == s[0] && r[1] == s[1] && r[2] == s[2];
  }

  /** Index in the original axis order of index `i` of the transposed grid. */
  function Source(p: Perm, i: seq<nat>): (j: seq<nat>)
    requires |i| == 3
    ensures |j| == 3 && forall k :: 0 <= k < 3 ==> j[p[k]] == i[k]
  {
    [i[Pos(p, 0)], i[Pos(p, 1)], i[Pos(p, 2)]]
  }

  function At<T>(g: Grid<T>, j: seq<nat>): T
    requires |j| == 3 && j[0] < |g| && j[1] < |g[j[0]]| && j[2] < |g[j[0]][j[1]]|
  {
    g[j[0]][j[1]][j[2]]
  }

  lemma SourceInBox(p: Perm, n: seq<nat>, i: seq<nat>)
    requires |n| == 3 && |i| == 3 && i[0] < n[p[0]] && i[1] < n[p[1]] && i[2] < n[p[2]]
    ensures Source(p, i)[0] < n[0] && Source(p, i)[1] < n[1] && Source(p, i)[2] < n[2]
  {
    var j := Source(p, i);
    assert j[p[0]] == i[0] && j[p[1]] == i[1] && j[p[2]] == i[2];
  }

  /** The entry of `g` at index `i` of its transpose by `p`. */
  function Moved<T>(g: Grid<T>, n: seq<nat>, p: Perm, i0: nat, i1: nat, i2: nat): T
    requires |n| == 3 && IsBox(g, n[0], n[1], n[2])
    requires i0 < n[p[0]] && i1 < n[p[1]] && i2 < n[p[2]]
  {
    SourceInBox(p, n, [i0, i1, i2]);
    var j := Source(p, [i0, i1, i2]);
    assert |g[j[0]]| == n[1];
    At(g, j)
  }

  /** `transpose`: entry i of the result is the entry of `g` whose index along
      original axis p[k] is i[k]. `n` is the shape of `g`. */
  function Transpose<T>(g: Grid<T>, n: seq<nat>, p: Perm): (r: Grid<T>)
    requires |n| == 3 && IsBox(g, n[0], n[1], n[2])
    ensures IsBox(r, n[p[0]], n[p[1]], n[p[2]])
    ensures forall i0: nat, i1: nat, i2: nat :: i0 < n[p[0]] && i1 < n[p[1]] && i2 < n[p[2]] ==>
              r[i0][i1][i2] == Moved(g, n, p, i0, i1, i2)
  {
    seq(n[p[0]], i0 requires 0 <= i0 < n[p[0]] =>
      seq(n[p[1]], i1 requires 0 <= i1 < n[p[1]] =>
        seq(n[p[2]], i2 requires 0 <= i2 < n[p[2]] => Moved(g, n, p, i0, i1, i2))))
  }

  /** Transposing by `p` and then by its inverse gives back the grid. */
  lemma TransposeRoundTrip<T>(g: Grid<T>, n: seq<nat>, p: Perm)
    requires |n| == 3 && IsBox(g, n[0], n[1], n[2])
    ensures Transpose(Transpose(g, n, p), Permute(n, p), Inverse(p)) == g
  {
    var m := Permute(n, p);
    var q := Inverse(p);
    var h := Transpose(g, n, p);
    var r := Transpose(h, m, q);
    assert m[q[0]] == n[0] && m[q[1]] == n[1] && m[q[2]] == n[2];
    forall t | 0 <= t < n[0] ensures r[t] == g[t] {
      forall y | 0 <= y < n[1] ensures r[t][y] == g[t][y] {
        forall x | 0 <= x < n[2] ensures r[t][y][x] == g[t][y][x] {
          var j := Source(q, [t, y, x]);
          assert j[q[0]] == t && j[q[1]] == y && j[q[2]] == x;
          SourceInBox(q, m, [t, y, x]);
          var l := Source(p, j);
          assert l[0] == t && l[1] == y && l[2] == x by {
            assert l[p[q[0]]] == j[q[0]] && l[p[q[1]]] == j[q[1]] && l[p[q[2]]] == j[q[2]];
          }
          assert r[t][y][x] == Moved(h, m, q, t, y, x);
          assert h[j[0]][j[1]][j[2]] == Moved(g, n, p, j[0], j[1], j[2]);
        }
      }
    }
  }

  // ---------------------------------------------------------------- cubes

  /** A DataArray with three named dims, their coordinate values, and the data in dims order. */
  datatype Cube<T> = Cube(dims: seq<string>, coords: seq<seq<real>>, data: Grid<T>)

  function Shape<T>(c: Cube<T>): seq<nat>
    requires |c.coords| == 3
  {
    [|c.coords[0]|, |c.coords[1]|, |c.coords[2]|]
  }

  function ExtentOf<T>(c: Cube<T>): Extent
    requires |c.coords| == 3
  {
    Extent(|c.coords[0]|, |c.coords[1]|, |c.coords[2]|)
  }

  /** What xarray guarantees of a 3-D DataArray: distinct dim names, one
      coordinate axis per dim, and data of the matching shape. */
  ghost predicate WellFormed<T>(c: Cube<T>) {
    |c.dims| == 3 && |c.coords| == 3 &&
    c.dims[0] != c.dims[1] && c.dims[0] != c.dims[2] && c.dims[1] != c.dims[2] &&
    IsBox(c.data, |c.coords[0]|, |c.coords[1]|, |c.coords[2]|)
  }

  /** The dims check that opens each public function of the tube backend:
      the first of time, y, x (in that order) that is not a dim is reported. */
  function CheckDims(dims: seq<string>, timeDim: string, yDim: string, xDim: string): (r: Option<Error>)
    ensures r == None <==> timeDim in dims && yDim in dims && xDim in dims
    ensures timeDim !in dims ==> r == Some(ValueError(MissingDim(timeDim)))
    ensures timeDim in dims && yDim !in dims ==> r == Some(ValueError(MissingDim(yDim)))
    ensures timeDim in dims && yDim in dims && xDim !in dims ==> r == Some(ValueError(MissingDim(xDim)))
  {
    if timeDim !in dims then Some(ValueError(MissingDim(timeDim)))
    else if yDim !in dims then Some(ValueError(MissingDim(yDim)))
    else if xDim !in dims then Some(ValueError(MissingDim(xDim)))
    else None
  }

  function IndexOf(dims: seq<string>, name: string): (k: nat)
    requires name in dims
    ensures k < |dims| && dims[k] == name && name !in dims[..k]
  {
    if dims[0] == name then 0 else 1 + IndexOf(dims[1..], name)
  }

  /** `transpose(time_dim, y_dim, x_dim)`: the permutation that puts the
      named dims first to last; an error unless the three names are distinct
      (only then do they name every dim of a well-formed cube exactly once). */
  function AxisOrder(dims: seq<string>, timeDim: string, yDim: string, xDim: string): (r: Result<Perm>)
    requires |dims| == 3 && dims[0] != dims[1] && dims[0] != dims[2] && dims[1] != dims[2]
    requires timeDim in dims && yDim in dims && xDim in dims
    ensures r.Ok? <==> timeDim != yDim && timeDim != xDim && yDim != xDim
    ensures r.Err? ==> r.error == ValueError(NotPermutation)
    ensures r.Ok? ==> Permute(dims, r.value) == [timeDim, yDim, xDim]
  {
    if timeDim == yDim || timeDim == xDim || yDim == xDim then Err(ValueError(NotPermutation))
    else
      var p: Perm := [IndexOf(dims, timeDim), IndexOf(dims, yDim), IndexOf(dims, xDim)];
      Ok(p)
  }

  /** The cube with its axes reordered by `p`. */
  function Align<T>(c: Cube<T>, p: Perm): (a: Cube<T>)
    requires WellFormed(c)
    ensures WellFormed(a)
    ensures a.dims == Permute(c.dims, p) && a.coords == Permute(c.coords, p)
  {
    Cube(Permute(c.dims, p), Permute(c.coords, p), Transpose(c.data, Shape(c), p))
  }

  /** A cube already in the requested order is left as it is. */
  lemma AlignIdentity<T>(c: Cube<T>)
    requires WellFormed(c)
    ensures IsPerm([0, 1, 2]) && Align(c, [0, 1, 2]) == c
  {
    var p: Perm := [0, 1, 2];
    var r := Align(c, p);
    assert Permute(c.dims, p) == c.dims;
    assert Permute(c.coords, p) == c.coords;
    forall t | 0 <= t < |c.coords[0]| ensures r.data[t] == c.data[t] {
      forall y | 0 <= y < |c.coords[1]| ensures r.data[t][y] == c.data[t][y] {
        forall x | 0 <= x < |c.coords[2]| ensures r.data[t][y][x] == c.data[t][y][x] {
          assert Source(p, [t, y, x]) == [t, y, x];
        }
      }
    }
  }

  /** Reordering the axes and reordering them back restores the cube exactly. */
  lemma AlignRoundTrip<T>(c: Cube<T>, p: Perm)
    requires WellFormed(c)
    ensures Align(Align(c, p), Inverse(p)) == c
  {
    var a := Align(c, p);
    PermuteInverse(c.dims, p);
    PermuteInverse(c.coords, p);
    assert Shape(a) == Permute(Shape(c), p);
    TransposeRoundTrip(c.data, Shape(c), p);
  }
}
