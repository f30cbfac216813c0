/** `compute_suitability_from_ndvi`: thresholding a cube into a boolean mask. */
module TubeMask {
  import opened Errors
  import opened Grids

  /** A cube value; `Missing` is NaN. */
  datatype Value = Num(v: real) | Missing

  /** `value >= lo` as numpy evaluates it: a comparison with NaN is false. */
  predicate AtLeast(value: Value, lo: real) {
    match value
    case Num(v) => v >= lo
    case Missing => false
  }

  /** `value <= hi`, false for NaN. */
  predicate AtMost(value: Value, hi: real) {
    match value
    case Num(v) => v <= hi
    case Missing => false
  }

  /** Elementwise `(da >= lo) & (da <= hi)`. */
  function Suitability(g: Grid<Value>, lo: real, hi: real): (r: Grid<bool>)
  {
    seq(|g|, t requires 0 <= t < |g| =>
      seq(|g[t]|, y requires 0 <= y < |g[t]| =>
        seq(|g[t][y]|, x requires 0 <= x < |g[t][y]| =>
          AtLeast(g[t][y][x], lo) && AtMost(g[t][y][x], hi))))
  }

  /** Returns the boolean mask of the cube, same dims and coordinates, true
      exactly where lo <= value <= hi; a required dim that is absent is a ValueError. */
  function ComputeSuitability(da: Cube<Value>, lo: real, hi: real,
                              timeDim: string, yDim: string, xDim: string): (r: Result<Cube<bool>>)
    requires WellFormed(da)
    ensures r.Err? <==> CheckDims(da.dims, timeDim, yDim, xDim).Some?
    ensures r.Err? ==> CheckDims(da.dims, timeDim, yDim, xDim) == Some(r.error)
    ensures r.Ok? ==> WellFormed(r.value) && r.value.dims == da.dims && r.value.coords == da.coords
    ensures r.Ok? ==> forall v :: InBox(v, ExtentOf(da)) ==>
                InGrid(r.value.data, v) &&
                (Cell(r.value.data, v) <==> Cell(da.data, v).Num? && lo <= Cell(da.data, v).v <= hi)
  {
    match CheckDims(da.dims, timeDim, yDim, xDim)
    case Some(e) => Err(e)
    case None => Ok(Cube(da.dims, da.coords, Suitability(da.data, lo, hi)))
  }
}
