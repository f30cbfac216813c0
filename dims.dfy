/**
 * `_infer_time_y_x_dims`: which dimensions of a cube are time, y and x.
 * Time is, in order of preference, the first dim with a time-like name,
 * the first dim with datetime coordinates, or (with three or more dims)
 * the first longest dim; y and x are the last two of the other dims.
 */
module Dims {
  import opened Errors

  /** A dimension: its name, its length, and whether it has a coordinate of datetime64 values. */
  datatype DimInfo = DimInfo(name: string, size: nat, datetime: bool)

  /** The object handed in: a DataArray (its dims in order), a Dataset (the
      dims of each data variable), or anything else. */
  datatype Cubelike = DataArray(dims: seq<DimInfo>) | Dataset(variables: seq<seq<DimInfo>>) | Other

  datatype TimeYX = TimeYX(time: Option<string>, y: string, x: string)

  /** `str.lower()` on ASCII letters. */
  function Lower(s: string): (r: string)
    ensures |r| == |s|
    ensures forall i :: 0 <= i < |s| ==> r[i] == (if 'A' <= s[i] <= 'Z' then (s[i] as int + 32) as char else s[i])
  {
    if |s| == 0 then [] else [if 'A' <= s[0] <= 'Z' then (s[0] as int + 32) as char else s[0]] + Lower(s[1..])
  }

  /** The name, lowercased, is the configured time name or time, t, date or datetime. */
  predicate TimeLike(d: DimInfo, timeName: string) {
    Lower(d.name) in {Lower(timeName), "time", "t", "date", "datetime"}
  }

  /** The first index whose flag is set. */
  function First(flags: seq<bool>): (r: Option<nat>)
    ensures r.Some? ==> r.value < |flags| && flags[r.value] && forall j :: 0 <= j < r.value ==> !flags[j]
    ensures r.None? <==> forall j :: 0 <= j < |flags| ==> !flags[j]
  {
    if |flags| == 0 then None
    else if flags[0] then Some(0)
    else match First(flags[1..])
      case None => None
      case Some(i) => Some(i + 1)
  }

  function TimeLikeFlags(dims: seq<DimInfo>, timeName: string): (f: seq<bool>)
    ensures |f| == |dims| && forall i :: 0 <= i < |dims| ==> f[i] == TimeLike(dims[i], timeName)
  {
    seq(|dims|, i requires 0 <= i < |dims| => TimeLike(dims[i], timeName))
  }

  function DatetimeFlags(dims: seq<DimInfo>): (f: seq<bool>)
    ensures |f| == |dims| && forall i :: 0 <= i < |dims| ==> f[i] == dims[i].datetime
  {
    seq(|dims|, i requires 0 <= i < |dims| => dims[i].datetime)
  }

  /** `max(dims, key=size)`: the first dim of greatest size. */
  function Longest(dims: seq<DimInfo>): (i: nat)
    requires |dims| > 0
    ensures i < |dims|
    ensures forall j :: 0 <= j < |dims| ==> dims[j].size <= dims[i].size
    ensures forall j :: 0 <= j < i ==> dims[j].size < dims[i].size
  {
    if |dims| == 1 then 0
    else
      var i := Longest(dims[..|dims| - 1]);
      if dims[|dims| - 1].size > dims[i].size then |dims| - 1 else i
  }

  /** The index of the time dim, by the three rules in order of preference. */
  function TimeIndex(dims: seq<DimInfo>, timeName: string): (r: Option<nat>)
    ensures r.Some? ==> r.value < |dims|
  {
    var named := First(TimeLikeFlags(dims, timeName));
    if named.Some? then named
    else
      var dated := First(DatetimeFlags(dims));
      if dated.Some? then dated
      else if |dims| >= 3 then Some(Longest(dims))
      else None
  }

  /** The name of the time dim, if there is one. */
  function TimeName(dims: seq<DimInfo>, timeName: string): (r: Option<string>)
    ensures r.Some? ==> exists i :: 0 <= i < |dims| && dims[i].name == r.value
  {
    match TimeIndex(dims, timeName)
    case Some(t) => Some(dims[t].name)
    case None => None
  }

  /** Rule 1: a time-like name wins, and the first such dim is taken. */
  lemma NamedTimeFirst(dims: seq<DimInfo>, timeName: string, i: nat)
    requires i < |dims| && TimeLike(dims[i], timeName)
    ensures var t := TimeIndex(dims, timeName);
            t.Some? && TimeLike(dims[t.value], timeName) &&
            forall j :: 0 <= j < t.value ==> !TimeLike(dims[j], timeName)
  {
    assert TimeLikeFlags(dims, timeName)[i];
  }

  /** Rule 2: without a time-like name, the first dim with datetime coordinates is taken. */
  lemma DatetimeTimeSecond(dims: seq<DimInfo>, timeName: string, i: nat)
    requires forall j :: 0 <= j < |dims| ==> !TimeLike(dims[j], timeName)
    requires i < |dims| && dims[i].datetime
    ensures var t := TimeIndex(dims, timeName);
            t.Some? && dims[t.value].datetime && forall j :: 0 <= j < t.value ==> !dims[j].datetime
  {
    assert DatetimeFlags(dims)[i];
    assert First(TimeLikeFlags(dims, timeName)).None?;
  }

  /** Rule 3: with neither, three or more dims take the first longest, and
      two dims have no time dim. */
  lemma LongestTimeLast(dims: seq<DimInfo>, timeName: string)
    requires forall j :: 0 <= j < |dims| ==> !TimeLike(dims[j], timeName) && !dims[j].datetime
    ensures var t := TimeIndex(dims, timeName);
            (|dims| >= 3 ==>
               t.Some? &&
               (forall j :: 0 <= j < |dims| ==> dims[j].size <= dims[t.value].size) &&
               (forall j :: 0 <= j < t.value ==> dims[j].size < dims[t.value].size)) &&
            (|dims| < 3 ==> t.None?)
  {
    assert First(TimeLikeFlags(dims, timeName)).None?;
    assert First(DatetimeFlags(dims)).None?;
  }

  /** `[dim for dim in dims if dim != time_dim]`. */
  function Spatial(dims: seq<DimInfo>, time: Option<string>): seq<DimInfo> {
    if |dims| == 0 then []
    else
      var rest := Spatial(dims[1..], time);
      if time.Some? && dims[0].name == time.value then rest else [dims[0]] + rest
  }

  /** The spatial dims are exactly the dims not named like the time dim. */
  lemma {:induction false} SpatialMembers(dims: seq<DimInfo>, time: Option<string>)
    ensures forall d :: d in Spatial(dims, time) <==> d in dims && (time.None? || d.name != time.value)
  {
    if |dims| > 0 {
      SpatialMembers(dims[1..], time);
      assert forall d :: d in dims <==> d == dims[0] || d in dims[1..];
    }
  }

  /** When the dims have distinct names, removing the time dim's name removes
      just that dim and keeps the others in order. */
  lemma {:induction false} SpatialRemovesOne(dims: seq<DimInfo>, t: nat)
    requires t < |dims|
    requires forall i, j :: 0 <= i < j < |dims| ==> dims[i].name != dims[j].name
    ensures Spatial(dims, Some(dims[t].name)) == dims[..t] + dims[t + 1..]
  {
    if t == 0 {
      SpatialNone(dims[1..], dims[0].name);
    } else {
      SpatialRemovesOne(dims[1..], t - 1);
      assert dims[1..][t - 1] == dims[t];
      assert dims[1..][..t - 1] + dims[1..][t..] == dims[1..t] + dims[t + 1..];
      assert dims[..t] + dims[t + 1..] == [dims[0]] + (dims[1..t] + dims[t + 1..]);
    }
  }

  /** Without a dim of that name, nothing is removed. */
  lemma {:induction false} SpatialNone(dims: seq<DimInfo>, name: string)
    requires forall i :: 0 <= i < |dims| ==> dims[i].name != name
    ensures Spatial(dims, Some(name)) == dims
  {
    if |dims| > 0 {
      SpatialNone(dims[1..], name);
    }
  }

  /** The dims of the object: a DataArray's own, or those of a Dataset's only variable. */
  function DimsOf(obj: Cubelike): (r: Result<seq<DimInfo>>)
    ensures obj.Other? ==> r == Err(TypeError(NotXarray))
    ensures obj.Dataset? ==> r == if |obj.variables| == 1 then Ok(obj.variables[0]) else Err(ValueError(NotOneVariable))
    ensures obj.DataArray? ==> r == Ok(obj.dims)
  {
    match obj
    case DataArray(dims) => Ok(dims)
    case Dataset(variables) => if |variables| == 1 then Ok(variables[0]) else Err(ValueError(NotOneVariable))
    case Other => Err(TypeError(NotXarray))
  }

  /** Rule 1's loop: the first dim whose lowered name is time-like. */
  method FindTimeLike(dims: seq<DimInfo>, timeName: string) returns (t: Option<nat>)
    ensures t == First(TimeLikeFlags(dims, timeName))
  {
    t := None;
    for i := 0 to |dims|
      invariant t.None? && forall j :: 0 <= j < i ==> !TimeLike(dims[j], timeName)
    {
      if TimeLike(dims[i], timeName) {
        t := Some(i);
        break;
      }
    }
  }

  /** Rule 2's loop: the first dim with datetime coordinates. */
  method FindDatetime(dims: seq<DimInfo>) returns (t: Option<nat>)
    ensures t == First(DatetimeFlags(dims))
  {
    t := None;
    for i := 0 to |dims|
      invariant t.None? && forall j :: 0 <= j < i ==> !dims[j].datetime
    {
      if dims[i].datetime {
        t := Some(i);
        break;
      }
    }
  }

  /** `_infer_time_y_x_dims`, with its two searches as loops that stop at the
      first hit. y and x are the last two dims once the time dim is removed,
      so both differ from it and keep their order among the dims. */
  method InferTimeYXDims(obj: Cubelike, timeName: string) returns (r: Result<TimeYX>)
    ensures DimsOf(obj).Err? ==> r == Err(DimsOf(obj).error)
    ensures DimsOf(obj).Ok? && |DimsOf(obj).value| < 2 ==> r == Err(ValueError(TooFewDims))
    ensures DimsOf(obj).Ok? && |DimsOf(obj).value| >= 2 ==>
              var dims := DimsOf(obj).value;
              var time := TimeName(dims, timeName);
              var s := Spatial(dims, time);
              r == if |s| < 2 then Err(ValueError(NoSpatialDims))
                   else Ok(TimeYX(time, s[|s| - 2].name, s[|s| - 1].name))
    ensures r.Ok? ==> (r.value.time.None? || (r.value.y != r.value.time.value && r.value.x != r.value.time.value))
  {
    var found := DimsOf(obj);
    if found.Err? {
      return Err(found.error);
    }
    var dims := found.value;
    if |dims| < 2 {
      return Err(ValueError(TooFewDims));
    }
    var time := FindTime(dims, timeName);
    r := SpatialPair(dims, time);
  }

  /** The three rules in order: a time-like name, datetime coordinates, the longest of three or more dims. */
  method FindTime(dims: seq<DimInfo>, timeName: string) returns (time: Option<string>)
    ensures time == TimeName(dims, timeName)
  {
    // 1. the first time-like name
    var t := FindTimeLike(dims, timeName);
    // 2. the first dim with datetime coordinates
    if t.None? {
      t := FindDatetime(dims);
    }
    // 3. the first longest dim
    if t.None? && |dims| >= 3 {
      t := Some(Longest(dims));
    }
    assert t == TimeIndex(dims, timeName);
    time := if t.Some? then Some(dims[t.value].name) else None;
  }

  /** y and x: the last two dims other than the time dim, which both differ from it. */
  method SpatialPair(dims: seq<DimInfo>, time: Option<string>) returns (r: Result<TimeYX>)
    ensures var s := Spatial(dims, time);
            r == if |s| < 2 then Err(ValueError(NoSpatialDims))
                 else Ok(TimeYX(time, s[|s| - 2].name, s[|s| - 1].name))
    ensures r.Ok? ==> (time.None? || (r.value.y != time.value && r.value.x != time.value))
  {
    var spatial := Spatial(dims, time);
    if |spatial| < 2 {
      return Err(ValueError(NoSpatialDims));
    }
    SpatialMembers(dims, time);
    assert spatial[|spatial| - 2] in spatial && spatial[|spatial| - 1] in spatial;
    return Ok(TimeYX(time, spatial[|spatial| - 2].name, spatial[|spatial| - 1].name));
  }

  /** Dims ("time", "x") are rejected: once time is removed one dim is left. */
  lemma TimeAndXRejected(n: nat, m: nat)
    ensures var dims := [DimInfo("time", n, false), DimInfo("x", m, false)];
            TimeIndex(dims, "time") == Some(0) && |Spatial(dims, Some("time"))| == 1
  {
    var dims := [DimInfo("time", n, false), DimInfo("x", m, false)];
    assert Lower("time") == "time";
    assert TimeLike(dims[0], "time");
    assert TimeLikeFlags(dims, "time")[0];
    assert Spatial(dims[1..], Some("time")) == [dims[1]] + Spatial(dims[2..], Some("time"));
  }
}
