/**
 * The area-of-interest helpers of the gridMET loader: collecting the
 * (lon, lat) positions of a GeoJSON object (a FeatureCollection, section
 * 3.3 of RFC 7946; a Feature, section 3.2; or a geometry whose
 * `coordinates` nest positions, section 3.1.1) and their bounding box.
 */
module GeoJson {
  import opened Errors
  import Aggregates

  /** A decoded JSON value as Python holds it; a mapping is a dict's entries in order. */
  datatype Json =
    | JNull
    | JBool(b: bool)
    | JInt(i: int)
    | JFloat(f: real)
    | JStr(s: string)
    | JList(items: seq<Json>)
    | JDict(entries: seq<(string, Json)>)

  /** A (lon, lat) pair. */
  datatype Position = Position(lon: real, lat: real)

  /** The bounding-box mapping `{min_lon, max_lon, min_lat, max_lat}`. */
  datatype Bounds = Bounds(minLon: real, maxLon: real, minLat: real, maxLat: real)

  /** Where `key` sits among the entries (the first entry with that key).
      A Python mapping has unique keys, so that entry is the only one. */
  function Find(entries: seq<(string, Json)>, key: string): (r: Option<nat>)
    ensures r.Some? ==> r.value < |entries| && entries[r.value].0 == key
    ensures r.None? <==> forall i :: 0 <= i < |entries| ==> entries[i].0 != key
  {
    if |entries| == 0 then None
    else if entries[0].0 == key then Some(0)
    else match Find(entries[1..], key)
      case None => None
      case Some(i) => Some(i + 1)
  }

  /** `isinstance(x, (int, float))`; a Python bool is an int. */
  predicate IsNumber(j: Json) {
    j.JBool? || j.JInt? || j.JFloat?
  }

  function Pow2(n: nat): (p: nat)
    ensures p > 0
  {
    if n == 0 then 1 else 2 * Pow2(n - 1)
  }

  /** The least magnitude of an int that `float()` rejects: an int at least
      this large rounds (to nearest, ties to even) to 2^1024, beyond the
      largest double (2^53 - 1) * 2^971, and Python raises OverflowError. */
  const FloatOverflowAt: int := Pow2(1024) - Pow2(970)

  /** `float(x)`. An int converts when its magnitude is below
      `FloatOverflowAt` and is an OverflowError otherwise. A string goes
      through Python's float parser `parse` (None when it rejects the text,
      a ValueError); None, a list or a mapping is a TypeError. */
  function ToFloat(j: Json, parse: string -> Option<real>): (r: Result<real>)
    ensures j.JBool? || j.JFloat? ==> r.Ok?
    ensures j.JInt? ==> (r.Ok? <==> -FloatOverflowAt < j.i < FloatOverflowAt)
    ensures j.JInt? && r.Ok? ==> r.value == j.i as real
    ensures j.JInt? && r.Err? ==> r.error == OverflowError(NotFloat)
    ensures j.JStr? ==> (r.Ok? <==> parse(j.s).Some?)
    ensures r.Err? ==> r.error.reason == NotFloat
  {
    match j
    case JBool(b) => Ok(if b then 1.0 else 0.0)
    case JInt(i) => if -FloatOverflowAt < i < FloatOverflowAt then Ok(i as real) else Err(OverflowError(NotFloat))
    case JFloat(f) => Ok(f)
    case JStr(s) => if parse(s).Some? then Ok(parse(s).value) else Err(ValueError(NotFloat))
    case _ => Err(TypeError(NotFloat))
  }

  /** The positions of the parts one after the other; the first failing part's error wins. */
  function Join(first: Result<seq<Position>>, rest: Result<seq<Position>>): Result<seq<Position>> {
    match first
    case Err(e) => Err(e)
    case Ok(p) =>
      match rest
      case Err(e) => Err(e)
      case Ok(q) => Ok(p + q)
  }

  /** `_extract_coordinates`. A mapping is a FeatureCollection (its features'
      positions in order; no `features` key gives none; a string or a mapping
      there iterates over strings, which hold none; anything else cannot be
      iterated), a Feature (its geometry's positions, none without one), an
      object with `coordinates` (what they hold), or anything else (none).
      A non-empty list whose first entry is not a string is, when that entry
      is a number and there are at least two entries, the one position
      (float(first), float(second)); otherwise the positions of its entries.
      Everything else holds none. */
  function Coordinates(obj: Json, parse: string -> Option<real>): Result<seq<Position>>
    decreases obj, 1
  {
    match obj
    case JDict(entries) =>
      var kind := Find(entries, "type");
      if kind.Some? && entries[kind.value].1 == JStr("FeatureCollection") then
        (match Find(entries, "features")
         case None => Ok([])
         case Some(i) =>
           match entries[i].1
           case JList(features) => CoordinatesOfAll(features, parse)
           case JStr(_) => Ok([])
           case JDict(_) => Ok([])
           case _ => Err(TypeError(NotIterable)))
      else if kind.Some? && entries[kind.value].1 == JStr("Feature") then
        (match Find(entries, "geometry")
         case None => Ok([])
         case Some(i) => Coordinates(entries[i].1, parse))
      else
        (match Find(entries, "coordinates")
         case None => Ok([])
         case Some(i) => Coordinates(entries[i].1, parse))
    case JList(items) =>
      if |items| == 0 || items[0].JStr? then Ok([])
      else if IsNumber(items[0]) && |items| >= 2 then
        (match ToFloat(items[0], parse)
         case Err(e) => Err(e)
         case Ok(lon) =>
           match ToFloat(items[1], parse)
           case Err(e) => Err(e)
           case Ok(lat) => Ok([Position(lon, lat)]))
      else CoordinatesOfAll(items, parse)
    case _ => Ok([])
  }

  /** The positions of each of `parts`, in order. */
  function CoordinatesOfAll(parts: seq<Json>, parse: string -> Option<real>): Result<seq<Position>>
    decreases parts, 0
  {
    if |parts| == 0 then Ok([])
    else Join(Coordinates(parts[0], parse), CoordinatesOfAll(parts[1..], parse))
  }

  /** Joining is associative, with no positions as its unit. */
  lemma JoinAssoc(a: Result<seq<Position>>, b: Result<seq<Position>>, c: Result<seq<Position>>)
    ensures Join(Join(a, b), c) == Join(a, Join(b, c))
  {
    if a.Ok? && b.Ok? && c.Ok? {
      assert (a.value + b.value) + c.value == a.value + (b.value + c.value);
    }
  }

  /** A list of parts holds the positions of its first half followed by those
      of its second half; an error in the first half is the one reported. */
  lemma {:induction false} CoordinatesOfAppend(a: seq<Json>, b: seq<Json>, parse: string -> Option<real>)
    ensures CoordinatesOfAll(a + b, parse) == Join(CoordinatesOfAll(a, parse), CoordinatesOfAll(b, parse))
  {
    if |a| == 0 {
      assert a + b == b;
      var r := CoordinatesOfAll(b, parse);
      if r.Ok? {
        assert [] + r.value == r.value;
      }
    } else {
      assert (a + b)[1..] == a[1..] + b;
      assert (a + b)[0] == a[0];
      CoordinatesOfAppend(a[1..], b, parse);
      JoinAssoc(Coordinates(a[0], parse), CoordinatesOfAll(a[1..], parse), CoordinatesOfAll(b, parse));
    }
  }

  function FeatureCollection(features: seq<Json>): Json {
    JDict([("type", JStr("FeatureCollection")), ("features", JList(features))])
  }

  /** A FeatureCollection's positions are its features' positions, in order:
      splitting its features into two collections splits its positions the
      same way; without a `features` key it has none. */
  lemma FeatureCollectionConcat(fs: seq<Json>, gs: seq<Json>, parse: string -> Option<real>)
    ensures Coordinates(FeatureCollection(fs + gs), parse) ==
            Join(Coordinates(FeatureCollection(fs), parse), Coordinates(FeatureCollection(gs), parse))
    ensures Coordinates(JDict([("type", JStr("FeatureCollection"))]), parse) == Ok([])
  {
    CoordinatesOfAppend(fs, gs, parse);
    FeatureCollectionParts(fs, parse);
    FeatureCollectionParts(gs, parse);
    FeatureCollectionParts(fs + gs, parse);
    assert Find([("type", JStr("FeatureCollection"))], "features") == None;
  }

  /** A FeatureCollection holds the positions of its features. */
  lemma FeatureCollectionParts(fs: seq<Json>, parse: string -> Option<real>)
    ensures Coordinates(FeatureCollection(fs), parse) == CoordinatesOfAll(fs, parse)
  {
    var entries := [("type", JStr("FeatureCollection")), ("features", JList(fs))];
    assert Find(entries, "type") == Some(0);
    assert Find(entries, "features") == Some(1);
  }

  /** A Feature holds its geometry's positions, and none without a geometry. */
  lemma FeatureGeometry(geometry: Json, parse: string -> Option<real>)
    ensures Coordinates(JDict([("type", JStr("Feature")), ("geometry", geometry)]), parse) == Coordinates(geometry, parse)
    ensures Coordinates(JDict([("type", JStr("Feature"))]), parse) == Ok([])
    ensures Coordinates(JDict([("type", JStr("Feature")), ("geometry", JNull)]), parse) == Ok([])
  {
    var with := [("type", JStr("Feature")), ("geometry", geometry)];
    assert Find(with, "type") == Some(0);
    assert Find(with, "geometry") == Some(1);
  }

  /** A numeric list of two or more entries is one position made of its
      first two entries, whatever follows; a single number is none. */
  lemma PositionFromFirstTwo(lon: real, lat: real, rest: seq<Json>, parse: string -> Option<real>)
    ensures Coordinates(JList([JFloat(lon), JFloat(lat)] + rest), parse) == Ok([Position(lon, lat)])
    ensures Coordinates(JList([JFloat(lon)]), parse) == Ok([])
  {
    var single := [JFloat(lon)];
    assert single[1..] == [];
    assert CoordinatesOfAll(single[1..], parse) == Ok([]);
    assert Coordinates(single[0], parse) == Ok([]);
    var none: seq<Position> := [];
    assert none + none == none;
    assert CoordinatesOfAll(single, parse) == Join(Ok(none), Ok(none));
  }

  /** A position whose first entry is an int beyond the double range is an
      OverflowError, raised before the second entry is read; one within range
      converts exactly. */
  lemma IntPositions(i: int, second: Json, rest: seq<Json>, parse: string -> Option<real>)
    ensures i >= FloatOverflowAt || i <= -FloatOverflowAt ==>
              Coordinates(JList([JInt(i), second] + rest), parse) == Err(OverflowError(NotFloat))
    ensures -FloatOverflowAt < i < FloatOverflowAt ==>
              Coordinates(JList([JInt(i), JInt(0)] + rest), parse) == Ok([Position(i as real, 0.0)])
  {
    assert FloatOverflowAt > 0 by {
      Pow2Grows(970, 1024);
    }
  }

  lemma {:induction false} Pow2Grows(m: nat, n: nat)
    requires m < n
    ensures Pow2(m) < Pow2(n)
  {
    if m < n - 1 {
      Pow2Grows(m, n - 1);
    }
  }

  /** Strings, empty lists, lists starting with a string and scalars hold no positions. */
  lemma NothingElse(s: string, items: seq<Json>, parse: string -> Option<real>)
    ensures Coordinates(JStr(s), parse) == Ok([])
    ensures Coordinates(JList([]), parse) == Ok([])
    ensures Coordinates(JList([JStr(s)] + items), parse) == Ok([])
    ensures Coordinates(JNull, parse) == Ok([]) && Coordinates(JInt(0), parse) == Ok([])
  {
  }

  // ---------------------------------------------------------------- the code's loops

  /** `_extract_coordinates` with its loops over a collection's features and
      over a list's parts, which extend one list of positions. */
  method ExtractCoordinates(obj: Json, parse: string -> Option<real>) returns (r: Result<seq<Position>>)
    decreases obj
    ensures r == Coordinates(obj, parse)
  {
    match obj {
      case JDict(entries) =>
        var kind := Find(entries, "type");
        if kind.Some? && entries[kind.value].1 == JStr("FeatureCollection") {
          var features := Find(entries, "features");
          if features.None? {
            return Ok([]);
          }
          match entries[features.value].1 {
            case JList(items) =>
              r := ExtractAll(obj, items, parse);
            case JStr(_) =>
              return Ok([]);
            case JDict(_) =>
              return Ok([]);
            case _ =>
              return Err(TypeError(NotIterable));
          }
        } else if kind.Some? && entries[kind.value].1 == JStr("Feature") {
          var geometry := Find(entries, "geometry");
          if geometry.None? {
            return Ok([]);
          }
          r := ExtractCoordinates(entries[geometry.value].1, parse);
        } else {
          var coordinates := Find(entries, "coordinates");
          if coordinates.None? {
            return Ok([]);
          }
          r := ExtractCoordinates(entries[coordinates.value].1, parse);
        }
      case JList(items) =>
        if |items| == 0 || items[0].JStr? {
          return Ok([]);
        }
        if IsNumber(items[0]) && |items| >= 2 {
          var lon := ToFloat(items[0], parse);
          if lon.Err? {
            return Err(lon.error);
          }
          var lat := ToFloat(items[1], parse);
          if lat.Err? {
            return Err(lat.error);
          }
          return Ok([Position(lon.value, lat.value)]);
        }
        r := ExtractAll(obj, items, parse);
      case _ =>
        return Ok([]);
    }
  }

  /** `for part in parts: coords.extend(_extract_coordinates(part))`, stopping
      at the first error. `obj` is the object the parts belong to. */
  method ExtractAll(ghost obj: Json, parts: seq<Json>, parse: string -> Option<real>) returns (r: Result<seq<Position>>)
    requires forall i :: 0 <= i < |parts| ==> parts[i] < obj
    decreases obj, 0
    ensures r == CoordinatesOfAll(parts, parse)
  {
    var coords: seq<Position> := [];
    for i := 0 to |parts|
      invariant CoordinatesOfAll(parts[..i], parse) == Ok(coords)
    {
      assert parts[..i + 1] == parts[..i] + [parts[i]];
      CoordinatesOfAppend(parts[..i], [parts[i]], parse);
      CoordinatesOfAppend(parts[..i + 1], parts[i + 1..], parse);
      assert parts[..i + 1] + parts[i + 1..] == parts;
      var part := ExtractCoordinates(parts[i], parse);
      if part.Err? {
        CoordinatesOfAppend(parts[..i], parts[i..], parse);
        assert parts[..i] + parts[i..] == parts;
        assert parts[i..][0] == parts[i];
        return part;
      }
      assert CoordinatesOfAll([parts[i]], parse) == Join(part, Ok([]));
      assert part.value + [] == part.value;
      coords := coords + part.value;
    }
    assert parts[..|parts|] == parts;
    return Ok(coords);
  }

  /** `_geojson_bounds`: the least and greatest longitude and latitude of the
      object's positions. A non-mapping is a TypeError, an object without
      positions a ValueError, and an extraction error propagates. */
  method GeojsonBounds(aoi: Json, parse: string -> Option<real>) returns (r: Result<Bounds>)
    ensures !aoi.JDict? ==> r == Err(TypeError(NotMapping))
    ensures aoi.JDict? && Coordinates(aoi, parse).Err? ==> r == Err(Coordinates(aoi, parse).error)
    ensures aoi.JDict? && Coordinates(aoi, parse) == Ok([]) ==> r == Err(ValueError(NoCoordinates))
    ensures r.Ok? <==> aoi.JDict? && Coordinates(aoi, parse).Ok? && Coordinates(aoi, parse).value != []
    ensures r.Ok? ==>
              var b, ps := r.value, Coordinates(aoi, parse).value;
              b.minLon <= b.maxLon && b.minLat <= b.maxLat &&
              (forall p :: p in ps ==> b.minLon <= p.lon <= b.maxLon && b.minLat <= p.lat <= b.maxLat) &&
              (exists p :: p in ps && p.lon == b.minLon) && (exists p :: p in ps && p.lon == b.maxLon) &&
              (exists p :: p in ps && p.lat == b.minLat) && (exists p :: p in ps && p.lat == b.maxLat)
  {
    if !aoi.JDict? {
      return Err(TypeError(NotMapping));
    }
    var coords := ExtractCoordinates(aoi, parse);
    if coords.Err? {
      return Err(coords.error);
    }
    var ps := coords.value;
    if |ps| == 0 {
      return Err(ValueError(NoCoordinates));
    }
    var lons := seq(|ps|, i requires 0 <= i < |ps| => ps[i].lon);
    var lats := seq(|ps|, i requires 0 <= i < |ps| => ps[i].lat);
    r := Ok(Bounds(Aggregates.Min(lons), Aggregates.Max(lons), Aggregates.Min(lats), Aggregates.Max(lats)));
    forall p | p in ps
      ensures p.lon in lons && p.lat in lats
    {
      var i :| 0 <= i < |ps| && ps[i] == p;
      assert lons[i] == p.lon && lats[i] == p.lat;
    }
    assert Aggregates.Min(lons) in lons && Aggregates.Max(lons) in lons;
    assert Aggregates.Min(lats) in lats && Aggregates.Max(lats) in lats;
    assert Aggregates.Min(lons) <= lons[0] <= Aggregates.Max(lons);
    assert Aggregates.Min(lats) <= lats[0] <= Aggregates.Max(lats);
    Attained(ps, lons, lats, Aggregates.Min(lons));
    Attained(ps, lons, lats, Aggregates.Max(lons));
    Attained(ps, lons, lats, Aggregates.Min(lats));
    Attained(ps, lons, lats, Aggregates.Max(lats));
  }

  /** A value in the longitude or latitude column belongs to some position. */
  lemma Attained(ps: seq<Position>, lons: seq<real>, lats: seq<real>, v: real)
    requires |lons| == |ps| && |lats| == |ps|
    requires forall i :: 0 <= i < |ps| ==> lons[i] == ps[i].lon && lats[i] == ps[i].lat
    ensures v in lons ==> exists p :: p in ps && p.lon == v
    ensures v in lats ==> exists p :: p in ps && p.lat == v
  {
    if v in lons {
      var i :| 0 <= i < |lons| && lons[i] == v;
      assert ps[i] in ps;
    }
    if v in lats {
      var i :| 0 <= i < |lats| && lats[i] == v;
      assert ps[i] in ps;
    }
  }
}
