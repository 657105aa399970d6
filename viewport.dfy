// The province boundary table and the zoomToProvinces rule
// (frontend/src/MapComponent.jsx:29-50, 77-78, 153-175).
module Viewport {
  import opened Optional
  import opened Selections

  datatype LatLng = LatLng(lat: real, lng: real)

  /** A bounding box [[south, west], [north, east]]. */
  datatype Box = Box(sw: LatLng, ne: LatLng)

  datatype Boundary = Boundary(center: LatLng, bounds: Box, zoom: int)

  /** What the map is asked to do. */
  datatype ViewCommand = SetView(center: LatLng, zoom: int) | FitBounds(box: Box)

  const Region1Center := LatLng(18.1, 120.7)
  const DefaultZoom := 8
  const DefaultView := SetView(Region1Center, DefaultZoom)

  /** provinceBoundaries: the four provinces of the region; any other name has no entry. */
  function ProvinceBoundary(name: string): (b: Option<Boundary>)
    ensures b.Some? ==> b.value.bounds.sw.lat < b.value.bounds.ne.lat && b.value.bounds.sw.lng < b.value.bounds.ne.lng
  {
    match name
    case "Ilocos Norte" => Some(Boundary(LatLng(18.1686, 120.7056), Box(LatLng(17.8, 120.3), LatLng(18.5, 121.1)), 9))
    case "Ilocos Sur" => Some(Boundary(LatLng(17.5667, 120.3833), Box(LatLng(17.2, 120.0), LatLng(17.9, 120.7)), 9))
    case "La Union" => Some(Boundary(LatLng(16.5000, 120.3333), Box(LatLng(16.1, 120.0), LatLng(16.9, 120.7)), 9))
    case "Pangasinan" => Some(Boundary(LatLng(15.9167, 120.3333), Box(LatLng(15.5, 119.8), LatLng(16.3, 120.8)), 8))
    case _ => None
  }

  function Min(a: real, b: real): real { if a <= b then a else b }
  function Max(a: real, b: real): real { if a >= b then a else b }

  /** The starting accumulator: south 90, west 180, north -90, east -180 (an empty box). */
  const Start := Box(LatLng(90.0, 180.0), LatLng(-90.0, -180.0))

  /** Widen the accumulator by one province's box; unknown names leave it as it is. */
  function Widen(acc: Box, name: string): Box
  {
    match ProvinceBoundary(name)
    case None => acc
    case Some(b) =>
      Box(LatLng(Min(acc.sw.lat, b.bounds.sw.lat), Min(acc.sw.lng, b.bounds.sw.lng)),
          LatLng(Max(acc.ne.lat, b.bounds.ne.lat), Max(acc.ne.lng, b.bounds.ne.lng)))
  }

  /** The accumulator after the forEach over the names. */
  function Union(names: seq<string>): Box
  {
    if names == [] then Start else Widen(Union(names[..|names| - 1]), names[|names| - 1])
  }

  predicate NonDegenerate(b: Box)
  {
    b.sw.lat < b.ne.lat && b.sw.lng < b.ne.lng
  }

  /** The camera call zoomToProvinces makes; None when it makes none. */
  function ZoomRule(provinces: seq<string>): Option<ViewCommand>
  {
    if |provinces| == 1 && provinces[0] != All && ProvinceBoundary(provinces[0]).Some? then
      var b := ProvinceBoundary(provinces[0]).value;
      Some(SetView(b.center, b.zoom))
    else if |provinces| > 1 && All !in provinces then
      var box := Union(provinces);
      if NonDegenerate(box) then Some(FitBounds(box)) else None
    else Some(DefaultView)
  }

  /** zoomToProvinces' decision, with its forEach over the names as a loop. */
  method ZoomToProvinces(provinces: seq<string>) returns (cmd: Option<ViewCommand>)
    ensures cmd == ZoomRule(provinces)
  {
    if |provinces| == 1 && provinces[0] != All && ProvinceBoundary(provinces[0]).Some? {
      var b := ProvinceBoundary(provinces[0]).value;
      cmd := Some(SetView(b.center, b.zoom));
    } else if |provinces| > 1 && All !in provinces {
      var minLat, minLng, maxLat, maxLng := 90.0, 180.0, -90.0, -180.0;
      var i := 0;
      while i < |provinces|
        invariant 0 <= i <= |provinces|
        invariant Union(provinces[..i]) == Box(LatLng(minLat, minLng), LatLng(maxLat, maxLng))
      {
        assert provinces[..i + 1][..i] == provinces[..i];
        var b := ProvinceBoundary(provinces[i]);
        if b.Some? {
          minLat := Min(minLat, b.value.bounds.sw.lat);
          minLng := Min(minLng, b.value.bounds.sw.lng);
          maxLat := Max(maxLat, b.value.bounds.ne.lat);
          maxLng := Max(maxLng, b.value.bounds.ne.lng);
        }
        i := i + 1;
      }
      assert provinces[..i] == provinces;
      if minLat < maxLat && minLng < maxLng {
        cmd := Some(FitBounds(Box(LatLng(minLat, minLng), LatLng(maxLat, maxLng))));
      } else {
        cmd := None;
      }
    } else {
      cmd := Some(DefaultView);
    }
  }

  // ---- Properties of the rule ----

  /** The box a contains the box b. */
  predicate Encloses(a: Box, b: Box)
  {
    a.sw.lat <= b.sw.lat && a.sw.lng <= b.sw.lng && b.ne.lat <= a.ne.lat && b.ne.lng <= a.ne.lng
  }

  /** The union encloses the box of every known province named, and each of its edges is
      the edge of one of them; with no known name it stays the empty starting box. */
  lemma UnionSpec(names: seq<string>)
    ensures forall n :: n in names && ProvinceBoundary(n).Some? ==> Encloses(Union(names), ProvinceBoundary(n).value.bounds)
    ensures (forall n :: n in names ==> ProvinceBoundary(n).None?) ==> Union(names) == Start
    ensures (exists n :: n in names && ProvinceBoundary(n).Some?) ==> IsKnownEdges(names, Union(names))
  {
    UnionEncloses(names);
    UnionOfUnknown(names);
    UnionEdges(names);
  }

  lemma {:induction false} UnionEncloses(names: seq<string>)
    ensures forall n :: n in names && ProvinceBoundary(n).Some? ==> Encloses(Union(names), ProvinceBoundary(n).value.bounds)
    decreases |names|
  {
    if names != [] {
      var pre, last := names[..|names| - 1], names[|names| - 1];
      assert names == pre + [last];
      UnionEncloses(pre);
    }
  }

  lemma {:induction false} UnionOfUnknown(names: seq<string>)
    ensures (forall n :: n in names ==> ProvinceBoundary(n).None?) ==> Union(names) == Start
    decreases |names|
  {
    if names != [] {
      var pre, last := names[..|names| - 1], names[|names| - 1];
      assert names == pre + [last];
      UnionOfUnknown(pre);
    }
  }

  lemma {:induction false} UnionEdges(names: seq<string>)
    ensures (exists n :: n in names && ProvinceBoundary(n).Some?) ==> IsKnownEdges(names, Union(names))
    decreases |names|
  {
    if names != [] {
      var pre, last := names[..|names| - 1], names[|names| - 1];
      assert names == pre + [last];
      UnionEdges(pre);
      var u := Union(pre);
      if !(exists n :: n in pre && ProvinceBoundary(n).Some?) {
        if ProvinceBoundary(last).Some? {
          UnionOfUnknown(pre);
          assert last in names;
        }
      } else if ProvinceBoundary(last).Some? {
        EdgesWiden(pre, u, last);
      } else {
        EdgesMore(pre, u, last);
      }
    }
  }

  /** Every edge of the box is the matching edge of a known province among the names. */
  predicate IsKnownEdges(names: seq<string>, u: Box)
  {
    (exists n :: n in names && ProvinceBoundary(n).Some? && ProvinceBoundary(n).value.bounds.sw.lat == u.sw.lat)
    && (exists n :: n in names && ProvinceBoundary(n).Some? && ProvinceBoundary(n).value.bounds.sw.lng == u.sw.lng)
    && (exists n :: n in names && ProvinceBoundary(n).Some? && ProvinceBoundary(n).value.bounds.ne.lat == u.ne.lat)
    && (exists n :: n in names && ProvinceBoundary(n).Some? && ProvinceBoundary(n).value.bounds.ne.lng == u.ne.lng)
  }

  lemma EdgesMore(pre: seq<string>, u: Box, last: string)
    requires IsKnownEdges(pre, u)
    ensures IsKnownEdges(pre + [last], u)
  {
    var n1 :| n1 in pre && ProvinceBoundary(n1).Some? && ProvinceBoundary(n1).value.bounds.sw.lat == u.sw.lat;
    var n2 :| n2 in pre && ProvinceBoundary(n2).Some? && ProvinceBoundary(n2).value.bounds.sw.lng == u.sw.lng;
    var n3 :| n3 in pre && ProvinceBoundary(n3).Some? && ProvinceBoundary(n3).value.bounds.ne.lat == u.ne.lat;
    var n4 :| n4 in pre && ProvinceBoundary(n4).Some? && ProvinceBoundary(n4).value.bounds.ne.lng == u.ne.lng;
    assert n1 in pre + [last] && n2 in pre + [last] && n3 in pre + [last] && n4 in pre + [last];
  }

  lemma EdgesWiden(pre: seq<string>, u: Box, last: string)
    requires IsKnownEdges(pre, u) && ProvinceBoundary(last).Some?
    ensures IsKnownEdges(pre + [last], Widen(u, last))
  {
    EdgesMore(pre, u, last);
    var b := ProvinceBoundary(last).value.bounds;
    var w := Widen(u, last);
    var names := pre + [last];
    assert last in names;
    if w.sw.lat != u.sw.lat { assert w.sw.lat == b.sw.lat; }
    if w.sw.lng != u.sw.lng { assert w.sw.lng == b.sw.lng; }
    if w.ne.lat != u.ne.lat { assert w.ne.lat == b.ne.lat; }
    if w.ne.lng != u.ne.lng { assert w.ne.lng == b.ne.lng; }
  }

  /** A single known province gets its own centre and zoom. */
  lemma ZoomSingleProvince(name: string)
    requires ProvinceBoundary(name).Some?
    ensures ZoomRule([name]) == Some(SetView(ProvinceBoundary(name).value.center, ProvinceBoundary(name).value.zoom))
  {
  }

  /** Several provinces without "All" are fitted to the smallest box holding every known one's
      bounds; when none of them is known the map is left in place. */
  lemma ZoomSeveralProvinces(provinces: seq<string>)
    requires |provinces| > 1 && All !in provinces
    ensures (exists n :: n in provinces && ProvinceBoundary(n).Some?) ==>
      ZoomRule(provinces).Some? && ZoomRule(provinces).value.FitBounds?
      && var box := ZoomRule(provinces).value.box;
         (forall n :: n in provinces && ProvinceBoundary(n).Some? ==> Encloses(box, ProvinceBoundary(n).value.bounds))
         && IsKnownEdges(provinces, box)
    ensures (forall n :: n in provinces ==> ProvinceBoundary(n).None?) ==> ZoomRule(provinces) == None
  {
    UnionSpec(provinces);
    if exists n :: n in provinces && ProvinceBoundary(n).Some? {
      var n :| n in provinces && ProvinceBoundary(n).Some?;
      var b := ProvinceBoundary(n).value.bounds;
      assert Encloses(Union(provinces), b);
    }
  }

  /** Everything else (no names, "All" among them, one unknown name) gets the region's default view. */
  lemma ZoomDefault(provinces: seq<string>)
    requires |provinces| == 0 || All in provinces || (|provinces| == 1 && ProvinceBoundary(provinces[0]).None?)
    ensures ZoomRule(provinces) == Some(DefaultView)
  {
  }

  /** Ilocos Norte with Ilocos Sur fits [[17.2, 120.0], [18.5, 121.1]]. */
  lemma ZoomIlocosExample()
    ensures ZoomRule(["Ilocos Norte", "Ilocos Sur"]) == Some(FitBounds(Box(LatLng(17.2, 120.0), LatLng(18.5, 121.1))))
  {
    var names := ["Ilocos Norte", "Ilocos Sur"];
    assert names[..1] == ["Ilocos Norte"] && names[..1][..0] == [];
    assert Union(names[..1]) == Box(LatLng(17.8, 120.3), LatLng(18.5, 121.1));
  }
}
