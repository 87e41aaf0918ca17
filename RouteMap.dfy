/**
 * RouteMap.jsx: the route's coordinates arrive as a string of
 * `lon,lat` pairs separated by `;`, possibly inside one pair of brackets.
 * They become `[lat, lon]` points, from which the map takes its centre,
 * its bounds and the start and end markers.
 */
module RouteMap {
  import opened Wrappers
  import opened Text
  import opened JsValues

  /**
   * `[lat, lon]`. A segment without a comma has no second part, so its
   * latitude is `undefined` (`None`) rather than a number.
   */
  datatype Point = Point(lat: Option<Number>, lon: Number)

  /** `replace(/^\[|\]$/g, '')`: one leading `[` and one trailing `]` go, if present. */
  function StripBrackets(s: string): (r: string)
    ensures |r| <= |s|
  {
    var afterOpen := if s != [] && s[0] == '[' then s[1..] else s;
    if afterOpen != [] && afterOpen[|afterOpen| - 1] == ']' then afterOpen[..|afterOpen| - 1] else afterOpen
  }

  /** Brackets around anything come off, once. */
  lemma {:induction false} StripBracketsAround(s: string)
    ensures StripBrackets("[" + s + "]") == s
  {
    var t := "[" + s + "]";
    assert t[1..] == s + "]";
    assert (s + "]")[..|s|] == s;
  }

  /** A string that neither starts with `[` nor ends with `]` is left alone. */
  lemma {:induction false} StripBracketsNone(s: string)
    requires s == [] || (s[0] != '[' && s[|s| - 1] != ']')
    ensures StripBrackets(s) == s
  {
  }

  /** Only one bracket comes off each end. */
  lemma StripBracketsOnce()
    ensures StripBrackets("[[1,2]]") == "[1,2]"
  {
    var s := "[[1,2]]";
    assert s[1..] == "[1,2]]";
    assert "[1,2]]"[..5] == "[1,2]";
  }

  /** `const [lon, lat] = coord.split(',').map(Number); return [lat, lon];` */
  function PointOf(segment: string, toNumber: string -> Number): (p: Point)
  {
    var parts := Split(segment, ",");
    Point(if |parts| > 1 then Some(toNumber(parts[1])) else None, toNumber(parts[0]))
  }

  /** `parseCoordinates(coordString)`: `None` stands for `null`. */
  function ParseCoordinates(coordString: Option<string>, toNumber: string -> Number): (r: Option<seq<Point>>)
    ensures r.None? <==> coordString.None? || coordString.value == ""
    ensures r.Some? ==> |r.value| >= 1
    ensures r.Some? ==> var segments := Split(StripBrackets(coordString.value), ";");
      |r.value| == |segments| &&
      forall i :: 0 <= i < |segments| ==> r.value[i] == PointOf(segments[i], toNumber)
  {
    if coordString.None? || coordString.value == "" then None
    else
      var segments := Split(StripBrackets(coordString.value), ";");
      Some(seq(|segments|, i requires 0 <= i < |segments| => PointOf(segments[i], toNumber)))
  }

  /** A segment `a,b` becomes the point `[b, a]`. */
  lemma {:induction false} PairIsSwapped(a: string, b: string, toNumber: string -> Number)
    requires ',' !in a && ',' !in b
    ensures PointOf(a + "," + b, toNumber) == Point(Some(toNumber(b)), toNumber(a))
  {
    assert "," == [','];
    assert Join([a, b], ",") == a + "," + b by {
      assert Join([a, b], ",") == Join([a], ",") + "," + b;
    }
    SplitJoinChar([a, b], ',');
  }

  /** A bracketed list of segments gives one point per segment, in order. */
  lemma {:induction false} SegmentsInOrder(segments: seq<string>, toNumber: string -> Number)
    requires |segments| >= 1
    requires forall k :: 0 <= k < |segments| ==> ';' !in segments[k]
    ensures var r := ParseCoordinates(Some("[" + Join(segments, ";") + "]"), toNumber);
      r.Some? && |r.value| == |segments| &&
      forall i :: 0 <= i < |segments| ==> r.value[i] == PointOf(segments[i], toNumber)
  {
    assert ";" == [';'];
    StripBracketsAround(Join(segments, ";"));
    SplitJoinChar(segments, ';');
  }

  /** `[39.8283, -98.5795]`, the centre of the USA. */
  const Fallback: Point := Point(Some(Real(39.8283)), Real(-98.5795))

  /** `getMapCenter()`: the first point, or the fallback. */
  function MapCenter(coordinates: Option<seq<Point>>): (c: Point)
    ensures coordinates.Some? && |coordinates.value| > 0 ==> c == coordinates.value[0]
    ensures !(coordinates.Some? && |coordinates.value| > 0) ==> c == Fallback
  {
    if coordinates.Some? && |coordinates.value| > 0 then coordinates.value[0] else Fallback
  }

  /** `getMapBounds()`: the points themselves when there is more than one. */
  function MapBounds(coordinates: Option<seq<Point>>): (b: Option<seq<Point>>)
    ensures b.Some? <==> coordinates.Some? && |coordinates.value| > 1
    ensures b.Some? ==> b == coordinates
  {
    if coordinates.Some? && |coordinates.value| > 1 then coordinates else None
  }

  /** The start and end markers, shown when there are at least two points. */
  function Markers(coordinates: Option<seq<Point>>): (m: Option<(Point, Point)>)
    ensures m.Some? <==> coordinates.Some? && |coordinates.value| >= 2
    ensures m.Some? ==> m.value.0 == coordinates.value[0] && m.value.1 == coordinates.value[|coordinates.value| - 1]
  {
    if coordinates.Some? && |coordinates.value| >= 2 then
      Some((coordinates.value[0], coordinates.value[|coordinates.value| - 1]))
    else None
  }

  /** With parsed coordinates the map is fitted to bounds exactly when the markers are shown, and the start marker is the centre. */
  lemma {:induction false} BoundsWithMarkers(coordString: Option<string>, toNumber: string -> Number)
    ensures var c := ParseCoordinates(coordString, toNumber);
      (MapBounds(c).Some? <==> Markers(c).Some?) &&
      (Markers(c).Some? ==> Markers(c).value.0 == MapCenter(c))
  {
  }

  /** A non-empty route string always centres the map on its first point, never on the fallback. */
  lemma {:induction false} CentreOfRoute(coordString: string, toNumber: string -> Number)
    requires coordString != ""
    ensures var c := ParseCoordinates(Some(coordString), toNumber);
      MapCenter(c) == PointOf(Split(StripBrackets(coordString), ";")[0], toNumber)
  {
  }

  /** Absent or empty input leaves the map on the fallback centre with neither bounds nor markers. */
  lemma {:induction false} NoRoute(toNumber: string -> Number)
    ensures MapCenter(ParseCoordinates(None, toNumber)) == Fallback
    ensures MapCenter(ParseCoordinates(Some(""), toNumber)) == Fallback
    ensures MapBounds(ParseCoordinates(Some(""), toNumber)).None?
    ensures Markers(ParseCoordinates(Some(""), toNumber)).None?
  {
  }
}
