/**
 * The map page's table builders and the selection logic of its first drawing
 * effect, which draws one polyline pair per distinct shape (src/app/maps.tsx).
 */
module Maps {
  import opened Gtfs
  import opened JsMaps

  /** The largest of `start` and the numeric ids of the given routes. */
  function MaxRouteKey(start: int, routes: seq<Route>): (m: int)
    ensures routes != [] ==> m >= RouteKey(routes[|routes| - 1])
    decreases |routes|
  {
    if routes == [] then start
    else
      var m := MaxRouteKey(start, routes[..|routes| - 1]);
      var k := RouteKey(routes[|routes| - 1]);
      if m < k then k else m
  }

  /** The running maximum never falls below where it started. */
  lemma {:induction false} MaxRouteKeyAtLeastStart(start: int, routes: seq<Route>)
    ensures MaxRouteKey(start, routes) >= start
    decreases |routes|
  {
    if routes != [] {
      MaxRouteKeyAtLeastStart(start, routes[..|routes| - 1]);
    }
  }

  /** The running maximum is at least every route's numeric id. */
  lemma {:induction false} MaxRouteKeyBoundsAll(start: int, routes: seq<Route>, i: nat)
    requires i < |routes|
    ensures MaxRouteKey(start, routes) >= RouteKey(routes[i])
    decreases |routes|
  {
    if i < |routes| - 1 {
      assert routes[..|routes| - 1][i] == routes[i];
      MaxRouteKeyBoundsAll(start, routes[..|routes| - 1], i);
    }
  }

  /** The running maximum is attained: it is the start value or some route's numeric id. */
  lemma {:induction false} MaxRouteKeyAttained(start: int, routes: seq<Route>)
    ensures MaxRouteKey(start, routes) == start
         || exists i :: 0 <= i < |routes| && MaxRouteKey(start, routes) == RouteKey(routes[i])
    decreases |routes|
  {
    if routes != [] {
      var p := routes[..|routes| - 1];
      MaxRouteKeyAttained(start, p);
      if MaxRouteKey(start, routes) != start && MaxRouteKey(start, routes) == MaxRouteKey(start, p) {
        var i :| 0 <= i < |p| && MaxRouteKey(start, p) == RouteKey(p[i]);
        assert p[i] == routes[i];
      }
    }
  }

  /** The module-level state of the map page. */
  class MapsModule {
    /** `let Z_INDEX_BUFFER`: the largest numeric route id seen so far, the base the
        page stacks polylines on. */
    var zIndexBuffer: int

    constructor ()
      ensures zIndexBuffer == 0
    {
      zIndexBuffer := 0;
    }

    /** Indexes the routes table by numeric route id and raises the z-index base to the
        largest id seen. */
    method GetRouteMap(routes: seq<Route>) returns (routeMap: JsMap<int, Route>)
      modifies this
      ensures routeMap == IndexBy(routes, RouteKey)
      ensures zIndexBuffer == MaxRouteKey(old(zIndexBuffer), routes)
    {
      routeMap := Empty();
      for i := 0 to |routes|
        invariant routeMap == IndexBy(routes[..i], RouteKey)
        invariant zIndexBuffer == MaxRouteKey(old(zIndexBuffer), routes[..i])
      {
        assert routes[..i + 1][..i] == routes[..i];
        var routeId := RouteKey(routes[i]);
        routeMap := routeMap.Set(routeId, routes[i]);
        if zIndexBuffer < routeId {
          zIndexBuffer := routeId;
        }
      }
      assert routes[..|routes|] == routes;
    }
  }

  /** The stops table keyed by numeric stop id; the last stop with a given id wins. */
  method GetStopMap(stops: seq<Stop>) returns (stopMap: JsMap<int, Stop>)
    ensures stopMap == IndexBy(stops, StopKey)
  {
    stopMap := Empty();
    for i := 0 to |stops|
      invariant stopMap == IndexBy(stops[..i], StopKey)
    {
      assert stops[..i + 1][..i] == stops[..i];
      stopMap := stopMap.Set(StopKey(stops[i]), stops[i]);
    }
    assert stops[..|stops|] == stops;
  }

  /** Whether the drawing effect can draw `trip`: its route is known and is not a school
      bus route, and its shape has points. */
  predicate Drawable(trip: Trip, routeMap: JsMap<int, Route>, shapeMap: JsMap<string, seq<Shape>>): (ok: bool)
    // the three skip tests, read through `Map.get` as the effect does
    ensures ok <==>
      match routeMap.Get(trip.route_id)
      case None => false
      case Some(route) => route.route_type != SCHOOL_BUS && shapeMap.Get(trip.shape_id).Some?
  {
    && routeMap.Has(trip.route_id)
    && routeMap.entries[trip.route_id].route_type != SCHOOL_BUS
    && shapeMap.Has(trip.shape_id)
  }

  /** The first drawing effect: walks the trips in Map order and draws the shape of each
      drawable trip whose shape is not drawn yet. Returns the trips whose polylines were
      drawn, and `drawnShapes`, their shape ids. `at` gives each drawn trip's position. */
  method DrawRoutePolylines(
    routeMap: Option<JsMap<int, Route>>,
    shapeMap: Option<JsMap<string, seq<Shape>>>,
    tripMap: Option<JsMap<string, Trip>>)
    returns (drawn: seq<Trip>, drawnShapes: seq<string>, ghost at: seq<nat>)
    requires tripMap.Some? ==> tripMap.value.Valid()
    // nothing is drawn until all three tables have loaded
    ensures routeMap.None? || shapeMap.None? || tripMap.None? ==> drawn == [] && drawnShapes == []
    ensures |drawnShapes| == |drawn|
    ensures forall k :: 0 <= k < |drawn| ==> drawnShapes[k] == drawn[k].shape_id
    // each shape is drawn at most once
    ensures forall k, l :: 0 <= k < l < |drawnShapes| ==> drawnShapes[k] != drawnShapes[l]
    ensures routeMap.Some? && shapeMap.Some? && tripMap.Some? ==>
      var trips := tripMap.value.Values();
      && |at| == |drawn|
      // drawn in trip order, each for a drawable trip
      && (forall k, l :: 0 <= k < l < |at| ==> at[k] < at[l])
      && (forall k :: 0 <= k < |at| ==>
            at[k] < |trips| && trips[at[k]] == drawn[k] && Drawable(drawn[k], routeMap.value, shapeMap.value))
      // the first drawable trip of a shape is the one that draws it
      && (forall k, p :: 0 <= k < |at| && 0 <= p < at[k] && trips[p].shape_id == drawnShapes[k] ==>
            !Drawable(trips[p], routeMap.value, shapeMap.value))
      // every drawable trip's shape is drawn
      && (forall p :: 0 <= p < |trips| && Drawable(trips[p], routeMap.value, shapeMap.value) ==>
            trips[p].shape_id in drawnShapes)
  {
    drawn, drawnShapes, at := [], [], [];
    if routeMap.None? || shapeMap.None? || tripMap.None? {
      return;
    }
    var routes, shapes := routeMap.value, shapeMap.value;
    var trips := tripMap.value.Values();
    for i := 0 to |trips|
      invariant |drawnShapes| == |drawn| == |at|
      invariant forall k :: 0 <= k < |drawn| ==> drawnShapes[k] == drawn[k].shape_id
      invariant forall k, l :: 0 <= k < l < |drawnShapes| ==> drawnShapes[k] != drawnShapes[l]
      invariant forall k, l :: 0 <= k < l < |at| ==> at[k] < at[l]
      invariant forall k :: 0 <= k < |at| ==> at[k] < i && trips[at[k]] == drawn[k] && Drawable(drawn[k], routes, shapes)
      invariant forall k, p :: 0 <= k < |at| && 0 <= p < at[k] && trips[p].shape_id == drawnShapes[k] ==>
        !Drawable(trips[p], routes, shapes)
      invariant forall p :: 0 <= p < i && Drawable(trips[p], routes, shapes) ==> trips[p].shape_id in drawnShapes
    {
      var trip := trips[i];
      var route := routes.Get(trip.route_id);
      if route.None? || trip.shape_id in drawnShapes {
        continue;
      }
      if route.value.route_type == SCHOOL_BUS {
        continue;
      }
      var points := shapes.Get(trip.shape_id);
      if points.None? {
        continue;
      }
      drawn, drawnShapes, at := drawn + [trip], drawnShapes + [trip.shape_id], at + [i];
    }
  }
}
