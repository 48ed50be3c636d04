/**
 * The client's route classification and styling rules, its layer arithmetic for
 * z-indices, and the loops that index the parsed routes, shapes and trips tables
 * (src/app/util.ts).
 */
module Util {
  import opened Gtfs
  import opened JsMaps

  /** Metlink's bus service tiers (the `BusRouteType` enum). */
  datatype BusRouteType = Frequent | Standard | PeakExpressExtended | Midnight

  /** Ids of routes AX, 1, 2, 3, 4, 7, 21, 22, 110, 120, 130 and 220. */
  const FREQUENT_ROUTE_IDS: set<string> :=
    {"7", "10", "20", "30", "40", "70", "210", "220", "1100", "1200", "1300", "2200"}

  /** Ids of routes 14, 17, 18, 19, 20, 23, 24, 25, 27, 29, 52, 60, 83, 111, 112, 114,
      115, 121, 145, 149, 150, 154, 160, 170, 200, 210, 226, 230, 236, 250, 260, 261,
      262, 280, 281 and 290. */
  const STANDARD_ROUTE_IDS: set<string> :=
    {"140", "170", "180", "190", "200", "230", "240", "250", "270", "290", "520", "600",
     "830", "1110", "1120", "1140", "1150", "1210", "1450", "1490", "1500", "1540", "1600",
     "1700", "2000", "2100", "2260", "2300", "2360", "2500", "2600", "2610", "2620", "2800",
     "2810", "2900"}

  /** Ids of the peak, express and extended routes (12e, 13, 26, 28, 30x ... 300, HX). */
  const PEAK_EXPRESS_EXTENDED_ROUTE_IDS: set<string> :=
    {"121", "130", "260", "280", "300", "310", "320", "330", "340", "350", "360", "370",
     "390", "560", "570", "580", "590", "601", "810", "840", "1130", "2010", "2020", "2030",
     "2040", "2060", "2510", "2640", "2910", "3000", "9900"}

  /** Ids of the After Midnight routes N1 to N88. */
  const MIDNIGHT_ROUTE_IDS: set<string> :=
    {"9911", "9912", "9913", "9914", "9915", "9916", "9918", "9922", "9966", "9988"}

  /** The tier of a bus route, by its Metlink route id; `None` for any id the four case
      lists do not name. */
  function GetBusRouteType(routeId: string): (tier: Option<BusRouteType>)
    // only ids of one to four characters carry a tier
    ensures tier.Some? ==> 1 <= |routeId| <= 4
  {
    match routeId
    // FREQUENT: AX, 1, 2, 3, 4, 7, 21, 22, 110, 120, 130, 220
    case "7" => Some(Frequent)
    case "10" => Some(Frequent)
    case "20" => Some(Frequent)
    case "30" => Some(Frequent)
    case "40" => Some(Frequent)
    case "70" => Some(Frequent)
    case "210" => Some(Frequent)
    case "220" => Some(Frequent)
    case "1100" => Some(Frequent)
    case "1200" => Some(Frequent)
    case "1300" => Some(Frequent)
    case "2200" => Some(Frequent)
    // STANDARD
    case "140" => Some(Standard)
    case "170" => Some(Standard)
    case "180" => Some(Standard)
    case "190" => Some(Standard)
    case "200" => Some(Standard)
    case "230" => Some(Standard)
    case "240" => Some(Standard)
    case "250" => Some(Standard)
    case "270" => Some(Standard)
    case "290" => Some(Standard)
    case "520" => Some(Standard)
    case "600" => Some(Standard)
    case "830" => Some(Standard)
    case "1110" => Some(Standard)
    case "1120" => Some(Standard)
    case "1140" => Some(Standard)
    case "1150" => Some(Standard)
    case "1210" => Some(Standard)
    case "1450" => Some(Standard)
    case "1490" => Some(Standard)
    case "1500" => Some(Standard)
    case "1540" => Some(Standard)
    case "1600" => Some(Standard)
    case "1700" => Some(Standard)
    case "2000" => Some(Standard)
    case "2100" => Some(Standard)
    case "2260" => Some(Standard)
    case "2300" => Some(Standard)
    case "2360" => Some(Standard)
    case "2500" => Some(Standard)
    case "2600" => Some(Standard)
    case "2610" => Some(Standard)
    case "2620" => Some(Standard)
    case "2800" => Some(Standard)
    case "2810" => Some(Standard)
    case "2900" => Some(Standard)
    // PEAK_EXPRESS_EXTENDED
    case "121" => Some(PeakExpressExtended)
    case "130" => Some(PeakExpressExtended)
    case "260" => Some(PeakExpressExtended)
    case "280" => Some(PeakExpressExtended)
    case "300" => Some(PeakExpressExtended)
    case "310" => Some(PeakExpressExtended)
    case "320" => Some(PeakExpressExtended)
    case "330" => Some(PeakExpressExtended)
    case "340" => Some(PeakExpressExtended)
    case "350" => Some(PeakExpressExtended)
    case "360" => Some(PeakExpressExtended)
    case "370" => Some(PeakExpressExtended)
    case "390" => Some(PeakExpressExtended)
    case "560" => Some(PeakExpressExtended)
    case "570" => Some(PeakExpressExtended)
    case "580" => Some(PeakExpressExtended)
    case "590" => Some(PeakExpressExtended)
    case "601" => Some(PeakExpressExtended)
    case "810" => Some(PeakExpressExtended)
    case "840" => Some(PeakExpressExtended)
    case "1130" => Some(PeakExpressExtended)
    case "2010" => Some(PeakExpressExtended)
    case "2020" => Some(PeakExpressExtended)
    case "2030" => Some(PeakExpressExtended)
    case "2040" => Some(PeakExpressExtended)
    case "2060" => Some(PeakExpressExtended)
    case "2510" => Some(PeakExpressExtended)
    case "2640" => Some(PeakExpressExtended)
    case "2910" => Some(PeakExpressExtended)
    case "3000" => Some(PeakExpressExtended)
    case "9900" => Some(PeakExpressExtended)
    // MIDNIGHT: N1 to N88
    case "9911" => Some(Midnight)
    case "9912" => Some(Midnight)
    case "9913" => Some(Midnight)
    case "9914" => Some(Midnight)
    case "9915" => Some(Midnight)
    case "9916" => Some(Midnight)
    case "9918" => Some(Midnight)
    case "9922" => Some(Midnight)
    case "9966" => Some(Midnight)
    case "9988" => Some(Midnight)
    case _ => None
  }

  /** FREQUENT is returned for exactly the twelve frequent route ids. */
  lemma FrequentTier(routeId: string)
    ensures GetBusRouteType(routeId) == Some(Frequent) <==> routeId in FREQUENT_ROUTE_IDS
  {
  }

  /** STANDARD is returned for exactly the standard route ids. */
  lemma StandardTier(routeId: string)
    ensures GetBusRouteType(routeId) == Some(Standard) <==> routeId in STANDARD_ROUTE_IDS
  {
  }

  /** PEAK_EXPRESS_EXTENDED is returned for exactly the peak, express and extended ids. */
  lemma PeakExpressExtendedTier(routeId: string)
    ensures GetBusRouteType(routeId) == Some(PeakExpressExtended) <==> routeId in PEAK_EXPRESS_EXTENDED_ROUTE_IDS
  {
    if routeId in PEAK_EXPRESS_EXTENDED_ROUTE_IDS {
      if |routeId| == 3 {
        ThreeDigitPeakIdsArePeak(routeId);
      } else {
        FourDigitPeakIdsArePeak(routeId);
      }
    } else if GetBusRouteType(routeId) == Some(PeakExpressExtended) {
      OnlyPeakExpressExtendedIdsArePeak(routeId);
    }
  }

  lemma ThreeDigitPeakIdsArePeak(routeId: string)
    requires routeId in PEAK_EXPRESS_EXTENDED_ROUTE_IDS && |routeId| == 3
    ensures GetBusRouteType(routeId) == Some(PeakExpressExtended)
  {
  }

  lemma FourDigitPeakIdsArePeak(routeId: string)
    requires routeId in PEAK_EXPRESS_EXTENDED_ROUTE_IDS && |routeId| == 4
    ensures GetBusRouteType(routeId) == Some(PeakExpressExtended)
  {
  }

  lemma OnlyPeakExpressExtendedIdsArePeak(routeId: string)
    requires GetBusRouteType(routeId) == Some(PeakExpressExtended)
    ensures routeId in PEAK_EXPRESS_EXTENDED_ROUTE_IDS
  {
  }

  /** MIDNIGHT is returned for exactly the ten After Midnight route ids. */
  lemma MidnightTier(routeId: string)
    ensures GetBusRouteType(routeId) == Some(Midnight) <==> routeId in MIDNIGHT_ROUTE_IDS
  {
  }

  /** `null` is returned for exactly the ids none of the four case lists names. */
  lemma NoTierOutsideLists(routeId: string)
    ensures GetBusRouteType(routeId) == None <==>
      && routeId !in FREQUENT_ROUTE_IDS && routeId !in STANDARD_ROUTE_IDS
      && routeId !in PEAK_EXPRESS_EXTENDED_ROUTE_IDS && routeId !in MIDNIGHT_ROUTE_IDS
  {
    FrequentTier(routeId);
    StandardTier(routeId);
    PeakExpressExtendedTier(routeId);
    MidnightTier(routeId);
  }

  /** Only Metlink's numeric route ids carry a tier, so a route whose id is not a digit
      string (one `parseInt` could not read) never gets one. */
  lemma TieredIdsAreDecimal(routeId: string)
    requires GetBusRouteType(routeId).Some?
    ensures IsDecimal(routeId)
  {
    NoTierOutsideLists(routeId);
    if routeId in FREQUENT_ROUTE_IDS {
      assert forall id :: id in FREQUENT_ROUTE_IDS ==> IsDecimal(id);
    } else if routeId in STANDARD_ROUTE_IDS {
      assert forall id :: id in STANDARD_ROUTE_IDS ==> IsDecimal(id);
    } else if routeId in PEAK_EXPRESS_EXTENDED_ROUTE_IDS {
      assert forall id :: id in PEAK_EXPRESS_EXTENDED_ROUTE_IDS ==> IsDecimal(id);
    } else {
      assert forall id :: id in MIDNIGHT_ROUTE_IDS ==> IsDecimal(id);
    }
  }

  /** The rail lines (KPL, MEL, WRL, HVL, JVL: ids 2 to 6), the ferries (QDF, MIF: ids 8
      and 14) and the cable car (CCL: id 9) carry no bus tier. */
  lemma NonBusRoutesHaveNoTier()
    ensures forall id :: id in {"2", "3", "4", "5", "6", "8", "9", "14"} ==> GetBusRouteType(id) == None
  {
  }

  /** The mode colour shown beside a route: rail, bus and ferry have one; cable car,
      school bus and any other code have none (`null`). */
  function GetRouteTypeColor(routeType: int): (color: Option<string>)
    ensures color.Some? <==> routeType in {RAIL, BUS, FERRY}
    ensures routeType == RAIL ==> color == Some("#784e90")
    ensures routeType == BUS ==> color == Some("#4e801f")
    ensures routeType == FERRY ==> color == Some("#0093b2")
  {
    match routeType
    case 2 => Some("#784e90")
    case 3 => Some("#4e801f")
    case 4 => Some("#0093b2")
    case _ => None
  }

  /** A mode colour identifies the mode: no two route types share one. */
  lemma RouteTypeColorIdentifiesType(t1: int, t2: int)
    requires GetRouteTypeColor(t1).Some? && GetRouteTypeColor(t1) == GetRouteTypeColor(t2)
    ensures t1 == t2
  {
  }

  /** The five bundled vehicle icons (rail.svg, bus.svg, ferry.svg, cable-car.svg and
      school-bus.svg), as opaque assets. */
  datatype Icon = RailIcon | BusIcon | FerryIcon | CableCarIcon | SchoolBusIcon

  /** The icon of a route type; `None` stands for the empty string returned for any
      other code. */
  function GetRouteTypeSvg(routeType: int): (icon: Option<Icon>)
    ensures icon.Some? <==> routeType in {RAIL, BUS, FERRY, CABLE_CAR, SCHOOL_BUS}
    ensures routeType == RAIL ==> icon == Some(RailIcon)
    ensures routeType == BUS ==> icon == Some(BusIcon)
    ensures routeType == FERRY ==> icon == Some(FerryIcon)
    ensures routeType == CABLE_CAR ==> icon == Some(CableCarIcon)
    ensures routeType == SCHOOL_BUS ==> icon == Some(SchoolBusIcon)
  {
    match routeType
    case 2 => Some(RailIcon)
    case 3 => Some(BusIcon)
    case 4 => Some(FerryIcon)
    case 5 => Some(CableCarIcon)
    case 712 => Some(SchoolBusIcon)
    case _ => None
  }

  /** Every known route type has its own icon. */
  lemma RouteTypeSvgIdentifiesType(t1: int, t2: int)
    requires GetRouteTypeSvg(t1).Some? && GetRouteTypeSvg(t1) == GetRouteTypeSvg(t2)
    ensures t1 == t2
  {
  }

  /** The colours a route is drawn with: its label background, bearing arrow, path,
      marker outline, label text and mode colour. */
  datatype RouteColors = RouteColors(
    backgroundColor: string,
    bearingColor: string,
    polylineColor: string,
    strokeColor: string,
    textColor: string,
    typeColor: Option<string>)

  const WHITE: string := "#ffffff"
  const MIDNIGHT_GREY: string := "#3d3d3d"
  const MIDNIGHT_YELLOW: string := "#fff200"

  /** The record getRouteColors starts from: every colour is the route's own colour,
      except the text (its text colour) and the mode colour. */
  function BaseColors(route: Route): (colors: RouteColors)
    ensures colors.backgroundColor == colors.bearingColor == colors.polylineColor == colors.strokeColor
    ensures colors.typeColor.Some? <==> route.route_type in {RAIL, BUS, FERRY}
  {
    RouteColors(
      "#" + route.route_color,
      "#" + route.route_color,
      "#" + route.route_color,
      "#" + route.route_color,
      "#" + route.route_text_color,
      GetRouteTypeColor(route.route_type))
  }

  /** The bus tier of a route, or `None` when it is not a bus route. */
  function BusTier(route: Route): Option<BusRouteType> {
    if route.route_type == BUS then GetBusRouteType(route.route_id) else None
  }

  /** Builds the base record, then overrides fields by route type and bus tier. */
  method GetRouteColors(route: Route) returns (colors: RouteColors)
    // never overridden
    ensures colors.bearingColor == "#" + route.route_color
    ensures colors.typeColor == GetRouteTypeColor(route.route_type)
    ensures colors.strokeColor == colors.polylineColor
    // rail, ferry and frequent buses: white text only
    ensures route.route_type == RAIL || route.route_type == FERRY || BusTier(route) == Some(Frequent) ==>
      colors == BaseColors(route).(textColor := WHITE)
    // standard and peak/express/extended buses: white label, text in the route colour
    ensures BusTier(route) == Some(Standard) || BusTier(route) == Some(PeakExpressExtended) ==>
      colors == BaseColors(route).(backgroundColor := WHITE, textColor := "#" + route.route_color)
    // midnight buses: grey label, path and outline, yellow text
    ensures BusTier(route) == Some(Midnight) ==>
      colors == BaseColors(route).(backgroundColor := MIDNIGHT_GREY, polylineColor := MIDNIGHT_GREY,
                                   strokeColor := MIDNIGHT_GREY, textColor := MIDNIGHT_YELLOW)
    // cable car, school bus, other codes and untiered buses keep the route's own colours
    ensures route.route_type !in {RAIL, BUS, FERRY} || (route.route_type == BUS && BusTier(route) == None) ==>
      colors == BaseColors(route)
  {
    colors := BaseColors(route);
    if route.route_type == RAIL {
      // overrides Metlink's black rail text
      colors := colors.(textColor := WHITE);
    } else if route.route_type == BUS {
      match GetBusRouteType(route.route_id)
      case Some(Frequent) =>
        colors := colors.(textColor := WHITE);
      case Some(Standard) =>
        colors := colors.(backgroundColor := WHITE, textColor := "#" + route.route_color);
      case Some(PeakExpressExtended) =>
        colors := colors.(backgroundColor := WHITE, textColor := "#" + route.route_color);
      case Some(Midnight) =>
        colors := colors.(backgroundColor := MIDNIGHT_GREY, polylineColor := MIDNIGHT_GREY,
                          strokeColor := MIDNIGHT_GREY, textColor := MIDNIGHT_YELLOW);
      case None =>
    } else if route.route_type == FERRY {
      colors := colors.(textColor := WHITE);
    }
  }

  /** The multiplier that separates z-index layers. */
  const Z_INDEX_BUFFER: int := 10000

  /** Stacking layers, bottom to top (the `ZIndexLayer` enum). */
  datatype ZIndexLayer = Polyline | PolylineSelected | MarkerStale | Marker

  function LayerOrdinal(layer: ZIndexLayer): nat {
    match layer
    case Polyline => 0
    case PolylineSelected => 1
    case MarkerStale => 2
    case Marker => 3
  }

  /** The z-index of the item with the given id in a layer. For ids in [0, 10000) each
      layer occupies its own band of 10000 values. */
  function GetZIndex(id: int, layer: ZIndexLayer): (z: int)
    ensures 0 <= id < Z_INDEX_BUFFER ==>
      Z_INDEX_BUFFER * LayerOrdinal(layer) < z <= Z_INDEX_BUFFER * (LayerOrdinal(layer) + 1)
  {
    Z_INDEX_BUFFER * (LayerOrdinal(layer) + 1) - id
  }

  /** Everything in a higher layer is stacked above everything in a lower one. */
  lemma HigherLayerIsAbove(id1: int, layer1: ZIndexLayer, id2: int, layer2: ZIndexLayer)
    requires 0 <= id1 < Z_INDEX_BUFFER && 0 <= id2 < Z_INDEX_BUFFER
    requires LayerOrdinal(layer1) < LayerOrdinal(layer2)
    ensures GetZIndex(id1, layer1) < GetZIndex(id2, layer2)
  {
  }

  /** Within one layer, a smaller id is stacked above a larger one. */
  lemma SmallerIdIsAbove(id1: int, id2: int, layer: ZIndexLayer)
    requires id1 < id2
    ensures GetZIndex(id1, layer) > GetZIndex(id2, layer)
  {
  }

  /** The routes table keyed by numeric route id; a later route with the same
      numeric id replaces the earlier one. */
  method GetRouteMap(routes: seq<Route>) returns (routeMap: JsMap<int, Route>)
    ensures routeMap == IndexBy(routes, RouteKey)
  {
    routeMap := Empty();
    for i := 0 to |routes|
      invariant routeMap == IndexBy(routes[..i], RouteKey)
    {
      assert routes[..i + 1][..i] == routes[..i];
      routeMap := routeMap.Set(RouteKey(routes[i]), routes[i]);
    }
    assert routes[..|routes|] == routes;
  }

  /** The shapes table grouped by shape_id, each group in input order. */
  method GetShapeMap(shapes: seq<Shape>) returns (shapeMap: JsMap<string, seq<Shape>>)
    ensures shapeMap == GroupBy(shapes, ShapeKey)
  {
    shapeMap := Empty();
    for i := 0 to |shapes|
      invariant shapeMap == GroupBy(shapes[..i], ShapeKey)
    {
      assert shapes[..i + 1][..i] == shapes[..i];
      var shape := shapes[i];
      if !shapeMap.Has(shape.shape_id) {
        shapeMap := shapeMap.Set(shape.shape_id, []);
      }
      shapeMap := shapeMap.Set(shape.shape_id, shapeMap.entries[shape.shape_id] + [shape]);
    }
    assert shapes[..|shapes|] == shapes;
  }

  /** The trips table keyed by trip_id; the last trip with a given id wins. */
  method GetTripMap(trips: seq<Trip>) returns (tripMap: JsMap<string, Trip>)
    ensures tripMap == IndexBy(trips, TripKey)
  {
    tripMap := Empty();
    for i := 0 to |trips|
      invariant tripMap == IndexBy(trips[..i], TripKey)
    {
      assert trips[..i + 1][..i] == trips[..i];
      tripMap := tripMap.Set(trips[i].trip_id, trips[i]);
    }
    assert trips[..|trips|] == trips;
  }
}
