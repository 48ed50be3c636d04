# Wellington Maps — a verified model of the client rules and code generators

Wellington Maps draws Metlink's public-transport network (routes, stops and live
vehicles) on a map of Wellington. It reads the GTFS tables (routes, shapes, trips and
stops) from its own HTTP API. This project models the parts of the program that
decide what is shown and how:

- `gtfs.dfy` (module `Gtfs`): the GTFS records the client reads. It holds the GTFS
  `route_type` codes it knows (2 rail, 3 bus, 4 ferry, 5 cable car, 712 school bus)
  and `parseInt` on decimal id strings.
- `jsmap.dfy` (module `JsMaps`): the JavaScript `Map`, a finite map that remembers key
  insertion order. It defines the two ways the client fills one from a parsed table:
  - `IndexBy`: one entry per key, where the last element with that key wins;
  - `GroupBy`: one list per key, in input order.
- `util.ts` is modelled in `util.dfy` (module `Util`):
  - the bus tier of a Metlink route id;
  - the mode colour and icon of a route type;
  - the colour record of a route;
  - the z-index layer arithmetic;
  - the loops that index the routes, shapes and trips tables.
- `maps.tsx` is modelled in `maps.dfy` (module `Maps`):
  - the map page's route and stop builders;
  - the module-level `Z_INDEX_BUFFER`, which the route builder raises to the largest
    route id it sees. It is the class `MapsModule`.
  - the first drawing effect's choice of which trips draw a polyline: each shape once,
    never for school buses, never for a trip whose route or shape is unknown.

  The page's `getShapeMap` and `getTripMap` are the same loops as those in util.ts,
  and are modelled once, as `Util.GetShapeMap` and `Util.GetTripMap`.
- `filters.tsx` is modelled in `filters.dfy` (module `Filters`):
  - the nine visibility flags;
  - the "Bus" checkbox's checked and indeterminate state over its five bus flags;
  - the checkboxes' transitions.
- The generators in `scripts/` are modelled in `scripts.dfy` (module `Scripts`):
  - each sorts the routes in place by numeric route id (an insertion sort on an array);
  - the four `bus_route_*_type.js` scripts print the `case` lines of one bus tier, then
    that tier's `return` line;
  - `route_id.js` prints the `MetlinkRouteId` enum.

  The four tier scripts differ only in their filter and footer, so they share one
  builder, parametrised by the tier.

The feed ingestion, CSV parsing and response caching behind the HTTP API are not
part of this model. The API's own helper module,
src/app/api/util.ts, defines only `fetchMetlink`, which does network I/O.

## Model

| member | source | states |
|---|---|---|
| Gtfs.ParseInt | src/app/maps.tsx:207 | `parseInt` of a k-digit id (k at most 15, so the value is exact) is below 10^k, and at least 10^(k-1) when the id has no leading zero |
| Gtfs.ParseDecimalOf | src/app/maps.tsx:207 | `parseInt` reads the decimal text of a number back as that number, for any id of at most 15 digits |
| Gtfs.ParseIgnoresLeadingZero | src/app/util.ts:445 | a leading zero does not change the parsed id, so "0140" and "140" key the same Map entry |
| JsMaps.JsMap.Set | src/app/util.ts:446 | `m.set(k, v)`: afterwards k maps to v and every other key keeps its value. A new key joins the end of the iteration order, and an existing key keeps its place. Distinct, consistent keys stay so |
| JsMaps.IndexBy | src/app/util.ts:443-447 | the Map filled by `set` per element lists each key once, and lists exactly the keys of its entries |
| JsMaps.IndexByHas | src/app/util.ts:444-447 | a key is present iff some element of the table carries it |
| JsMaps.IndexByLastWins | src/app/util.ts:444-447 | a key maps to the last element that carries it; later duplicates replace earlier ones |
| JsMaps.GroupBy | src/app/util.ts:460-466 | the grouped Map lists each key once, and lists exactly the keys of its groups |
| JsMaps.Members | src/app/util.ts:461-466 | the reference definition of a group: the table's elements with that key, in input order. Its contract only says these come from the table and carry the key; `JsMaps.GroupByMembers` ties it to the groups |
| JsMaps.GroupByMembers | src/app/util.ts:461-466 | a key's group is exactly the elements carrying that key, in input order; a key has a group iff some element carries it |
| JsMaps.GroupBySize | src/app/maps.tsx:228-233 | no shape is lost or duplicated: the group lengths add up to the table length |
| Util.GetBusRouteType | src/app/util.ts:256-354 | the lookup from route id to bus tier; only ids of one to four characters get a tier. Which ids get which tier is stated by the five lemmas below |
| Util.FrequentTier | src/app/util.ts:258-270 | FREQUENT is returned for exactly the twelve frequent route ids |
| Util.StandardTier | src/app/util.ts:271-307 | STANDARD is returned for exactly the thirty-six standard route ids |
| Util.PeakExpressExtendedTier | src/app/util.ts:308-339 | PEAK_EXPRESS_EXTENDED is returned for exactly the thirty-one peak, express and extended route ids |
| Util.MidnightTier | src/app/util.ts:340-350 | MIDNIGHT is returned for exactly the ten After Midnight route ids |
| Util.NoTierOutsideLists | src/app/util.ts:256-354 | `null` is returned iff the id is in none of the four case lists |
| Util.TieredIdsAreDecimal | src/app/util.ts:256-354 | every id that gets a tier is a digit string |
| Util.NonBusRoutesHaveNoTier | src/app/util.ts:351-352 | the rail lines (ids 2 to 6), the ferries (ids 8 and 14) and the cable car (id 9) get `null` |
| Util.GetRouteTypeColor | src/app/util.ts:406-419 | rail, bus and ferry get #784e90, #4e801f and #0093b2. Every other code, cable car and school bus included, gets `null` |
| Util.RouteTypeColorIdentifiesType | src/app/util.ts:406-419 | no two route types share a mode colour |
| Util.GetRouteTypeSvg | src/app/util.ts:421-436 | rail, bus, ferry, cable car and school bus get the rail, bus, ferry, cable-car and school-bus icon respectively; any other code gets the empty string |
| Util.RouteTypeSvgIdentifiesType | src/app/util.ts:421-436 | every known route type has its own icon |
| Util.BaseColors | src/app/util.ts:359-366 | the reference definition of the baseline record: background, bearing, path and outline all carry the route colour, text the route's text colour, and the mode colour is set exactly for rail, bus and ferry. `Util.GetRouteColors` states each case against it |
| Util.GetRouteColors | src/app/util.ts:356-404 | the full colour record for each case. It starts from a baseline: every colour is the route colour, except the text colour and the mode colour. Rail, ferry and frequent buses change only the text, to white. Standard and peak buses get a white label with text in the route colour. Midnight buses get grey label, path and outline with yellow text. Everything else keeps the baseline. The bearing colour and mode colour never change |
| Util.GetZIndex | src/app/util.ts:490-492 | for ids in [0, 10000), each layer's z-indices lie in their own band (10000·layer, 10000·(layer+1)] |
| Util.HigherLayerIsAbove | src/app/util.ts:490-492 | for ids in [0, 10000), every item in a higher layer is above every item in a lower layer |
| Util.SmallerIdIsAbove | src/app/util.ts:490-492 | within a layer, a smaller id gets a larger z-index |
| Util.GetRouteMap | src/app/util.ts:443-447 | the loop builds exactly `IndexBy(routes, parseInt(route_id))` |
| Util.GetShapeMap | src/app/util.ts:460-466 | the loop builds exactly `GroupBy(shapes, shape_id)` |
| Util.GetTripMap | src/app/util.ts:479-482 | the loop builds exactly `IndexBy(trips, trip_id)` |
| Maps.MaxRouteKeyAtLeastStart | src/app/maps.tsx:209 | `Z_INDEX_BUFFER` never decreases |
| Maps.MaxRouteKeyBoundsAll | src/app/maps.tsx:206-210 | afterwards `Z_INDEX_BUFFER` is at least every parsed route id |
| Maps.MaxRouteKeyAttained | src/app/maps.tsx:206-210 | afterwards `Z_INDEX_BUFFER` is its old value or some route's parsed id |
| Maps.MapsModule.constructor | src/app/maps.tsx:24 | `Z_INDEX_BUFFER` starts at 0 |
| Maps.MapsModule.GetRouteMap | src/app/maps.tsx:205-210 | the routes Map is `IndexBy(routes, parseInt(route_id))`, and `Z_INDEX_BUFFER` becomes the running maximum of its old value and the route ids |
| Maps.GetStopMap | src/app/maps.tsx:217-220 | the stops Map is `IndexBy(stops, parseInt(stop_id))`; the last stop with an id wins |
| Maps.MaxRouteKey | src/app/maps.tsx:209 | the reference definition of the running maximum that `Z_INDEX_BUFFER` follows, folded over the routes. Its contract only bounds it below by the last route's id; `Maps.MaxRouteKeyAtLeastStart`, `Maps.MaxRouteKeyBoundsAll` and `Maps.MaxRouteKeyAttained` give its content |
| Maps.Drawable | src/app/maps.tsx:54-58 | the reference definition of the three skip tests: a trip draws iff `routeMap.get(route_id)` finds a route, that route is not a school bus, and `shapeMap.get(shape_id)` finds points. Its contract restates it through `Map.get`; `Maps.DrawRoutePolylines` ties the loop to it |
| Maps.DrawRoutePolylines | src/app/maps.tsx:49-101 | nothing is drawn unless all three Maps are loaded. Each shape is drawn at most once, in trip order, and only for a trip whose route is known and not a school bus and whose shape has points. The first such trip of a shape is the one that draws it, and every shape of such a trip is drawn |
| Filters.VisibilityByFlags | src/app/filters.tsx:13-23 | a visibility state is determined by its nine flags |
| Filters.Toggle | src/app/filters.tsx:36-38 | a single checkbox flips its own flag and copies all others |
| Filters.ToggleTwice | src/app/filters.tsx:170-175 | clicking the same single checkbox twice restores the state |
| Filters.BusFlagsOn | src/app/filters.tsx:47-53 | the number of the five bus flags that are on, the count the Bus box's state is read against. Its contract only bounds it by five; `Filters.BusChecked` and `Filters.BusIndeterminate` give its meaning |
| Filters.BusChecked | src/app/filters.tsx:47-53 | the Bus box's `checked` holds iff all five bus flags are on |
| Filters.BusIndeterminate | src/app/filters.tsx:54-67 | the Bus box's `indeterminate` holds iff one to four bus flags are on |
| Filters.BusCheckedIffAllOn | src/app/filters.tsx:47-53 | the Bus box is checked iff every flag grouped under it is on |
| Filters.BusIndeterminateIffMixed | src/app/filters.tsx:54-67 | the Bus box is indeterminate iff some bus flag is on and some is off, so it is never both checked and indeterminate |
| Filters.ToggleBus | src/app/filters.tsx:68-83 | a Bus click sets all five bus flags off if any was on in the rendered `visibility`, and on if none was. Rail, ferry, cable car and vehicle type are copied from the `prev` state the update is applied to |
| Filters.ToggleBusSettles | src/app/filters.tsx:54-83 | after a Bus click the box is never indeterminate; it is checked iff no bus flag was on in the rendered state, whatever updates were queued |
| Filters.ToggleBusTwice | src/app/filters.tsx:68-83 | with a render between the clicks, two Bus clicks from a state that is not indeterminate restore it |
| Filters.QueuedBusChangeOverwritten | src/app/filters.tsx:69-82 | a bus-flag click still queued when the Bus box is clicked is overwritten: the bus flags follow the rendered state alone |
| Filters.UncheckOneBusFlag | src/app/filters.tsx:54-67 | switching off one bus flag under a checked Bus box makes it indeterminate |
| Scripts.SortRoutes | scripts/route_id.js:3 | the sort leaves the routes in ascending numeric id order and keeps exactly the same routes |
| Scripts.InsertStep | scripts/bus_route_standard_type.js:3 | one insertion step sorts the first i + 1 routes among themselves: they become ordered by id, hold the same routes as before, and every later route stays where it was |
| Scripts.Emits | scripts/bus_route_frequent_type.js:6-12 | the reference definition of the four tier filters: bus routes only, then colour 308ad9 (standard), colour 636466 (peak, express, extended), short name starting with N (midnight), or none of these (frequent). Its contract only says non-bus routes never qualify; `Scripts.EmittedExactly` and `Scripts.FrequentIsTheRest` use it |
| Scripts.FrequentIsTheRest | scripts/bus_route_frequent_type.js:6-12 | a bus route is frequent for the generator iff neither the standard, the peak nor the midnight script claims it |
| Scripts.Emitted | scripts/bus_route_standard_type.js:5-9 | the reference definition of the routes a tier's script prints, an in-order filter by tier. Its contract only bounds their number; `Scripts.EmittedExactly` and `Scripts.EmittedSorted` give its content |
| Scripts.EmittedExactly | scripts/bus_route_peak_express_extended_type.js:6-8 | a route gets a case line iff it is a bus route (type 3) and passes the tier's filter: colour 308ad9, colour 636466, short name starting with N, or, for frequent, none of these |
| Scripts.EmittedSorted | scripts/bus_route_midnight_type.js:3-9 | filtering keeps input order, so after the sort the case lines come in ascending numeric id order |
| Scripts.Concat | scripts/route_id.js:5-8 | the reference definition of the text a `forEach` with `output +=` builds: each route's line appended in order. Its contract only says the text is no shorter than the last route's line; `Scripts.ConcatLineCount` and `Scripts.ConcatEmpty` give its content |
| Scripts.ConcatLineCount | scripts/route_id.js:5-8 | text built from one-newline lines has one line per route |
| Scripts.ConcatEmpty | scripts/bus_route_frequent_type.js:5-14 | text built from non-empty lines is empty only for no routes |
| Scripts.CaseLine | scripts/bus_route_standard_type.js:8 | the case line is `case RouteId.ROUTE_`, the short name, then `:` and a newline, so the short name can be read back from it |
| Scripts.Footer | scripts/bus_route_standard_type.js:10 | the closing line is `  return BusRouteType.`, the tier's name, then `;` and a newline |
| Scripts.FooterIdentifiesTier | scripts/bus_route_midnight_type.js:10 | no two tiers' scripts end with the same `return` line |
| Scripts.BuildCaseOutput | scripts/bus_route_frequent_type.js:4-15 | the `forEach` loop and footer build exactly the case lines of the kept routes, in order, followed by the tier's `return` line |
| Scripts.BusRouteTypeScript | scripts/bus_route_peak_express_extended_type.js:3-10 | sorts the routes in place (sorted, same routes), then builds `output` as the case output of the sorted routes |
| Scripts.CaseOutput | scripts/bus_route_standard_type.js:4-10 | the reference definition of a tier script's `output`: the case lines of the qualifying routes, then the tier's `return` line. Its contract only says the text ends with that line; `Scripts.BuildCaseOutput` ties the loop to it and `Scripts.CaseOutputShape` and `Scripts.CaseLineCount` give its content |
| Scripts.CaseOutputShape | scripts/bus_route_frequent_type.js:15 | the output ends with the tier's `return` line, and is that line alone iff no route qualifies |
| Scripts.CaseLineCount | scripts/bus_route_peak_express_extended_type.js:5-9 | there are exactly as many case lines as routes the tier admits, when short names hold no line break |
| Scripts.EnumLine | scripts/route_id.js:6-7 | the enum member line is `  ROUTE_`, the short name, ` = "`, the route id, then `",` and a newline, so both can be read back from it |
| Scripts.BuildRouteIdEnum | scripts/route_id.js:4-9 | the loop builds exactly the enum header, one member line per route in order, and the closing brace |
| Scripts.RouteIdScript | scripts/route_id.js:3-9 | sorts the routes in place (sorted, same routes), then builds `output` as the enum of the sorted routes |
| Scripts.EnumOutput | scripts/route_id.js:4-9 | the reference definition of the enum script's `output`: the declaration line, one member line per route, then `}`. Its contract says it opens with the declaration and ends with `}`; `Scripts.BuildRouteIdEnum` ties the loop to it |
| Scripts.EnumOutputShape | scripts/route_id.js:4-9 | the `output` string opens with `export enum MetlinkRouteId {` and a newline, and ends with `}` (before `console.log` adds its own newline). It has one line per route plus the opening line, when short names hold no line break |

## Left out

- Network and JSON I/O are not modelled. This covers `fetch`, `response.ok`, `response.json()` and the `catch` branches returning `null` in the table loaders, and `console.log` and `console.error`. The loaders are modelled from the already-parsed array onward.
- The HTTP API route handlers and `fetchMetlink` are not modelled: they are an environment check plus network calls. The feed cache and ingestion code they import is not part of this model.
- Rendering is not modelled. This covers the Polyline construction, its colours, weights and z-indices, and click listeners in the drawing effect; the vehicle polling effect; markers, animation and the React component tree. They are DOM and Google Maps objects with floating-point geometry. Only which trips draw a polyline is modelled.
- The checkbox presentation of the filter panel is not modelled, including its null render before the map loads: it is UI.
- The filter panel reads its state and `setVisibility` from `MapContext`, and the drawing effect styles a polyline with `getRouteColor`. Neither is exported by the map page and utility files as they stand: `getRouteColors` is exported instead. The model takes it that the context is provided and that the styling call returns.
- Latitude and longitude are carried as opaque `real` payload and never reasoned about.
- Gtfs.ParseInt: parses exactly, over unbounded naturals. JavaScript's `parseInt` returns a double-precision number, so it rounds digit strings whose value exceeds 2^53 (`"9007199254740993"` parses to 9007199254740992). Two such long ids could then share a Map key or the `Z_INDEX_BUFFER` maximum. The model takes ids to be short; Metlink route ids have at most four digits and stop ids at most five, well within the 15 digits that parse exactly.
- Gtfs.ParseInt: route and stop ids are decimal digit strings (`DecimalString`). JavaScript's `parseInt` on other text (NaN, a digit prefix followed by letters) and the comparator's string-to-number coercion are not modelled.
- Records carry only the fields these rules read. `route_short_name` is always present; JavaScript's `undefined` is not modelled.
- Util.GetRouteColors: the record is a plain value. That `Object.create` puts the baseline fields on the prototype, with overrides as own properties, is not modelled.
- Util.GetRouteTypeSvg: the SVG assets are five distinct abstract icons, and the empty string for unknown types is `None`.
- The `RouteId`, `RouteType`, `BusRouteType` and `ZIndexLayer` enums are modelled through their values (id strings, integer codes, datatypes).
- Scripts.SortRoutes: stability is not stated. JavaScript's sort keeps routes with equal numeric ids in input order, and the insertion sort does too, but no contract says so.
- Util.GetZIndex: the layer bands are stated for ids in [0, 10000). The drawing effect's own `Z_INDEX_BUFFER - id + 1` z-index belongs to rendering and is not modelled.
