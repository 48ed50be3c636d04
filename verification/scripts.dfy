/**
 * The code generators under scripts/: each sorts the routes table by numeric
 * route id, keeps the routes one bus tier covers (or all routes, for the route id
 * enum) and prints one fixed-format source line per kept route.
 */
module Scripts {
  import opened Gtfs
  import opened Util

  /** Ordered as `routes.sort((a, b) => a.route_id - b.route_id)` leaves them:
      ascending numeric route id. */
  ghost predicate SortedById(s: seq<Route>) {
    forall i, j :: 0 <= i < j < |s| ==> RouteKey(s[i]) <= RouteKey(s[j])
  }

  /** `routes.sort((a, b) => a.route_id - b.route_id)`: sorts the routes in place by
      numeric route id, keeping the same routes. */
  method SortRoutes(a: array<Route>)
    modifies a
    ensures SortedById(a[..])
    ensures multiset(a[..]) == multiset(old(a[..]))
  {
    for i := 0 to a.Length
      invariant SortedById(a[..i])
      invariant multiset(a[..]) == multiset(old(a[..]))
    {
      InsertStep(a, i);
    }
    assert a[..a.Length] == a[..];
  }

  /** One insertion step: moves a[i] down past the larger ids before it, so that the
      first i + 1 routes are in order. */
  method InsertStep(a: array<Route>, i: nat)
    requires i < a.Length
    requires SortedById(a[..i])
    modifies a
    ensures SortedById(a[..i + 1])
    ensures multiset(a[..]) == multiset(old(a[..]))
    // the step only rearranges the first i + 1 routes
    ensures a[i + 1..] == old(a[i + 1..])
    ensures multiset(a[..i + 1]) == multiset(old(a[..i + 1]))
  {
    var j := i;
    while j > 0 && RouteKey(a[j - 1]) > RouteKey(a[j])
      invariant 0 <= j <= i
      invariant multiset(a[..]) == multiset(old(a[..]))
      invariant SortedExcept(a[..], i, j) && AtMostLater(a[..], i, j)
      invariant a[i + 1..] == old(a[i + 1..])
      decreases j
    {
      SwapDown(a[..], i, j);
      ghost var before := a[..];
      a[j - 1], a[j] := a[j], a[j - 1];
      assert a[..] == before[j - 1 := before[j]][j := before[j - 1]];
      assert a[i + 1..] == before[i + 1..];
      j := j - 1;
    }
    Settled(a[..], i, j);
    PrefixMultiset(old(a[..]), a[..], i + 1);
  }

  /** Two sequences with the same elements and the same suffix from k on have the same
      elements before k. */
  lemma PrefixMultiset(s: seq<Route>, t: seq<Route>, k: nat)
    requires k <= |s| == |t|
    requires multiset(s) == multiset(t) && s[k..] == t[k..]
    ensures multiset(s[..k]) == multiset(t[..k])
  {
    assert s == s[..k] + s[k..];
    assert t == t[..k] + t[k..];
    assert multiset(s) == multiset(s[..k]) + multiset(s[k..]);
    assert multiset(t) == multiset(t[..k]) + multiset(t[k..]);
    assert multiset(s[..k]) == multiset(s) - multiset(s[k..]);
    assert multiset(t[..k]) == multiset(t) - multiset(t[k..]);
  }

  /** The first i + 1 routes are in order once position j is left out. */
  ghost predicate SortedExcept(s: seq<Route>, i: nat, j: nat)
    requires i < |s|
  {
    forall p, q :: 0 <= p < q <= i && p != j && q != j ==> RouteKey(s[p]) <= RouteKey(s[q])
  }

  /** The route at j has an id no larger than those after it, up to i. */
  ghost predicate AtMostLater(s: seq<Route>, i: nat, j: nat)
    requires j <= i < |s|
  {
    forall q :: j < q <= i ==> RouteKey(s[j]) <= RouteKey(s[q])
  }

  /** Swapping the route at j with a larger predecessor keeps both insertion invariants,
      one place further down, and keeps the same routes. */
  lemma SwapDown(s: seq<Route>, i: nat, j: nat)
    requires 0 < j <= i < |s|
    requires SortedExcept(s, i, j) && AtMostLater(s, i, j)
    requires RouteKey(s[j - 1]) > RouteKey(s[j])
    ensures var t := s[j - 1 := s[j]][j := s[j - 1]];
      SortedExcept(t, i, j - 1) && AtMostLater(t, i, j - 1) && multiset(t) == multiset(s)
  {
  }

  /** When the route at j is no smaller than its predecessor, the prefix is in order. */
  lemma Settled(s: seq<Route>, i: nat, j: nat)
    requires j <= i < |s|
    requires SortedExcept(s, i, j) && AtMostLater(s, i, j)
    requires j == 0 || RouteKey(s[j - 1]) <= RouteKey(s[j])
    ensures SortedById(s[..i + 1])
  {
    forall p, q | 0 <= p < q <= i ensures RouteKey(s[p]) <= RouteKey(s[q]) {
      if q == j && p < j - 1 {
        assert RouteKey(s[p]) <= RouteKey(s[j - 1]);
      }
    }
  }

  /** The number of occurrences of c in s. */
  function Count(s: string, c: char): nat
    decreases |s|
  {
    if s == [] then 0 else Count(s[..|s| - 1], c) + (if s[|s| - 1] == c then 1 else 0)
  }

  lemma {:induction false} CountAppend(a: string, b: string, c: char)
    ensures Count(a + b, c) == Count(a, c) + Count(b, c)
    decreases |b|
  {
    if b == [] {
      assert a + b == a;
    } else {
      assert (a + b)[..|a + b| - 1] == a + b[..|b| - 1];
      assert (a + b)[|a + b| - 1] == b[|b| - 1];
      CountAppend(a, b[..|b| - 1], c);
    }
  }

  lemma {:induction false} CountAbsent(s: string, c: char)
    requires c !in s
    ensures Count(s, c) == 0
    decreases |s|
  {
    if s != [] {
      assert c !in s[..|s| - 1];
      CountAbsent(s[..|s| - 1], c);
    }
  }

  /** The text of one line per route, in order: the `output +=` of a `forEach` over
      the routes. */
  function Concat(routes: seq<Route>, line: Route -> string): (text: string)
    // no line is dropped: the text is at least as long as the last route's line
    ensures routes != [] ==> |line(routes[|routes| - 1])| <= |text|
    decreases |routes|
  {
    if routes == [] then "" else Concat(routes[..|routes| - 1], line) + line(routes[|routes| - 1])
  }

  /** One more route adds its line at the end. */
  lemma ConcatSnoc(routes: seq<Route>, i: nat, line: Route -> string)
    requires i < |routes|
    ensures Concat(routes[..i + 1], line) == Concat(routes[..i], line) + line(routes[i])
  {
    assert routes[..i + 1][..i] == routes[..i];
  }

  /** When every line ends in the one newline it holds, the text holds one line per route. */
  lemma {:induction false} ConcatLineCount(routes: seq<Route>, line: Route -> string)
    requires forall r :: r in routes ==> Count(line(r), '\n') == 1
    ensures Count(Concat(routes, line), '\n') == |routes|
    decreases |routes|
  {
    if routes != [] {
      var p := routes[..|routes| - 1];
      assert forall r :: r in p ==> r in routes;
      ConcatLineCount(p, line);
      CountAppend(Concat(p, line), line(routes[|routes| - 1]), '\n');
    }
  }

  /** Non-empty lines give empty text only for no routes at all. */
  lemma {:induction false} ConcatEmpty(routes: seq<Route>, line: Route -> string)
    requires forall r :: r in routes ==> line(r) != ""
    ensures Concat(routes, line) == "" <==> routes == []
  {
    if routes != [] {
      assert routes[|routes| - 1] in routes;
    }
  }

  const STANDARD_COLOR: string := "308ad9"
  const PEAK_EXPRESS_EXTENDED_COLOR: string := "636466"

  /** `route_short_name.startsWith("N")`: the After Midnight naming. */
  predicate StartsWithN(name: string) {
    |name| > 0 && name[0] == 'N'
  }

  /** Whether the script for `tier` prints a case line for the route. Only bus routes
      qualify; frequent routes are the bus routes no other script claims. */
  predicate Emits(tier: BusRouteType, r: Route): (emits: bool)
    ensures emits ==> r.route_type == BUS
  {
    && r.route_type == BUS
    && match tier
       case Frequent =>
         r.route_color != STANDARD_COLOR && r.route_color != PEAK_EXPRESS_EXTENDED_COLOR
         && !StartsWithN(r.route_short_name)
       case Standard => r.route_color == STANDARD_COLOR
       case PeakExpressExtended => r.route_color == PEAK_EXPRESS_EXTENDED_COLOR
       case Midnight => StartsWithN(r.route_short_name)
  }

  /** A bus route is frequent for the generator exactly when no other tier's script
      claims it. */
  lemma FrequentIsTheRest(r: Route)
    requires r.route_type == BUS
    ensures Emits(Frequent, r) <==>
      !Emits(Standard, r) && !Emits(PeakExpressExtended, r) && !Emits(Midnight, r)
  {
  }

  /** The routes a tier's script prints lines for, in the order it meets them. */
  function Emitted(routes: seq<Route>, tier: BusRouteType): (kept: seq<Route>)
    ensures |kept| <= |routes|
    decreases |routes|
  {
    if routes == [] then []
    else
      var r := routes[|routes| - 1];
      Emitted(routes[..|routes| - 1], tier) + (if Emits(tier, r) then [r] else [])
  }

  /** A route gets a line exactly when it is in the table and the tier's filter admits it. */
  lemma {:induction false} EmittedExactly(routes: seq<Route>, tier: BusRouteType, r: Route)
    ensures r in Emitted(routes, tier) <==> r in routes && Emits(tier, r)
    decreases |routes|
  {
    if routes != [] {
      var p := routes[..|routes| - 1];
      EmittedExactly(p, tier, r);
      assert routes == p + [routes[|routes| - 1]];
    }
  }

  /** Filtering keeps the input order, so lines of sorted routes come out sorted. */
  lemma {:induction false} EmittedSorted(routes: seq<Route>, tier: BusRouteType)
    requires SortedById(routes)
    ensures SortedById(Emitted(routes, tier))
    decreases |routes|
  {
    if routes != [] {
      var p := routes[..|routes| - 1];
      var last := routes[|routes| - 1];
      EmittedSorted(p, tier);
      if Emits(tier, last) {
        var e := Emitted(p, tier);
        forall x | x in e ensures RouteKey(x) <= RouteKey(last) {
          EmittedExactly(p, tier, x);
          var i :| 0 <= i < |p| && p[i] == x;
          assert routes[i] == x;
        }
        var e' := e + [last];
        forall i, j | 0 <= i < j < |e'| ensures RouteKey(e'[i]) <= RouteKey(e'[j]) {
          if j == |e| {
            assert e'[i] in e;
          }
        }
      }
    }
  }

  /** `"case RouteId.ROUTE_" + route_short_name + ":\n"` */
  function CaseLine(r: Route): (line: string)
    // the short name can be read back from between the fixed prefix and suffix
    ensures |line| == |r.route_short_name| + 21
    ensures line[..19] == "case RouteId.ROUTE_" && line[|line| - 2..] == ":\n"
    ensures line[19..|line| - 2] == r.route_short_name
  {
    "case RouteId.ROUTE_" + r.route_short_name + ":\n"
  }

  function TierName(tier: BusRouteType): string {
    match tier
    case Frequent => "FREQUENT"
    case Standard => "STANDARD"
    case PeakExpressExtended => "PEAK_EXPRESS_EXTENDED"
    case Midnight => "MIDNIGHT"
  }

  /** The line every tier script ends with. */
  function Footer(tier: BusRouteType): (footer: string)
    ensures |footer| == |TierName(tier)| + 24
    ensures footer[..22] == "  return BusRouteType." && footer[|footer| - 2..] == ";\n"
    ensures footer[22..|footer| - 2] == TierName(tier)
  {
    "  return BusRouteType." + TierName(tier) + ";\n"
  }

  /** Each tier's script ends with its own `return` line. */
  lemma FooterIdentifiesTier(t1: BusRouteType, t2: BusRouteType)
    requires Footer(t1) == Footer(t2)
    ensures t1 == t2
  {
  }

  /** The `output` a tier's script builds for routes already in order. */
  function CaseOutput(routes: seq<Route>, tier: BusRouteType): (output: string)
    ensures |Footer(tier)| <= |output| && output[|output| - |Footer(tier)|..] == Footer(tier)
  {
    Concat(Emitted(routes, tier), CaseLine) + Footer(tier)
  }

  /** The `forEach` loop of a tier's script and the footer it appends. */
  method BuildCaseOutput(routes: seq<Route>, tier: BusRouteType) returns (output: string)
    ensures output == CaseOutput(routes, tier)
  {
    output := "";
    for i := 0 to |routes|
      invariant output == Concat(Emitted(routes[..i], tier), CaseLine)
    {
      assert routes[..i + 1][..i] == routes[..i];
      var route := routes[i];
      ghost var e := Emitted(routes[..i], tier);
      if Emits(tier, route) {
        assert Emitted(routes[..i + 1], tier) == e + [route];
        assert (e + [route])[..|e|] == e;
        output := output + CaseLine(route);
      } else {
        assert Emitted(routes[..i + 1], tier) == e;
      }
    }
    assert routes[..|routes|] == routes;
    output := output + Footer(tier);
  }

  /** One of scripts/bus_route_*_type.js: sorts the routes in place, then builds the case
      lines of the tier's routes in ascending numeric id order, then the footer. */
  method BusRouteTypeScript(routes: array<Route>, tier: BusRouteType) returns (output: string)
    modifies routes
    ensures SortedById(routes[..])
    ensures multiset(routes[..]) == multiset(old(routes[..]))
    ensures output == CaseOutput(routes[..], tier)
  {
    SortRoutes(routes);
    output := BuildCaseOutput(routes[..], tier);
  }

  /** The output ends with the footer, and is the footer alone exactly when no route
      qualifies. */
  lemma CaseOutputShape(routes: seq<Route>, tier: BusRouteType)
    ensures |CaseOutput(routes, tier)| >= |Footer(tier)|
    ensures CaseOutput(routes, tier)[|CaseOutput(routes, tier)| - |Footer(tier)|..] == Footer(tier)
    ensures CaseOutput(routes, tier) == Footer(tier) <==> forall r :: r in routes ==> !Emits(tier, r)
  {
    var e := Emitted(routes, tier);
    ConcatEmpty(e, CaseLine);
    if e != [] {
      EmittedExactly(routes, tier, e[0]);
      assert e[0] in routes && Emits(tier, e[0]);
    }
    if exists r :: r in routes && Emits(tier, r) {
      var r :| r in routes && Emits(tier, r);
      EmittedExactly(routes, tier, r);
    }
    var out := CaseOutput(routes, tier);
    if out == Footer(tier) {
      assert |Concat(e, CaseLine)| == 0;
    }
  }

  /** The case lines are one per qualifying route: as many lines as routes the tier admits,
      provided no short name holds a line break. */
  lemma CaseLineCount(routes: seq<Route>, tier: BusRouteType)
    requires forall r :: r in routes ==> '\n' !in r.route_short_name
    ensures Count(Concat(Emitted(routes, tier), CaseLine), '\n') == |Emitted(routes, tier)|
  {
    var e := Emitted(routes, tier);
    forall r | r in e ensures Count(CaseLine(r), '\n') == 1 {
      EmittedExactly(routes, tier, r);
      var head := "case RouteId.ROUTE_" + r.route_short_name + ":";
      assert CaseLine(r) == head + "\n";
      CountAbsent(head, '\n');
      CountAppend(head, "\n", '\n');
    }
    ConcatLineCount(e, CaseLine);
  }

  const ENUM_HEADER: string := "export enum MetlinkRouteId {\n"

  /** `"  ROUTE_" + route_short_name + " = \"" + route_id + "\",\n"` */
  function EnumLine(r: Route): (line: string)
    // the short name and the id can be read back from between the fixed pieces
    ensures |line| == |r.route_short_name| + |r.route_id| + 15
    ensures line[..8] == "  ROUTE_" && line[|line| - 3..] == "\",\n"
    ensures line[8..8 + |r.route_short_name|] == r.route_short_name
    ensures line[8 + |r.route_short_name|..12 + |r.route_short_name|] == " = \""
    ensures line[12 + |r.route_short_name|..|line| - 3] == r.route_id
  {
    "  ROUTE_" + r.route_short_name + " = \"" + r.route_id + "\",\n"
  }

  /** The `output` scripts/route_id.js builds for routes already in order. */
  function EnumOutput(routes: seq<Route>): (output: string)
    ensures |ENUM_HEADER| < |output| && output[..|ENUM_HEADER|] == ENUM_HEADER
    ensures output[|output| - 1] == '}'
  {
    ENUM_HEADER + Concat(routes, EnumLine) + "}"
  }

  /** The `forEach` loop of scripts/route_id.js and the closing brace it appends. */
  method BuildRouteIdEnum(routes: seq<Route>) returns (output: string)
    ensures output == EnumOutput(routes)
  {
    output := ENUM_HEADER;
    for i := 0 to |routes|
      invariant output == ENUM_HEADER + Concat(routes[..i], EnumLine)
    {
      ConcatSnoc(routes, i, EnumLine);
      output := output + EnumLine(routes[i]);
    }
    assert routes[..|routes|] == routes;
    output := output + "}";
  }

  /** scripts/route_id.js: sorts the routes in place, then builds one enum member per
      route in ascending numeric id order. */
  method RouteIdScript(routes: array<Route>) returns (output: string)
    modifies routes
    ensures SortedById(routes[..])
    ensures multiset(routes[..]) == multiset(old(routes[..]))
    ensures output == EnumOutput(routes[..])
  {
    SortRoutes(routes);
    output := BuildRouteIdEnum(routes[..]);
  }

  /** A route's enum member line holds exactly one line break, when its short name holds none. */
  lemma EnumLineIsOneLine(r: Route)
    requires '\n' !in r.route_short_name
    ensures Count(EnumLine(r), '\n') == 1
  {
    var head := "  ROUTE_" + r.route_short_name + " = \"" + r.route_id + "\",";
    assert EnumLine(r) == head + "\n";
    CountAbsent(head, '\n');
    CountAppend(head, "\n", '\n');
  }

  /** The enum text opens with the declaration, closes with a brace and no newline after
      it, and has one line per route besides the opening one. */
  lemma EnumOutputShape(routes: seq<Route>)
    requires forall r :: r in routes ==> '\n' !in r.route_short_name
    ensures EnumOutput(routes)[..|ENUM_HEADER|] == ENUM_HEADER
    ensures EnumOutput(routes)[|EnumOutput(routes)| - 1] == '}'
    ensures Count(EnumOutput(routes), '\n') == |routes| + 1
  {
    forall r | r in routes ensures Count(EnumLine(r), '\n') == 1 {
      EnumLineIsOneLine(r);
    }
    ConcatLineCount(routes, EnumLine);
    var body := Concat(routes, EnumLine);
    CountAppend(ENUM_HEADER, body, '\n');
    CountAppend(ENUM_HEADER + body, "}", '\n');
    assert ENUM_HEADER == "export enum MetlinkRouteId {" + "\n";
    CountAppend("export enum MetlinkRouteId {", "\n", '\n');
    assert Count("\n", '\n') == 1;
    assert Count("}", '\n') == 0;
    CountAbsent("export enum MetlinkRouteId {", '\n');
    CountAbsent("}", '\n');
  }
}
