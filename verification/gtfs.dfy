/**
 * GTFS records as the Wellington map client receives them from its own `/api`
 * endpoints, and the decimal parsing (`parseInt`) the client applies to route and
 * stop identifiers.
 *
 * Latitude and longitude travel as opaque payload: nothing here reasons about them.
 */
module Gtfs {

  datatype Option<T> = None | Some(value: T)

  /** `route_type` codes of the GTFS Schedule routes.txt table used by Metlink
      (the `RouteType` enum). 712 is an extended route type: school bus. */
  const RAIL: int := 2
  const BUS: int := 3
  const FERRY: int := 4
  const CABLE_CAR: int := 5
  const SCHOOL_BUS: int := 712

  predicate IsDigit(c: char) { '0' <= c <= '9' }

  /** A non-empty string of decimal digits: the form Metlink route and stop ids take. */
  predicate IsDecimal(s: string) {
    |s| > 0 && forall i :: 0 <= i < |s| ==> IsDigit(s[i])
  }

  type DecimalString = s: string | IsDecimal(s) witness "0"

  function DigitValue(c: char): (d: nat)
    requires IsDigit(c)
    ensures d < 10
  {
    (c as int) - ('0' as int)
  }

  function DigitChar(d: nat): (c: char)
    requires d < 10
    ensures IsDigit(c) && DigitValue(c) == d
  {
    (('0' as int) + d) as char
  }

  /** 10 to the power e. */
  function Pow10(e: nat): (p: nat)
    ensures p >= 1
  {
    if e == 0 then 1 else 10 * Pow10(e - 1)
  }

  /** JavaScript `parseInt(s)` on a string of decimal digits: the value of the
      digits read most significant first. A k-digit id lies below 10^k, and at or
      above 10^(k-1) unless it starts with a zero. */
  function ParseInt(s: DecimalString): (n: nat)
    ensures n < Pow10(|s|)
    ensures s[0] != '0' ==> n >= Pow10(|s| - 1)
    decreases |s|
  {
    if |s| == 1 then DigitValue(s[0])
    else 10 * ParseInt(s[..|s| - 1]) + DigitValue(s[|s| - 1])
  }

  /** The canonical decimal spelling of `n` (no leading zeros). */
  function DecimalOf(n: nat): (s: DecimalString)
    ensures n < 10 ==> |s| == 1
    ensures n >= 10 ==> s[0] != '0'
  {
    if n < 10 then [DigitChar(n)] else DecimalOf(n / 10) + [DigitChar(n % 10)]
  }

  /** Parsing the canonical spelling of a number gives the number back. */
  lemma {:induction false} ParseDecimalOf(n: nat)
    ensures ParseInt(DecimalOf(n)) == n
  {
    if n >= 10 {
      var s := DecimalOf(n);
      assert s[..|s| - 1] == DecimalOf(n / 10);
      ParseDecimalOf(n / 10);
    }
  }

  /** `parseInt` ignores leading zeros, so "010" and "10" name the same key. */
  lemma {:induction false} ParseIgnoresLeadingZero(s: DecimalString)
    ensures IsDecimal("0" + s) && ParseInt("0" + s) == ParseInt(s)
    decreases |s|
  {
    var z := "0" + s;
    assert IsDecimal(z) by {
      forall i | 0 <= i < |z| ensures IsDigit(z[i]) {
        if i > 0 { assert z[i] == s[i - 1]; }
      }
    }
    if |s| > 1 {
      var p: DecimalString := s[..|s| - 1];
      assert z[..|z| - 1] == "0" + p;
      ParseIgnoresLeadingZero(p);
    }
  }

  /** A row of routes.txt (the `Route` type); agency, long name, URL and sort order are
      carried by the source but never read by the modelled code. */
  datatype Route = Route(
    route_id: DecimalString,
    route_short_name: string,
    route_type: int,
    route_color: string,
    route_text_color: string)

  /** A row of stops.txt (the `Stop` type), reduced to what the client keys and shows. */
  datatype Stop = Stop(
    id: int,
    stop_id: DecimalString,
    stop_name: string,
    stop_lat: real,
    stop_lon: real)

  /** A row of shapes.txt (the `Shape` type): one point of a route's drawn path. */
  datatype Shape = Shape(
    id: int,
    shape_id: string,
    shape_pt_lat: real,
    shape_pt_lon: real,
    shape_pt_sequence: int)

  /** A row of trips.txt (the `Trip` type); `route_id` arrives as a number here. */
  datatype Trip = Trip(
    id: int,
    route_id: int,
    trip_id: string,
    shape_id: string)

  /** The key under which the client files a route: `parseInt(route.route_id)`. */
  function RouteKey(r: Route): int { ParseInt(r.route_id) }

  /** The key under which the client files a stop: `parseInt(stop.stop_id)`. */
  function StopKey(s: Stop): int { ParseInt(s.stop_id) }

  function ShapeKey(s: Shape): string { s.shape_id }

  function TripKey(t: Trip): string { t.trip_id }
}
