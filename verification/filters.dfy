/**
 * The visibility filter panel (src/app/filters.tsx): nine flags saying which vehicle
 * kinds the map shows, a "Bus" checkbox that aggregates five of them, and the
 * transitions its checkboxes make.
 */
module Filters {

  datatype Visibility = Visibility(
    rail: bool,
    frequent: bool,
    standard: bool,
    peakExpressExtended: bool,
    midnight: bool,
    ferry: bool,
    cableCar: bool,
    schoolBus: bool,
    vehicleType: bool)

  /** One checkbox per flag. */
  datatype Flag =
    | Rail | Frequent | Standard | PeakExpressExtended | Midnight
    | Ferry | CableCar | SchoolBus | VehicleType

  /** The flag a checkbox shows. */
  function Get(v: Visibility, f: Flag): bool {
    match f
    case Rail => v.rail
    case Frequent => v.frequent
    case Standard => v.standard
    case PeakExpressExtended => v.peakExpressExtended
    case Midnight => v.midnight
    case Ferry => v.ferry
    case CableCar => v.cableCar
    case SchoolBus => v.schoolBus
    case VehicleType => v.vehicleType
  }

  /** The flags grouped under the Bus checkbox. */
  predicate IsBusFlag(f: Flag) {
    f in {Frequent, Standard, PeakExpressExtended, Midnight, SchoolBus}
  }

  /** A Visibility is determined by what its nine checkboxes show. */
  lemma {:induction false} VisibilityByFlags(a: Visibility, b: Visibility)
    requires forall f :: Get(a, f) == Get(b, f)
    ensures a == b
  {
    assert Get(a, Rail) == Get(b, Rail);
    assert Get(a, Frequent) == Get(b, Frequent);
    assert Get(a, Standard) == Get(b, Standard);
    assert Get(a, PeakExpressExtended) == Get(b, PeakExpressExtended);
    assert Get(a, Midnight) == Get(b, Midnight);
    assert Get(a, Ferry) == Get(b, Ferry);
    assert Get(a, CableCar) == Get(b, CableCar);
    assert Get(a, SchoolBus) == Get(b, SchoolBus);
    assert Get(a, VehicleType) == Get(b, VehicleType);
  }

  /** The `onChange` of a single checkbox: `{ ...prev, f: !prev.f }`. */
  function Toggle(v: Visibility, f: Flag): (r: Visibility)
    ensures Get(r, f) == !Get(v, f)
    ensures forall g :: g != f ==> Get(r, g) == Get(v, g)
  {
    match f
    case Rail => v.(rail := !v.rail)
    case Frequent => v.(frequent := !v.frequent)
    case Standard => v.(standard := !v.standard)
    case PeakExpressExtended => v.(peakExpressExtended := !v.peakExpressExtended)
    case Midnight => v.(midnight := !v.midnight)
    case Ferry => v.(ferry := !v.ferry)
    case CableCar => v.(cableCar := !v.cableCar)
    case SchoolBus => v.(schoolBus := !v.schoolBus)
    case VehicleType => v.(vehicleType := !v.vehicleType)
  }

  /** Clicking the same checkbox twice restores the original state. */
  lemma ToggleTwice(v: Visibility, f: Flag)
    ensures Toggle(Toggle(v, f), f) == v
  {
    var once := Toggle(v, f);
    var twice := Toggle(once, f);
    forall g ensures Get(twice, g) == Get(v, g) {
      if g != f {
        assert Get(twice, g) == Get(once, g);
      }
    }
    VisibilityByFlags(twice, v);
  }

  /** The number of bus flags that are on. */
  function BusFlagsOn(v: Visibility): (n: nat)
    ensures n <= 5
  {
    (if v.frequent then 1 else 0) + (if v.standard then 1 else 0)
    + (if v.peakExpressExtended then 1 else 0) + (if v.midnight then 1 else 0)
    + (if v.schoolBus then 1 else 0)
  }

  /** `checked` of the Bus checkbox. */
  predicate BusChecked(v: Visibility): (checked: bool)
    ensures checked <==> BusFlagsOn(v) == 5
  {
    v.frequent && v.standard && v.peakExpressExtended && v.midnight && v.schoolBus
  }

  /** `indeterminate` of the Bus checkbox. */
  predicate BusIndeterminate(v: Visibility): (indeterminate: bool)
    ensures indeterminate <==> 0 < BusFlagsOn(v) < 5
  {
    (v.frequent || v.standard || v.peakExpressExtended || v.midnight || v.schoolBus)
    && !(v.frequent && v.standard && v.peakExpressExtended && v.midnight && v.schoolBus)
  }

  /** The Bus checkbox is checked exactly when every bus flag is on. */
  lemma BusCheckedIffAllOn(v: Visibility)
    ensures BusChecked(v) <==> forall f :: IsBusFlag(f) ==> Get(v, f)
  {
    if forall f :: IsBusFlag(f) ==> Get(v, f) {
      assert Get(v, Frequent) && Get(v, Standard) && Get(v, PeakExpressExtended);
      assert Get(v, Midnight) && Get(v, SchoolBus);
    }
  }

  /** The Bus checkbox is indeterminate exactly when some bus flag is on and some is off;
      so it is never both checked and indeterminate. */
  lemma BusIndeterminateIffMixed(v: Visibility)
    ensures BusIndeterminate(v) <==> (exists f :: IsBusFlag(f) && Get(v, f)) && (exists f :: IsBusFlag(f) && !Get(v, f))
    ensures !(BusChecked(v) && BusIndeterminate(v))
  {
    if BusIndeterminate(v) {
      assert exists f :: IsBusFlag(f) && !Get(v, f) by {
        if v.frequent && v.standard && v.peakExpressExtended && v.midnight {
          assert IsBusFlag(SchoolBus) && !Get(v, SchoolBus);
        } else if v.frequent && v.standard && v.peakExpressExtended {
          assert IsBusFlag(Midnight) && !Get(v, Midnight);
        } else if v.frequent && v.standard {
          assert IsBusFlag(PeakExpressExtended) && !Get(v, PeakExpressExtended);
        } else if v.frequent {
          assert IsBusFlag(Standard) && !Get(v, Standard);
        } else {
          assert IsBusFlag(Frequent) && !Get(v, Frequent);
        }
      }
      assert exists f :: IsBusFlag(f) && Get(v, f) by {
        if v.frequent {
          assert IsBusFlag(Frequent) && Get(v, Frequent);
        } else if v.standard {
          assert IsBusFlag(Standard) && Get(v, Standard);
        } else if v.peakExpressExtended {
          assert IsBusFlag(PeakExpressExtended) && Get(v, PeakExpressExtended);
        } else if v.midnight {
          assert IsBusFlag(Midnight) && Get(v, Midnight);
        } else {
          assert IsBusFlag(SchoolBus) && Get(v, SchoolBus);
        }
      }
    }
  }

  /** The `onChange` of the Bus checkbox. The new bus state comes from `shown`, the
      state the panel was rendered with: if any bus flag was on there, all five go off,
      otherwise all five go on. Every other flag is copied from `prev`, the latest state
      the update is applied to, which may hold changes queued since that render. */
  function ToggleBus(shown: Visibility, prev: Visibility): (r: Visibility)
    ensures forall f :: IsBusFlag(f) ==> Get(r, f) == (BusFlagsOn(shown) == 0)
    ensures forall f :: !IsBusFlag(f) ==> Get(r, f) == Get(prev, f)
  {
    var state := shown.frequent || shown.standard || shown.peakExpressExtended || shown.midnight || shown.schoolBus;
    prev.(frequent := !state, standard := !state, peakExpressExtended := !state,
          midnight := !state, schoolBus := !state)
  }

  /** After a Bus click the Bus checkbox is never indeterminate: it is checked exactly
      when no bus flag was on in the rendered state, whatever updates were queued. */
  lemma ToggleBusSettles(shown: Visibility, prev: Visibility)
    ensures !BusIndeterminate(ToggleBus(shown, prev))
    ensures BusChecked(ToggleBus(shown, prev)) <==> BusFlagsOn(shown) == 0
  {
  }

  /** With a render between the clicks, two Bus clicks from a settled (not indeterminate)
      state restore it. */
  lemma {:induction false} ToggleBusTwice(v: Visibility)
    requires !BusIndeterminate(v)
    ensures var once := ToggleBus(v, v); ToggleBus(once, once) == v
  {
    var once := ToggleBus(v, v);
    VisibilityByFlags(ToggleBus(once, once), v);
  }

  /** A Bus click applied to a state with a queued bus-flag change still sets the bus
      flags from the rendered state, so the queued change is overwritten. */
  lemma QueuedBusChangeOverwritten(shown: Visibility, f: Flag)
    requires IsBusFlag(f)
    ensures var r := ToggleBus(shown, Toggle(shown, f));
      Get(r, f) == (BusFlagsOn(shown) == 0) && BusFlagsOn(r) == BusFlagsOn(ToggleBus(shown, shown))
  {
  }

  /** Switching one bus flag off from a checked Bus box leaves it indeterminate. */
  lemma UncheckOneBusFlag(v: Visibility, f: Flag)
    requires BusChecked(v) && IsBusFlag(f)
    ensures BusIndeterminate(Toggle(v, f))
  {
  }
}
