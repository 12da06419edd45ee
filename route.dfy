/**
 * The route entity `RutaTransmision` (DiseaseTransmission/script.js:108-153): a
 * bidirectional connection between two countries with a transport mode, a traffic
 * level clamped to [0, 1], a distance, the travel time derived from them, and a base
 * transmission probability. Also the canonical key under which the world stores it.
 */
module Routes {
  import opened RealArith

  /** `tipo`; `OtherMode` stands for any string outside the three names the tables know. */
  datatype Mode = Aereo | Terrestre | Maritimo | OtherMode(name: string)
  {
    /** The string `tipo` holds for this mode. */
    function Name(): string {
      match this
      case Aereo => "AEREO"
      case Terrestre => "TERRESTRE"
      case Maritimo => "MARITIMO"
      case OtherMode(n) => n
    }

    /** `OtherMode` never spells one of the three known names, so every string has one encoding. */
    predicate Proper() {
      OtherMode? ==> name !in {"AEREO", "TERRESTRE", "MARITIMO"}
    }
  }

  /** The mode a `tipo` string names, as the lookup tables read it (script.js:122-141). */
  function ParseMode(name: string): Mode {
    if name == "AEREO" then Aereo
    else if name == "TERRESTRE" then Terrestre
    else if name == "MARITIMO" then Maritimo
    else OtherMode(name)
  }

  /** Parsing and naming are inverse: each string has exactly one proper mode. */
  lemma ParseModeRoundTrip(name: string, m: Mode)
    ensures ParseMode(name).Proper() && ParseMode(name).Name() == name
    ensures m.Proper() ==> ParseMode(m.Name()) == m
  {
  }

  /** `velocidades` in km/h, 50 for a mode the table does not list (script.js:122-127). */
  function Speed(mode: Mode): (speed: real)
    ensures speed > 0.0
  {
    match mode
    case Aereo => 800.0
    case Terrestre => 80.0
    case Maritimo => 40.0
    case OtherMode(_) => 50.0
  }

  /** `factoresTipo`, 0.5 for a mode the table does not list (script.js:135-141). */
  function ModeFactor(mode: Mode): real {
    match mode
    case Aereo => 0.9
    case Terrestre => 0.7
    case Maritimo => 0.5
    case OtherMode(_) => 0.5
  }

  /** The fields of a `RutaTransmision` object that the engine uses. */
  datatype Route = Route(origin: int, destination: int, mode: Mode, traffic: real,
                         distance: real, travelTime: real, active: bool)

  /** `Math.min(Math.max(trafico, 0), 1)` (script.js:113). */
  function ClampTraffic(t: real): (r: real)
    ensures 0.0 <= r <= 1.0
    ensures 0.0 <= t <= 1.0 ==> r == t
    ensures t < 0.0 ==> r == 0.0
    ensures t > 1.0 ==> r == 1.0
  {
    var atLeastZero := if t > 0.0 then t else 0.0;
    if atLeastZero < 1.0 then atLeastZero else 1.0
  }

  /** `calcularTiempoViaje()` (script.js:120-128): the distance divided by the mode's speed. */
  function TravelTime(distance: real, mode: Mode): real {
    distance / Speed(mode)
  }

  /** The travel time covers the distance at the mode's speed, and is never negative for a non-negative distance. */
  lemma TravelTimeCovers(distance: real, mode: Mode)
    ensures TravelTime(distance, mode) * Speed(mode) == distance
    ensures distance >= 0.0 ==> TravelTime(distance, mode) >= 0.0
  {
  }

  /** The invariant of every route the constructor builds from a non-negative distance. */
  predicate WellFormed(r: Route) {
    r.mode.Proper() && 0.0 <= r.traffic <= 1.0 && r.distance >= 0.0 && r.travelTime == TravelTime(r.distance, r.mode)
  }

  /**
   * `new RutaTransmision(idOrigen, idDestino, tipo, trafico, distancia)` (script.js:109-118).
   * The distance is an input: the great-circle computation that supplies it is not part of
   * this model, and it is never negative.
   */
  function NewRoute(origin: int, destination: int, mode: Mode, traffic: real, distance: real): (r: Route)
    requires mode.Proper() && distance >= 0.0
    ensures WellFormed(r) && r.active
    ensures r.origin == origin && r.destination == destination && r.mode == mode && r.distance == distance
    ensures 0.0 <= traffic <= 1.0 ==> r.traffic == traffic
  {
    Route(origin, destination, mode, ClampTraffic(traffic), distance, TravelTime(distance, mode), true)
  }

  /** The distance term of the blend, 1 / (distance / 1000 + 1). */
  function Closeness(distance: real): real
    requires distance >= 0.0
  {
    1.0 / (distance / 1000.0 + 1.0)
  }

  lemma ClosenessBounds(d: real, e: real)
    requires 0.0 <= d <= e
    ensures 0.0 < Closeness(e) <= Closeness(d) <= 1.0
  {
    var x, y := d / 1000.0 + 1.0, e / 1000.0 + 1.0;
    var cx, cy := Closeness(d), Closeness(e);
    assert 1.0 <= x <= y;
    assert cx * x == 1.0 && cy * y == 1.0;
    if cx <= 0.0 {
      MulMonotone(cx, 0.0, x);
    }
    if cy <= 0.0 {
      MulMonotone(cy, 0.0, y);
    }
    MulMonotone(x, y, cx);
    if cx < cy {
      MulStrict(cx, cy, y);
    }
    if cx > 1.0 {
      MulStrict(1.0, cx, x);
    }
  }

  /** `calcularProbabilidadBase()` (script.js:130-143). */
  function BaseProbability(r: Route): real
    requires r.distance >= 0.0
  {
    var p := (r.traffic * 0.7 + Closeness(r.distance) * 0.3) * ModeFactor(r.mode);
    if p < 0.95 then p else 0.95
  }

  /**
   * The base probability of a well-formed route is positive and never above 0.95; it
   * does not fall when traffic grows and does not rise when the distance grows.
   */
  lemma BaseProbabilityBounds(r: Route, s: Route)
    requires WellFormed(r) && WellFormed(s) && r.mode == s.mode
    ensures 0.0 < BaseProbability(r) <= 0.95
    ensures r.traffic <= s.traffic && r.distance == s.distance ==> BaseProbability(r) <= BaseProbability(s)
    ensures r.traffic == s.traffic && r.distance <= s.distance ==> BaseProbability(r) >= BaseProbability(s)
  {
    ClosenessBounds(r.distance, r.distance);
    if r.distance <= s.distance {
      ClosenessBounds(r.distance, s.distance);
    }
  }

  // ---------------------------------------------------------------------------
  // Canonical keys of the route table
  // ---------------------------------------------------------------------------

  /** The key `${menorId}-${mayorId}`; for integer ids the string determines the pair and back. */
  datatype RouteKey = RouteKey(low: int, high: int)

  /** The key of the unordered pair {a, b} (script.js:329-339, 354-356). */
  function Key(a: int, b: int): RouteKey {
    if a < b then RouteKey(a, b) else RouteKey(b, a)
  }

  /**
   * Both argument orders give the same key, the key is ordered, and two pairs share a key
   * exactly when they are the same unordered pair.
   */
  lemma KeyCanonical(a: int, b: int, c: int, d: int)
    ensures Key(a, b) == Key(b, a)
    ensures Key(a, b).low <= Key(a, b).high
    ensures {Key(a, b).low, Key(a, b).high} == {a, b}
    ensures Key(a, b) == Key(c, d) <==> (a == c && b == d) || (a == d && b == c)
  {
  }
}
