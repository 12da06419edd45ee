/**
 * The country entity `Pais` (DiseaseTransmission/script.js:5-106): integer population
 * compartments, the clamp-and-normalise update `actualizarEstado`, the four-way
 * infection state, the duplicate-free list of measures in force and the transmission
 * factor derived from that list.
 */
module Countries {
  import opened Wrappers
  import opened RealArith

  // ---------------------------------------------------------------------------
  // Population compartments (`estadoPoblacion`)
  // ---------------------------------------------------------------------------

  /** `estadoPoblacion`: the total and the four compartments, all counted in persons. */
  datatype Population = Population(total: int, susceptible: int, infected: int, recovered: int, deceased: int)

  predicate NonNegative(p: Population) {
    p.susceptible >= 0 && p.infected >= 0 && p.recovered >= 0 && p.deceased >= 0
  }

  /** The persons held by the four compartments together. */
  function Occupied(p: Population): int {
    p.susceptible + p.infected + p.recovered + p.deceased
  }

  /** The population invariant the day step keeps: no negative compartment, and no more persons than the total. */
  predicate Bounded(p: Population) {
    NonNegative(p) && Occupied(p) <= p.total
  }

  /**
   * The object passed to `actualizarEstado`: the compartments the caller supplies
   * (`None` for a key the object does not have).
   */
  datatype Update = Update(susceptible: Option<int>, infected: Option<int>, recovered: Option<int>, deceased: Option<int>)

  function ValueOrZero(v: Option<int>): int {
    if v.Some? then v.value else 0
  }

  /** `Object.values(nuevosValores).reduce((a, b) => a + b, 0)`. */
  function Sum(u: Update): int {
    ValueOrZero(u.susceptible) + ValueOrZero(u.infected) + ValueOrZero(u.recovered) + ValueOrZero(u.deceased)
  }

  /** A negative supplied value becomes 0. */
  function Clamp(v: Option<int>): Option<int> {
    match v
    case None => None
    case Some(x) => Some(if x < 0 then 0 else x)
  }

  function ClampAll(u: Update): Update {
    Update(Clamp(u.susceptible), Clamp(u.infected), Clamp(u.recovered), Clamp(u.deceased))
  }

  /** `Math.floor(v * factor)` on a supplied value. */
  function Scale(v: Option<int>, factor: real): Option<int> {
    match v
    case None => None
    case Some(x) => Some(((x as real) * factor).Floor)
  }

  predicate SameKeys(u: Update, w: Update) {
    u.susceptible.Some? == w.susceptible.Some? && u.infected.Some? == w.infected.Some? &&
    u.recovered.Some? == w.recovered.Some? && u.deceased.Some? == w.deceased.Some?
  }

  predicate AllNonNegative(u: Update) {
    ValueOrZero(u.susceptible) >= 0 && ValueOrZero(u.infected) >= 0 &&
    ValueOrZero(u.recovered) >= 0 && ValueOrZero(u.deceased) >= 0
  }

  /** Every supplied value scaled by `factor` and floored (script.js:33-36). */
  function ScaleAll(c: Update, factor: real): Update {
    Update(Scale(c.susceptible, factor), Scale(c.infected, factor), Scale(c.recovered, factor), Scale(c.deceased, factor))
  }

  /**
   * The values `actualizarEstado` assigns (script.js:23-38): negatives become 0; when the
   * supplied values add up to more than the total, each becomes floor(v * total / sum).
   * The arithmetic is exact (the source uses IEEE doubles).
   */
  function Normalize(u: Update, total: int): Update
    requires total > 0
  {
    var c := ClampAll(u);
    var sum := Sum(c);
    if sum > total then
      ScaleAll(c, (total as real) / (sum as real))
    else
      c
  }

  /** `Object.assign(this.estadoPoblacion, nuevosValores)`: supplied keys overwrite, the rest stay. */
  function Assign(p: Population, u: Update): Population {
    Population(p.total,
               if u.susceptible.Some? then u.susceptible.value else p.susceptible,
               if u.infected.Some? then u.infected.value else p.infected,
               if u.recovered.Some? then u.recovered.value else p.recovered,
               if u.deceased.Some? then u.deceased.value else p.deceased)
  }

  lemma ClampAllNonNegative(u: Update)
    ensures SameKeys(ClampAll(u), u) && AllNonNegative(ClampAll(u))
    ensures forall v :: v in [u.susceptible, u.infected, u.recovered, u.deceased] && v.Some? && v.value >= 0 ==> Clamp(v) == v
  {
  }

  /** Floor of a non-negative value scaled by a non-negative factor lies between 0 and the exact product. */
  lemma ScaleBounds(v: Option<int>, factor: real)
    requires ValueOrZero(v) >= 0 && factor >= 0.0
    ensures Scale(v, factor).Some? == v.Some?
    ensures 0 <= ValueOrZero(Scale(v, factor))
    ensures ValueOrZero(Scale(v, factor)) as real <= (ValueOrZero(v) as real) * factor
  {
    if v.Some? {
      var x := v.value as real;
      assert x * factor >= 0.0;
    }
  }

  /** Scaling every supplied value by a factor that maps their sum onto `total` gives at most `total`. */
  lemma ScaledSumBound(c: Update, factor: real, total: real)
    requires AllNonNegative(c) && factor >= 0.0
    requires (Sum(c) as real) * factor == total
    ensures SameKeys(ScaleAll(c, factor), c)
    ensures AllNonNegative(ScaleAll(c, factor))
    ensures Sum(ScaleAll(c, factor)) as real <= total
  {
    ScaleBounds(c.susceptible, factor);
    ScaleBounds(c.infected, factor);
    ScaleBounds(c.recovered, factor);
    ScaleBounds(c.deceased, factor);
    var a, b, d, e := ValueOrZero(c.susceptible) as real, ValueOrZero(c.infected) as real,
                      ValueOrZero(c.recovered) as real, ValueOrZero(c.deceased) as real;
    assert a * factor + b * factor + d * factor + e * factor == (a + b + d + e) * factor;
  }

  /** Dividing by a positive number and multiplying back gives the start, and the quotient of non-negatives is non-negative. */
  lemma DivisionInverse(x: real, y: real)
    requires x >= 0.0 && y > 0.0
    ensures y * (x / y) == x && x / y >= 0.0
  {
  }

  /**
   * The normalisation of `actualizarEstado` (script.js:23-38): the same keys stay supplied,
   * every supplied value ends non-negative, the supplied values then sum to at most the
   * total, and values whose sum was already within the total are only clamped.
   */
  lemma {:induction false} NormalizeSound(u: Update, total: int)
    requires total > 0
    ensures SameKeys(Normalize(u, total), u)
    ensures AllNonNegative(Normalize(u, total))
    ensures Sum(Normalize(u, total)) <= total
    ensures Sum(ClampAll(u)) <= total ==> Normalize(u, total) == ClampAll(u)
  {
    var c := ClampAll(u);
    ClampAllNonNegative(u);
    var sum := Sum(c);
    if sum > total {
      var factor := (total as real) / (sum as real);
      DivisionInverse(total as real, sum as real);
      ScaledSumBound(c, factor, total as real);
    }
  }

  /**
   * What `actualizarEstado` does to the compartments (script.js:22-40): the total is kept,
   * every supplied compartment ends non-negative and together they hold at most the total,
   * compartments the caller did not supply are unchanged, and non-negative values that
   * already fit are stored as given.
   */
  lemma UpdateEffect(p: Population, u: Update)
    requires p.total > 0 && NonNegative(p)
    ensures var q := Assign(p, Normalize(u, p.total));
      && q.total == p.total
      && NonNegative(q)
      && (u.susceptible.None? ==> q.susceptible == p.susceptible)
      && (u.infected.None? ==> q.infected == p.infected)
      && (u.recovered.None? ==> q.recovered == p.recovered)
      && (u.deceased.None? ==> q.deceased == p.deceased)
      && ValueOrZero(Normalize(u, p.total).susceptible) + ValueOrZero(Normalize(u, p.total).infected)
         + ValueOrZero(Normalize(u, p.total).recovered) + ValueOrZero(Normalize(u, p.total).deceased) <= p.total
      && (AllNonNegative(u) && Sum(u) <= p.total ==> Normalize(u, p.total) == u)
  {
    NormalizeSound(u, p.total);
    ClampAllNonNegative(u);
    if AllNonNegative(u) {
      assert ClampAll(u) == u;
    }
  }

  // ---------------------------------------------------------------------------
  // Infection state (`estadoInfeccioso`)
  // ---------------------------------------------------------------------------

  datatype InfectionState = Libre | Expuesto | Infectado | Recuperado

  /** The classification at the end of `actualizarEstado` (script.js:42-55). */
  function Classify(p: Population): InfectionState
    requires p.total > 0
  {
    var percentInfected := (p.infected as real / p.total as real) * 100.0;
    if p.infected == 0 then
      if p.recovered > 0 || p.deceased > 0 then Recuperado else Libre
    else if percentInfected < 1.0 then
      Expuesto
    else
      Infectado
  }

  /** The same classification with the percentage test written without division. */
  function Stage(p: Population): InfectionState {
    if p.infected == 0 then
      if p.recovered > 0 || p.deceased > 0 then Recuperado else Libre
    else if p.infected * 100 < p.total then
      Expuesto
    else
      Infectado
  }

  /** Fewer than one percent infected, stated without division. */
  lemma PercentBelowOne(infected: int, total: int)
    requires total > 0
    ensures (infected as real / total as real) * 100.0 < 1.0 <==> infected * 100 < total
  {
    var t := total as real;
    var q := infected as real / t;
    assert q * t == infected as real;
    assert (q * 100.0) * t == (infected * 100) as real;
    if q * 100.0 < 1.0 {
      MulStrict(q * 100.0, 1.0, t);
    } else {
      MulMonotone(1.0, q * 100.0, t);
    }
  }

  /** The four states partition the non-negative populations exactly as script.js:45-55 orders its tests. */
  lemma ClassifyCases(p: Population)
    requires p.total > 0 && NonNegative(p)
    ensures Classify(p) == Libre <==> p.infected == 0 && p.recovered == 0 && p.deceased == 0
    ensures Classify(p) == Recuperado <==> p.infected == 0 && (p.recovered > 0 || p.deceased > 0)
    ensures Classify(p) == Expuesto <==> 0 < p.infected * 100 < p.total
    ensures Classify(p) == Infectado <==> p.infected > 0 && p.infected * 100 >= p.total
  {
    PercentBelowOne(p.infected, p.total);
  }

  /** The division-free classification agrees with the percentage test of the source on every population. */
  lemma ClassifyIsStage(p: Population)
    requires p.total > 0
    ensures Classify(p) == Stage(p)
  {
    PercentBelowOne(p.infected, p.total);
  }

  // ---------------------------------------------------------------------------
  // Measures (`medidasVigentes`) and the transmission factor
  // ---------------------------------------------------------------------------

  /**
   * A measure name as the buttons of the interface pass it (script.js:1163-1166):
   * 'cuarentena', 'cierre_fronteras', 'distanciamiento', 'mascarillas', or any other string.
   */
  datatype Measure = Cuarentena | CierreFronteras | Distanciamiento | Mascarillas | Other(name: string)
  {
    /** The string the interface passes for this measure. */
    function Name(): string {
      match this
      case Cuarentena => "cuarentena"
      case CierreFronteras => "cierre_fronteras"
      case Distanciamiento => "distanciamiento"
      case Mascarillas => "mascarillas"
      case Other(n) => n
    }

    /** `Other` never spells one of the four known names, so every string has one encoding. */
    predicate Proper() {
      Other? ==> name !in {"cuarentena", "cierre_fronteras", "distanciamiento", "mascarillas"}
    }
  }

  /** The measure a string names, as the `switch` of `calcularFactorTransmision` reads it (script.js:77-90). */
  function ParseMeasure(name: string): Measure {
    if name == "cuarentena" then Cuarentena
    else if name == "cierre_fronteras" then CierreFronteras
    else if name == "distanciamiento" then Distanciamiento
    else if name == "mascarillas" then Mascarillas
    else Other(name)
  }

  /** Parsing and naming are inverse: each string has exactly one proper measure. */
  lemma ParseMeasureRoundTrip(name: string, m: Measure)
    ensures ParseMeasure(name).Proper() && ParseMeasure(name).Name() == name
    ensures m.Proper() ==> ParseMeasure(m.Name()) == m
  {
  }

  /** `Array.prototype.indexOf`: the first position of `m`, or -1. */
  function IndexOf(ms: seq<Measure>, m: Measure): (r: int)
    ensures -1 <= r < |ms|
    ensures r == -1 <==> m !in ms
    ensures r >= 0 ==> ms[r] == m && m !in ms[..r]
  {
    if ms == [] then -1
    else if ms[0] == m then 0
    else
      var k := IndexOf(ms[1..], m);
      assert k >= 0 ==> ms[..k + 1] == [ms[0]] + ms[1..][..k];
      if k == -1 then -1 else k + 1
  }

  /** The list after `aplicarMedida(m)` (script.js:58-63). */
  function WithMeasure(ms: seq<Measure>, m: Measure): seq<Measure> {
    if m in ms then ms else ms + [m]
  }

  /** The list after `removerMedida(m)` (script.js:65-71): the first occurrence is spliced out. */
  function WithoutMeasure(ms: seq<Measure>, m: Measure): seq<Measure> {
    var k := IndexOf(ms, m);
    if k > -1 then ms[..k] + ms[k + 1..] else ms
  }

  /** Adding a measure (script.js:58-63) keeps the list duplicate-free, adds exactly that measure, and is idempotent. */
  lemma MeasureAdded(ms: seq<Measure>, m: Measure)
    requires Distinct(ms)
    ensures Distinct(WithMeasure(ms, m))
    ensures forall x :: x in WithMeasure(ms, m) <==> x in ms || x == m
    ensures WithMeasure(WithMeasure(ms, m), m) == WithMeasure(ms, m)
  {
  }

  /** Removing a measure (script.js:65-71) keeps the list duplicate-free, removes exactly that measure, and is idempotent. */
  lemma MeasureRemoved(ms: seq<Measure>, m: Measure)
    requires Distinct(ms)
    ensures Distinct(WithoutMeasure(ms, m))
    ensures forall x :: x in WithoutMeasure(ms, m) <==> x in ms && x != m
    ensures WithoutMeasure(WithoutMeasure(ms, m), m) == WithoutMeasure(ms, m)
  {
    var k := IndexOf(ms, m);
    if k > -1 {
      var rest := ms[..k] + ms[k + 1..];
      assert forall i :: 0 <= i < |rest| ==> rest[i] == if i < k then ms[i] else ms[i + 1];
      forall x | x in ms && x != m
        ensures x in rest
      {
        var i :| 0 <= i < |ms| && ms[i] == x;
        assert rest[if i < k then i else i - 1] == x;
      }
      assert m !in rest;
    }
  }

  /** The measures the `switch` of `calcularFactorTransmision` knows (script.js:77-90). */
  predicate Known(m: Measure) {
    !m.Other?
  }

  /** One turn of the `switch` (script.js:77-90): a known measure multiplies the factor, any other leaves it alone. */
  function Apply(factor: real, m: Measure): real {
    match m
    case Cuarentena => factor * 0.3
    case CierreFronteras => factor * 0.1
    case Distanciamiento => factor * 0.6
    case Mascarillas => factor * 0.8
    case Other(_) => factor
  }

  /** The running product of `calcularFactorTransmision`, folded from the left as the `forEach` does. */
  function Product(ms: seq<Measure>): real {
    if ms == [] then 1.0 else Apply(Product(ms[..|ms| - 1]), ms[|ms| - 1])
  }

  /** `Math.max(factor, 0.05)` (script.js:93). */
  function TransmissionFactor(ms: seq<Measure>): real {
    var p := Product(ms);
    if p > 0.05 then p else 0.05
  }

  lemma {:induction false} ProductBounds(ms: seq<Measure>)
    ensures 0.0 < Product(ms) <= 1.0
  {
    if ms != [] {
      ProductBounds(ms[..|ms| - 1]);
    }
  }

  /** The factor always lies in [0.05, 1] (script.js:73-95). */
  lemma TransmissionFactorBounds(ms: seq<Measure>)
    ensures 0.05 <= TransmissionFactor(ms) <= 1.0
  {
    ProductBounds(ms);
  }

  /** Applying a measure never raises the factor, and a measure the switch does not know changes nothing. */
  lemma MeasureNeverRaisesFactor(ms: seq<Measure>, m: Measure)
    ensures TransmissionFactor(WithMeasure(ms, m)) <= TransmissionFactor(ms)
    ensures !Known(m) ==> TransmissionFactor(WithMeasure(ms, m)) == TransmissionFactor(ms)
  {
    if m !in ms {
      var ms' := ms + [m];
      assert ms'[..|ms'| - 1] == ms;
      ProductBounds(ms);
    }
  }

  // ---------------------------------------------------------------------------
  // The country object
  // ---------------------------------------------------------------------------

  /** `Pais`: the fields that the engine reads and writes. */
  class Country {
    const id: int
    const name: string
    const latitude: real
    const longitude: real
    var pop: Population
    var measures: seq<Measure>
    var state: InfectionState
    var factor: real

    /**
     * A country's invariant: a positive total that never changes, non-negative compartments,
     * measures without duplicates and each in its one encoding, a factor within the bounds `calcularFactorTransmision`
     * produces, and the cached state agreeing with the population.
     */
    ghost predicate Valid()
      reads this
    {
      Sound() && state == Stage(pop)
    }

    /**
     * The invariant without the cached state: what `actualizarEstado` needs, since it
     * classifies the population afresh whatever state the country was left in.
     */
    ghost predicate Sound()
      reads this
    {
      pop.total > 0 && NonNegative(pop) && Distinct(measures) && (forall m :: m in measures ==> m.Proper()) &&
      0.05 <= factor <= 1.0
    }

    /** The cached factor is the one the current measures give. */
    ghost predicate FactorCurrent()
      reads this
    {
      factor == TransmissionFactor(measures)
    }

    /** `new Pais(...)` (script.js:6-20); the population is given in persons, not millions. */
    constructor (id: int, name: string, total: int, latitude: real, longitude: real)
      requires total > 0
      ensures Valid() && FactorCurrent()
      ensures this.id == id && this.name == name && this.latitude == latitude && this.longitude == longitude
      ensures pop == Population(total, total, 0, 0, 0) && measures == [] && state == Libre && factor == 1.0
    {
      this.id := id;
      this.name := name;
      this.latitude := latitude;
      this.longitude := longitude;
      pop := Population(total, total, 0, 0, 0);
      measures := [];
      state := Libre;
      factor := 1.0;
    }

    /** `actualizarEstado(nuevosValores)` (script.js:22-56). */
    method UpdateState(u: Update)
      requires Sound()
      modifies this
      ensures Valid()
      ensures pop == Assign(old(pop), Normalize(u, old(pop).total))
      ensures state == Classify(pop) && state == Stage(pop)
      ensures measures == old(measures) && factor == old(factor)
    {
      var values := Normalize(u, pop.total);
      UpdateEffect(pop, u);
      pop := Assign(pop, values);
      state := Classify(pop);
      ClassifyIsStage(pop);
    }

    /** `calcularFactorTransmision()` (script.js:73-95). */
    method RecomputeFactor() returns (f: real)
      modifies this`factor
      ensures FactorCurrent() && f == factor
      ensures 0.05 <= f <= 1.0
    {
      var product := 1.0;
      var k := 0;
      while k < |measures|
        invariant 0 <= k <= |measures|
        invariant product == Product(measures[..k])
      {
        assert measures[..k + 1][..k] == measures[..k];
        match measures[k] {
          case Cuarentena => product := product * 0.3;
          case CierreFronteras => product := product * 0.1;
          case Distanciamiento => product := product * 0.6;
          case Mascarillas => product := product * 0.8;
          case Other(_) =>
        }
        k := k + 1;
      }
      assert measures[..k] == measures;
      TransmissionFactorBounds(measures);
      factor := if product > 0.05 then product else 0.05;
      f := factor;
    }

    /** `aplicarMedida(medida)` (script.js:58-63). */
    method ApplyMeasure(m: Measure)
      requires Valid() && m.Proper()
      modifies this`measures, this`factor
      ensures Valid()
      ensures measures == WithMeasure(old(measures), m)
      ensures m !in old(measures) ==> FactorCurrent()
      ensures m in old(measures) ==> factor == old(factor)
    {
      if m !in measures {
        MeasureAdded(measures, m);
        measures := measures + [m];
        var _ := RecomputeFactor();
      }
    }

    /** `removerMedida(medida)` (script.js:65-71). */
    method RemoveMeasure(m: Measure)
      requires Valid() && m.Proper()
      modifies this`measures, this`factor
      ensures Valid()
      ensures measures == WithoutMeasure(old(measures), m)
      ensures m in old(measures) ==> FactorCurrent()
      ensures m !in old(measures) ==> factor == old(factor)
    {
      var index := IndexOf(measures, m);
      if index > -1 {
        MeasureRemoved(measures, m);
        measures := measures[..index] + measures[index + 1..];
        var _ := RecomputeFactor();
      }
    }
  }
}
