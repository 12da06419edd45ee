/**
 * The simulation `Simulacion` (DiseaseTransmission/script.js:469-726): seeding the country
 * of origin, the day step (spread inside each country, spread along the graph's edges,
 * recoveries and deaths), the history of snapshots with the step back, and the global
 * statistics.
 */
module Simulations {
  import opened Wrappers
  import opened Countries
  import opened Routes
  import opened Worlds
  import opened Diseases
  import opened RealArith

  // ---------------------------------------------------------------------------
  // Arithmetic
  // ---------------------------------------------------------------------------

  function Max(a: int, b: int): int {
    if a >= b then a else b
  }

  function Min(a: int, b: int): int {
    if a <= b then a else b
  }

  /** `Math.ceil`. */
  function Ceil(x: real): int {
    -((-x).Floor)
  }

  /** The ceiling lies strictly above any integer below `x` and at or below any integer at or above it. */
  lemma CeilBetween(x: real, lo: int, hi: int)
    requires lo as real < x <= hi as real
    ensures lo < Ceil(x) <= hi
    ensures x <= Ceil(x) as real
  {
  }

  /** What `actualizarEstado` leaves in the population (the normalised values assigned over the old ones). */
  function AfterUpdate(p: Population, u: Update): Population
    requires p.total > 0
  {
    Assign(p, Normalize(u, p.total))
  }

  /**
   * What the day step promises one country: the same total, no compartment negative and
   * together within the total, the same number of persons accounted for, nobody turned
   * susceptible again, and no recovery or death undone.
   */
  predicate Settles(p: Population, q: Population) {
    && q.total == p.total && Bounded(q) && Occupied(q) == Occupied(p)
    && q.susceptible <= p.susceptible && q.recovered >= p.recovered && q.deceased >= p.deceased
  }

  /** Moving `n` persons from susceptible to infected, as both spreading steps ask for it. */
  function Infect(p: Population, n: int): Update {
    Update(Some(p.susceptible - n), Some(p.infected + n), None, None)
  }

  /** When `n` susceptible persons exist, infecting them needs no normalisation. */
  lemma InfectExact(p: Population, n: int)
    requires p.total > 0 && Bounded(p) && 0 <= n <= p.susceptible
    ensures AfterUpdate(p, Infect(p, n)) == p.(susceptible := p.susceptible - n, infected := p.infected + n)
  {
    UpdateEffect(p, Infect(p, n));
  }

  // ---------------------------------------------------------------------------
  // Spread inside a country (`propagarInternamente`)
  // ---------------------------------------------------------------------------

  /** `tasaContactoBase`. */
  const ContactRate := 8

  /** At most ten percent of the susceptible persons, rounded up, fall ill in a day. */
  function DailyCap(susceptible: int): int {
    Ceil(susceptible as real * 0.1)
  }

  /**
   * The uncapped count of script.js:545-557: effective contacts (8 per infected person)
   * that meet a susceptible person, times the contagion rate, the country's factor and
   * the density factor 0.3 + 0.7 * infected/total, rounded down.
   */
  function Contagions(p: Population, rate: real, factor: real): int
    requires p.total > 0
  {
    var total := p.total as real;
    var densityFactor := 0.3 + (p.infected as real / total) * 0.7;
    var contacts := ((ContactRate * p.infected) as real) * (p.susceptible as real / total);
    (contacts * rate * factor * densityFactor).Floor
  }

  /** `nuevosInfectados` after the limits of script.js:560-565. */
  function NewInfections(p: Population, rate: real, factor: real): int
    requires p.total > 0
  {
    Min(Min(Max(Contagions(p, rate, factor), 0), p.susceptible), DailyCap(p.susceptible))
  }

  /** The country's population after `propagarInternamente` (script.js:531-575). */
  function WithinStep(p: Population, rate: real, factor: real): Population
    requires p.total > 0
  {
    if p.infected == 0 || p.susceptible == 0 then p
    else
      var n := NewInfections(p, rate, factor);
      if n > 0 then AfterUpdate(p, Infect(p, n)) else p
  }

  /**
   * The day's new infections are never negative, never more than the susceptible persons
   * and never more than ten percent of them rounded up; one susceptible person can always
   * be reached by the cap.
   */
  lemma NewInfectionsBounds(p: Population, rate: real, factor: real)
    requires p.total > 0 && p.susceptible >= 0
    ensures 0 <= NewInfections(p, rate, factor) <= Min(p.susceptible, DailyCap(p.susceptible))
    ensures p.susceptible > 0 ==> 1 <= DailyCap(p.susceptible) <= p.susceptible
  {
    if p.susceptible > 0 {
      CeilBetween(p.susceptible as real * 0.1, 0, p.susceptible);
    } else {
      assert DailyCap(p.susceptible) == 0;
    }
  }

  /**
   * Nothing happens without infected or without susceptible persons. Otherwise, on a
   * bounded population, exactly the new infections move from susceptible to infected:
   * susceptible plus infected is conserved and recovered and deceased are untouched.
   */
  lemma WithinStepEffect(p: Population, rate: real, factor: real)
    requires p.total > 0 && NonNegative(p)
    ensures p.infected == 0 || p.susceptible == 0 ==> WithinStep(p, rate, factor) == p
    ensures Bounded(p) ==>
      var q, n := WithinStep(p, rate, factor), NewInfections(p, rate, factor);
      && (p.infected > 0 && p.susceptible > 0 ==> q == p.(susceptible := p.susceptible - n, infected := p.infected + n))
      && q.susceptible + q.infected == p.susceptible + p.infected
      && q.recovered == p.recovered && q.deceased == p.deceased
      && Settles(p, q)
  {
    NewInfectionsBounds(p, rate, factor);
    if Bounded(p) && p.infected > 0 && p.susceptible > 0 && NewInfections(p, rate, factor) > 0 {
      InfectExact(p, NewInfections(p, rate, factor));
    }
  }

  // ---------------------------------------------------------------------------
  // Spread between countries (`propagarEntrePaises`)
  // ---------------------------------------------------------------------------

  /** `posibilidad` (script.js:594-595): the edge's probability times the origin's infected share, times 0.7. */
  function CrossChance(probability: real, origin: Population): real
    requires origin.total > 0
  {
    probability * (origin.infected as real / origin.total as real) * 0.7
  }

  /** The persons infected by one successful crossing: a thousandth of the susceptible persons, at least one. */
  function Imported(susceptible: int): int {
    Max(1, (susceptible as real * 0.001).Floor)
  }

  /** The destination's population after one traversal whose draw succeeded (`hit`) or failed. */
  function CrossStep(dest: Population, hit: bool): Population
    requires dest.total > 0
  {
    var n := Imported(dest.susceptible);
    if hit && n > 0 && dest.susceptible > 0 then AfterUpdate(dest, Infect(dest, n)) else dest
  }

  /**
   * A successful crossing into a country with susceptible persons infects between one of
   * them and all of them, moved from susceptible to infected; anything else leaves the
   * destination as it was.
   */
  lemma CrossStepEffect(dest: Population, hit: bool)
    requires dest.total > 0 && Bounded(dest)
    ensures var n, q := Imported(dest.susceptible), CrossStep(dest, hit);
      && (hit && dest.susceptible > 0 ==>
            1 <= n <= dest.susceptible && q == dest.(susceptible := dest.susceptible - n, infected := dest.infected + n))
      && (!hit || dest.susceptible == 0 ==> q == dest)
      && Settles(dest, q)
  {
    var n := Imported(dest.susceptible);
    if hit && dest.susceptible > 0 {
      assert (dest.susceptible as real * 0.001).Floor <= dest.susceptible;
      InfectExact(dest, n);
    }
  }

  // ---------------------------------------------------------------------------
  // Recoveries and deaths (`actualizarEstados`)
  // ---------------------------------------------------------------------------

  /** `cambioHoy`: the infected persons whose illness ends today, ceil(infected / days). */
  function Resolved(infected: int, days: int): int
    requires days >= 1
  {
    Ceil(infected as real * (1.0 / days as real))
  }

  /** `fallecidos`: floor(resolved * mortality). */
  function Deaths(resolved: int, mortality: real): int {
    (resolved as real * mortality).Floor
  }

  /** The update of script.js:629-641. */
  function Resolution(p: Population, days: int, mortality: real): Update
    requires days >= 1
  {
    var change := Resolved(p.infected, days);
    var deaths := Deaths(change, mortality);
    var recovered := change - deaths;
    Update(None, Some(Max(0, p.infected - change)),
           Some(p.recovered + Min(recovered, p.infected - deaths)),
           Some(p.deceased + Min(deaths, p.infected)))
  }

  /** The country's population after `actualizarEstados` (script.js:616-650). */
  function ResolveStep(p: Population, days: int, mortality: real): Population
    requires p.total > 0 && days >= 1
  {
    if p.infected > 0 && Resolved(p.infected, days) > 0 then AfterUpdate(p, Resolution(p, days, mortality)) else p
  }

  /** With at least one day to recover, between one and all of the infected are resolved. */
  lemma ResolvedBounds(infected: int, days: int)
    requires infected >= 1 && days >= 1
    ensures 1 <= Resolved(infected, days) <= infected
  {
    var share := 1.0 / days as real;
    assert 0.0 < share <= 1.0;
    MulStrict(0.0, infected as real, share);
    MulMonotone(share, 1.0, infected as real);
    CeilBetween(infected as real * share, 0, infected);
  }

  /** With a mortality in [0, 1], the deaths are between none and all of the resolved. */
  lemma DeathsBounds(resolved: int, mortality: real)
    requires resolved >= 0 && 0.0 <= mortality <= 1.0
    ensures 0 <= Deaths(resolved, mortality) <= resolved
  {
    MulMonotone(0.0, resolved as real, mortality);
    MulMonotone(mortality, 1.0, resolved as real);
  }

  /**
   * On a bounded population with at least one day to recover and a mortality in [0, 1]:
   * nothing happens without infected persons; otherwise between one and all of them are
   * resolved, floor(resolved * mortality) of those die and the rest recover, so infected
   * strictly decrease, infected plus recovered plus deceased is conserved and the
   * susceptible persons are untouched.
   */
  lemma ResolveStepEffect(p: Population, days: int, mortality: real)
    requires p.total > 0 && Bounded(p) && days >= 1 && 0.0 <= mortality <= 1.0
    ensures p.infected == 0 ==> ResolveStep(p, days, mortality) == p
    ensures p.infected > 0 ==>
      var change := Resolved(p.infected, days);
      var deaths := Deaths(change, mortality);
      && 1 <= change <= p.infected && 0 <= deaths <= change
      && ResolveStep(p, days, mortality) ==
         Population(p.total, p.susceptible, p.infected - change, p.recovered + (change - deaths), p.deceased + deaths)
    ensures var q := ResolveStep(p, days, mortality);
      && q.infected + q.recovered + q.deceased == p.infected + p.recovered + p.deceased
      && (p.infected > 0 ==> q.infected < p.infected)
      && Settles(p, q)
  {
    if p.infected > 0 {
      var change := Resolved(p.infected, days);
      ResolvedBounds(p.infected, days);
      DeathsBounds(change, mortality);
      var u := Resolution(p, days, mortality);
      UpdateEffect(p, u);
      assert AllNonNegative(u) && Sum(u) <= p.total;
    }
  }

  // ---------------------------------------------------------------------------
  // Seeding the country of origin (`inicializar`)
  // ---------------------------------------------------------------------------

  /**
   * `infectadosIniciales`: max(1000, total * 0.0001). The model keeps whole persons, so the
   * share is total / 10000 rounded down.
   */
  function Seed(total: int): int {
    Max(1000, total / 10000)
  }

  /** The origin's population after seeding (script.js:486-495). */
  function Seeded(p: Population): Population
    requires p.total > 0
  {
    AfterUpdate(p, Update(Some(p.susceptible - Seed(p.total)), Some(Seed(p.total)), None, None))
  }

  /**
   * Seeding a country nobody has touched yet infects the seed, or the whole population when
   * it is smaller than the seed, and leaves the rest susceptible.
   */
  lemma SeededFresh(p: Population)
    requires p.total > 0 && p == Population(p.total, p.total, 0, 0, 0)
    ensures var n := Min(Seed(p.total), p.total);
      Seeded(p) == Population(p.total, p.total - n, n, 0, 0) && Settles(p, Seeded(p))
  {
    var seed := Seed(p.total);
    if seed > p.total {
      var factor := (p.total as real) / (seed as real);
      assert (seed as real) * factor == p.total as real;
      assert Scale(Some(seed), factor) == Some(p.total);
      assert Scale(Some(0), factor) == Some(0);
    }
  }

  // ---------------------------------------------------------------------------
  // Snapshots and statistics
  // ---------------------------------------------------------------------------

  /** A country's copy in a snapshot: its id, population, measures and state. */
  datatype Entry = Entry(id: int, pop: Population, measures: seq<Measure>, state: InfectionState)

  /** An element of `historial`: the date and a copy of every country. */
  datatype Snapshot = Snapshot(date: int, entries: seq<Entry>)

  function EntryOf(c: Country): Entry
    reads c
  {
    Entry(c.id, c.pop, c.measures, c.state)
  }

  /** `paises.map(...)` in `guardarSnapshot` (script.js:665-669). */
  function EntriesOf(cs: seq<Country>): (es: seq<Entry>)
    reads cs
    ensures |es| == |cs| && forall i :: 0 <= i < |cs| ==> es[i] == EntryOf(cs[i])
  {
    if cs == [] then [] else EntriesOf(cs[..|cs| - 1]) + [EntryOf(cs[|cs| - 1])]
  }

  /** A copy that can be written back into a country without breaking its invariant. */
  predicate EntryValid(e: Entry) {
    e.pop.total > 0 && NonNegative(e.pop) && Distinct(e.measures) && (forall m :: m in e.measures ==> m.Proper()) &&
    e.state == Stage(e.pop)
  }

  predicate SnapshotValid(s: Snapshot) {
    forall e :: e in s.entries ==> EntryValid(e)
  }

  /** The entry `restaurarSnapshot` writes last into the country with id `id`: the last one carrying it. */
  function LastFor(es: seq<Entry>, id: int): (r: Option<Entry>)
    ensures r.None? <==> forall e :: e in es ==> e.id != id
    ensures r.Some? ==> r.value in es && r.value.id == id
  {
    if es == [] then None
    else if es[|es| - 1].id == id then Some(es[|es| - 1])
    else
      var r := LastFor(es[..|es| - 1], id);
      assert forall e :: e in es[..|es| - 1] ==> e in es;
      r
  }

  /** A snapshot of valid countries can be restored. */
  lemma {:induction false} EntriesOfValid(cs: seq<Country>)
    requires AllValid(cs)
    ensures SnapshotValid(Snapshot(0, EntriesOf(cs)))
  {
    forall e | e in EntriesOf(cs)
      ensures EntryValid(e)
    {
      var i :| 0 <= i < |cs| && EntriesOf(cs)[i] == e;
      assert cs[i].Valid();
    }
  }

  /** No two entries carry the same id. */
  predicate UniqueIds(es: seq<Entry>) {
    forall i, j :: 0 <= i < j < |es| ==> es[i].id != es[j].id
  }

  /** With ids unique, the entry restored into a country is the one carrying its id. */
  lemma {:induction false} LastForUnique(es: seq<Entry>, k: int)
    requires UniqueIds(es) && 0 <= k < |es|
    ensures LastFor(es, es[k].id) == Some(es[k])
  {
    if k < |es| - 1 {
      var init := es[..|es| - 1];
      assert es[|es| - 1].id != es[k].id;
      assert init[k] == es[k];
      LastForUnique(init, k);
    }
  }

  /**
   * Entries that follow the world's countries id for id: under the world's id indexing,
   * the entry `restaurarSnapshot` picks for the country at position k is entry k.
   */
  lemma MatchingEntries(cs: seq<Country>, table: map<int, Country>, next: int, es: seq<Entry>)
    requires Indexed(cs, table, next)
    requires |es| == |cs| && forall k :: 0 <= k < |cs| ==> es[k].id == cs[k].id
    ensures forall k :: 0 <= k < |cs| ==> LastFor(es, cs[k].id) == Some(es[k])
  {
    assert UniqueIds(es) by {
      forall a, b | 0 <= a < b < |es|
        ensures es[a].id != es[b].id
      {
        assert cs[a].id != cs[b].id;
      }
    }
    forall k | 0 <= k < |cs|
      ensures LastFor(es, cs[k].id) == Some(es[k])
    {
      LastForUnique(es, k);
    }
  }

  /**
   * Restoring a snapshot of the world's own countries gives each its copy back: the entry
   * `restaurarSnapshot` picks for a country is the one `guardarSnapshot` took of it.
   */
  lemma SnapshotRoundTrip(cs: seq<Country>, table: map<int, Country>, next: int)
    requires Indexed(cs, table, next)
    ensures forall k :: 0 <= k < |cs| ==> LastFor(EntriesOf(cs), cs[k].id) == Some(EntryOf(cs[k]))
  {
    MatchingEntries(cs, table, next, EntriesOf(cs));
  }

  /** `totalInfectados`. */
  function InfectedIn(cs: seq<Country>): int
    reads cs
  {
    if cs == [] then 0 else InfectedIn(cs[..|cs| - 1]) + cs[|cs| - 1].pop.infected
  }

  /** `totalFallecidos`. */
  function DeceasedIn(cs: seq<Country>): int
    reads cs
  {
    if cs == [] then 0 else DeceasedIn(cs[..|cs| - 1]) + cs[|cs| - 1].pop.deceased
  }

  /** `paisesAfectados`: the countries with at least one infected person. */
  function AffectedIn(cs: seq<Country>): int
    reads cs
  {
    if cs == [] then 0 else AffectedIn(cs[..|cs| - 1]) + if cs[|cs| - 1].pop.infected > 0 then 1 else 0
  }

  /**
   * Between none and all countries are affected, the totals are never negative, and no
   * country is affected exactly when nobody is infected.
   */
  lemma {:induction false} TotalsBounds(cs: seq<Country>)
    requires AllValid(cs)
    ensures 0 <= AffectedIn(cs) <= |cs|
    ensures InfectedIn(cs) >= 0 && DeceasedIn(cs) >= 0
    ensures AffectedIn(cs) == 0 <==> InfectedIn(cs) == 0
  {
    if cs != [] {
      var init := cs[..|cs| - 1];
      assert AllValid(init) by {
        forall i | 0 <= i < |init|
          ensures init[i].Valid()
        {
          assert init[i] == cs[i];
        }
      }
      assert cs[|cs| - 1].Valid();
      TotalsBounds(init);
    }
  }

  /** The infected persons a snapshot holds. */
  function InfectedAt(es: seq<Entry>): int {
    if es == [] then 0 else InfectedAt(es[..|es| - 1]) + es[|es| - 1].pop.infected
  }

  /** `tasaPropagacion` (script.js:705-718): the relative change of infected between the last two snapshots. */
  function SpreadRate(history: seq<Snapshot>): real {
    if |history| > 1 then
      var current := InfectedAt(history[|history| - 1].entries);
      var previous := InfectedAt(history[|history| - 2].entries);
      if previous > 0 then (current - previous) as real / previous as real else 0.0
    else 0.0
  }

  lemma {:induction false} InfectedAtNonNegative(es: seq<Entry>)
    requires forall e :: e in es ==> EntryValid(e)
    ensures InfectedAt(es) >= 0
  {
    if es != [] {
      assert es[|es| - 1] in es;
      assert forall e :: e in es[..|es| - 1] ==> e in es;
      InfectedAtNonNegative(es[..|es| - 1]);
    }
  }

  /** The rate never falls below -1 (all infected gone) and is 0 without two snapshots to compare. */
  lemma SpreadRateBounds(history: seq<Snapshot>)
    requires forall s :: s in history ==> SnapshotValid(s)
    ensures SpreadRate(history) >= -1.0
    ensures |history| <= 1 ==> SpreadRate(history) == 0.0
  {
    if |history| > 1 {
      var current := InfectedAt(history[|history| - 1].entries);
      var previous := InfectedAt(history[|history| - 2].entries);
      assert SnapshotValid(history[|history| - 1]);
      InfectedAtNonNegative(history[|history| - 1].entries);
      if previous > 0 {
        assert (current - previous) as real >= -(previous as real);
        assert -(previous as real) / previous as real == -1.0;
      }
    }
  }

  /** `obtenerEstadisticasGlobales`'s result. */
  datatype Stats = Stats(infected: int, deceased: int, affected: int, rate: real)

  /** A country's population once the spread inside it has run, if it is switched on (script.js:515-519). */
  function DayStart(p: Population, internalSpread: bool, rate: real, factor: real): (q: Population)
    requires p.total > 0
    ensures q.total == p.total
  {
    if internalSpread then WithinStep(p, rate, factor) else p
  }

  /** No edge has the country with id `id` at either end. */
  predicate Isolated(edges: seq<Edge>, id: int) {
    forall e :: e in edges ==> e.origin != id && e.destination != id
  }

  /** Distinct ids mean distinct country objects. */
  lemma IndexedDistinct(cs: seq<Country>, table: map<int, Country>, next: int)
    requires Indexed(cs, table, next)
    ensures forall a, b :: 0 <= a < |cs| && 0 <= b < |cs| && a != b ==> cs[a] != cs[b]
  {
    forall a, b | 0 <= a < |cs| && 0 <= b < |cs| && a != b
      ensures cs[a] != cs[b]
    {
      if a < b {
        assert cs[a].id != cs[b].id;
      } else {
        assert cs[b].id != cs[a].id;
      }
    }
  }

  // ---------------------------------------------------------------------------
  // The simulation object
  // ---------------------------------------------------------------------------

  class Simulation {
    /** `mundo`. */
    const world: World
    /** `enfermedad`. */
    const disease: Disease
    /** The values `Math.random()` returns, in the order they are asked for. */
    const draws: nat -> real
    /** How many values of `draws` have been used. */
    var cursor: nat
    /** `grafoProbabilistico`. */
    var graph: Graph
    /** `fechaActual`. */
    var date: int
    /** `configuracion.pausada`. */
    var paused: bool
    /** `configuracion.propagacionInterna`. */
    var internalSpread: bool
    /** `historial`. */
    var history: seq<Snapshot>

    /** The world and the disease keep their invariants and every snapshot can be restored. */
    ghost predicate Valid()
      reads this`history, world, world.countries, disease
    {
      world.Valid() && disease.Valid() && |history| >= 1 && forall s :: s in history ==> SnapshotValid(s)
    }

    /**
     * The graph describes the countries as they are now, node for node, and the active
     * routes, edge for edge, with the probability `EdgeProbability` gives each.
     */
    ghost predicate GraphCurrent()
      reads this, world, world.countries, world.countryTable.Values, disease
    {
      var cs := world.countries;
      && |graph.nodes| == |cs|
      && (forall k :: 0 <= k < |cs| ==>
           graph.nodes[k] == Node(cs[k].id, cs[k].name, cs[k].state, cs[k].pop.infected))
      && EdgesCurrent()
    }

    /**
     * The edge half of `GraphCurrent`: one edge per active route, in order, with the
     * probability `EdgeProbability` gives it under the disease as it is now. Spreading
     * changes populations only, so it keeps the edges current while the nodes go stale.
     */
    ghost predicate EdgesCurrent()
      reads this, world, world.countryTable.Values, disease
    {
      var rs := ActiveRoutes(world.routes);
      && (forall r :: r in world.routes ==> r.distance >= 0.0)
      && |graph.edges| == |rs|
      && forall j :: 0 <= j < |rs| ==>
           var r := rs[j];
           var factor := if r.destination in world.countryTable then Some(world.countryTable[r.destination].factor) else None;
           graph.edges[j] == Edge(r.origin, r.destination, r.mode, EdgeProbability(r, disease.prevailing, disease.contagionRate, factor), r.distance)
    }

    /** `snapshot` holds a copy of every country of the world, in order. */
    ghost predicate Captures(snapshot: Snapshot)
      reads this, world, world.countries
    {
      var cs := world.countries;
      |snapshot.entries| == |cs| &&
      forall k :: 0 <= k < |cs| ==> snapshot.entries[k] == Entry(cs[k].id, cs[k].pop, cs[k].measures, cs[k].state)
    }

    /** `snapshot` has one entry per country of the world, in order, with its id. */
    ghost predicate Matches(snapshot: Snapshot)
      reads this, world, world.countries
    {
      |snapshot.entries| == |world.countries| &&
      forall k :: 0 <= k < |world.countries| ==> snapshot.entries[k].id == world.countries[k].id
    }

    /** The country with id `id` and its population, as `obtenerPaisPorId` finds them. */
    ghost predicate CanDraw(from: int, to: int)
      requires world.Valid()
      reads this, world, world.countries
    {
      world.CountryById(from).Some? && world.CountryById(to).Some? && world.CountryById(from).value.pop.infected != 0
    }

    /**
     * `new Simulacion(mundo, enfermedad)` (script.js:470-499): paused, with spread inside
     * countries switched on, the origin seeded, the graph built and one snapshot taken.
     */
    constructor (w: World, d: Disease, draws: nat -> real)
      requires w.ValidBut(d.origin) && d.Valid()
      modifies w.countries
      ensures Valid()
      ensures world == w && disease == d && this.draws == draws && cursor == 0
      ensures date == 0 && paused && internalSpread
      ensures forall k :: 0 <= k < |w.countries| ==>
        var c := w.countries[k];
        && c.pop == (if d.origin == Some(c.id) then Seeded(old(c.pop)) else old(c.pop))
        && c.measures == old(c.measures) && c.factor == old(c.factor)
      ensures GraphCurrent()
      ensures |history| == 1 && history[0].date == 0 && Captures(history[0])
    {
      world := w;
      disease := d;
      this.draws := draws;
      cursor := 0;
      date := 0;
      paused := true;
      internalSpread := true;
      history := [];
      new;
      Initialize();
    }

    /** `inicializar` (script.js:484-499): seed the origin, build the graph, take a snapshot. */
    method Initialize()
      requires world.ValidBut(disease.origin) && disease.Valid() && forall s :: s in history ==> SnapshotValid(s)
      modifies world.countries, this`graph, this`history
      ensures Valid()
      ensures forall k :: 0 <= k < |world.countries| ==>
        var c := world.countries[k];
        && c.pop == (if disease.origin == Some(c.id) then Seeded(old(c.pop)) else old(c.pop))
        && c.measures == old(c.measures) && c.factor == old(c.factor)
      ensures GraphCurrent()
      ensures |history| == |old(history)| + 1 && history[..|old(history)|] == old(history)
      ensures history[|old(history)|].date == date && Captures(history[|old(history)|])
    {
      SeedOrigin();
      RegenerateGraph();
      SaveSnapshot();
    }

    /** The seeding part of `inicializar` (script.js:486-495). */
    method SeedOrigin()
      requires world.ValidBut(disease.origin)
      modifies world.countries
      ensures world.Valid()
      ensures forall k :: 0 <= k < |world.countries| ==>
        var c := world.countries[k];
        && c.pop == (if disease.origin == Some(c.id) then Seeded(old(c.pop)) else old(c.pop))
        && c.measures == old(c.measures) && c.factor == old(c.factor)
    {
      assert Indexed(world.countries, world.countryTable, world.idCounter);
      IndexedDistinct(world.countries, world.countryTable, world.idCounter);
      if disease.origin.Some? && disease.origin.value in world.countryTable {
        var id := disease.origin.value;
        var c := world.countryTable[id];
        assert c in world.countries;
        assert c.Sound();
        var seed := Seed(c.pop.total);
        c.UpdateState(Update(Some(c.pop.susceptible - seed), Some(seed), None, None));
      }
    }

    /** `regenerarGrafo` (script.js:501-503). */
    method RegenerateGraph()
      requires world.Valid()
      modifies this`graph
      ensures GraphCurrent()
    {
      assert forall r :: r in world.routes ==> WellFormed(r);
      graph := disease.BuildGraph(world);
      EdgesFollowRoutes(world.routes, disease.prevailing, disease.contagionRate, world.countryTable);
    }

    /** `propagarInternamente(pais)` (script.js:531-575). */
    method SpreadWithin(c: Country)
      requires c.Valid()
      modifies c
      ensures c.Valid()
      ensures c.pop == WithinStep(old(c.pop), disease.contagionRate, c.factor)
      ensures c.measures == old(c.measures) && c.factor == old(c.factor)
    {
      if c.pop.infected == 0 || c.pop.susceptible == 0 {
        return;
      }
      var n := NewInfections(c.pop, disease.contagionRate, c.factor);
      if n > 0 {
        c.UpdateState(Infect(c.pop, n));
      }
    }

    /** The `forEach` over `paises` of script.js:516-520. */
    method SpreadWithinAll()
      requires world.Valid()
      modifies world.countries
      ensures world.Valid()
      ensures forall k :: 0 <= k < |world.countries| ==>
        var c := world.countries[k];
        && c.pop == WithinStep(old(c.pop), disease.contagionRate, c.factor)
        && c.measures == old(c.measures) && c.factor == old(c.factor)
    {
      var cs := world.countries;
      IndexedDistinct(cs, world.countryTable, world.idCounter);
      var i := 0;
      while i < |cs|
        invariant 0 <= i <= |cs|
        invariant AllValid(cs)
        invariant forall k :: 0 <= k < i ==> cs[k].pop == WithinStep(old(cs[k].pop), disease.contagionRate, cs[k].factor)
        invariant forall k :: i <= k < |cs| ==> cs[k].pop == old(cs[k].pop)
        invariant forall k :: 0 <= k < |cs| ==> cs[k].measures == old(cs[k].measures) && cs[k].factor == old(cs[k].factor)
      {
        SpreadWithin(cs[i]);
        i := i + 1;
      }
    }

    /**
     * One direction of one edge (script.js:585-611): nothing, and no draw, when either
     * country is missing or the origin has no infected; otherwise one draw, and the
     * destination is infected when it falls below the chance.
     */
    method SpreadAlong(probability: real, from: int, to: int)
      requires world.Valid()
      modifies world.countries, this`cursor
      ensures world.Valid()
      ensures old(CanDraw(from, to)) ==>
        && cursor == old(cursor) + 1
        && var dest, origin := old(world.CountryById(to)).value, old(world.CountryById(from)).value;
           dest.pop == CrossStep(old(dest.pop), draws(old(cursor)) < CrossChance(probability, old(origin.pop)))
      ensures !old(CanDraw(from, to)) ==> cursor == old(cursor)
      ensures forall k :: 0 <= k < |world.countries| ==>
        var c := world.countries[k];
        && (c.id != to || !old(CanDraw(from, to)) ==> c.pop == old(c.pop))
        && (Bounded(old(c.pop)) ==> Settles(old(c.pop), c.pop))
        && c.measures == old(c.measures) && c.factor == old(c.factor)
    {
      IndexedDistinct(world.countries, world.countryTable, world.idCounter);
      var origin := world.CountryById(from);
      var dest := world.CountryById(to);
      if origin.None? || dest.None? || origin.value.pop.infected == 0 {
        return;
      }
      var chance := CrossChance(probability, origin.value.pop);
      var hit := draws(cursor) < chance;
      cursor := cursor + 1;
      var d := dest.value;
      if Bounded(d.pop) {
        CrossStepEffect(d.pop, hit);
      }
      if hit {
        var n := Imported(d.pop.susceptible);
        if n > 0 && d.pop.susceptible > 0 {
          d.UpdateState(Infect(d.pop, n));
        }
      }
    }

    /**
     * `propagarEntrePaises` (script.js:577-613): both directions of every edge, in order.
     * A country no edge touches is left alone, every country that was bounded settles,
     * and draws are only ever consumed.
     */
    method SpreadAcross(edges: seq<Edge>)
      requires world.Valid()
      modifies world.countries, this`cursor
      ensures world.Valid()
      ensures cursor >= old(cursor)
      ensures forall k :: 0 <= k < |world.countries| ==>
        var c := world.countries[k];
        && (Isolated(edges, c.id) ==> c.pop == old(c.pop))
        && (Bounded(old(c.pop)) ==> Settles(old(c.pop), c.pop))
        && c.measures == old(c.measures) && c.factor == old(c.factor)
    {
      var cs := world.countries;
      var j := 0;
      while j < |edges|
        invariant 0 <= j <= |edges|
        invariant world.Valid()
        invariant cursor >= old(cursor)
        invariant forall k :: 0 <= k < |cs| ==>
          && (Isolated(edges[..j], cs[k].id) ==> cs[k].pop == old(cs[k].pop))
          && (Bounded(old(cs[k].pop)) ==> Settles(old(cs[k].pop), cs[k].pop))
          && cs[k].measures == old(cs[k].measures) && cs[k].factor == old(cs[k].factor)
      {
        assert edges[..j + 1] == edges[..j] + [edges[j]];
        label Before:
        SpreadBothWays(edges[j]);
        forall k | 0 <= k < |cs|
          ensures Isolated(edges[..j + 1], cs[k].id) ==> cs[k].pop == old(cs[k].pop)
          ensures Bounded(old(cs[k].pop)) ==> Settles(old(cs[k].pop), cs[k].pop)
        {
          var start, before := old(cs[k].pop), old@Before(cs[k].pop);
          assert Bounded(start) ==> Settles(start, before);
        }
        j := j + 1;
      }
      assert edges[..j] == edges;
    }

    /**
     * The body of the loop over `aristas`: origin to destination, then back. A forward
     * direction that can draw consumes the first draw and decides the destination; the way
     * back then draws exactly when the destination has infected persons, against its new
     * population, and decides the origin. A forward direction that cannot draw leaves the
     * way back to act on the old state. Either way each direction has `SpreadAlong`'s effect.
     */
    method SpreadBothWays(e: Edge)
      requires world.Valid()
      modifies world.countries, this`cursor
      ensures world.Valid()
      ensures cursor >= old(cursor)
      ensures old(CanDraw(e.origin, e.destination)) || old(CanDraw(e.destination, e.origin)) ==> cursor > old(cursor)
      ensures old(CanDraw(e.origin, e.destination)) && e.origin != e.destination ==>
        var dest, origin := old(world.CountryById(e.destination)).value, old(world.CountryById(e.origin)).value;
        var q := CrossStep(old(dest.pop), draws(old(cursor)) < CrossChance(e.probability, old(origin.pop)));
        && dest.pop == q
        && cursor == old(cursor) + 1 + (if q.infected != 0 then 1 else 0)
        && origin.pop == (if q.infected != 0 then CrossStep(old(origin.pop), draws(old(cursor) + 1) < CrossChance(e.probability, q))
                          else old(origin.pop))
      ensures !old(CanDraw(e.origin, e.destination)) ==>
        && cursor == old(cursor) + (if old(CanDraw(e.destination, e.origin)) then 1 else 0)
        && (old(CanDraw(e.destination, e.origin)) ==>
             var dest, origin := old(world.CountryById(e.origin)).value, old(world.CountryById(e.destination)).value;
             dest.pop == CrossStep(old(dest.pop), draws(old(cursor)) < CrossChance(e.probability, old(origin.pop))))
      ensures forall k :: 0 <= k < |world.countries| ==>
        var c := world.countries[k];
        && (c.id != e.origin && c.id != e.destination ==> c.pop == old(c.pop))
        && (Bounded(old(c.pop)) ==> Settles(old(c.pop), c.pop))
        && c.measures == old(c.measures) && c.factor == old(c.factor)
    {
      SpreadAlong(e.probability, e.origin, e.destination);
      SpreadAlong(e.probability, e.destination, e.origin);
    }

    /** One country's part of `actualizarEstados` (script.js:617-649). */
    method ResolveCountry(c: Country)
      requires c.Valid() && disease.Valid()
      modifies c
      ensures c.Valid()
      ensures c.pop == ResolveStep(old(c.pop), disease.recoveryDays, disease.mortalityRate)
      ensures c.measures == old(c.measures) && c.factor == old(c.factor)
    {
      if c.pop.infected > 0 {
        var change := Resolved(c.pop.infected, disease.recoveryDays);
        if change > 0 {
          c.UpdateState(Resolution(c.pop, disease.recoveryDays, disease.mortalityRate));
          if c.pop.infected == 0 && c.pop.recovered > 0 {
            c.state := Recuperado;
          }
        }
      }
    }

    /** `actualizarEstados` (script.js:615-651). */
    method ResolveAll()
      requires world.Valid() && disease.Valid()
      modifies world.countries
      ensures world.Valid()
      ensures forall k :: 0 <= k < |world.countries| ==>
        var c := world.countries[k];
        && c.pop == ResolveStep(old(c.pop), disease.recoveryDays, disease.mortalityRate)
        && (Bounded(old(c.pop)) ==> Settles(old(c.pop), c.pop))
        && c.measures == old(c.measures) && c.factor == old(c.factor)
    {
      var cs := world.countries;
      IndexedDistinct(cs, world.countryTable, world.idCounter);
      var i := 0;
      while i < |cs|
        invariant 0 <= i <= |cs|
        invariant AllValid(cs)
        invariant forall k :: 0 <= k < i ==> cs[k].pop == ResolveStep(old(cs[k].pop), disease.recoveryDays, disease.mortalityRate)
        invariant forall k :: i <= k < |cs| ==> cs[k].pop == old(cs[k].pop)
        invariant forall k :: 0 <= k < |cs| ==> cs[k].measures == old(cs[k].measures) && cs[k].factor == old(cs[k].factor)
      {
        ResolveCountry(cs[i]);
        i := i + 1;
      }
      assert world.Valid();
      forall k | 0 <= k < |cs| && Bounded(old(cs[k].pop))
        ensures Settles(old(cs[k].pop), cs[k].pop)
      {
        ResolveStepEffect(old(cs[k].pop), disease.recoveryDays, disease.mortalityRate);
      }
    }

    /** `guardarSnapshot` (script.js:662-672). */
    method SaveSnapshot()
      requires world.Valid() && forall s :: s in history ==> SnapshotValid(s)
      modifies this`history
      ensures forall s :: s in history ==> SnapshotValid(s)
      ensures |history| == |old(history)| + 1 && history[..|old(history)|] == old(history)
      ensures history[|old(history)|].date == date && Captures(history[|old(history)|])
    {
      EntriesOfValid(world.countries);
      history := history + [Snapshot(date, EntriesOf(world.countries))];
    }

    /** One entry of `restaurarSnapshot` (script.js:677-686): the country with its id, if any, gets the copy back. */
    method RestoreEntry(e: Entry)
      requires world.Valid() && EntryValid(e)
      modifies world.countries
      ensures world.Valid()
      ensures forall k :: 0 <= k < |world.countries| ==>
        var c := world.countries[k];
        if c.id == e.id then
          c.pop == e.pop && c.measures == e.measures && c.state == e.state && c.FactorCurrent()
        else
          c.pop == old(c.pop) && c.measures == old(c.measures) && c.state == old(c.state) && c.factor == old(c.factor)
    {
      IndexedDistinct(world.countries, world.countryTable, world.idCounter);
      var found := world.CountryById(e.id);
      if found.Some? {
        var c := found.value;
        c.pop := e.pop;
        c.measures := e.measures;
        c.state := e.state;
        var _ := c.RecomputeFactor();
      }
    }

    /**
     * `restaurarSnapshot(snapshot)` (script.js:674-687): the date is the snapshot's, and
     * every country takes population, measures and state from the last entry carrying its
     * id, with the factor recomputed from those measures; a country without an entry, and
     * an entry without a country, are left alone. A snapshot that follows the countries id
     * for id, as one `guardarSnapshot` took does, gives each country its own entry back.
     */
    method RestoreSnapshot(snapshot: Snapshot)
      requires world.Valid() && SnapshotValid(snapshot)
      modifies this`date, world.countries
      ensures world.Valid() && date == snapshot.date
      ensures forall k :: 0 <= k < |world.countries| ==>
        var c, found := world.countries[k], LastFor(snapshot.entries, world.countries[k].id);
        if found.Some? then
          c.pop == found.value.pop && c.measures == found.value.measures && c.state == found.value.state && c.FactorCurrent()
        else
          c.pop == old(c.pop) && c.measures == old(c.measures) && c.state == old(c.state) && c.factor == old(c.factor)
      ensures old(Matches(snapshot)) ==> forall k :: 0 <= k < |world.countries| ==>
        var c, e := world.countries[k], snapshot.entries[k];
        c.pop == e.pop && c.measures == e.measures && c.state == e.state
    {
      var cs, es := world.countries, snapshot.entries;
      var matches := Matches(snapshot);
      if matches {
        MatchingEntries(cs, world.countryTable, world.idCounter, es);
      }
      date := snapshot.date;
      RestoreEntries(es);
      if matches {
        forall k | 0 <= k < |cs|
          ensures cs[k].pop == es[k].pop && cs[k].measures == es[k].measures && cs[k].state == es[k].state
        {
          assert LastFor(es, cs[k].id) == Some(es[k]);
        }
      }
    }

    /** The `forEach` of `restaurarSnapshot` (script.js:677-686): the entries written back in order. */
    method RestoreEntries(es: seq<Entry>)
      requires world.Valid() && forall e :: e in es ==> EntryValid(e)
      modifies world.countries
      ensures world.Valid()
      ensures forall k :: 0 <= k < |world.countries| ==>
        var c, found := world.countries[k], LastFor(es, world.countries[k].id);
        if found.Some? then
          c.pop == found.value.pop && c.measures == found.value.measures && c.state == found.value.state && c.FactorCurrent()
        else
          c.pop == old(c.pop) && c.measures == old(c.measures) && c.state == old(c.state) && c.factor == old(c.factor)
    {
      var cs := world.countries;
      var j := 0;
      while j < |es|
        invariant 0 <= j <= |es|
        invariant world.Valid()
        invariant forall k :: 0 <= k < |cs| ==>
          var c, found := cs[k], LastFor(es[..j], cs[k].id);
          if found.Some? then
            c.pop == found.value.pop && c.measures == found.value.measures && c.state == found.value.state && c.FactorCurrent()
          else
            c.pop == old(c.pop) && c.measures == old(c.measures) && c.state == old(c.state) && c.factor == old(c.factor)
      {
        assert es[..j + 1][..j] == es[..j];
        assert es[j] in es;
        RestoreEntry(es[j]);
        j := j + 1;
      }
      assert es[..j] == es;
    }

    /**
     * `retrocederUnDia()` (script.js:653-660): with more than one snapshot, the last is
     * dropped and the one before it restored. The date ends one day before that
     * snapshot's own date, since the restore sets it and the step then decrements it.
     * With a single snapshot nothing changes.
     */
    method StepBack()
      requires Valid()
      modifies this`history, this`date, world.countries
      ensures Valid()
      ensures |old(history)| > 1 ==>
        && history == old(history)[..|old(history)| - 1]
        && date == history[|history| - 1].date - 1
        && forall k :: 0 <= k < |world.countries| ==>
             var c, found := world.countries[k], LastFor(history[|history| - 1].entries, world.countries[k].id);
             if found.Some? then
               c.pop == found.value.pop && c.measures == found.value.measures && c.state == found.value.state && c.FactorCurrent()
             else
               c.pop == old(c.pop) && c.measures == old(c.measures) && c.state == old(c.state) && c.factor == old(c.factor)
      ensures |old(history)| <= 1 ==> history == old(history) && date == old(date)
      ensures |old(history)| <= 1 ==> forall k :: 0 <= k < |world.countries| ==>
        var c := world.countries[k];
        c.pop == old(c.pop) && c.measures == old(c.measures) && c.state == old(c.state) && c.factor == old(c.factor)
    {
      if |history| > 1 {
        history := history[..|history| - 1];
        assert history[|history| - 1] in old(history);
        RestoreSnapshot(history[|history| - 1]);
        date := date - 1;
      }
    }

    /**
     * `obtenerEstadisticasGlobales()` (script.js:689-725): the infected and deceased over
     * all countries, the countries with infected persons, and the spread rate between the
     * last two snapshots.
     */
    method GlobalStats() returns (stats: Stats)
      requires Valid()
      ensures stats == Stats(InfectedIn(world.countries), DeceasedIn(world.countries), AffectedIn(world.countries), SpreadRate(history))
      ensures 0 <= stats.affected <= |world.countries| && stats.infected >= 0 && stats.deceased >= 0
      ensures stats.affected == 0 <==> stats.infected == 0
      ensures stats.rate >= -1.0 && (|history| <= 1 ==> stats.rate == 0.0)
    {
      var cs := world.countries;
      var infected, deceased, affected := 0, 0, 0;
      var i := 0;
      while i < |cs|
        invariant 0 <= i <= |cs|
        invariant infected == InfectedIn(cs[..i]) && deceased == DeceasedIn(cs[..i]) && affected == AffectedIn(cs[..i])
      {
        assert cs[..i + 1][..i] == cs[..i];
        infected := infected + cs[i].pop.infected;
        deceased := deceased + cs[i].pop.deceased;
        if cs[i].pop.infected > 0 {
          affected := affected + 1;
        }
        i := i + 1;
      }
      assert cs[..i] == cs;
      var rate := 0.0;
      if |history| > 1 {
        var current := SnapshotInfected(history[|history| - 1]);
        var previous := SnapshotInfected(history[|history| - 2]);
        if previous > 0 {
          rate := (current - previous) as real / previous as real;
        }
      }
      stats := Stats(infected, deceased, affected, rate);
      TotalsBounds(cs);
      SpreadRateBounds(history);
    }

    /** The `forEach` that adds up a snapshot's infected persons (script.js:710-711). */
    method SnapshotInfected(s: Snapshot) returns (total: int)
      ensures total == InfectedAt(s.entries)
    {
      var es := s.entries;
      total := 0;
      var i := 0;
      while i < |es|
        invariant 0 <= i <= |es|
        invariant total == InfectedAt(es[..i])
      {
        assert es[..i + 1][..i] == es[..i];
        total := total + es[i].pop.infected;
        i := i + 1;
      }
      assert es[..i] == es;
    }

    /** The spread inside every country, when switched on (script.js:515-519). */
    method SpreadInside()
      requires world.Valid()
      modifies world.countries
      ensures world.Valid()
      ensures forall k :: 0 <= k < |world.countries| ==>
        var c := world.countries[k];
        && c.pop == DayStart(old(c.pop), internalSpread, disease.contagionRate, c.factor)
        && (Bounded(old(c.pop)) ==> Settles(old(c.pop), c.pop))
        && c.measures == old(c.measures) && c.factor == old(c.factor)
    {
      var cs := world.countries;
      if internalSpread {
        SpreadWithinAll();
        forall k | 0 <= k < |cs|
          ensures Bounded(old(cs[k].pop)) ==> Settles(old(cs[k].pop), cs[k].pop)
        {
          WithinStepEffect(old(cs[k].pop), disease.contagionRate, cs[k].factor);
        }
      }
    }

    /**
     * The spreading and resolving part of `avanzarUnDia` (script.js:515-526): spread inside
     * every country when switched on, along the edges, then recoveries and deaths. Every
     * country that was bounded settles; a country no edge touches ends exactly where the
     * spread inside it and the day's recoveries and deaths take it.
     */
    method SpreadAndResolve()
      requires world.Valid() && disease.Valid()
      modifies world.countries, this`cursor
      ensures world.Valid()
      ensures cursor >= old(cursor)
      ensures forall k :: 0 <= k < |world.countries| ==>
        var c := world.countries[k];
        && (Bounded(old(c.pop)) ==> Settles(old(c.pop), c.pop))
        && c.measures == old(c.measures) && c.factor == old(c.factor)
      ensures forall k :: 0 <= k < |world.countries| ==>
        var c := world.countries[k];
        Isolated(graph.edges, c.id) ==>
          c.pop == ResolveStep(DayStart(old(c.pop), internalSpread, disease.contagionRate, c.factor),
                               disease.recoveryDays, disease.mortalityRate)
    {
      var cs := world.countries;
      SpreadInside();
      label Inside:
      CrossAndResolve(graph.edges);
      forall k | 0 <= k < |cs|
        ensures Bounded(old(cs[k].pop)) ==> Settles(old(cs[k].pop), cs[k].pop)
      {
        var start, inside := old(cs[k].pop), old@Inside(cs[k].pop);
        assert Bounded(start) ==> Settles(start, inside);
      }
    }

    /** `propagarEntrePaises` and then `actualizarEstados` (script.js:522-526). */
    method CrossAndResolve(edges: seq<Edge>)
      requires world.Valid() && disease.Valid()
      modifies world.countries, this`cursor
      ensures world.Valid()
      ensures cursor >= old(cursor)
      ensures forall k :: 0 <= k < |world.countries| ==>
        var c := world.countries[k];
        && (Bounded(old(c.pop)) ==> Settles(old(c.pop), c.pop))
        && (Isolated(edges, c.id) ==> c.pop == ResolveStep(old(c.pop), disease.recoveryDays, disease.mortalityRate))
        && c.measures == old(c.measures) && c.factor == old(c.factor)
    {
      var cs := world.countries;
      SpreadAcross(edges);
      label Crossed:
      ResolveAll();
      forall k | 0 <= k < |cs|
        ensures Bounded(old(cs[k].pop)) ==> Settles(old(cs[k].pop), cs[k].pop)
      {
        var start, crossed := old(cs[k].pop), old@Crossed(cs[k].pop);
        assert Bounded(start) ==> Settles(start, crossed);
      }
    }

    /**
     * `avanzarUnDia()` (script.js:505-529). Paused, nothing happens. Otherwise the disease
     * evolves one day, the date advances, the graph is rebuilt, the day's spreading and
     * resolving run and a snapshot of the new state is appended: every country that was
     * bounded settles, measures and factors stay as they were.
     */
    method AdvanceOneDay()
      requires Valid()
      modifies this`date, this`graph, this`history, this`cursor, world.countries
      modifies disease`daysElapsed, disease`prevailing, disease`contagionRate
      ensures Valid()
      ensures old(paused) ==> date == old(date) && history == old(history) && cursor == old(cursor) && graph == old(graph)
      ensures old(paused) ==>
        && disease.daysElapsed == old(disease.daysElapsed) && disease.contagionRate == old(disease.contagionRate)
        && disease.prevailing == old(disease.prevailing)
      ensures old(paused) ==> forall k :: 0 <= k < |world.countries| ==> world.countries[k].pop == old(world.countries[k].pop)
      ensures !old(paused) ==>
        && date == old(date) + 1 && disease.daysElapsed == old(disease.daysElapsed) + 1
        && disease.prevailing == ModesAt(old(disease.prevailing), disease.daysElapsed)
        && disease.contagionRate == RateAt(old(disease.contagionRate), disease.daysElapsed)
        && (old(disease.OnSchedule()) ==> disease.OnSchedule())
        && EdgesCurrent()
        && |history| == |old(history)| + 1 && history[..|old(history)|] == old(history)
        && history[|old(history)|].date == date && Captures(history[|old(history)|])
      ensures !old(paused) ==> forall k :: 0 <= k < |world.countries| ==>
        var c := world.countries[k];
        Isolated(graph.edges, c.id) ==>
          c.pop == ResolveStep(DayStart(old(c.pop), internalSpread, disease.contagionRate, c.factor),
                               disease.recoveryDays, disease.mortalityRate)
      ensures forall k :: 0 <= k < |world.countries| ==>
        var c := world.countries[k];
        && (Bounded(old(c.pop)) ==> Settles(old(c.pop), c.pop))
        && c.measures == old(c.measures) && c.factor == old(c.factor)
    {
      if !paused {
        Day();
      }
    }

    /**
     * The unpaused body of `avanzarUnDia` (script.js:508-528). A country no edge of the new
     * graph touches ends exactly where the spread inside it and the day's recoveries and
     * deaths take it, at the evolved contagion rate.
     */
    method Day()
      requires Valid()
      modifies this`date, this`graph, this`history, this`cursor, world.countries
      modifies disease`daysElapsed, disease`prevailing, disease`contagionRate
      ensures Valid() && EdgesCurrent()
      ensures date == old(date) + 1 && disease.daysElapsed == old(disease.daysElapsed) + 1
      ensures disease.prevailing == ModesAt(old(disease.prevailing), disease.daysElapsed)
      ensures disease.contagionRate == RateAt(old(disease.contagionRate), disease.daysElapsed)
      ensures old(disease.OnSchedule()) ==> disease.OnSchedule()
      ensures |history| == |old(history)| + 1 && history[..|old(history)|] == old(history)
      ensures history[|old(history)|].date == date && Captures(history[|old(history)|])
      ensures forall k :: 0 <= k < |world.countries| ==>
        var c := world.countries[k];
        && (Bounded(old(c.pop)) ==> Settles(old(c.pop), c.pop))
        && c.measures == old(c.measures) && c.factor == old(c.factor)
      ensures forall k :: 0 <= k < |world.countries| ==>
        var c := world.countries[k];
        Isolated(graph.edges, c.id) ==>
          c.pop == ResolveStep(DayStart(old(c.pop), internalSpread, disease.contagionRate, c.factor),
                               disease.recoveryDays, disease.mortalityRate)
    {
      disease.Evolve(1);
      date := date + 1;
      RunDay();
    }

    /**
     * What `avanzarUnDia` does once the disease has evolved and the date advanced
     * (script.js:513-527): the graph rebuilt, the day's spreading and resolving, a snapshot.
     */
    method RunDay()
      requires Valid()
      modifies this`graph, this`history, this`cursor, world.countries
      ensures Valid() && EdgesCurrent()
      ensures |history| == |old(history)| + 1 && history[..|old(history)|] == old(history)
      ensures history[|old(history)|].date == date && Captures(history[|old(history)|])
      ensures forall k :: 0 <= k < |world.countries| ==>
        var c := world.countries[k];
        && (Bounded(old(c.pop)) ==> Settles(old(c.pop), c.pop))
        && c.measures == old(c.measures) && c.factor == old(c.factor)
      ensures forall k :: 0 <= k < |world.countries| ==>
        var c := world.countries[k];
        Isolated(graph.edges, c.id) ==>
          c.pop == ResolveStep(DayStart(old(c.pop), internalSpread, disease.contagionRate, c.factor),
                               disease.recoveryDays, disease.mortalityRate)
    {
      RegenerateGraph();
      SpreadAndResolve();
      SaveSnapshot();
    }
  }
}
