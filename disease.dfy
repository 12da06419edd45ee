/**
 * The disease `Enfermedad` (DiseaseTransmission/script.js:155-235): its rates, its day
 * counter, the transport modes that currently prevail, the daily evolution of both, and
 * the probabilistic graph it lays over the world.
 */
module Diseases {
  import opened Wrappers
  import opened Countries
  import opened Routes
  import opened Worlds
  import opened RealArith

  /** `evolucionVias.diasParaMaritimo`: from this day on, sea routes prevail too. */
  const DaysForSea := 30

  /** Every this many days the contagion rate mutates (script.js:180). */
  const MutationPeriod := 45

  // ---------------------------------------------------------------------------
  // Evolution, on values
  // ---------------------------------------------------------------------------

  /** `viaPrevaleciente` after `evolucionar` reaches day `day` (script.js:174-177). */
  function ModesAt(ms: seq<Mode>, day: int): seq<Mode> {
    if day >= DaysForSea && Maritimo !in ms then ms + [Maritimo] else ms
  }

  /**
   * Evolving keeps the prevailing modes free of repeats, keeps every mode already there,
   * and makes sea routes prevail exactly when they already did or the day has reached 30.
   * Evolving again on a later day adds nothing more.
   */
  lemma ModesAtEffect(ms: seq<Mode>, day: int, later: int)
    requires Distinct(ms) && day <= later
    ensures Distinct(ModesAt(ms, day))
    ensures forall m :: m in ModesAt(ms, day) <==> m in ms || (m == Maritimo && day >= DaysForSea)
    ensures day >= DaysForSea ==> ModesAt(ModesAt(ms, day), later) == ModesAt(ms, day)
  {
  }

  /** 1.1 raised to `n`: the growth of the contagion rate after `n` mutations. */
  function Growth(n: nat): real {
    if n == 0 then 1.0 else Growth(n - 1) * 1.1
  }

  /** `tasaContagio` after one call of `evolucionar` that reaches day `day` (script.js:180-182). */
  function RateAt(rate: real, day: int): real {
    if day % MutationPeriod == 0 then rate * 1.1 else rate
  }

  /**
   * Evolving one day at a time from day 0, the rate on day `d` is the initial rate
   * times 1.1 for every multiple of 45 passed: one mutation per 45 days.
   */
  lemma RateOneDayAfter(initial: real, rate: real, d: nat)
    requires rate == initial * Growth(d / MutationPeriod)
    ensures RateAt(rate, d + 1) == initial * Growth((d + 1) / MutationPeriod)
  {
    var n := d / MutationPeriod;
    if (d + 1) % MutationPeriod == 0 {
      assert (d + 1) / MutationPeriod == n + 1;
      assert Growth(n + 1) == Growth(n) * 1.1;
    } else {
      assert (d + 1) / MutationPeriod == n;
    }
  }

  // ---------------------------------------------------------------------------
  // The probabilistic graph
  // ---------------------------------------------------------------------------

  /** A node of `grafo.nodos`: the country's id, name, state and infected count. */
  datatype Node = Node(id: int, name: string, state: InfectionState, value: int)

  /** An edge of `grafo.aristas`. */
  datatype Edge = Edge(origin: int, destination: int, mode: Mode, probability: real, distance: real)

  datatype Graph = Graph(nodes: seq<Node>, edges: seq<Edge>)

  /** The largest probability an edge can carry (script.js:221). */
  const MaxProbability := 0.99

  /**
   * The probability of an edge (script.js:203-221): the route's base probability, times
   * 1.5 when its mode prevails, times the contagion rate, times the destination's
   * factor when the destination exists, capped at 0.99.
   */
  function EdgeProbability(r: Route, prevailing: seq<Mode>, rate: real, destinationFactor: Option<real>): (p: real)
    requires r.distance >= 0.0
    ensures p <= MaxProbability
    ensures WellFormed(r) && rate >= 0.0 && (destinationFactor.Some? ==> destinationFactor.value >= 0.0) ==> p >= 0.0
  {
    var base := BaseProbability(r);
    var boosted := if r.mode in prevailing then base * 1.5 else base;
    var contagious := boosted * rate;
    var weighed := if destinationFactor.Some? then contagious * destinationFactor.value else contagious;
    NonNegativeProduct(r, boosted, rate, destinationFactor);
    if weighed < MaxProbability then weighed else MaxProbability
  }

  /** The uncapped product is non-negative when every factor is. */
  lemma NonNegativeProduct(r: Route, boosted: real, rate: real, destinationFactor: Option<real>)
    requires r.distance >= 0.0
    requires boosted == BaseProbability(r) || boosted == BaseProbability(r) * 1.5
    ensures WellFormed(r) && rate >= 0.0 && (destinationFactor.Some? ==> destinationFactor.value >= 0.0) ==>
      boosted * rate >= 0.0 && (destinationFactor.Some? ==> boosted * rate * destinationFactor.value >= 0.0)
  {
    if WellFormed(r) && rate >= 0.0 {
      BaseProbabilityBounds(r, r);
      MulMonotone(0.0, boosted, rate);
      if destinationFactor.Some? && destinationFactor.value >= 0.0 {
        MulMonotone(0.0, boosted * rate, destinationFactor.value);
      }
    }
  }

  /** The factor of the country stored under `id`, if there is one (`obtenerPaisPorId` then `factorTransmision`). */
  function FactorOf(table: map<int, Country>, id: int): Option<real>
    reads table.Values
  {
    if id in table then Some(table[id].factor) else None
  }

  function NodeOf(c: Country): Node
    reads c
  {
    Node(c.id, c.name, c.state, c.pop.infected)
  }

  /** `grafo.nodos` (script.js:192-199): one node per country, in list order. */
  function NodesOf(cs: seq<Country>): (ns: seq<Node>)
    reads cs
    ensures |ns| == |cs|
    ensures forall i :: 0 <= i < |cs| ==> ns[i] == NodeOf(cs[i])
  {
    if cs == [] then [] else NodesOf(cs[..|cs| - 1]) + [NodeOf(cs[|cs| - 1])]
  }

  /** `grafo.aristas` (script.js:202-231): one edge per active route of `rutas`, in order. */
  function EdgesOf(routes: seq<Route>, prevailing: seq<Mode>, rate: real, table: map<int, Country>): seq<Edge>
    requires forall r :: r in routes ==> r.distance >= 0.0
    reads table.Values
  {
    if routes == [] then []
    else
      var init, r := routes[..|routes| - 1], routes[|routes| - 1];
      assert forall x :: x in init ==> x in routes;
      EdgesOf(init, prevailing, rate, table) +
        if r.active then
          [Edge(r.origin, r.destination, r.mode, EdgeProbability(r, prevailing, rate, FactorOf(table, r.destination)), r.distance)]
        else []
  }

  /** The routes that are active, in order. */
  function ActiveRoutes(routes: seq<Route>): (rs: seq<Route>)
    ensures |rs| <= |routes|
    ensures forall r :: r in rs <==> r in routes && r.active
  {
    if routes == [] then []
    else ActiveRoutes(routes[..|routes| - 1]) + if routes[|routes| - 1].active then [routes[|routes| - 1]] else []
  }

  /**
   * The edges follow the active routes one for one: same endpoints, mode and distance,
   * and a probability in [0, 0.99] when the rate and the factors are non-negative. The
   * origin's measures never enter it; only the destination's do.
   */
  lemma {:induction false} EdgesFollowRoutes(routes: seq<Route>, prevailing: seq<Mode>, rate: real, table: map<int, Country>)
    requires forall r :: r in routes ==> r.distance >= 0.0
    ensures var es, rs := EdgesOf(routes, prevailing, rate, table), ActiveRoutes(routes);
      && |es| == |rs|
      && forall i :: 0 <= i < |es| ==>
        && es[i].origin == rs[i].origin && es[i].destination == rs[i].destination
        && es[i].mode == rs[i].mode && es[i].distance == rs[i].distance
        && es[i].probability == EdgeProbability(rs[i], prevailing, rate, FactorOf(table, rs[i].destination))
  {
    if routes != [] {
      var init := routes[..|routes| - 1];
      assert forall x :: x in init ==> x in routes;
      EdgesFollowRoutes(init, prevailing, rate, table);
    }
  }

  /** Every edge probability lies in [0, 0.99] when the rate and every stored factor are non-negative. */
  lemma {:induction false} EdgeProbabilitiesBounded(routes: seq<Route>, prevailing: seq<Mode>, rate: real, table: map<int, Country>)
    requires forall r :: r in routes ==> r.distance >= 0.0 && WellFormed(r)
    requires rate >= 0.0 && forall id :: id in table ==> table[id].factor >= 0.0
    ensures forall e :: e in EdgesOf(routes, prevailing, rate, table) ==> 0.0 <= e.probability <= MaxProbability
  {
    if routes != [] {
      var init := routes[..|routes| - 1];
      assert forall x :: x in init ==> x in routes;
      EdgeProbabilitiesBounded(init, prevailing, rate, table);
    }
  }

  // ---------------------------------------------------------------------------
  // The disease object
  // ---------------------------------------------------------------------------

  class Disease {
    const name: string
    /** `tasaContagio`, as a fraction. */
    var contagionRate: real
    /** `tasaMortalidad`, as a fraction. */
    const mortalityRate: real
    /** `tiempoRecuperacion`, in days. */
    const recoveryDays: int
    /** `paisOrigen`: the id of the country where the outbreak starts, or `null`. */
    const origin: Option<int>
    /** `viaPrevaleciente`. */
    var prevailing: seq<Mode>
    /** `diasTranscurridos`. */
    var daysElapsed: int
    /** The contagion rate the disease was created with. */
    ghost const initialRate: real

    /**
     * The disease's invariant: what the day step relies on (a mortality between 0 and 1,
     * at least one day to recover) and prevailing modes without repeats. Any rate and any
     * selection of modes, none included, is allowed, as the configuration form can set them.
     */
    ghost predicate Valid()
      reads this
    {
      0.0 <= mortalityRate <= 1.0 && recoveryDays >= 1 &&
      Distinct(prevailing) && (forall m :: m in prevailing ==> m.Proper())
    }

    /**
     * The schedule that evolving one day at a time follows: sea routes prevail exactly from
     * day 30, and the rate has grown by 1.1 for every 45 days elapsed.
     */
    ghost predicate OnSchedule()
      reads this
    {
      daysElapsed >= 0 && contagionRate >= 0.0 &&
      prevailing == (if daysElapsed >= DaysForSea then [Aereo, Terrestre, Maritimo] else [Aereo, Terrestre]) &&
      contagionRate == initialRate * Growth(daysElapsed / MutationPeriod)
    }

    /** `new Enfermedad(...)` (script.js:156-168): both rates are given in percent. */
    constructor (name: string, contagionPercent: real, mortalityPercent: real, recoveryDays: int, origin: Option<int>)
      requires 0.0 <= mortalityPercent <= 100.0 && recoveryDays >= 1
      ensures Valid() && (contagionPercent >= 0.0 ==> OnSchedule())
      ensures this.name == name && this.recoveryDays == recoveryDays && this.origin == origin
      ensures contagionRate == contagionPercent / 100.0 && mortalityRate == mortalityPercent / 100.0
      ensures prevailing == [Aereo, Terrestre] && daysElapsed == 0
    {
      this.name := name;
      contagionRate := contagionPercent / 100.0;
      initialRate := contagionPercent / 100.0;
      mortalityRate := mortalityPercent / 100.0;
      this.recoveryDays := recoveryDays;
      this.origin := origin;
      prevailing := [Aereo, Terrestre];
      daysElapsed := 0;
    }

    /**
     * `evolucionar(dias)` (script.js:170-183): the counter advances by `days`, sea routes
     * join the prevailing modes once the counter reaches 30, and the rate grows by 1.1 when
     * the counter lands on a multiple of 45. One day at a time, the schedule is kept.
     */
    method Evolve(days: int)
      requires Valid()
      modifies this`daysElapsed, this`prevailing, this`contagionRate
      ensures Valid()
      ensures daysElapsed == old(daysElapsed) + days
      ensures prevailing == ModesAt(old(prevailing), daysElapsed)
      ensures contagionRate == RateAt(old(contagionRate), daysElapsed)
      ensures days == 1 && old(OnSchedule()) ==> OnSchedule()
    {
      ModesAtEffect(prevailing, daysElapsed + days, daysElapsed + days);
      if days == 1 && OnSchedule() {
        RateOneDayAfter(initialRate, contagionRate, daysElapsed);
      }
      daysElapsed := daysElapsed + days;
      if daysElapsed >= DaysForSea && Maritimo !in prevailing {
        prevailing := prevailing + [Maritimo];
      }
      if daysElapsed % MutationPeriod == 0 {
        contagionRate := contagionRate * 1.1;
      }
    }

    /**
     * `generarGrafoProbabilistico(mundo)` (script.js:185-234): the two loops that collect
     * a node per country and an edge per active route of `rutas`.
     */
    method BuildGraph(w: World) returns (g: Graph)
      requires forall r :: r in w.routes ==> r.distance >= 0.0
      ensures g == Graph(NodesOf(w.countries), EdgesOf(w.routes, prevailing, contagionRate, w.countryTable))
    {
      var nodes := [];
      var i := 0;
      while i < |w.countries|
        invariant 0 <= i <= |w.countries|
        invariant nodes == NodesOf(w.countries[..i])
      {
        assert w.countries[..i + 1][..i] == w.countries[..i];
        var c := w.countries[i];
        nodes := nodes + [Node(c.id, c.name, c.state, c.pop.infected)];
        i := i + 1;
      }
      assert w.countries[..i] == w.countries;
      var edges := [];
      var j := 0;
      while j < |w.routes|
        invariant 0 <= j <= |w.routes|
        invariant forall r :: r in w.routes[..j] ==> r.distance >= 0.0
        invariant edges == EdgesOf(w.routes[..j], prevailing, contagionRate, w.countryTable)
      {
        assert w.routes[..j + 1][..j] == w.routes[..j];
        var r := w.routes[j];
        assert w.routes[..j + 1][j] == r;
        if r.active {
          var probability := BaseProbability(r);
          if r.mode in prevailing {
            probability := probability * 1.5;
          }
          probability := probability * contagionRate;
          if r.destination in w.countryTable {
            probability := probability * w.countryTable[r.destination].factor;
          }
          probability := if probability < MaxProbability then probability else MaxProbability;
          assert probability == EdgeProbability(r, prevailing, contagionRate, FactorOf(w.countryTable, r.destination));
          edges := edges + [Edge(r.origin, r.destination, r.mode, probability, r.distance)];
        }
        j := j + 1;
      }
      assert w.routes[..j] == w.routes;
      g := Graph(nodes, edges);
    }
  }
}
