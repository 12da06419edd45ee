# Disease transmission engine, in Dafny

A model of the simulation engine of `DiseaseTransmission/script.js`: the classes `Pais`
(a country), `RutaTransmision` (a route), `Enfermedad` (the disease), `Mundo` (the world
registry) and `Simulacion` (the day stepper), together with the properties they promise.

- `Countries` (`country.dfy`): the population compartments and the clamp-and-normalise
  update `actualizarEstado`, the four infection states, the duplicate-free list of
  measures and the transmission factor derived from it. A measure name is a datatype
  with one constructor per name the `switch` knows and `Other` for any other string;
  `Proper` keeps `Other` from spelling a known name, so every string has one encoding
  (`ParseMeasure`). A country holds only proper measures, and the measure methods take
  one, as every string the buttons pass has one. `Pais` is a class whose methods
  change its fields in place.
- `Routes` (`route.dfy`): a route as a value (traffic clamped to [0, 1], travel time,
  base probability capped at 0.95) and the canonical `min-max` key of the route table.
  Transport modes are encoded as measures are, with `OtherMode` for unknown strings.
- `Worlds` (`world.dfy`): `Mundo` as a class with the country list, the id-keyed country
  table, the id counter, the adjacency matrix, the route table (its key order kept as a
  sequence, as a JavaScript `Map` keeps insertion order) and the route list. Its
  invariant says that the list and the table agree, that the matrix is a square
  symmetric 0/1 matrix over list positions, and that every stored route joins two known
  countries under its canonical key.
- `Diseases` (`disease.dfy`): `Enfermedad` as a class. It holds the day counter, the
  prevailing modes (sea routes join once, from day 30) and the contagion rate (×1.1 on
  every multiple of 45). Its invariant admits any rate and any selection of modes
  without repeats, none included, since the configuration form
  (`aplicarConfiguracionEnfermedad`, script.js:952-971) may set them so. The schedule a
  new disease follows when stepped one day at a time is a separate predicate. It also builds the probabilistic graph: one node per country
  and one edge per active route, with probability capped at 0.99.
- `Simulations` (`simulation.dfy`): `Simulacion` as a class. It seeds the origin, runs
  the day step (spread inside countries, spread along edges, recoveries and deaths),
  keeps the snapshot history with the step back, and computes the global statistics.
  Each per-country rule is a function on populations, with lemmas stating its bounds and
  conservation laws. The methods that loop over the countries are proved against those
  functions.
- `Wrappers` (`Option` and `Distinct`, a list without repeats) and `RealArith` (two facts
  about real multiplication) are helpers.

Behaviours kept as the source has them:

- **The matrix is indexed two ways.** `agregarRuta` and `eliminarRuta` index the matrix
  by country id, while `eliminarPais` splices it by list position. `AddRoute` and
  `RemoveRoute` require the ids to be inside the matrix, because JavaScript throws there
  otherwise. `Synced` states that the matrix, read by position, marks exactly the pairs
  the route table stores. Adding or removing a country keeps it. Adding or removing a
  route is proved to keep it while every id equals its position (`Dense`). `StaleIdsBreakSync`
  shows a route added after a deletion marking the cells of another pair. The world
  invariant therefore does not include `Synced`.
- **A duplicate route is stored twice in the list.** Adding a route for a pair that is
  already stored replaces the table entry but still appends to `rutas`.
- **An edge uses only the destination's measures.** An edge's probability takes only the
  transmission factor of the destination (the larger id), although spread runs both ways
  along it.
- **Stepping back decrements the date twice.** `retrocederUnDia` restores the previous
  snapshot, which sets the date to that snapshot's date, and then decrements it once
  more. `StepBack` states the date it leaves as the restored snapshot's date minus one.
- **The sum bound is not an invariant.** `actualizarEstado` does not keep the four compartments
  within the total; it only normalises the values supplied. The sum bound is therefore
  not part of a country's invariant. It is stated as what every day step preserves
  (`Settles`), on countries that satisfied it before.

`Math.random()` in the spread between countries is a parameter of the simulation: a
stream `draws: nat -> real` together with a cursor that counts the draws used. One draw
is taken for each direction of an edge that passes the guard.

## Model

| member | source | states |
|---|---|---|
| Countries.ClampAllNonNegative | DiseaseTransmission/script.js:24-28 | clamping keeps the supplied keys, makes every value non-negative, and leaves non-negative values alone |
| Countries.ScaleBounds | DiseaseTransmission/script.js:31-37 | `Math.floor(v * factor)` of a non-negative value lies between 0 and the exact product |
| Countries.ScaledSumBound | DiseaseTransmission/script.js:30-38 | scaling by total/sum keeps the keys and non-negativity, and the scaled values sum to at most the total |
| Countries.NormalizeSound | DiseaseTransmission/script.js:23-38 | normalised values keep the supplied keys, are non-negative and sum to at most the total; values already within the total are only clamped |
| Countries.UpdateEffect | DiseaseTransmission/script.js:22-40 | after the update the total is kept, no compartment is negative, keys not supplied are unchanged, supplied values sum to at most the total, and non-negative values that fit are stored as given |
| Countries.PercentBelowOne | DiseaseTransmission/script.js:43-51 | infected/total·100 < 1 exactly when infected·100 < total |
| Countries.ClassifyCases | DiseaseTransmission/script.js:42-55 | LIBRE iff nobody infected, recovered or dead; RECUPERADO iff nobody infected and someone recovered or dead; EXPUESTO iff 0 < infected·100 < total; INFECTADO otherwise |
| Countries.ClassifyIsStage | DiseaseTransmission/script.js:42-55 | the source's percentage test agrees with the division-free classification used in the invariant |
| Countries.IndexOf | DiseaseTransmission/script.js:66 | `indexOf`: -1 exactly when absent, otherwise the first position holding the measure |
| Countries.ParseMeasureRoundTrip | DiseaseTransmission/script.js:77-90 | every string parses to a proper measure with that name, and a proper measure parses back from its name: one encoding per string |
| Countries.MeasureAdded | DiseaseTransmission/script.js:58-63 | adding keeps the list duplicate-free, its members become the old ones plus the measure, and adding twice equals adding once |
| Countries.MeasureRemoved | DiseaseTransmission/script.js:65-71 | removing keeps the list duplicate-free, its members become the old ones minus the measure, and removing twice equals removing once |
| Countries.ProductBounds | DiseaseTransmission/script.js:74-91 | the running product of the known measures' factors lies in (0, 1] |
| Countries.TransmissionFactorBounds | DiseaseTransmission/script.js:73-95 | the factor, max(product, 0.05), lies in [0.05, 1] |
| Countries.MeasureNeverRaisesFactor | DiseaseTransmission/script.js:77-93 | applying a measure never raises the factor, and a measure the `switch` does not know leaves it unchanged |
| Countries.Country.constructor | DiseaseTransmission/script.js:6-20 | a new country is valid, wholly susceptible, LIBRE, with no measures and factor 1 |
| Countries.Country.UpdateState | DiseaseTransmission/script.js:22-56 | the population becomes the normalised values assigned over the old ones, the state is re-classified, measures and factor are untouched, and the country is valid afterwards whatever state it carried before (`Sound` is all it needs) |
| Countries.Country.RecomputeFactor | DiseaseTransmission/script.js:73-95 | the loop over the measures leaves the factor equal to `TransmissionFactor(measures)`, in [0.05, 1] |
| Countries.Country.ApplyMeasure | DiseaseTransmission/script.js:58-63 | the list becomes `WithMeasure(old, m)`; a new measure recomputes the factor and a present one leaves it alone |
| Countries.Country.RemoveMeasure | DiseaseTransmission/script.js:65-71 | the list becomes `WithoutMeasure(old, m)`; a removal recomputes the factor and a missing measure leaves it alone |
| Routes.ClampTraffic | DiseaseTransmission/script.js:113 | the traffic ends in [0, 1]: unchanged inside, 0 below, 1 above |
| Routes.ParseModeRoundTrip | DiseaseTransmission/script.js:122-141 | every string parses to a proper mode with that name, and a proper mode parses back from its name: one encoding per string |
| Routes.Speed | DiseaseTransmission/script.js:122-127 | every speed in the table, the default 50 included, is positive, so travel time is defined |
| Routes.TravelTimeCovers | DiseaseTransmission/script.js:120-128 | travel time times the mode's speed is the distance, and is non-negative for a non-negative distance |
| Routes.NewRoute | DiseaseTransmission/script.js:109-118 | a new route is well formed and active, with the given endpoints, mode and distance, and a traffic in [0, 1] equal to the given one when that is in range |
| Routes.ClosenessBounds | DiseaseTransmission/script.js:132 | the distance term 1/(d/1000+1) lies in (0, 1] and does not rise with the distance |
| Routes.BaseProbabilityBounds | DiseaseTransmission/script.js:130-143 | the base probability lies in (0, 0.95], does not fall with traffic and does not rise with distance |
| Routes.KeyCanonical | DiseaseTransmission/script.js:329-339 | the key is the same for both argument orders, ordered, made of the two ids, and equal for two pairs exactly when they are the same unordered pair |
| Worlds.ZeroMatrix | DiseaseTransmission/script.js:279-283 | the all-zero n×n matrix is square and an adjacency matrix |
| Worlds.GrownZero | DiseaseTransmission/script.js:279-283 | growing the zero matrix by one country gives the next zero matrix |
| Worlds.GrownAdjacency | DiseaseTransmission/script.js:279-283 | adding a country keeps the matrix square, symmetric and 0/1, keeps every old cell, and gives a zero new row and column |
| Worlds.ShrunkAdjacency | DiseaseTransmission/script.js:297-301 | removing a position keeps the matrix square (n−1), symmetric and 0/1, with every other cell kept |
| Worlds.SetPairAdjacency | DiseaseTransmission/script.js:342-343 | setting a pair of distinct cells keeps the matrix an adjacency matrix, sets both cells and changes no other |
| Worlds.WithoutMembers | DiseaseTransmission/script.js:311-313 | after deleting a set of keys, a key remains exactly when it was there and not deleted, and no key appears twice |
| Worlds.WithoutNothing | DiseaseTransmission/script.js:311-313 | deleting no key keeps the order |
| Worlds.WithoutTwice | DiseaseTransmission/script.js:311-313 | deleting two batches one after the other is deleting their union |
| Worlds.TouchingKeys | DiseaseTransmission/script.js:304-309 | the collected keys are exactly the stored keys whose routes touch the id |
| Worlds.TableValues | DiseaseTransmission/script.js:315 | `Array.from(tablaRutas.values())` has one route per key, in key order |
| Worlds.ConnectionsFrom | DiseaseTransmission/script.js:378-395 | every reported entry is an active route touching the id, marked outgoing exactly when the id is its origin, with the country at the other end |
| Worlds.ConnectionsComplete | DiseaseTransmission/script.js:378-395 | every active route touching the id is reported |
| Worlds.IndexedAppend | DiseaseTransmission/script.js:273-277 | appending a country with the next id and storing it under that id keeps the list and the table in step |
| Worlds.IndexedRemove | DiseaseTransmission/script.js:290-295 | splicing out a country and deleting its id keeps the list and the table in step |
| Worlds.RoutesAfterRemoval | DiseaseTransmission/script.js:303-315 | deleting every route that touches the id leaves a table, a key order and a route list that mention only the other countries |
| Worlds.Extend | DiseaseTransmission/script.js:279-283 | the loop that grows the matrix computes `Grown(m, n)` |
| Worlds.FindIndex | DiseaseTransmission/script.js:290 | `findIndex`: -1 exactly when no country has the id, otherwise the first position holding it |
| Worlds.SpliceOut | DiseaseTransmission/script.js:297-301 | the loop that splices the matrix computes `Shrunk(m, index)` |
| Worlds.CollectTouching | DiseaseTransmission/script.js:303-309 | the `forEach` over the route table collects `TouchingKeys` |
| Worlds.DeleteAll | DiseaseTransmission/script.js:311-313 | deleting the collected keys one by one removes exactly them from the table and from the key order |
| Worlds.DropRoutesOf | DiseaseTransmission/script.js:303-315 | the table and the key order lose exactly the routes touching the id, and the route list is rebuilt from what is left |
| Worlds.ConsistentAfterAdd | DiseaseTransmission/script.js:272-287 | `agregarPais` on the field values keeps the world consistent |
| Worlds.AllValidAppend | DiseaseTransmission/script.js:276 | appending a valid country keeps every country valid |
| Worlds.AllValidRemove | DiseaseTransmission/script.js:294 | splicing out a country keeps every country valid |
| Worlds.ConsistentAfterRemoval | DiseaseTransmission/script.js:289-318 | `eliminarPais` on the field values keeps the world consistent, and no stored route touches the removed id |
| Worlds.RoutesAfterSet | DiseaseTransmission/script.js:345-347 | storing a route between known countries under its key keeps every route known |
| Worlds.RoutesAfterDelete | DiseaseTransmission/script.js:359-363 | deleting one key and rebuilding the list keeps every route known |
| Worlds.ConsistentAfterSet | DiseaseTransmission/script.js:342-347 | `agregarRuta` on the field values keeps the world consistent |
| Worlds.ConsistentAfterDelete | DiseaseTransmission/script.js:358-363 | `eliminarRuta` on the field values keeps the world consistent |
| Worlds.SyncedAfterGrow | DiseaseTransmission/script.js:272-287 | adding a country whose id no stored route mentions keeps the matrix, read by position, in step with the route table |
| Worlds.SyncedAfterShrink | DiseaseTransmission/script.js:289-318 | removing the country at a position, with its row, column and touching routes, keeps the matrix in step with the route table |
| Worlds.SyncedAfterLink | DiseaseTransmission/script.js:342-347 | while ids equal positions, storing a route and marking both cells keeps the two in step |
| Worlds.SyncedAfterUnlink | DiseaseTransmission/script.js:358-364 | while ids equal positions, deleting a route's key and clearing both cells keeps the two in step |
| Worlds.StaleIdsBreakSync | DiseaseTransmission/script.js:342-343 | after country 0 of four is removed the two are still in step, but adding the route 1-2 by id marks the cells of the pair 2-3 and leaves them out of step |
| Worlds.World.constructor | DiseaseTransmission/script.js:238-270 | the ten sample countries get ids 0 to 9 in order, the matrix is 10×10 zeros, there are no routes, and the world is valid |
| Worlds.World.AddCountry | DiseaseTransmission/script.js:272-287 | the new country gets the counter's id and the counter strictly increases; it is appended and stored; the matrix grows to (n+1)×(n+1) with a zero new row and column; the routes are untouched |
| Worlds.World.RemoveCountry | DiseaseTransmission/script.js:289-318 | false, with nothing changed, exactly when the id is unknown; otherwise the country at its position leaves the list, the table and the matrix, and no stored route touches it |
| Worlds.World.RemoveAt | DiseaseTransmission/script.js:292-315 | the country, its matrix row and column and every route touching it are removed; the route list is rebuilt from the table |
| Worlds.World.AddRoute | DiseaseTransmission/script.js:320-350 | None, with nothing changed, exactly for an unknown endpoint or a loop; otherwise a route from the smaller id to the larger is stored under their key (replacing any there), pushed onto the list, and marked in both cells |
| Worlds.World.Store | DiseaseTransmission/script.js:342-347 | both cells are set to 1, the route is stored under its key and pushed onto the list, and the world stays valid |
| Worlds.World.RemoveRoute | DiseaseTransmission/script.js:352-368 | true exactly when the pair's key was stored, in either argument order; then the key is gone, both cells are 0 and the list equals the table's values; otherwise nothing changes |
| Worlds.World.RemoveKey | DiseaseTransmission/script.js:358-364 | the key leaves the table and the order, both cells are cleared, and the list is rebuilt from the table |
| Worlds.World.CountryById | DiseaseTransmission/script.js:374-376 | a country is found exactly when one in the list has the id, and it is that country |
| Worlds.World.RoutesFrom | DiseaseTransmission/script.js:378-399 | the loop over the route table returns `ConnectionsFrom` of the stored routes |
| Diseases.ModesAtEffect | DiseaseTransmission/script.js:174-177 | the modes never repeat; sea routes prevail exactly when they already did or the day is at least 30; evolving again adds nothing |
| Diseases.RateOneDayAfter | DiseaseTransmission/script.js:180-182 | stepping one day from rate = initial·1.1^(d div 45) gives initial·1.1^((d+1) div 45) |
| Diseases.EdgeProbability | DiseaseTransmission/script.js:203-221 | an edge's probability is at most 0.99, and non-negative for a well-formed route, a non-negative rate and a non-negative destination factor |
| Diseases.NonNegativeProduct | DiseaseTransmission/script.js:204-217 | the uncapped product of base probability, boost, rate and destination factor is non-negative when each factor is |
| Diseases.NodesOf | DiseaseTransmission/script.js:192-199 | one node per country, in list order, carrying its id, name, state and infected count |
| Diseases.ActiveRoutes | DiseaseTransmission/script.js:202-204 | the active routes, no more of them than routes |
| Diseases.EdgesFollowRoutes | DiseaseTransmission/script.js:202-231 | the edges follow the active routes one for one (endpoints, mode, distance), with the probability the destination's factor alone gives |
| Diseases.EdgeProbabilitiesBounded | DiseaseTransmission/script.js:203-221 | with a non-negative rate and factors, every edge probability lies in [0, 0.99] |
| Diseases.Disease.constructor | DiseaseTransmission/script.js:156-168 | both rates are converted from percent, the counter is 0, air and land routes prevail, and with a non-negative rate the disease is on schedule |
| Diseases.Disease.Evolve | DiseaseTransmission/script.js:170-183 | the counter grows by exactly `days`; sea routes are appended once from day 30; the rate is ×1.1 exactly when the new counter is a multiple of 45; one day at a time the schedule is kept |
| Diseases.Disease.BuildGraph | DiseaseTransmission/script.js:185-234 | the two loops build `NodesOf` the countries and `EdgesOf` the routes |
| Simulations.CeilBetween | DiseaseTransmission/script.js:566 | `Math.ceil` of a value in (lo, hi] lies in [lo+1, hi] |
| Simulations.InfectExact | DiseaseTransmission/script.js:569-574 | infecting at most the susceptible persons moves exactly that many from susceptible to infected, with no normalisation |
| Simulations.NewInfectionsBounds | DiseaseTransmission/script.js:554-566 | new infections lie in [0, min(s, ceil(s·0.1))], and the cap is at least 1 when s > 0 |
| Simulations.WithinStepEffect | DiseaseTransmission/script.js:531-575 | nothing when infected or susceptible is 0; on a bounded population exactly the new infections move, s+i is conserved, r and d are untouched, and the population settles |
| Simulations.CrossStepEffect | DiseaseTransmission/script.js:597-609 | a hit on a country with susceptible persons infects between 1 and all of them; a miss, or no susceptible persons, changes nothing; the population settles |
| Simulations.ResolvedBounds | DiseaseTransmission/script.js:622-625 | with at least one day to recover, ceil(i/T) lies between 1 and i |
| Simulations.DeathsBounds | DiseaseTransmission/script.js:629 | with mortality in [0, 1], floor(resolved·m) lies between 0 and resolved |
| Simulations.ResolveStepEffect | DiseaseTransmission/script.js:615-651 | with i > 0, ceil(i/T) persons leave infected, floor of that times m die and the rest recover; i+r+d is conserved, infected strictly decreases, s is untouched; with i = 0 nothing changes |
| Simulations.SeededFresh | DiseaseTransmission/script.js:486-495 | seeding an untouched country infects max(1000, total/10000), or everybody if fewer, and leaves the rest susceptible |
| Simulations.EntriesOf | DiseaseTransmission/script.js:665-669 | one copy per country, in list order, of its id, population, measures and state |
| Simulations.LastFor | DiseaseTransmission/script.js:677-686 | the entry a restore writes into a country: none exactly when no entry carries the id, otherwise an entry carrying it |
| Simulations.LastForUnique | DiseaseTransmission/script.js:677-686 | with no id repeated among the entries, the entry restored into the country with entry k's id is entry k |
| Simulations.MatchingEntries | DiseaseTransmission/script.js:674-687 | entries that follow the world's countries id for id give the country at position k entry k |
| Simulations.SnapshotRoundTrip | DiseaseTransmission/script.js:662-687 | restoring the copy `guardarSnapshot` takes of the countries gives every country its own copy back |
| Simulations.EntriesOfValid | DiseaseTransmission/script.js:662-672 | a snapshot of valid countries can be restored into them |
| Simulations.TotalsBounds | DiseaseTransmission/script.js:693-702 | the totals are non-negative, between 0 and all countries are affected, and none is affected exactly when nobody is infected |
| Simulations.InfectedAtNonNegative | DiseaseTransmission/script.js:710-711 | a valid snapshot holds a non-negative count of infected persons |
| Simulations.SpreadRateBounds | DiseaseTransmission/script.js:705-718 | the spread rate is never below −1, and is 0 with fewer than two snapshots |
| Simulations.IndexedDistinct | DiseaseTransmission/script.js:374-376 | distinct ids mean distinct country objects, so a lookup by id names one country |
| Simulations.Simulation.constructor | DiseaseTransmission/script.js:470-499 | accepts a world that is valid except for the origin's state (`ValidBut`), as `reiniciarSimulacion` leaves it at script.js:927; paused, internal spread on, date 0, no draw used; the origin is seeded and re-classified, so the world is valid; the graph describes the world; one snapshot of date 0 holds a copy of every country |
| Simulations.Simulation.Initialize | DiseaseTransmission/script.js:484-499 | from a world valid except for the origin's state, the origin alone is seeded, the world becomes valid, the graph is current, and one snapshot of the current countries is appended |
| Simulations.Simulation.SeedOrigin | DiseaseTransmission/script.js:486-495 | from a world valid except for the origin's state, the country whose id is the origin is seeded and re-classified through `actualizarEstado`, so the world is valid; every other country, and every measure and factor, is unchanged |
| Simulations.Simulation.RegenerateGraph | DiseaseTransmission/script.js:501-503 | the graph has one node per country and one edge per active route, with the probability `EdgeProbability` gives |
| Simulations.Simulation.SpreadWithin | DiseaseTransmission/script.js:531-575 | the country's population becomes `WithinStep` of the old one; measures and factor are unchanged |
| Simulations.Simulation.SpreadWithinAll | DiseaseTransmission/script.js:516-520 | every country's population becomes `WithinStep` of its old one |
| Simulations.Simulation.SpreadAlong | DiseaseTransmission/script.js:585-611 | no draw and no change when a country is missing or the origin has no infected; otherwise one draw, and the destination takes `CrossStep` with a hit exactly when the draw is below the chance; bounded countries settle |
| Simulations.Simulation.SpreadBothWays | DiseaseTransmission/script.js:578-586 | both directions of one edge, each with exactly `SpreadAlong`'s effect. When the forward one can draw (and the ends differ), it uses the first draw and sets the destination to `q`, its `CrossStep`; the way back then draws exactly when `q` has infected, and sets the origin to its `CrossStep` under the second draw against `q`, or leaves it alone. When the forward one cannot draw, the way back acts on the old state; a country at neither end is unchanged, and bounded countries settle |
| Simulations.Simulation.SpreadAcross | DiseaseTransmission/script.js:577-613 | over all edges, draws are only consumed, a country no edge touches is unchanged, bounded countries settle, and measures and factors are unchanged |
| Simulations.Simulation.ResolveCountry | DiseaseTransmission/script.js:616-649 | the country's population becomes `ResolveStep` of the old one, and the country stays valid |
| Simulations.Simulation.ResolveAll | DiseaseTransmission/script.js:615-651 | every country's population becomes `ResolveStep` of its old one, and bounded countries settle |
| Simulations.Simulation.SaveSnapshot | DiseaseTransmission/script.js:662-672 | exactly one snapshot is appended, with the current date and a copy of every country in order; every snapshot stays restorable |
| Simulations.Simulation.RestoreEntry | DiseaseTransmission/script.js:677-685 | the country carrying the entry's id takes its population, measures and state and recomputes its factor; every other country is unchanged |
| Simulations.Simulation.RestoreSnapshot | DiseaseTransmission/script.js:674-687 | the date is the snapshot's; each country takes the last entry carrying its id, with the factor recomputed; a country without an entry is unchanged; a snapshot that follows the countries id for id gives country k exactly entry k |
| Simulations.Simulation.RestoreEntries | DiseaseTransmission/script.js:677-686 | after writing the entries back in order, each country holds the last entry carrying its id, or is unchanged |
| Simulations.Simulation.StepBack | DiseaseTransmission/script.js:653-660 | with more than one snapshot the last is dropped, the new last restored, and the date ends one below its date; otherwise nothing changes |
| Simulations.Simulation.GlobalStats | DiseaseTransmission/script.js:688-725 | the totals of infected and deceased, the affected count and the spread rate, with their bounds: affected in [0, countries], none affected iff nobody infected, rate ≥ −1 |
| Simulations.Simulation.SnapshotInfected | DiseaseTransmission/script.js:710-711 | the loop adds up the snapshot's infected persons |
| Simulations.Simulation.SpreadInside | DiseaseTransmission/script.js:515-520 | with internal spread on, every population becomes `WithinStep` of its old one, otherwise none changes; bounded countries settle |
| Simulations.Simulation.CrossAndResolve | DiseaseTransmission/script.js:522-526 | bounded countries settle, draws are only consumed, and a country no edge touches takes exactly `ResolveStep` of its old population |
| Simulations.Simulation.SpreadAndResolve | DiseaseTransmission/script.js:515-526 | bounded countries settle, draws are only consumed, and a country no edge touches ends at `ResolveStep` of `DayStart` (internal spread when switched on) of its old population |
| Simulations.Simulation.AdvanceOneDay | DiseaseTransmission/script.js:505-529 | paused, nothing changes (date, history, draws, graph, populations, the disease's counter, rate and modes); otherwise the disease evolves as `Evolve(1)` states, the date grows by one, the edges follow the active routes (`EdgesCurrent`), bounded countries settle, a country no active route touches ends at `ResolveStep` of `DayStart` of its old population, and one snapshot of the new state is appended |
| Simulations.Simulation.Day | DiseaseTransmission/script.js:508-528 | the modes become `ModesAt` and the rate `RateAt` of the old ones on the new day, the schedule is kept, the date grows by one, the edges follow the active routes (`EdgesCurrent`), bounded countries settle, a country no active route touches ends at `ResolveStep` of `DayStart` of its old population, and one snapshot is appended |
| Simulations.Simulation.RunDay | DiseaseTransmission/script.js:513-527 | the edges are those of the active routes under the day's disease (`EdgesCurrent`), bounded countries settle, a country no active route touches ends at `ResolveStep` of `DayStart` of its old population, and one snapshot of the new state is appended |

## Left out

- The user interface (`ControladorAplicacion`), the timer, the speed setting `velocidad`, the colours (`getColorEstado`, `getColor`) and `obtenerMatrizVisualizacion`: display and event wiring only.
- `calcularDistancia`: the great-circle formula uses floating-point trigonometry. A route's distance is a parameter of `AddRoute`, assumed non-negative.
- `crearRutasAleatorias` and `actualizarMatrizDesdeUI`: both are driven by `Math.random` or by the interface.
- Worlds.World.constructor: builds the ten sample countries with no routes. The source's constructor also calls `crearRutasAleatorias` (script.js:269), whose random routes are not modelled.
- `obtenerPaisPorNombre`: it depends on Unicode `toLowerCase`, which has no counterpart here.
- Floating point: populations are whole persons and rates are exact reals. The ×1,000,000 conversion of `new Pais` is not modelled; the total is given in persons.
- Simulations.Seed: the seed `Math.max(1000, total * 0.0001)` can be fractional in the source; the model uses total div 10000, the whole persons below it.
- `Math.random()`: the draws are the parameter stream `draws`. The model does not state anything about their distribution.
- Worlds.World.AddRoute and Worlds.World.RemoveRoute: both require the pair's ids to be inside the matrix. The source indexes the matrix by id, so an id at or beyond its size makes JavaScript throw; that failure is not modelled.
- Diseases.Disease.Evolve: the schedule (`OnSchedule`) is only promised for one-day steps. That is the only step `avanzarUnDia` takes.
- Simulations.Simulation.AdvanceOneDay: the graph's nodes it leaves behind describe the countries as they were before the day's spread, so only the edge half (`EdgesCurrent`) is promised after a day. A country some edge touches is only promised to settle.
- Simulations.Simulation.SpreadAcross: the per-edge effect is stated by `SpreadAlong`. For a country some edge touches, the whole loop only promises that it settles, not the exact sequence of draws.
- Simulations.Simulation.SpreadAndResolve: for a country some edge touches, only settling is promised; its exact population depends on the draws, stated edge by edge by `SpreadAlong`.
- Simulations.Simulation.Day: as for `SpreadAndResolve`, a country some edge touches is only promised to settle.
- Simulations.Simulation.RunDay: as for `SpreadAndResolve`, a country some edge touches is only promised to settle.
- Simulations.Simulation.CrossAndResolve: as for `SpreadAndResolve`, a country some edge touches is only promised to settle.
- `configuracion.velocidad` and `diasParaTodas` are never read by the engine's logic and have no counterpart.
- Country.FactorCurrent is not part of a country's invariant. After `UpdateState` the factor is the one last computed, as in the source; `RecomputeFactor` and the measure methods restore it.
- The default arguments `trafico = 0.5` of `agregarRuta` and `new RutaTransmision`, and `distancia = 1000` of `new RutaTransmision` (script.js:109, 320): `NewRoute` and `AddRoute` take both explicitly. `agregarRuta` always passes the distance it computes, so the distance default is never used by the engine.
- `aplicarConfiguracionEnfermedad` and `reiniciarSimulacion` read the configuration form. The origin's hand-set `estadoInfeccioso` (script.js:927) is admitted by `World.ValidBut`, which the simulation constructor requires. Their effect on the disease is admitted by `Disease.Valid`: any rate and any selection of modes without repeats. A mortality outside [0, 100] percent or fewer than one day to recover is not admitted, because the day step divides by the recovery time and needs deaths within the resolved count.
