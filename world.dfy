/**
 * The world `Mundo` (DiseaseTransmission/script.js:237-467): the list of countries, the
 * id-keyed country table, the adjacency matrix indexed by list position, the route table
 * keyed by the unordered pair of endpoints (in insertion order), and the list of routes.
 */
module Worlds {
  import opened Wrappers
  import opened Countries
  import opened Routes

  // ---------------------------------------------------------------------------
  // The adjacency matrix
  // ---------------------------------------------------------------------------

  /** `n` rows of `n` cells each. */
  predicate Square(m: seq<seq<int>>, n: int) {
    |m| == n && forall i :: 0 <= i < |m| ==> |m[i]| == n
  }

  /** An undirected graph: the matrix is symmetric and every cell is 0 or 1. */
  predicate Adjacency(m: seq<seq<int>>)
    requires Square(m, |m|)
  {
    forall i, j :: 0 <= i < |m| && 0 <= j < |m| ==> m[i][j] == m[j][i] && (m[i][j] == 0 || m[i][j] == 1)
  }

  /** `new Array(n).fill(0)`. */
  function Zeros(n: nat): seq<int> {
    seq(n, _ => 0)
  }

  /** The matrix after `agregarPais` (script.js:279-283): a 0 is pushed onto every row, then a zero row of length `n` is appended. */
  function Grown(m: seq<seq<int>>, n: nat): seq<seq<int>> {
    seq(|m|, i requires 0 <= i < |m| => m[i] + [0]) + [Zeros(n)]
  }

  /** The all-zero `n` x `n` matrix: a world whose countries have no routes. */
  function ZeroMatrix(n: nat): (m: seq<seq<int>>)
    ensures Square(m, n) && Adjacency(m)
  {
    seq(n, _ => Zeros(n))
  }

  /** Growing the zero matrix by one country gives the next zero matrix. */
  lemma GrownZero(n: nat)
    ensures Grown(ZeroMatrix(n), n + 1) == ZeroMatrix(n + 1)
  {
    var g, z := Grown(ZeroMatrix(n), n + 1), ZeroMatrix(n + 1);
    forall i | 0 <= i < n + 1
      ensures g[i] == z[i]
    {
      if i < n {
        assert g[i] == Zeros(n) + [0];
      }
    }
  }

  /** Position `i` of a matrix with position `k` removed, as a position of the original matrix. */
  function Skip(i: int, k: int): int {
    if i < k then i else i + 1
  }

  /** The matrix after `eliminarPais` (script.js:297-301): row `k` is spliced out, then cell `k` of every remaining row. */
  function Shrunk(m: seq<seq<int>>, k: nat): seq<seq<int>>
    requires k < |m| && forall i :: 0 <= i < |m| ==> k < |m[i]|
  {
    var rows := m[..k] + m[k + 1..];
    seq(|rows|, i requires 0 <= i < |rows| => rows[i][..k] + rows[i][k + 1..])
  }

  /** `matriz[a][b] = v; matriz[b][a] = v` (script.js:342-343, 362-363). */
  function SetPair(m: seq<seq<int>>, a: nat, b: nat, v: int): seq<seq<int>>
    requires a < |m| && b < |m| && b < |m[a]| && a < |m[b]|
  {
    var first := m[a := m[a][b := v]];
    first[b := first[b][a := v]]
  }

  /** Adding a country keeps the matrix square, symmetric and 0/1, keeps every old cell, and connects the new country to nothing. */
  lemma GrownAdjacency(m: seq<seq<int>>)
    requires Square(m, |m|) && Adjacency(m)
    ensures Square(Grown(m, |m| + 1), |m| + 1) && Adjacency(Grown(m, |m| + 1))
    ensures forall i, j :: 0 <= i < |m| && 0 <= j < |m| ==> Grown(m, |m| + 1)[i][j] == m[i][j]
    ensures var g := Grown(m, |m| + 1); forall i :: 0 <= i <= |m| ==> g[i][|m|] == 0 && g[|m|][i] == 0
  {
  }

  /** Removing position `k` keeps the matrix square, symmetric and 0/1, and every other cell keeps its value. */
  lemma ShrunkAdjacency(m: seq<seq<int>>, k: nat)
    requires Square(m, |m|) && Adjacency(m) && k < |m|
    ensures Square(Shrunk(m, k), |m| - 1) && Adjacency(Shrunk(m, k))
    ensures forall i, j :: 0 <= i < |m| - 1 && 0 <= j < |m| - 1 ==> Shrunk(m, k)[i][j] == m[Skip(i, k)][Skip(j, k)]
  {
    var s := Shrunk(m, k);
    forall i | 0 <= i < |m| - 1
      ensures |s[i]| == |m| - 1
      ensures forall j :: 0 <= j < |m| - 1 ==> s[i][j] == m[Skip(i, k)][Skip(j, k)]
    {
      var row := m[Skip(i, k)];
      assert s[i] == row[..k] + row[k + 1..];
    }
  }

  /** Setting a pair of distinct cells keeps the matrix an adjacency matrix and changes nothing else. */
  lemma SetPairAdjacency(m: seq<seq<int>>, a: nat, b: nat, v: int)
    requires Square(m, |m|) && Adjacency(m) && a < |m| && b < |m| && a != b && (v == 0 || v == 1)
    ensures Square(SetPair(m, a, b, v), |m|) && Adjacency(SetPair(m, a, b, v))
    ensures SetPair(m, a, b, v)[a][b] == v && SetPair(m, a, b, v)[b][a] == v
    ensures forall i, j :: 0 <= i < |m| && 0 <= j < |m| && (i, j) != (a, b) && (i, j) != (b, a) ==>
      SetPair(m, a, b, v)[i][j] == m[i][j]
  {
  }

  // ---------------------------------------------------------------------------
  // Route keys in insertion order
  // ---------------------------------------------------------------------------

  /** The elements of a sequence of keys, as a set. */
  function Elements(ks: seq<RouteKey>): set<RouteKey> {
    set k | k in ks
  }

  /** The insertion order of a `Map` after deleting the keys in `drop`: the others keep their order. */
  function Without(ks: seq<RouteKey>, drop: set<RouteKey>): seq<RouteKey> {
    if ks == [] then []
    else
      var last := ks[|ks| - 1];
      Without(ks[..|ks| - 1], drop) + (if last in drop then [] else [last])
  }

  /** A key survives the deletion exactly when it was there and not deleted, and no key comes to appear twice. */
  lemma {:induction false} WithoutMembers(ks: seq<RouteKey>, drop: set<RouteKey>)
    ensures forall k :: k in Without(ks, drop) <==> k in ks && k !in drop
    ensures Distinct(ks) ==> Distinct(Without(ks, drop))
  {
    if ks != [] {
      var init, last := ks[..|ks| - 1], ks[|ks| - 1];
      WithoutMembers(init, drop);
      assert forall k :: k in ks <==> k in init || k == last;
    }
  }

  /** Deleting no key keeps the order as it is. */
  lemma {:induction false} WithoutNothing(ks: seq<RouteKey>)
    ensures Without(ks, {}) == ks
  {
    if ks != [] {
      WithoutNothing(ks[..|ks| - 1]);
    }
  }

  lemma ElementsSnoc(s: seq<RouteKey>, j: int)
    requires 0 <= j < |s|
    ensures Elements(s[..j + 1]) == Elements(s[..j]) + {s[j]}
  {
    assert s[..j + 1] == s[..j] + [s[j]];
  }

  /** Deleting two batches of keys one after the other is deleting their union. */
  lemma {:induction false} WithoutTwice(ks: seq<RouteKey>, first: set<RouteKey>, second: set<RouteKey>)
    ensures Without(Without(ks, first), second) == Without(ks, first + second)
  {
    if ks != [] {
      var init, last := ks[..|ks| - 1], ks[|ks| - 1];
      WithoutTwice(init, first, second);
      var once := Without(init, first) + (if last in first then [] else [last]);
      assert Without(ks, first) == once;
      if last !in first {
        assert once[..|once| - 1] == Without(init, first);
      } else {
        assert once == Without(init, first);
      }
    }
  }

  /** The route touches the country: `ruta.idOrigen === id || ruta.idDestino === id`. */
  predicate Touches(r: Route, id: int) {
    r.origin == id || r.destination == id
  }

  /** The keys of the stored routes that touch `id`. */
  function TouchingSet(table: map<RouteKey, Route>, id: int): set<RouteKey> {
    set k | k in table && Touches(table[k], id)
  }

  /** The keys, in order, whose routes touch `id` (the `rutasAEliminar` list, script.js:304-309). */
  function TouchingKeys(ks: seq<RouteKey>, table: map<RouteKey, Route>, id: int): (r: seq<RouteKey>)
    requires forall k :: k in ks ==> k in table
    ensures forall k :: k in r <==> k in ks && Touches(table[k], id)
  {
    if ks == [] then []
    else
      var last := ks[|ks| - 1];
      TouchingKeys(ks[..|ks| - 1], table, id) + (if Touches(table[last], id) then [last] else [])
  }

  /** `Array.from(tablaRutas.values())`: the stored routes in key order. */
  function TableValues(ks: seq<RouteKey>, table: map<RouteKey, Route>): (vs: seq<Route>)
    requires forall k :: k in ks ==> k in table
    ensures |vs| == |ks| && forall i :: 0 <= i < |ks| ==> vs[i] == table[ks[i]]
  {
    if ks == [] then [] else TableValues(ks[..|ks| - 1], table) + [table[ks[|ks| - 1]]]
  }

  /** A table entry: stored under the key of its endpoints, origin the smaller id, well formed and active. */
  predicate StoredUnder(k: RouteKey, r: Route) {
    k.low < k.high && r.origin == k.low && r.destination == k.high && WellFormed(r) && r.active
  }

  // ---------------------------------------------------------------------------
  // Routes seen from one country
  // ---------------------------------------------------------------------------

  /** An entry of `obtenerRutasDesde`: the route, `direccion === 'salida'`, and `paisConectadoId`. */
  datatype Connection = Connection(route: Route, outgoing: bool, other: int)

  /** How a route that touches `id` is seen from `id`: leaving when `id` is its origin, and the country at the other end. */
  function Link(route: Route, id: int): Connection {
    var outgoing := route.origin == id;
    Connection(route, outgoing, if outgoing then route.destination else route.origin)
  }

  /** The entries `obtenerRutasDesde(paisId)` (script.js:378-395) collects from the stored routes, in table order. */
  function ConnectionsFrom(routes: seq<Route>, id: int): (r: seq<Connection>)
    ensures |r| <= |routes|
    ensures forall c :: c in r ==>
      c.route in routes && c.route.active && Touches(c.route, id) &&
      (c.outgoing <==> c.route.origin == id) &&
      c.other == (if c.route.origin == id then c.route.destination else c.route.origin)
  {
    if routes == [] then []
    else
      var route := routes[|routes| - 1];
      var rest := ConnectionsFrom(routes[..|routes| - 1], id);
      assert forall x :: x in routes[..|routes| - 1] ==> x in routes;
      if Touches(route, id) && route.active then rest + [Link(route, id)] else rest
  }

  /** Every active route that touches `id` is reported, seen from `id`. */
  lemma {:induction false} ConnectionsComplete(routes: seq<Route>, id: int)
    ensures forall i :: 0 <= i < |routes| && routes[i].active && Touches(routes[i], id) ==>
      Link(routes[i], id) in ConnectionsFrom(routes, id)
  {
    if routes != [] {
      var init := routes[..|routes| - 1];
      ConnectionsComplete(init, id);
      assert forall i :: 0 <= i < |init| ==> init[i] == routes[i];
    }
  }

  // ---------------------------------------------------------------------------
  // The sample countries
  // ---------------------------------------------------------------------------

  /** One entry of `paisesEjemplo`, the population in persons. */
  datatype Sample = Sample(name: string, total: int, latitude: real, longitude: real)

  /** `paisesEjemplo` (script.js:251-262), with the populations multiplied out from millions. */
  const Samples: seq<Sample> := [
    Sample("México", 128900000, 23.6345, -102.5528),
    Sample("Colombia", 51520000, 4.5709, -74.2973),
    Sample("Argentina", 45810000, -38.4161, -63.6167),
    Sample("Brasil", 213990000, -14.2350, -51.9253),
    Sample("Chile", 19120000, -35.6751, -71.5429),
    Sample("Perú", 33720000, -9.1900, -75.0152),
    Sample("Estados Unidos", 331900000, 37.0902, -95.7129),
    Sample("España", 47350000, 40.4637, -3.7492),
    Sample("China", 1444220000, 35.8617, 104.1954),
    Sample("India", 1380000000, 20.5937, 78.9629)
  ]

  // ---------------------------------------------------------------------------
  // The world's invariant, on values
  // ---------------------------------------------------------------------------

  /**
   * The country list and the country table agree: ids are distinct and below the next id
   * to hand out, every listed country is stored under its id, and nothing else is stored.
   */
  predicate Indexed(cs: seq<Country>, table: map<int, Country>, next: int) {
    && 0 <= next
    && (forall i, j :: 0 <= i < j < |cs| ==> cs[i].id != cs[j].id)
    && (forall i :: 0 <= i < |cs| ==> 0 <= cs[i].id < next && cs[i].id in table && table[cs[i].id] == cs[i])
    && (forall id :: id in table ==> table[id] in cs && table[id].id == id)
  }

  /** Appending a country with the next id and storing it under that id keeps the list and table in step. */
  lemma IndexedAppend(cs: seq<Country>, table: map<int, Country>, next: int, c: Country)
    requires Indexed(cs, table, next) && c.id == next
    ensures Indexed(cs + [c], table[next := c], next + 1)
  {
    var stored := table[next := c];
    forall id | id in stored
      ensures stored[id] in cs + [c]
    {
      if id != next {
        var i :| 0 <= i < |cs| && cs[i] == table[id];
        assert (cs + [c])[i] == table[id];
      }
    }
  }

  /** Splicing out the country at `index` and deleting its id keeps the list and table in step. */
  lemma IndexedRemove(cs: seq<Country>, table: map<int, Country>, next: int, index: int)
    requires Indexed(cs, table, next) && 0 <= index < |cs|
    ensures Indexed(cs[..index] + cs[index + 1..], table - {cs[index].id}, next)
  {
    var rest, gone := cs[..index] + cs[index + 1..], cs[index].id;
    assert forall i :: 0 <= i < |rest| ==> rest[i] == cs[Skip(i, index)];
    forall id | id in table - {gone}
      ensures (table - {gone})[id] in rest
    {
      var i :| 0 <= i < |cs| && cs[i] == table[id];
      assert i != index;
      assert rest[if i < index then i else i - 1] == cs[i];
    }
  }

  /** The route table, its key order and the route list only mention known countries. */
  ghost predicate RoutesKnown(keys: seq<RouteKey>, table: map<RouteKey, Route>, routes: seq<Route>, ids: set<int>) {
    && Distinct(keys)
    && (forall k :: k in table <==> k in keys)
    && (forall k :: k in table ==> StoredUnder(k, table[k]) && k.low in ids && k.high in ids)
    && (forall r :: r in routes ==> StoredUnder(Key(r.origin, r.destination), r) && r.origin in ids && r.destination in ids)
  }

  /**
   * Deleting every route that touches `id` leaves a table, key order and rebuilt route list
   * that only mention the other countries.
   */
  lemma RoutesAfterRemoval(keys: seq<RouteKey>, table: map<RouteKey, Route>, routes: seq<Route>, ids: set<int>, id: int)
    requires RoutesKnown(keys, table, routes, ids)
    ensures var gone := TouchingSet(table, id);
      var rest, order := table - gone, Without(keys, gone);
      && (forall k :: k in order ==> k in rest)
      && RoutesKnown(order, rest, TableValues(order, rest), ids - {id})
      && (forall k :: k in rest ==> !Touches(rest[k], id))
  {
    var gone := TouchingSet(table, id);
    var rest, order := table - gone, Without(keys, gone);
    WithoutMembers(keys, gone);
    var values := TableValues(order, rest);
    forall r | r in values
      ensures StoredUnder(Key(r.origin, r.destination), r) && r.origin in ids - {id} && r.destination in ids - {id}
    {
      var i :| 0 <= i < |values| && values[i] == r;
      assert r == rest[order[i]];
    }
  }

  // ---------------------------------------------------------------------------
  // The loops of `agregarPais` and `eliminarPais`, on values
  // ---------------------------------------------------------------------------

  /** The matrix loop of `agregarPais` (script.js:279-283): a 0 onto every row, then a zero row of length `n`. */
  method Extend(m: seq<seq<int>>, n: nat) returns (rows: seq<seq<int>>)
    ensures rows == Grown(m, n)
  {
    rows := m;
    var i := 0;
    while i < |rows|
      invariant 0 <= i <= |rows| == |m|
      invariant forall j :: 0 <= j < i ==> rows[j] == m[j] + [0]
      invariant forall j :: i <= j < |rows| ==> rows[j] == m[j]
    {
      rows := rows[i := rows[i] + [0]];
      i := i + 1;
    }
    rows := rows + [Zeros(n)];
  }

  /** `paises.findIndex(p => p.id === id)` (script.js:290): the first position holding the id, or -1. */
  method FindIndex(cs: seq<Country>, id: int) returns (index: int)
    ensures -1 <= index < |cs|
    ensures index == -1 <==> forall i :: 0 <= i < |cs| ==> cs[i].id != id
    ensures index >= 0 ==> cs[index].id == id && forall i :: 0 <= i < index ==> cs[i].id != id
  {
    index := 0;
    while index < |cs| && cs[index].id != id
      invariant 0 <= index <= |cs|
      invariant forall j :: 0 <= j < index ==> cs[j].id != id
    {
      index := index + 1;
    }
    if index == |cs| {
      index := -1;
    }
  }

  /** Splicing row `index` out of the matrix and cell `index` out of every remaining row (script.js:297-301). */
  method SpliceOut(m: seq<seq<int>>, index: nat) returns (rows: seq<seq<int>>)
    requires index < |m| && forall i :: 0 <= i < |m| ==> index < |m[i]|
    ensures rows == Shrunk(m, index)
  {
    rows := m[..index] + m[index + 1..];
    var i := 0;
    while i < |rows|
      invariant 0 <= i <= |rows| == |m| - 1
      invariant forall j :: 0 <= j < i ==> rows[j] == m[Skip(j, index)][..index] + m[Skip(j, index)][index + 1..]
      invariant forall j :: i <= j < |rows| ==> rows[j] == m[Skip(j, index)]
    {
      rows := rows[i := rows[i][..index] + rows[i][index + 1..]];
      i := i + 1;
    }
  }

  /** The `tablaRutas.forEach` that collects the keys of the routes touching `id` (script.js:303-309). */
  method CollectTouching(keys: seq<RouteKey>, table: map<RouteKey, Route>, id: int) returns (doomed: seq<RouteKey>)
    requires forall k :: k in keys ==> k in table
    ensures doomed == TouchingKeys(keys, table, id)
  {
    doomed := [];
    var i := 0;
    while i < |keys|
      invariant 0 <= i <= |keys|
      invariant doomed == TouchingKeys(keys[..i], table, id)
    {
      assert keys[..i + 1][..i] == keys[..i];
      if Touches(table[keys[i]], id) {
        doomed := doomed + [keys[i]];
      }
      i := i + 1;
    }
    assert keys[..i] == keys;
  }

  /** The `rutasAEliminar.forEach(delete)` loop (script.js:311-313): the table loses the keys, the order keeps the rest. */
  method DeleteAll(keys: seq<RouteKey>, table: map<RouteKey, Route>, doomed: seq<RouteKey>)
    returns (order: seq<RouteKey>, rest: map<RouteKey, Route>)
    ensures rest == table - Elements(doomed) && order == Without(keys, Elements(doomed))
  {
    rest, order := table, keys;
    WithoutNothing(keys);
    ghost var deleted: set<RouteKey> := {};
    var j := 0;
    while j < |doomed|
      invariant 0 <= j <= |doomed|
      invariant deleted == Elements(doomed[..j])
      invariant rest == table - deleted
      invariant order == Without(keys, deleted)
    {
      ElementsSnoc(doomed, j);
      WithoutTwice(keys, deleted, {doomed[j]});
      rest := rest - {doomed[j]};
      order := Without(order, {doomed[j]});
      deleted := deleted + {doomed[j]};
      j := j + 1;
    }
    assert doomed[..j] == doomed;
  }

  /**
   * The route part of `eliminarPais` (script.js:303-315): collect the keys of the routes
   * touching `id`, delete them, and rebuild the route list from what is left.
   */
  method DropRoutesOf(keys: seq<RouteKey>, table: map<RouteKey, Route>, id: int)
    returns (order: seq<RouteKey>, rest: map<RouteKey, Route>, values: seq<Route>)
    requires forall k :: k in table <==> k in keys
    ensures var gone := TouchingSet(table, id);
      rest == table - gone && order == Without(keys, gone)
    ensures forall k :: k in order ==> k in rest
    ensures values == TableValues(order, rest)
  {
    var doomed := CollectTouching(keys, table, id);
    var gone := TouchingSet(table, id);
    assert Elements(doomed) == gone;
    order, rest := DeleteAll(keys, table, doomed);
    WithoutMembers(keys, gone);
    values := TableValues(order, rest);
  }

  /**
   * The world's invariant on the values of its fields: the country list and table agree,
   * the matrix is a square adjacency matrix over list positions, and the routes only
   * mention known countries.
   */
  ghost predicate Consistent(cs: seq<Country>, table: map<int, Country>, next: int, m: seq<seq<int>>,
                             keys: seq<RouteKey>, stored: map<RouteKey, Route>, routes: seq<Route>) {
    Indexed(cs, table, next) && Square(m, |cs|) && Adjacency(m) && RoutesKnown(keys, stored, routes, table.Keys)
  }

  /** `agregarPais` on the field values keeps the world consistent. */
  lemma ConsistentAfterAdd(cs: seq<Country>, table: map<int, Country>, next: int, m: seq<seq<int>>,
                           keys: seq<RouteKey>, stored: map<RouteKey, Route>, routes: seq<Route>, c: Country)
    requires Consistent(cs, table, next, m, keys, stored, routes) && c.id == next
    ensures Consistent(cs + [c], table[next := c], next + 1, Grown(m, |cs| + 1), keys, stored, routes)
  {
    IndexedAppend(cs, table, next, c);
    GrownAdjacency(m);
  }

  /** Every country of the list keeps its own invariant. */
  ghost predicate AllValid(cs: seq<Country>)
    reads cs
  {
    forall i :: 0 <= i < |cs| ==> cs[i].Valid()
  }

  lemma AllValidAppend(cs: seq<Country>, c: Country)
    requires AllValid(cs) && c.Valid()
    ensures AllValid(cs + [c])
  {
  }

  lemma AllValidRemove(cs: seq<Country>, index: int)
    requires AllValid(cs) && 0 <= index < |cs|
    ensures AllValid(cs[..index] + cs[index + 1..])
  {
    var rest := cs[..index] + cs[index + 1..];
    assert forall i :: 0 <= i < |rest| ==> rest[i] == cs[Skip(i, index)];
  }

  /** `eliminarPais` on the field values keeps the world consistent. */
  lemma ConsistentAfterRemoval(cs: seq<Country>, table: map<int, Country>, next: int, m: seq<seq<int>>,
                               keys: seq<RouteKey>, stored: map<RouteKey, Route>, routes: seq<Route>, index: int)
    requires Consistent(cs, table, next, m, keys, stored, routes) && 0 <= index < |cs|
    ensures var id := cs[index].id;
      var gone := TouchingSet(stored, id);
      var order, rest := Without(keys, gone), stored - gone;
      && (forall k :: k in order ==> k in rest)
      && Consistent(cs[..index] + cs[index + 1..], table - {id}, next, Shrunk(m, index),
                    order, rest, TableValues(order, rest))
      && (forall k :: k in rest ==> !Touches(rest[k], id))
  {
    var id := cs[index].id;
    IndexedRemove(cs, table, next, index);
    ShrunkAdjacency(m, index);
    RoutesAfterRemoval(keys, stored, routes, table.Keys, id);
    assert (table - {id}).Keys == table.Keys - {id};
  }

  /** The key order after `tablaRutas.set(k, ...)`: a new key goes last, an existing key keeps its place. */
  function Inserted(keys: seq<RouteKey>, k: RouteKey): seq<RouteKey> {
    if k in keys then keys else keys + [k]
  }

  /** Storing a route between two known countries under its key keeps the routes known. */
  lemma RoutesAfterSet(keys: seq<RouteKey>, table: map<RouteKey, Route>, routes: seq<Route>, ids: set<int>,
                       k: RouteKey, r: Route)
    requires RoutesKnown(keys, table, routes, ids) && StoredUnder(k, r) && k.low in ids && k.high in ids
    ensures RoutesKnown(Inserted(keys, k), table[k := r], routes + [r], ids)
  {
    assert Key(r.origin, r.destination) == k;
  }

  /** Deleting one key keeps the routes known, with the route list rebuilt from the table. */
  lemma RoutesAfterDelete(keys: seq<RouteKey>, table: map<RouteKey, Route>, routes: seq<Route>, ids: set<int>,
                          k: RouteKey)
    requires RoutesKnown(keys, table, routes, ids)
    ensures forall x :: x in Without(keys, {k}) <==> x in table - {k}
    ensures RoutesKnown(Without(keys, {k}), table - {k}, TableValues(Without(keys, {k}), table - {k}), ids)
  {
    var rest, order := table - {k}, Without(keys, {k});
    WithoutMembers(keys, {k});
    var values := TableValues(order, rest);
    forall r | r in values
      ensures StoredUnder(Key(r.origin, r.destination), r) && r.origin in ids && r.destination in ids
    {
      var i :| 0 <= i < |values| && values[i] == r;
      assert r == rest[order[i]];
    }
  }

  /** `agregarRuta` on the field values keeps the world consistent. */
  lemma ConsistentAfterSet(cs: seq<Country>, table: map<int, Country>, next: int, m: seq<seq<int>>,
                           keys: seq<RouteKey>, stored: map<RouteKey, Route>, routes: seq<Route>, k: RouteKey, r: Route)
    requires Consistent(cs, table, next, m, keys, stored, routes)
    requires StoredUnder(k, r) && k.low in table && k.high in table && 0 <= k.low && k.high < |m|
    ensures Consistent(cs, table, next, SetPair(m, k.low, k.high, 1), Inserted(keys, k), stored[k := r], routes + [r])
  {
    RoutesAfterSet(keys, stored, routes, table.Keys, k, r);
    SetPairAdjacency(m, k.low, k.high, 1);
  }

  /** `eliminarRuta` on the field values keeps the world consistent. */
  lemma ConsistentAfterDelete(cs: seq<Country>, table: map<int, Country>, next: int, m: seq<seq<int>>,
                              keys: seq<RouteKey>, stored: map<RouteKey, Route>, routes: seq<Route>, k: RouteKey)
    requires Consistent(cs, table, next, m, keys, stored, routes)
    requires k in stored && k.high < |m|
    ensures forall x :: x in Without(keys, {k}) ==> x in stored - {k}
    ensures Consistent(cs, table, next, SetPair(m, k.low, k.high, 0), Without(keys, {k}), stored - {k},
                       TableValues(Without(keys, {k}), stored - {k}))
  {
    RoutesAfterDelete(keys, stored, routes, table.Keys, k);
    SetPairAdjacency(m, k.low, k.high, 0);
  }

  // ---------------------------------------------------------------------------
  // The matrix against the route table
  // ---------------------------------------------------------------------------

  /**
   * The matrix and the route table describe the same graph, the matrix read by list
   * position: the cell of positions i and j is 1 exactly when a route is stored under the
   * key of the ids at those positions.
   */
  predicate Synced(ids: seq<int>, m: seq<seq<int>>, table: map<RouteKey, Route>)
    requires Square(m, |ids|)
  {
    forall i, j :: 0 <= i < |ids| && 0 <= j < |ids| ==> (m[i][j] == 1 <==> Key(ids[i], ids[j]) in table)
  }

  /** Every id sits at its own position, so a matrix index that is an id is also a position. */
  predicate Dense(ids: seq<int>) {
    forall i :: 0 <= i < |ids| ==> ids[i] == i
  }

  /** `agregarPais` (script.js:279-283) keeps the two in step: the new id has no routes yet. */
  lemma SyncedAfterGrow(ids: seq<int>, m: seq<seq<int>>, table: map<RouteKey, Route>, id: int)
    requires Square(m, |ids|) && Synced(ids, m, table)
    requires forall k :: k in table ==> k.low != id && k.high != id
    ensures Square(Grown(m, |ids| + 1), |ids| + 1) && Synced(ids + [id], Grown(m, |ids| + 1), table)
  {
    var g, ids' := Grown(m, |ids| + 1), ids + [id];
    forall i, j | 0 <= i < |ids'| && 0 <= j < |ids'|
      ensures g[i][j] == 1 <==> Key(ids'[i], ids'[j]) in table
    {
      KeyCanonical(ids'[i], ids'[j], ids'[i], ids'[j]);
      if i < |ids| && j < |ids| {
        assert g[i][j] == m[i][j];
      }
    }
  }

  /**
   * `eliminarPais` (script.js:297-312) keeps the two in step, read by position: the row and
   * column of the country go, and so does every route touching it.
   */
  lemma SyncedAfterShrink(ids: seq<int>, m: seq<seq<int>>, table: map<RouteKey, Route>, k: nat)
    requires Square(m, |ids|) && Adjacency(m) && Synced(ids, m, table) && Distinct(ids) && k < |ids|
    requires forall key :: key in table ==> StoredUnder(key, table[key])
    ensures Square(Shrunk(m, k), |ids| - 1)
    ensures Synced(ids[..k] + ids[k + 1..], Shrunk(m, k), table - TouchingSet(table, ids[k]))
  {
    ShrunkAdjacency(m, k);
    var s, ids', rest := Shrunk(m, k), ids[..k] + ids[k + 1..], table - TouchingSet(table, ids[k]);
    forall i, j | 0 <= i < |ids'| && 0 <= j < |ids'|
      ensures s[i][j] == 1 <==> Key(ids'[i], ids'[j]) in rest
    {
      var a, b := ids[Skip(i, k)], ids[Skip(j, k)];
      assert ids'[i] == a && ids'[j] == b;
      assert a != ids[k] && b != ids[k];
      KeyCanonical(a, b, a, b);
      var key := Key(a, b);
      if key in table {
        assert !Touches(table[key], ids[k]);
      }
    }
  }

  /** `agregarRuta` (script.js:342-347) keeps the two in step while ids are positions. */
  lemma SyncedAfterLink(ids: seq<int>, m: seq<seq<int>>, table: map<RouteKey, Route>, k: RouteKey, r: Route)
    requires Square(m, |ids|) && Synced(ids, m, table) && Dense(ids) && 0 <= k.low < k.high < |ids|
    ensures Square(SetPair(m, k.low, k.high, 1), |ids|) && Synced(ids, SetPair(m, k.low, k.high, 1), table[k := r])
  {
    var s := SetPair(m, k.low, k.high, 1);
    forall i, j | 0 <= i < |ids| && 0 <= j < |ids|
      ensures s[i][j] == 1 <==> Key(ids[i], ids[j]) in table[k := r]
    {
      KeyCanonical(i, j, k.low, k.high);
      assert Key(k.low, k.high) == k;
    }
  }

  /** `eliminarRuta` (script.js:358-364) keeps the two in step while ids are positions. */
  lemma SyncedAfterUnlink(ids: seq<int>, m: seq<seq<int>>, table: map<RouteKey, Route>, k: RouteKey)
    requires Square(m, |ids|) && Synced(ids, m, table) && Dense(ids) && 0 <= k.low < k.high < |ids|
    ensures Square(SetPair(m, k.low, k.high, 0), |ids|) && Synced(ids, SetPair(m, k.low, k.high, 0), table - {k})
  {
    var s := SetPair(m, k.low, k.high, 0);
    forall i, j | 0 <= i < |ids| && 0 <= j < |ids|
      ensures s[i][j] == 1 <==> Key(ids[i], ids[j]) in table - {k}
    {
      KeyCanonical(i, j, k.low, k.high);
      assert Key(k.low, k.high) == k;
    }
  }

  /**
   * Once ids are no longer positions the two drift apart. Countries 0 to 3 with no routes,
   * country 0 removed: ids 1, 2 and 3 sit at positions 0, 1 and 2, still in step. A route
   * between 1 and 2 then marks cells [1][2] and [2][1], which by position belong to the
   * pair 2-3, and leaves the cell of the pair 1-2 at 0.
   */
  lemma StaleIdsBreakSync(r: Route)
    ensures Dense([0, 1, 2, 3]) && Synced([0, 1, 2, 3], ZeroMatrix(4), map[])
    ensures Synced([1, 2, 3], Shrunk(ZeroMatrix(4), 0), map[])
    ensures !Synced([1, 2, 3], SetPair(Shrunk(ZeroMatrix(4), 0), 1, 2, 1), map[Key(1, 2) := r])
  {
    var m := Shrunk(ZeroMatrix(4), 0);
    ShrunkAdjacency(ZeroMatrix(4), 0);
    assert m[1][2] == 0;
    var s, ids := SetPair(m, 1, 2, 1), [1, 2, 3];
    assert Key(ids[1], ids[2]) == RouteKey(2, 3) != RouteKey(1, 2) == Key(1, 2);
    assert s[1][2] == 1 && Key(ids[1], ids[2]) !in map[Key(1, 2) := r];
  }

  // ---------------------------------------------------------------------------
  // The world
  // ---------------------------------------------------------------------------

  class World {
    /** `paises`. */
    var countries: seq<Country>
    /** `rutas`: every route ever added, until a removal rebuilds it from the table. */
    var routes: seq<Route>
    /** `matrizAdyacencia`, indexed by position in `countries`. */
    var matrix: seq<seq<int>>
    /** `tablaPaises`. */
    var countryTable: map<int, Country>
    /** The insertion order of `tablaRutas`. */
    var routeKeys: seq<RouteKey>
    /** `tablaRutas`. */
    var routeTable: map<RouteKey, Route>
    /** `idCounter`: the next id to hand out. */
    var idCounter: int

    /**
     * Ids are distinct and below the counter, the country table indexes exactly the listed
     * countries by id, every country is valid, the matrix is a square adjacency matrix over
     * list positions, and every stored or listed route joins two known countries.
     */
    ghost predicate Valid()
      reads this, countries
    {
      && Consistent(countries, countryTable, idCounter, matrix, routeKeys, routeTable, routes)
      && AllValid(countries)
    }

    /**
     * `Valid`, except that the country with id `origin` may carry any state: what
     * `reiniciarSimulacion` hands to a new simulation after setting the origin's
     * `estadoInfeccioso` by hand (script.js:927).
     */
    ghost predicate ValidBut(origin: Option<int>)
      reads this, countries
    {
      && Consistent(countries, countryTable, idCounter, matrix, routeKeys, routeTable, routes)
      && forall i :: 0 <= i < |countries| ==>
           countries[i].Sound() && (origin != Some(countries[i].id) ==> countries[i].Valid())
    }

    /**
     * `new Mundo()` (script.js:238-248) with `inicializarPaisesEjemplo` (script.js:250-270)
     * but without its random routes: `agregarPais` for each sample in order, so the samples
     * get ids 0 to 9 and the matrix is ten by ten zeros.
     */
    constructor ()
      ensures Valid()
      ensures |countries| == |Samples| && idCounter == |Samples|
      ensures forall i :: 0 <= i < |Samples| ==>
        var c := countries[i];
        c.id == i && c.name == Samples[i].name && c.latitude == Samples[i].latitude && c.longitude == Samples[i].longitude
      ensures matrix == ZeroMatrix(|Samples|)
      ensures routes == [] && routeKeys == [] && routeTable == map[]
    {
      countries, routes, matrix := [], [], [];
      countryTable, routeKeys, routeTable := map[], [], map[];
      idCounter := 0;
      new;
      var i := 0;
      while i < |Samples|
        invariant 0 <= i <= |Samples|
        invariant Valid()
        invariant |countries| == i && idCounter == i
        invariant forall j :: 0 <= j < i ==>
          var c := countries[j];
          c.id == j && c.name == Samples[j].name && c.latitude == Samples[j].latitude && c.longitude == Samples[j].longitude
        invariant matrix == ZeroMatrix(i)
        invariant routes == [] && routeKeys == [] && routeTable == map[]
      {
        var s := Samples[i];
        var c := AddCountry(s.name, s.total, s.latitude, s.longitude);
        GrownZero(i);
        i := i + 1;
      }
    }

    /** `agregarPais` (script.js:272-287): the next id, a fresh healthy country, and a matrix one row and column larger. */
    method AddCountry(name: string, total: int, latitude: real, longitude: real) returns (c: Country)
      requires Valid() && total > 0
      modifies this
      ensures Valid() && fresh(c)
      ensures c.id == old(idCounter) && idCounter == old(idCounter) + 1
      ensures c.name == name && c.latitude == latitude && c.longitude == longitude
      ensures c.pop == Population(total, total, 0, 0, 0) && c.measures == []
      ensures countries == old(countries) + [c] && countryTable == old(countryTable)[c.id := c]
      ensures matrix == Grown(old(matrix), |countries|)
      ensures unchanged(this`routes, this`routeKeys, this`routeTable)
      ensures unchanged(old(countries))
    {
      var id := idCounter;
      c := new Country(id, name, total, latitude, longitude);
      ConsistentAfterAdd(countries, countryTable, idCounter, matrix, routeKeys, routeTable, routes, c);
      AllValidAppend(countries, c);
      var rows := Extend(matrix, |countries| + 1);
      countries, countryTable, idCounter, matrix := countries + [c], countryTable[id := c], idCounter + 1, rows;
    }

    /**
     * `eliminarPais` (script.js:289-318): false for an unknown id; otherwise the country
     * at the position holding the id is removed as `RemoveAt` describes.
     */
    method RemoveCountry(id: int) returns (removed: bool)
      requires Valid()
      modifies this
      ensures Valid()
      ensures removed <==> id in old(countryTable)
      ensures !removed ==> unchanged(this)
      ensures removed ==> exists index :: (0 <= index < |old(countries)| && old(countries)[index].id == id &&
        countries == old(countries)[..index] + old(countries)[index + 1..] && matrix == Shrunk(old(matrix), index))
      ensures removed ==> countryTable == old(countryTable) - {id} && idCounter == old(idCounter)
      ensures removed ==>
        var gone := TouchingSet(old(routeTable), id);
        routeTable == old(routeTable) - gone && routeKeys == Without(old(routeKeys), gone)
      ensures removed ==> routes == TableValues(routeKeys, routeTable)
      ensures forall k :: k in routeTable ==> !Touches(routeTable[k], id)
    {
      var index := FindIndex(countries, id);
      if index == -1 {
        assert id !in countryTable;
        return false;
      }
      RemoveAt(index);
      removed := true;
    }

    /**
     * The removal itself (script.js:292-315): the country leaves the list and the table,
     * its row and column leave the matrix, every route touching it leaves the route table,
     * and the route list is rebuilt from the table.
     */
    method RemoveAt(index: int)
      requires Valid() && 0 <= index < |countries|
      modifies this
      ensures Valid()
      ensures var id := old(countries[index].id);
        && countries == old(countries)[..index] + old(countries)[index + 1..]
        && countryTable == old(countryTable) - {id} && idCounter == old(idCounter)
        && matrix == Shrunk(old(matrix), index)
        && routeTable == old(routeTable) - TouchingSet(old(routeTable), id)
        && routeKeys == Without(old(routeKeys), TouchingSet(old(routeTable), id))
        && routes == TableValues(routeKeys, routeTable)
        && (forall k :: k in routeTable ==> !Touches(routeTable[k], id))
    {
      var id := countries[index].id;
      ConsistentAfterRemoval(countries, countryTable, idCounter, matrix, routeKeys, routeTable, routes, index);
      AllValidRemove(countries, index);
      var remaining := countries[..index] + countries[index + 1..];
      var rows := SpliceOut(matrix, index);
      var order, rest, values := DropRoutesOf(routeKeys, routeTable, id);
      countries, countryTable, matrix, routeKeys, routeTable, routes := remaining, countryTable - {id}, rows, order, rest, values;
    }

    /**
     * `agregarRuta` (script.js:320-350): nothing for an unknown endpoint or a loop; otherwise
     * a new route from the smaller id to the larger, stored under their key (replacing any
     * route already there), marked in both matrix cells and pushed onto the route list.
     * The distance, which the source computes from the coordinates, is a parameter.
     */
    method AddRoute(origin: int, destination: int, mode: Mode, traffic: real, distance: real) returns (r: Option<Route>)
      requires Valid() && mode.Proper() && distance >= 0.0
      requires origin in countryTable && destination in countryTable && origin != destination ==>
        origin < |matrix| && destination < |matrix|
      modifies this
      ensures Valid()
      ensures r.None? <==> origin !in old(countryTable) || destination !in old(countryTable) || origin == destination
      ensures r.None? ==> unchanged(this)
      ensures r.Some? ==> var k := Key(origin, destination);
        && r.value == NewRoute(k.low, k.high, mode, traffic, distance)
        && routeTable == old(routeTable)[k := r.value]
        && routeKeys == Inserted(old(routeKeys), k)
        && routes == old(routes) + [r.value]
        && matrix == SetPair(old(matrix), k.low, k.high, 1)
      ensures unchanged(this`countries, this`countryTable, this`idCounter)
    {
      if origin !in countryTable || destination !in countryTable || origin == destination {
        return None;
      }
      var k := Key(origin, destination);
      var route := NewRoute(k.low, k.high, mode, traffic, distance);
      Store(k, route);
      r := Some(route);
    }

    /**
     * The update itself (script.js:342-347): both matrix cells marked, the route stored
     * under its key and pushed onto the route list.
     */
    method Store(k: RouteKey, route: Route)
      requires Valid() && StoredUnder(k, route)
      requires k.low in countryTable && k.high in countryTable && 0 <= k.low && k.high < |matrix|
      modifies this
      ensures Valid()
      ensures && routeTable == old(routeTable)[k := route]
              && routeKeys == Inserted(old(routeKeys), k)
              && routes == old(routes) + [route]
              && matrix == SetPair(old(matrix), k.low, k.high, 1)
      ensures unchanged(this`countries, this`countryTable, this`idCounter)
    {
      ConsistentAfterSet(countries, countryTable, idCounter, matrix, routeKeys, routeTable, routes, k, route);
      matrix, routeTable, routeKeys, routes :=
        SetPair(matrix, k.low, k.high, 1), routeTable[k := route], Inserted(routeKeys, k), routes + [route];
    }

    /**
     * `eliminarRuta` (script.js:352-368): false when no route joins the pair; otherwise the
     * route under the pair's key is removed as `RemoveKey` describes.
     */
    method RemoveRoute(a: int, b: int) returns (removed: bool)
      requires Valid()
      requires Key(a, b) in routeTable ==> Key(a, b).high < |matrix|
      modifies this
      ensures Valid()
      ensures removed <==> Key(a, b) in old(routeTable)
      ensures !removed ==> unchanged(this)
      ensures removed ==> var k := Key(a, b);
        && routeTable == old(routeTable) - {k}
        && routeKeys == Without(old(routeKeys), {k})
        && routes == TableValues(routeKeys, routeTable)
        && matrix == SetPair(old(matrix), k.low, k.high, 0)
      ensures unchanged(this`countries, this`countryTable, this`idCounter)
    {
      var k := Key(a, b);
      if k !in routeTable {
        return false;
      }
      RemoveKey(k);
      removed := true;
    }

    /**
     * The removal itself (script.js:357-364): the route leaves the table and its key the
     * order, both matrix cells are cleared, and the route list is rebuilt from the table.
     */
    method RemoveKey(k: RouteKey)
      requires Valid() && k in routeTable && k.high < |matrix|
      modifies this
      ensures Valid()
      ensures && routeTable == old(routeTable) - {k}
              && routeKeys == Without(old(routeKeys), {k})
              && routes == TableValues(routeKeys, routeTable)
              && matrix == SetPair(old(matrix), k.low, k.high, 0)
      ensures unchanged(this`countries, this`countryTable, this`idCounter)
    {
      ConsistentAfterDelete(countries, countryTable, idCounter, matrix, routeKeys, routeTable, routes, k);
      var order, rest := Without(routeKeys, {k}), routeTable - {k};
      matrix, routeTable, routeKeys, routes := SetPair(matrix, k.low, k.high, 0), rest, order, TableValues(order, rest);
    }

    /** `obtenerPaisPorId` (script.js:374-376): the country stored under `id`, if any. */
    function CountryById(id: int): (c: Option<Country>)
      requires Valid()
      reads this, countries
      ensures c.Some? <==> exists i :: 0 <= i < |countries| && countries[i].id == id
      ensures c.Some? ==> c.value in countries && c.value.id == id
    {
      if id in countryTable then Some(countryTable[id]) else None
    }

    /**
     * `obtenerRutasDesde` (script.js:378-395), also `obtenerRutasConectadas` (script.js:397-399):
     * the loop over the route table, collecting every active route that touches `id`.
     */
    method RoutesFrom(id: int) returns (r: seq<Connection>)
      requires Valid()
      ensures r == ConnectionsFrom(TableValues(routeKeys, routeTable), id)
    {
      r := [];
      var j := 0;
      while j < |routeKeys|
        invariant 0 <= j <= |routeKeys|
        invariant r == ConnectionsFrom(TableValues(routeKeys[..j], routeTable), id)
      {
        var route := routeTable[routeKeys[j]];
        assert routeKeys[..j + 1][..j] == routeKeys[..j];
        if Touches(route, id) && route.active {
          r := r + [Link(route, id)];
        }
        j := j + 1;
      }
      assert routeKeys[..j] == routeKeys;
    }
  }
}
