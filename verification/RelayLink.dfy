/** How the objects of the relayer stand for a state of the machine. A `World` is what the heap
    holds; its `table` lists every route message in the order of creation, so that an object's
    place there is its identity in the machine. */
module RelayLink {
  import opened RelayTypes
  import opened RelayObjects
  import opened Engine
  import opened EngineIdentity
  import opened StoreRefinement
  import Lvldb

  type Cache = map<MessageKey, RouteMessage>

  /** `go r.RouteMessage(ctx, message, dst, src)`, the runtimes given by name. */
  datatype Goroutine = Goroutine(message: RouteMessage, dst: Nid, src: Nid)

  datatype World = World(
    table: seq<RouteMessage>, routes: seq<Route>, caches: map<Nid, Cache>, goroutines: seq<Goroutine>,
    db: map<string, Lvldb.Value>, blocks: map<Nid, uint64>, heights: map<Nid, uint64>, clock: int)

  ghost predicate Distinct(table: seq<RouteMessage>) {
    forall i, j :: 0 <= i < j < |table| ==> table[i] != table[j] && table[i].sn != table[j].sn
  }

  ghost predicate ObjectsAgree(table: seq<RouteMessage>, routes: seq<Route>, objs: seq<Entry>) {
    && |table| == |routes| == |objs|
    && (forall i :: 0 <= i < |table| ==>
          && routes[i] == objs[i].route && objs[i].sn == i
          && table[i].message == routes[i].msg && table[i].sn.value == table[i].message.sn)
  }

  /** The object is in this cache under its own key. */
  predicate Holds(cache: Cache, r: RouteMessage) {
    r.Key() in cache && cache[r.Key()] == r
  }

  /** One runtime's cache holds exactly the objects the machine has filed there. */
  ghost predicate CacheAgrees(nid: Nid, cache: Cache, table: seq<RouteMessage>, s: State) {
    && (forall k <- cache :: cache[k].Key() == k && cache[k] in table)
    && (forall i :: 0 <= i < |table| ==>
          (Holds(cache, table[i]) <==> Cached(s, i) && s.objs[i].home == nid))
  }

  ghost predicate CachesAgree(caches: map<Nid, Cache>, table: seq<RouteMessage>, s: State) {
    forall nid <- caches :: CacheAgrees(nid, caches[nid], table, s)
  }

  /** The goroutines are the machine's, each with its object and the runtimes it was started with. */
  ghost predicate GoroutinesAgree(c: Config, goroutines: seq<Goroutine>, table: seq<RouteMessage>, s: State) {
    && |goroutines| == |s.tasks| && |table| == |s.objs|
    && forall t :: 0 <= t < |goroutines| ==>
         && s.tasks[t].ref < |table|
         && goroutines[t].message == table[s.tasks[t].ref]
         && goroutines[t].src == s.objs[s.tasks[t].ref].home
         && goroutines[t].dst == goroutines[t].message.message.dst
         && goroutines[t].src in c.finality && goroutines[t].dst in c.finality
  }

  ghost predicate HeightsAgree(heights: map<Nid, uint64>, s: State) {
    forall nid <- heights :: HeightOf(s, nid) == heights[nid]
  }

  ghost predicate Agrees(c: Config, w: World, s: State) {
    match w
    case World(table, routes, caches, goroutines, db, blocks, heights, clock) =>
      && caches.Keys == heights.Keys == c.finality.Keys
      && Distinct(table) && ObjectsAgree(table, routes, s.objs)
      && (forall i :: 0 <= i < |s.objs| ==> s.objs[i].home in c.finality)
      && CachesAgree(caches, table, s)
      && GoroutinesAgree(c, goroutines, table, s)
      && Represents(db, View(s.messages, s.txs, blocks))
      && HeightsAgree(heights, s)
      && clock == s.now
  }

  // ----- Filing

  /** The two states file the same objects at the same places. */
  ghost predicate SameFiling(s: State, s': State) {
    && |s'.objs| == |s.objs| && s'.cache == s.cache
    && (forall i :: 0 <= i < |s.objs| ==> SlotOf(s'.objs[i]) == SlotOf(s.objs[i]))
  }

  lemma CacheKept(nid: Nid, cache: Cache, table: seq<RouteMessage>, s: State, s': State)
    requires CacheAgrees(nid, cache, table, s) && |table| == |s.objs| && SameFiling(s, s')
    ensures CacheAgrees(nid, cache, table, s')
  {
    assert forall i :: 0 <= i < |s.objs| ==> SlotOf(s'.objs[i]).home == s'.objs[i].home;
  }

  /** A new object that is not filed yet. */
  lemma CacheAfterNew(nid: Nid, cache: Cache, table: seq<RouteMessage>, s: State, r: RouteMessage, e: Entry, s': State)
    requires CacheAgrees(nid, cache, table, s) && |table| == |s.objs| && KeysOwned(s)
    requires r !in table && e.sn == |s.objs| && s'.objs == s.objs + [e] && s'.cache == s.cache
    ensures CacheAgrees(nid, cache, table + [r], s')
  {
    var n := |table|;
    assert SlotOf(e) !in s.cache;
    forall i | 0 <= i < n + 1
      ensures Holds(cache, (table + [r])[i]) <==> Cached(s', i) && s'.objs[i].home == nid
    {
      if i < n {
        assert (table + [r])[i] == table[i];
        assert s'.objs[i] == s.objs[i];
      }
    }
  }

  lemma OthersStay(table: seq<RouteMessage>, s: State, r: nat, s': State)
    requires Distinct(table) && |table| == |s.objs| && r < |s.objs|
    requires forall i :: 0 <= i < |s.objs| ==> s.objs[i].sn == i
    requires s'.objs == s.objs && (s'.cache == Filed(s, s.objs[r], r) || s'.cache == Unfiled(s, r))
    ensures forall i :: 0 <= i < |table| && i != r ==> (Cached(s', i) <==> Cached(s, i)) && table[i].Key() != table[r].Key()
  {
    forall i | 0 <= i < |table| && i != r
      ensures (Cached(s', i) <==> Cached(s, i)) && table[i].Key() != table[r].Key()
    {
      assert SlotOf(s.objs[i]).key.sn == i && SlotOf(s.objs[r]).key.sn == r;
      assert if i < r then table[i].sn != table[r].sn else table[r].sn != table[i].sn;
      assert table[i].Key().sn != table[r].Key().sn;
    }
  }

  function AfterFile(nid: Nid, cache: Cache, home: Nid, r: RouteMessage): Cache {
    if home == nid then cache[r.Key() := r] else cache
  }

  lemma CacheAfterFile(nid: Nid, cache: Cache, table: seq<RouteMessage>, s: State, r: nat, s': State)
    requires CacheAgrees(nid, cache, table, s) && |table| == |s.objs| && Distinct(table)
    requires forall i :: 0 <= i < |s.objs| ==> s.objs[i].sn == i
    requires r < |s.objs| && s'.objs == s.objs && s'.cache == Filed(s, s.objs[r], r)
    ensures CacheAgrees(nid, AfterFile(nid, cache, s.objs[r].home, table[r]), table, s')
  {
    OthersStay(table, s, r, s');
    hide Distinct;
    assert Cached(s', r);
  }

  function AfterUnfile(nid: Nid, cache: Cache, home: Nid, r: RouteMessage): Cache {
    if home == nid then cache - {r.Key()} else cache
  }

  lemma CacheAfterUnfile(nid: Nid, cache: Cache, table: seq<RouteMessage>, s: State, r: nat, s': State)
    requires CacheAgrees(nid, cache, table, s) && |table| == |s.objs| && Distinct(table)
    requires forall i :: 0 <= i < |s.objs| ==> s.objs[i].sn == i
    requires r < |s.objs| && s'.objs == s.objs && s'.cache == Unfiled(s, r)
    ensures CacheAgrees(nid, AfterUnfile(nid, cache, s.objs[r].home, table[r]), table, s')
  {
    OthersStay(table, s, r, s');
    hide Distinct;
    assert !Cached(s', r);
  }

  // ----- Lifted to all runtimes

  lemma CachesKept(caches: map<Nid, Cache>, table: seq<RouteMessage>, s: State, s': State)
    requires CachesAgree(caches, table, s) && |table| == |s.objs| && SameFiling(s, s')
    ensures CachesAgree(caches, table, s')
  {
    forall nid | nid in caches ensures CacheAgrees(nid, caches[nid], table, s') {
      CacheKept(nid, caches[nid], table, s, s');
    }
  }

  lemma CachesAfterNew(caches: map<Nid, Cache>, table: seq<RouteMessage>, s: State, r: RouteMessage, e: Entry, s': State)
    requires CachesAgree(caches, table, s) && |table| == |s.objs| && KeysOwned(s)
    requires r !in table && e.sn == |s.objs| && s'.objs == s.objs + [e] && s'.cache == s.cache
    ensures CachesAgree(caches, table + [r], s')
  {
    forall nid | nid in caches ensures CacheAgrees(nid, caches[nid], table + [r], s') {
      CacheAfterNew(nid, caches[nid], table, s, r, e, s');
    }
  }

  function Put(caches: map<Nid, Cache>, nid: Nid, r: RouteMessage): map<Nid, Cache>
    requires nid in caches
  {
    caches[nid := caches[nid][r.Key() := r]]
  }

  function Drop(caches: map<Nid, Cache>, nid: Nid, r: RouteMessage): map<Nid, Cache>
    requires nid in caches
  {
    caches[nid := caches[nid] - {r.Key()}]
  }

  lemma CachesAfterFile(caches: map<Nid, Cache>, table: seq<RouteMessage>, s: State, r: nat, s': State)
    requires CachesAgree(caches, table, s) && |table| == |s.objs| && Distinct(table)
    requires forall i :: 0 <= i < |s.objs| ==> s.objs[i].sn == i
    requires r < |s.objs| && s'.objs == s.objs && s'.cache == Filed(s, s.objs[r], r) && s.objs[r].home in caches
    ensures CachesAgree(Put(caches, s.objs[r].home, table[r]), table, s')
  {
    hide CacheAgrees, Distinct;
    var after := Put(caches, s.objs[r].home, table[r]);
    forall nid | nid in after ensures CacheAgrees(nid, after[nid], table, s') {
      CacheAfterFile(nid, caches[nid], table, s, r, s');
    }
  }

  lemma CachesAfterUnfile(caches: map<Nid, Cache>, table: seq<RouteMessage>, s: State, r: nat, s': State)
    requires CachesAgree(caches, table, s) && |table| == |s.objs| && Distinct(table)
    requires forall i :: 0 <= i < |s.objs| ==> s.objs[i].sn == i
    requires r < |s.objs| && s'.objs == s.objs && s'.cache == Unfiled(s, r) && s.objs[r].home in caches
    ensures CachesAgree(Drop(caches, s.objs[r].home, table[r]), table, s')
  {
    hide CacheAgrees, Distinct;
    var after := Drop(caches, s.objs[r].home, table[r]);
    forall nid | nid in after ensures CacheAgrees(nid, after[nid], table, s') {
      CacheAfterUnfile(nid, caches[nid], table, s, r, s');
    }
  }

  lemma DistinctAppended(table: seq<RouteMessage>, r: RouteMessage)
    requires Distinct(table) && r !in table && forall x <- table :: r.sn != x.sn
    ensures Distinct(table + [r])
  {
  }

  lemma GoroutinesAfterNew(c: Config, goroutines: seq<Goroutine>, table: seq<RouteMessage>, s: State,
                           r: RouteMessage, e: Entry, s': State)
    requires GoroutinesAgree(c, goroutines, table, s) && s'.objs == s.objs + [e] && s'.tasks == s.tasks
    ensures GoroutinesAgree(c, goroutines, table + [r], s')
  {
  }

  lemma ObjectsAfterNew(table: seq<RouteMessage>, routes: seq<Route>, objs: seq<Entry>, r: RouteMessage, route: Route, e: Entry)
    requires ObjectsAgree(table, routes, objs) && e.route == route && e.sn == |objs|
    requires r.message == route.msg && r.sn.value == route.msg.sn
    ensures ObjectsAgree(table + [r], routes + [route], objs + [e])
  {
  }

  // ----- Elementary changes of the world and the steps they stand for

  /** `r` is new and fit to carry `route`. */
  ghost predicate FitsNew(w: World, r: RouteMessage, route: Route) {
    && r !in w.table && (forall x <- w.table :: r.sn != x.sn)
    && r.message == route.msg && r.sn.value == route.msg.sn
  }

  function WithNew(w: World, r: RouteMessage, route: Route): World {
    w.(table := w.table + [r], routes := w.routes + [route])
  }

  /** What agreement looks at apart from objects, filing and goroutines. */
  ghost predicate SameRest(s: State, s': State) {
    s'.messages == s.messages && s'.txs == s.txs && s'.heights == s.heights && s'.now == s.now
  }

  lemma AgreesNew(c: Config, w: World, s: State, r: RouteMessage, route: Route, e: Entry, s': State)
    requires Agrees(c, w, s) && KeysOwned(s) && FitsNew(w, r, route) && e.route == route && e.sn == |s.objs|
    requires e.home in c.finality
    requires s'.objs == s.objs + [e] && s'.cache == s.cache && s'.tasks == s.tasks && SameRest(s, s')
    ensures Agrees(c, WithNew(w, r, route), s')
  {
    hide KeysOwned, Distinct, ObjectsAgree, CachesAgree, GoroutinesAgree, Represents;
    DistinctAppended(w.table, r);
    ObjectsAfterNew(w.table, w.routes, s.objs, r, route, e);
    ObjectsCounted(w.table, w.routes, s.objs);
    CachesAfterNew(w.caches, w.table, s, r, e, s');
    GoroutinesAfterNew(c, w.goroutines, w.table, s, r, e, s');
  }

  lemma ObjectsCounted(table: seq<RouteMessage>, routes: seq<Route>, objs: seq<Entry>)
    requires ObjectsAgree(table, routes, objs)
    ensures |table| == |routes| == |objs| && forall i :: 0 <= i < |objs| ==> objs[i].sn == i
    ensures forall i :: 0 <= i < |objs| ==> routes[i] == objs[i].route && table[i].message == objs[i].route.msg
    ensures forall i :: 0 <= i < |objs| ==> table[i].sn.value == table[i].message.sn
  {
  }

  lemma AgreesFile(c: Config, w: World, s: State, r: nat, s': State)
    requires Agrees(c, w, s) && r < |s.objs|
    requires s'.objs == s.objs && s'.cache == Filed(s, s.objs[r], r) && s'.tasks == s.tasks && SameRest(s, s')
    ensures r < |w.table| && s.objs[r].home in w.caches && Agrees(c, w.(caches := Put(w.caches, s.objs[r].home, w.table[r])), s')
  {
    hide Distinct, ObjectsAgree, CachesAgree, Represents;
    ObjectsCounted(w.table, w.routes, s.objs);
    CachesAfterFile(w.caches, w.table, s, r, s');
  }

  lemma AgreesUnfile(c: Config, w: World, s: State, r: nat, s': State)
    requires Agrees(c, w, s) && r < |s.objs|
    requires s'.objs == s.objs && s'.cache == Unfiled(s, r) && s'.tasks == s.tasks && SameRest(s, s')
    ensures r < |w.table| && s.objs[r].home in w.caches && Agrees(c, w.(caches := Drop(w.caches, s.objs[r].home, w.table[r])), s')
  {
    hide Distinct, ObjectsAgree, CachesAgree, Represents;
    ObjectsCounted(w.table, w.routes, s.objs);
    CachesAfterUnfile(w.caches, w.table, s, r, s');
  }

  /** The objects keep their places and places in the caches; their routes may change. */
  lemma AgreesRoutes(c: Config, w: World, s: State, routes: seq<Route>, s': State)
    requires Agrees(c, w, s) && SameFiling(s, s') && SameRest(s, s')
    requires |s'.tasks| == |s.tasks| && forall t :: 0 <= t < |s.tasks| ==> s'.tasks[t].ref == s.tasks[t].ref
    requires |routes| == |s.objs| && forall i :: 0 <= i < |s.objs| ==>
      s'.objs[i].route == routes[i] && s'.objs[i].sn == s.objs[i].sn && s'.objs[i].route.msg == s.objs[i].route.msg
    ensures Agrees(c, w.(routes := routes), s')
  {
    hide Distinct, CachesAgree, Represents;
    CachesKept(w.caches, w.table, s, s');
    HomesKept(s, s');
  }

  lemma HomesKept(s: State, s': State)
    requires SameFiling(s, s')
    ensures |s'.objs| == |s.objs|
    ensures forall i :: 0 <= i < |s.objs| ==> s'.objs[i].home == s.objs[i].home
  {
    assert forall i :: 0 <= i < |s.objs| ==> SlotOf(s'.objs[i]).home == s'.objs[i].home;
  }

  /** A store, a height or the clock changes, and the goroutines move on. */
  lemma AgreesRest(c: Config, w: World, s: State, w': World, s': State)
    requires Agrees(c, w, s) && s'.objs == s.objs && s'.cache == s.cache
    requires |s'.tasks| == |s.tasks| && forall t :: 0 <= t < |s.tasks| ==> s'.tasks[t].ref == s.tasks[t].ref
    requires w' == w.(db := w'.db, blocks := w'.blocks, heights := w'.heights, clock := w'.clock)
    requires Represents(w'.db, View(s'.messages, s'.txs, w'.blocks))
    requires w'.heights.Keys == w.heights.Keys && HeightsAgree(w'.heights, s') && w'.clock == s'.now
    ensures Agrees(c, w', s')
  {
    hide Distinct, Represents;
    CachesKept(w.caches, w.table, s, s');
  }

  /** The router starts a delivery. */
  lemma AgreesSpawn(c: Config, w: World, s: State, r: nat, s': State)
    requires Agrees(c, w, s) && r < |s.objs| && s.objs[r].route.msg.dst in c.finality
    requires s'.objs == s.objs && s'.cache == s.cache && s'.tasks == s.tasks + [Task(r, Spawned)] && SameRest(s, s')
    ensures r < |w.table| &&
      Agrees(c, w.(goroutines := w.goroutines + [Goroutine(w.table[r], s.objs[r].route.msg.dst, s.objs[r].home)]), s')
  {
    hide Distinct, Represents;
    CachesKept(w.caches, w.table, s, s');
  }
}
