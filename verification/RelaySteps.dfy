/** What each step of the machine does to the objects, the caches and the database. */
module RelaySteps {
  import opened RelayTypes
  import opened RelayObjects
  import opened Engine
  import opened EngineIdentity
  import opened EngineRestart
  import opened StoreRefinement
  import opened RelayLink
  import StoreKeys
  import Lvldb
  import Stores

  /** The machine can take step l from s, to s'. */
  ghost predicate Takes(c: Config, s: State, l: Label, s': State) {
    Enabled(c, s, l) && Next(c, s, l) == s'
  }

  ghost predicate TakesTwo(c: Config, s: State, l: Label, l': Label, s': State) {
    Enabled(c, s, l) && Takes(c, Next(c, s, l), l', s')
  }

  // ----- The database

  function PutMessage(db: map<string, Lvldb.Value>, route: Route, ok: bool): map<string, Lvldb.Value> {
    if ok then db[MessageDbKey(MessageStoreKey(route.msg)) := Lvldb.MessageValue(route)] else db
  }

  function DeleteMessage(db: map<string, Lvldb.Value>, key: StoreKey, ok: bool): map<string, Lvldb.Value> {
    if ok then db - {MessageDbKey(key)} else db
  }

  function PutTx(db: map<string, Lvldb.Value>, tx: TxObject, ok: bool): map<string, Lvldb.Value> {
    if ok then db[TxDbKey(TxStoreKey(tx)) := Lvldb.TxValue(tx)] else db
  }

  function DeleteTx(db: map<string, Lvldb.Value>, key: StoreKey, ok: bool): map<string, Lvldb.Value> {
    if ok then db - {TxDbKey(key)} else db
  }

  // ----- The writes that do this

  function PutOf(route: Route, ok: bool): Lvldb.Write {
    Lvldb.Put(MessageDbKey(MessageStoreKey(route.msg)), Lvldb.MessageValue(route), ok)
  }

  function DeleteOf(key: StoreKey, ok: bool): Lvldb.Write {
    Lvldb.Delete(MessageDbKey(key), ok)
  }

  function PutTxOf(tx: TxObject, ok: bool): Lvldb.Write {
    Lvldb.Put(TxDbKey(TxStoreKey(tx)), Lvldb.TxValue(tx), ok)
  }

  function DeleteTxOf(key: StoreKey, ok: bool): Lvldb.Write {
    Lvldb.Delete(TxDbKey(key), ok)
  }

  function PutBlockOf(nid: Nid, height: uint64, ok: bool): Lvldb.Write {
    Lvldb.Put(BlockDbKey(nid), Lvldb.HeightValue(height), ok)
  }

  /** One write for each message of a block, in order. */
  function BlockPuts(messages: seq<Message>, oks: seq<bool>): (r: seq<Lvldb.Write>)
    requires |oks| == |messages|
    ensures |r| == |messages| && forall i :: 0 <= i < |r| ==> r[i] == PutOf(Route(messages[i], 0, false, Zero), oks[i])
  {
    if messages == [] then []
    else
      var n := |messages| - 1;
      BlockPuts(messages[..n], oks[..n]) + [PutOf(Fresh(messages[n]), oks[n])]
  }

  /** The block's messages have been written, and that is what the database shows. */
  ghost predicate BlockWritten(messages: seq<Message>, oks: seq<bool>, db: map<string, Lvldb.Value>, db': map<string, Lvldb.Value>,
                               writes: seq<Lvldb.Write>, writes': seq<Lvldb.Write>) {
    |oks| == |messages| && writes' == writes + BlockPuts(messages, oks) && db' == Lvldb.Replay(db, BlockPuts(messages, oks))
  }

  lemma NoneWritten(db: map<string, Lvldb.Value>, writes: seq<Lvldb.Write>)
    ensures BlockWritten([], [], db, db, writes, writes)
  {
  }

  lemma OneWritten(messages: seq<Message>, i: nat, oks: seq<bool>, db: map<string, Lvldb.Value>, db': map<string, Lvldb.Value>,
                   writes: seq<Lvldb.Write>, writes': seq<Lvldb.Write>, ok: bool)
    requires i < |messages| && BlockWritten(messages[..i], oks, db, db', writes, writes')
    ensures BlockWritten(messages[..i + 1], oks + [ok], db, PutMessage(db', Fresh(messages[i]), ok),
                         writes, writes' + [PutOf(Fresh(messages[i]), ok)])
  {
    var done := messages[..i + 1];
    assert done[..i] == messages[..i] && (oks + [ok])[..i] == oks;
    hide MessageDbKey;
    assert BlockPuts(done, oks + [ok]) == BlockPuts(messages[..i], oks) + [PutOf(Fresh(messages[i]), ok)];
    Lvldb.ReplayAppended(db, BlockPuts(messages[..i], oks), PutOf(Fresh(messages[i]), ok));
    assert [PutOf(Fresh(messages[i]), ok)][..0] == [];
  }

  /** The same tasks as far as the goroutines show them. */
  ghost predicate SameTasks(s: State, s': State) {
    |s'.tasks| == |s.tasks| && forall t :: 0 <= t < |s.tasks| ==> s'.tasks[t].ref == s.tasks[t].ref
  }

  ghost predicate SameObjects(s: State, s': State) {
    s'.objs == s.objs && s'.cache == s.cache && SameTasks(s, s')
  }

  /** Nothing the world shows changes. */
  lemma Unseen(c: Config, w: World, s: State, s': State)
    requires Agrees(c, w, s) && SameObjects(s, s') && SameRest(s, s')
    ensures Agrees(c, w, s')
  {
    hide Distinct, ObjectsAgree, CachesAgree, Represents;
    AgreesRest(c, w, s, w, s');
  }

  lemma MessagePut(c: Config, w: World, s: State, route: Route, ok: bool, s': State)
    requires Agrees(c, w, s) && SameObjects(s, s') && s'.now == s.now && s'.heights == s.heights
    requires s'.messages == AfterPut(s, route, ok) && s'.txs == s.txs
    ensures Agrees(c, w.(db := PutMessage(w.db, route, ok)), s')
  {
    hide Distinct, ObjectsAgree, CachesAgree, Represents, MessageDbKey;
    if ok { PutMessageRefines(w.db, View(s.messages, s.txs, w.blocks), route); }
    AgreesRest(c, w, s, w.(db := PutMessage(w.db, route, ok)), s');
  }

  lemma MessageDeleted(c: Config, w: World, s: State, key: StoreKey, ok: bool, s': State)
    requires Agrees(c, w, s) && SameObjects(s, s') && s'.now == s.now && s'.heights == s.heights
    requires s'.messages == (if ok then s.messages - {key} else s.messages) && s'.txs == s.txs
    ensures Agrees(c, w.(db := DeleteMessage(w.db, key, ok)), s')
  {
    hide Distinct, ObjectsAgree, CachesAgree, Represents, MessageDbKey;
    if ok { DeleteMessageRefines(w.db, View(s.messages, s.txs, w.blocks), key); }
    AgreesRest(c, w, s, w.(db := DeleteMessage(w.db, key, ok)), s');
  }

  lemma TxPut(c: Config, w: World, s: State, tx: TxObject, ok: bool, s': State)
    requires Agrees(c, w, s) && SameObjects(s, s') && s'.now == s.now && s'.heights == s.heights
    requires s'.txs == (if ok then s.txs[TxStoreKey(tx) := tx] else s.txs) && s'.messages == s.messages
    ensures Agrees(c, w.(db := PutTx(w.db, tx, ok)), s')
  {
    hide Distinct, ObjectsAgree, CachesAgree, Represents, TxDbKey;
    if ok { PutTxRefines(w.db, View(s.messages, s.txs, w.blocks), tx); }
    AgreesRest(c, w, s, w.(db := PutTx(w.db, tx, ok)), s');
  }

  lemma TxDeleted(c: Config, w: World, s: State, key: StoreKey, ok: bool, s': State)
    requires Agrees(c, w, s) && SameObjects(s, s') && s'.now == s.now && s'.heights == s.heights
    requires s'.txs == (if ok then s.txs - {key} else s.txs) && s'.messages == s.messages
    ensures Agrees(c, w.(db := DeleteTx(w.db, key, ok)), s')
  {
    hide Distinct, ObjectsAgree, CachesAgree, Represents, TxDbKey;
    if ok { DeleteTxRefines(w.db, View(s.messages, s.txs, w.blocks), key); }
    AgreesRest(c, w, s, w.(db := DeleteTx(w.db, key, ok)), s');
  }

  // ----- Messages coming in

  function WithCached(w: World, nid: Nid, r: RouteMessage, route: Route): World
    requires nid in w.caches
  {
    WithNew(w, r, route).(caches := Put(w.caches, nid, r))
  }

  /** A new object filed at once, whatever else happens to history. */
  lemma NewFiled(c: Config, w: World, s: State, r: RouteMessage, route: Route, e: Entry, s': State)
    requires Agrees(c, w, s) && KeysOwned(s) && FitsNew(w, r, route)
    requires e.route == route && e.sn == |s.objs| && e.home in c.finality
    requires s'.objs == s.objs + [e] && s'.cache == Filed(s, e, |s.objs|) && s'.tasks == s.tasks && SameRest(s, s')
    ensures e.home in w.caches && Agrees(c, WithCached(w, e.home, r, route), s')
    ensures r.Key() !in w.caches[e.home]
  {
    hide KeysOwned, FitsNew, Distinct, ObjectsAgree, CachesAgree, GoroutinesAgree, Represents, HeightsAgree;
    var mid := s.(objs := s'.objs);
    ObjectsCounted(w.table, w.routes, s.objs);
    AgreesNew(c, w, s, r, route, e, mid);
    AgreesFile(c, WithNew(w, r, route), mid, |s.objs|, s');
    NewKey(c, w, s, r, route, e.home);
  }

  lemma NewKey(c: Config, w: World, s: State, r: RouteMessage, route: Route, nid: Nid)
    requires Agrees(c, w, s) && FitsNew(w, r, route) && nid in w.caches
    ensures r.Key() !in w.caches[nid]
  {
    var cache := w.caches[nid];
    assert CacheAgrees(nid, cache, w.table, s);
    assert forall k <- cache :: cache[k].Key() == k && cache[k].sn != r.sn;
  }

  lemma StepObserve(c: Config, w: World, s: State, nid: Nid, msg: Message, ok: bool, r: RouteMessage)
    requires Agrees(c, w, s) && KeysOwned(s) && FitsNew(w, r, Fresh(msg)) && nid in c.finality
    ensures nid in w.caches && r.Key() !in w.caches[nid]
    ensures Agrees(c, WithCached(w, nid, r, Fresh(msg)).(db := PutMessage(w.db, Fresh(msg), ok)), DoObserve(s, nid, msg, ok))
    ensures Takes(c, s, In(Observe(nid, msg, ok)), DoObserve(s, nid, msg, ok))
  {
    hide Agrees, KeysOwned, FitsNew, Mark, Collided, Own;
    var e := NewEntry(s, Fresh(msg), nid);
    var s' := DoObserve(s, nid, msg, ok);
    var mid := s.(objs := s'.objs, cache := s'.cache);
    NewFiled(c, w, s, r, Fresh(msg), e, mid);
    MessagePut(c, WithCached(w, nid, r, Fresh(msg)), mid, Fresh(msg), ok, s');
  }

  lemma StepGenerate(c: Config, w: World, s: State, nid: Nid, msg: Message, r: RouteMessage, s': State)
    requires Agrees(c, w, s) && KeysOwned(s) && FitsNew(w, r, Fresh(msg)) && nid in c.finality
    requires s' == DoGenerate(s, nid, msg) ||
      (s.pass.Merging? && s.pass.msgs != [] && msg == s.pass.msgs[0] && nid == s.pass.src && s' == DoPassMerge(s))
    ensures nid in w.caches && r.Key() !in w.caches[nid]
    ensures s' == DoGenerate(s, nid, msg) ==> Takes(c, s, In(Generate(nid, msg)), s')
    ensures s.pass.Merging? && s.pass.msgs != [] && s' == DoPassMerge(s) ==> Takes(c, s, Finality(PassMerge), s')
    ensures Agrees(c, WithCached(w, nid, r, Fresh(msg)), s')
  {
    hide Agrees, KeysOwned, FitsNew;
    NewFiled(c, w, s, r, Fresh(msg), NewEntry(s, Fresh(msg), nid), s');
  }

  /** A copy read from the store, not cached yet. */
  lemma StepRead(c: Config, w: World, s: State, nid: Nid, key: StoreKey, purpose: Purpose, r: RouteMessage)
    requires Agrees(c, w, s) && KeysOwned(s) && nid in c.finality && key in s.messages
    requires FitsNew(w, r, s.messages[key])
    ensures Agrees(c, WithNew(w, r, s.messages[key]), DoRead(s, nid, key, purpose))
    ensures nid in w.caches && r.Key() !in w.caches[nid]
  {
    NewKey(c, w, s, r, s.messages[key], nid);
    hide Agrees, KeysOwned, FitsNew;
    AgreesNew(c, w, s, r, s.messages[key], NewEntry(s, s.messages[key], nid), DoRead(s, nid, key, purpose));
  }

  lemma StepMerge(c: Config, w: World, s: State, r: nat)
    requires Agrees(c, w, s) && r < |s.objs|
    ensures r < |w.table| && s.objs[r].home in w.caches
    ensures Agrees(c, w.(caches := Put(w.caches, s.objs[r].home, w.table[r])), DoMerge(s, r))
  {
    hide Agrees;
    AgreesFile(c, w, s, r, DoMerge(s, r));
  }

  /** Removing an object from its cache and a message from the store, for whatever reason. */
  lemma StepClear(c: Config, w: World, s: State, r: nat, ok: bool, s': State)
    requires Agrees(c, w, s) && OnlyCleared(s, r, ok, s')
    ensures r < |w.table| && s.objs[r].home in w.caches
    ensures Agrees(c, w.(caches := Drop(w.caches, s.objs[r].home, w.table[r]),
                         db := DeleteMessage(w.db, MessageStoreKey(s.objs[r].route.msg), ok)), s')
  {
    hide Agrees, MessageDbKey;
    var mid := s.(cache := s'.cache);
    AgreesUnfile(c, w, s, r, mid);
    MessageDeleted(c, w.(caches := Drop(w.caches, s.objs[r].home, w.table[r])), mid, MessageStoreKey(s.objs[r].route.msg), ok, s');
  }

  // ----- Routes of objects

  /** One object's route changes, its message does not. */
  ghost predicate OnlyRoute(s: State, r: nat, route: Route, s': State) {
    && r < |s.objs| && route.msg == s.objs[r].route.msg
    && |s'.objs| == |s.objs| && s'.cache == s.cache && SameTasks(s, s') && SameRest(s, s')
    && s'.objs[r].route == route && s'.objs[r].home == s.objs[r].home && s'.objs[r].sn == s.objs[r].sn
    && (forall i :: 0 <= i < |s.objs| && i != r ==> s'.objs[i] == s.objs[i])
  }

  lemma StepRoute(c: Config, w: World, s: State, r: nat, route: Route, s': State)
    requires Agrees(c, w, s) && OnlyRoute(s, r, route, s')
    ensures r < |w.routes| && Agrees(c, w.(routes := w.routes[r := route]), s')
  {
    ObjectsCountedIn(c, w, s);
    hide Agrees;
    AgreesRoutes(c, w, s, w.routes[r := route], s');
  }

  // ----- Heights, and filing

  lemma StepTick(c: Config, w: World, s: State, elapsed: nat)
    requires Agrees(c, w, s)
    ensures w.clock == s.now && Takes(c, s, In(Tick(elapsed)), s.(now := s.now + elapsed))
    ensures Agrees(c, w.(clock := w.clock + elapsed), s.(now := s.now + elapsed))
  {
    hide Distinct, ObjectsAgree, CachesAgree, GoroutinesAgree, Represents;
    AgreesRest(c, w, s, w.(clock := w.clock + elapsed), s.(now := s.now + elapsed));
  }

  lemma StepHeight(c: Config, w: World, s: State, nid: Nid, height: uint64)
    requires Agrees(c, w, s) && nid in c.finality
    ensures Takes(c, s, In(NewHeight(nid, height)), s.(heights := s.heights[nid := height]))
    ensures Agrees(c, w.(heights := w.heights[nid := height]), s.(heights := s.heights[nid := height]))
  {
    hide Distinct, ObjectsAgree, CachesAgree, GoroutinesAgree, Represents;
    AgreesRest(c, w, s, w.(heights := w.heights[nid := height]), s.(heights := s.heights[nid := height]));
  }

  function PutBlock(db: map<string, Lvldb.Value>, nid: Nid, height: uint64, ok: bool): map<string, Lvldb.Value> {
    if ok then db[BlockDbKey(nid) := Lvldb.HeightValue(height)] else db
  }

  lemma StepSave(c: Config, w: World, s: State, nid: Nid, height: uint64, ok: bool)
    requires Agrees(c, w, s) && nid in c.finality
    ensures Takes(c, s, In(NewHeight(nid, height)), s.(heights := s.heights[nid := height]))
    ensures var w' := w.(heights := w.heights[nid := height], db := PutBlock(w.db, nid, height, ok),
                         blocks := if ok then w.blocks[nid := height] else w.blocks);
      Agrees(c, w', s.(heights := s.heights[nid := height]))
  {
    hide Distinct, ObjectsAgree, CachesAgree, GoroutinesAgree, Represents, BlockDbKey;
    if ok { PutBlockRefines(w.db, View(s.messages, s.txs, w.blocks), nid, height); }
    var w' := w.(heights := w.heights[nid := height], db := PutBlock(w.db, nid, height, ok),
                 blocks := if ok then w.blocks[nid := height] else w.blocks);
    AgreesRest(c, w, s, w', s.(heights := s.heights[nid := height]));
  }

  // ----- Requests

  lemma NotDeletedMessage(w: World, key: StoreKey)
    ensures w.(db := DeleteMessage(w.db, key, false)) == w
  {
  }

  lemma RemoveStep(c: Config, w: World, s: State, key: StoreKey)
    requires Agrees(c, w, s) && key in s.messages
    ensures Takes(c, s, In(RemoveByHand(key)), DoRemoveByHand(s, key))
    ensures Agrees(c, w.(db := DeleteMessage(w.db, key, true)), DoRemoveByHand(s, key))
  {
    hide Agrees, DeleteMessage, Mark;
    MessageDeleted(c, w, s, key, true, DoRemoveByHand(s, key));
  }

  lemma PruneStep(c: Config, w: World, s: State)
    requires Agrees(c, w, s)
    ensures Takes(c, s, In(Prune), DoPrune(s))
    ensures Agrees(c, w.(db := map[], blocks := map[]), DoPrune(s))
  {
    assert Represents(map[], View(map[], map[], map[]));
    hide Distinct, ObjectsAgree, CachesAgree, GoroutinesAgree, Represents, Mark;
    AgreesRest(c, w, s, w.(db := map[], blocks := map[]), DoPrune(s));
  }

  // ----- Starting and restarting

  /** A process that has just started knows no message and no height. */
  ghost predicate JustStarted(w: World) {
    && w.goroutines == []
    && (forall nid <- w.caches :: w.caches[nid] == map[])
    && (forall nid <- w.heights :: w.heights[nid] == 0)
  }

  lemma InitAgrees(c: Config, w: World)
    requires JustStarted(w) && w.table == [] && w.routes == [] && w.db == map[] && w.blocks == map[]
    requires w.caches.Keys == w.heights.Keys == c.finality.Keys
    ensures Agrees(c, w, Init(w.clock))
  {
    assert Represents(map[], View(map[], map[], map[]));
  }

  lemma StepCrash(c: Config, w: World, s: State, w': World)
    requires Agrees(c, w, s) && JustStarted(w') && w' == w.(goroutines := [], caches := w'.caches, heights := w'.heights)
    requires w'.caches.Keys == w'.heights.Keys == c.finality.Keys
    ensures Agrees(c, w', DoCrash(s))
  {
    hide Distinct, Represents, ObjectsAgree, Mark;
    ObjectsCountedIn(c, w, s);
  }

  /** A start with any chains over the database of another process. */
  lemma CarriedAgrees(c: Config, w: World, s: State, c': Config, w': World, pause: nat)
    requires Agrees(c, w, s) && JustStarted(w') && w'.table == [] && w'.routes == []
    requires w'.db == w.db && w'.blocks == w.blocks && w'.clock == w.clock + pause
    requires w'.caches.Keys == w'.heights.Keys == c'.finality.Keys
    ensures Agrees(c', w', Carried(s, pause))
  {
    hide Represents, Mark;
  }

  lemma HoldsKept(cache: Cache, r: RouteMessage, x: RouteMessage)
    requires Holds(cache, r) && x.Key() !in cache
    ensures Holds(cache[x.Key() := x], r)
  {
  }

  lemma JustFiled(cache: Cache, r: RouteMessage)
    ensures Holds(cache[r.Key() := r], r)
  {
  }

  // ----- The router

  lemma ScanStep(c: Config, w: World, s: State, nid: Nid)
    requires Agrees(c, w, s) && nid in c.finality && s.router.Resting?
    ensures Takes(c, s, Routed(Scan(nid)), DoScan(s, nid)) && Agrees(c, w, DoScan(s, nid))
  {
    hide Agrees;
    Unseen(c, w, s, DoScan(s, nid));
  }

  /** Every object in the set is on the machine's snapshot and lives in this runtime. */
  ghost predicate Listed(table: seq<RouteMessage>, s: State, nid: Nid, rest: set<RouteMessage>) {
    |table| == |s.objs| &&
    forall m <- rest :: exists i :: 0 <= i < |table| && table[i] == m && i in s.snapshot && s.objs[i].home == nid
  }

  lemma CachedIsScanned(s: State, nid: Nid, i: nat)
    requires Cached(s, i) && s.objs[i].home == nid
    ensures i in DoScan(s, nid).snapshot
  {
    assert SlotOf(s.objs[i]).home == nid;
  }

  lemma EntryIsCached(nid: Nid, cache: Cache, table: seq<RouteMessage>, s: State, m: RouteMessage)
    requires CacheAgrees(nid, cache, table, s) && m in cache.Values
    ensures exists i :: 0 <= i < |table| && table[i] == m && Cached(s, i) && s.objs[i].home == nid
  {
    hide Cached;
    var k :| k in cache && cache[k] == m;
    var i :| 0 <= i < |table| && table[i] == m;
    assert Holds(cache, table[i]);
  }

  lemma ScanLists(c: Config, w: World, s: State, nid: Nid)
    requires Agrees(c, w, s) && nid in w.caches
    ensures Listed(w.table, DoScan(s, nid), nid, w.caches[nid].Values)
  {
    assert CacheAgrees(nid, w.caches[nid], w.table, s);
    ObjectsCountedIn(c, w, s);
    hide Agrees, CacheAgrees, Cached, DoScan;
    var s' := DoScan(s, nid);
    assert s'.objs == s.objs by { ScanKeeps(s, nid); }
    forall m | m in w.caches[nid].Values
      ensures exists i :: 0 <= i < |w.table| && w.table[i] == m && i in s'.snapshot && s'.objs[i].home == nid
    {
      EntryIsCached(nid, w.caches[nid], w.table, s, m);
      var i :| 0 <= i < |w.table| && w.table[i] == m && Cached(s, i) && s.objs[i].home == nid;
      CachedIsScanned(s, nid, i);
    }
  }

  lemma ScanKeeps(s: State, nid: Nid)
    ensures DoScan(s, nid) == s.(snapshot := DoScan(s, nid).snapshot)
  {
  }

  /** Since the objects had routes `first` and the goroutines were `started`: objects changed only by
      being marked as processing, so what was marked is as it was, and the goroutines added are for
      objects that were not marked and now are, one for each. */
  ghost predicate Started(table: seq<RouteMessage>, first: seq<Route>, routes: seq<Route>, started: seq<Goroutine>, goroutines: seq<Goroutine>) {
    && |first| == |routes| == |table|
    && (forall i :: 0 <= i < |table| ==> routes[i] == first[i] || routes[i] == first[i].(processing := true))
    && started <= goroutines
    && (forall t :: |started| <= t < |goroutines| ==> MarkedSince(table, first, routes, goroutines[t].message))
    && (forall t, u :: |started| <= t < u < |goroutines| ==> goroutines[t].message != goroutines[u].message)
  }

  ghost predicate MarkedSince(table: seq<RouteMessage>, first: seq<Route>, routes: seq<Route>, m: RouteMessage)
    requires |first| == |routes| == |table|
  {
    exists i :: 0 <= i < |table| && table[i] == m && !first[i].processing && routes[i].processing
  }

  lemma NoneStarted(table: seq<RouteMessage>, routes: seq<Route>, goroutines: seq<Goroutine>)
    requires |table| == |routes|
    ensures Started(table, routes, routes, goroutines, goroutines)
  {
  }

  /** Only objects in the set have changed. */
  ghost predicate OnlyTouched(table: seq<RouteMessage>, first: seq<Route>, routes: seq<Route>, touched: set<RouteMessage>) {
    |first| == |routes| == |table| && forall i :: 0 <= i < |table| ==> table[i] in touched || routes[i] == first[i]
  }

  lemma NoneTouched(table: seq<RouteMessage>, routes: seq<Route>, touched: set<RouteMessage>)
    requires |table| == |routes|
    ensures OnlyTouched(table, routes, routes, touched)
  {
  }

  lemma TouchedOne(table: seq<RouteMessage>, first: seq<Route>, routes: seq<Route>, touched: set<RouteMessage>, i: nat, route: Route)
    requires OnlyTouched(table, first, routes, touched) && i < |table| && table[i] in touched
    ensures OnlyTouched(table, first, routes[i := route], touched)
  {
  }

  /** The cached messages of the chains still to do that were idle still are. */
  ghost predicate AllIdle(idle: map<Nid, set<RouteMessage>>, todo: set<Nid>, caches: map<Nid, Cache>, table: seq<RouteMessage>,
                          routes: seq<Route>, now: int, known: set<Nid>) {
    forall nid <- idle :: nid in todo ==> nid in caches && IdleThere(idle[nid], caches[nid], table, routes, now, known)
  }

  ghost predicate IdleThere(idle: set<RouteMessage>, cache: Cache, table: seq<RouteMessage>, routes: seq<Route>, now: int, known: set<Nid>) {
    && |routes| == |table|
    && (forall m <- idle :: m in cache.Values && m.message.dst in known)
    && (forall i :: 0 <= i < |table| && table[i] in idle ==> !IsProcessing(routes[i], now))
  }

  ghost predicate ApartFrom(table: seq<RouteMessage>, caches: map<Nid, Cache>, nid: Nid) {
    forall n <- caches :: forall m <- caches[n].Values :: m in table && (n == nid || (nid in caches ==> m !in caches[nid].Values))
  }

  lemma StaysIdle(r: Route, now: int, later: int)
    requires now <= later
    ensures !IsProcessing(r, now) ==> !IsProcessing(r, later)
  {
  }

  /** What happens to the objects in one cache leaves the idle messages of the others idle. */
  lemma IdleElsewhere(idle: map<Nid, set<RouteMessage>>, todo: set<Nid>, caches: map<Nid, Cache>, cache: Cache, table: seq<RouteMessage>,
                      routes: seq<Route>, routes': seq<Route>, now: int, now': int, known: set<Nid>, nid: Nid)
    requires AllIdle(idle, todo, caches, table, routes, now, known) && now <= now' && nid in caches && ApartFrom(table, caches, nid)
    requires OnlyTouched(table, routes, routes', caches[nid].Values)
    ensures AllIdle(idle, todo - {nid}, caches[nid := cache], table, routes', now', known)
  {
    forall n | n in idle && n in todo - {nid}
      ensures n in caches && IdleThere(idle[n], caches[n], table, routes', now', known)
    {
      assert n in todo;
      forall i | 0 <= i < |table| && table[i] in idle[n] ensures !IsProcessing(routes'[i], now') {
        assert table[i] in caches[n].Values && routes'[i] == routes[i];
        StaysIdle(routes[i], now, now');
      }
    }
  }

  /** Every cached object is in the table, and none is in two caches. */
  lemma ApartIn(c: Config, w: World, s: State, nid: Nid, n: Nid)
    requires Agrees(c, w, s) && nid in w.caches && n in w.caches
    ensures forall m <- w.caches[n].Values :: m in w.table && (n == nid || m !in w.caches[nid].Values)
  {
    hide ObjectsAgree, GoroutinesAgree, Represents, HeightsAgree, Cached;
    assert CacheAgrees(n, w.caches[n], w.table, s) && CacheAgrees(nid, w.caches[nid], w.table, s);
    forall m | m in w.caches[n].Values ensures m in w.table && (n == nid || m !in w.caches[nid].Values) {
      HomeOf(c, w, s, n, m);
      if m in w.caches[nid].Values { HomeOf(c, w, s, nid, m); }
    }
  }

  lemma HomeOf(c: Config, w: World, s: State, nid: Nid, m: RouteMessage)
    requires Agrees(c, w, s) && nid in w.caches && m in w.caches[nid].Values
    ensures m in w.table && |w.table| == |s.objs| && forall i :: 0 <= i < |w.table| && w.table[i] == m ==> s.objs[i].home == nid
  {
    ObjectsCountedIn(c, w, s);
    assert CacheAgrees(nid, w.caches[nid], w.table, s);
    hide GoroutinesAgree, Represents, HeightsAgree, Cached, CachesAgree, ObjectsAgree, Distinct;
    var k :| k in w.caches[nid] && w.caches[nid][k] == m;
    assert Holds(w.caches[nid], m);
  }

  lemma StartedBehind(table: seq<RouteMessage>, first: seq<Route>, routes: seq<Route>, started: seq<Goroutine>, goroutines: seq<Goroutine>)
    requires Started(table, first, routes, started, goroutines)
    ensures started <= goroutines
  {
  }

  lemma StartedOn(table: seq<RouteMessage>, first: seq<Route>, routes: seq<Route>, started: seq<Goroutine>, goroutines: seq<Goroutine>,
                  i: nat, dst: Nid, src: Nid, sent: bool, route: Route)
    requires Started(table, first, routes, started, goroutines) && i < |table|
    requires forall j :: 0 <= j < |table| && j != i ==> table[j] != table[i]
    requires route == routes[i] || route == routes[i].(processing := true)
    requires sent ==> !routes[i].processing && route.processing
    ensures Started(table, first, routes[i := route], started,
                    goroutines + if sent then [Goroutine(table[i], dst, src)] else [])
  {
    var routes' := routes[i := route];
    var goroutines' := goroutines + if sent then [Goroutine(table[i], dst, src)] else [];
    forall t | |started| <= t < |goroutines|
      ensures MarkedSince(table, first, routes', goroutines'[t].message)
      ensures sent ==> goroutines'[t].message != table[i]
    {
      var j :| 0 <= j < |table| && table[j] == goroutines[t].message && !first[j].processing && routes[j].processing;
      assert routes'[j].processing;
    }
    if sent {
      assert !first[i].processing && routes'[i].processing;
    }
  }

  lemma StartedComposes(table: seq<RouteMessage>, first: seq<Route>, middle: seq<Route>, last: seq<Route>,
                        started: seq<Goroutine>, running: seq<Goroutine>, goroutines: seq<Goroutine>)
    requires Started(table, first, middle, started, running) && Started(table, middle, last, running, goroutines)
    requires forall i, j :: 0 <= i < j < |table| ==> table[i] != table[j]
    ensures Started(table, first, last, started, goroutines)
  {
    forall t | |started| <= t < |running|
      ensures MarkedSince(table, first, last, goroutines[t].message)
    {
      var j :| 0 <= j < |table| && table[j] == running[t].message && !first[j].processing && middle[j].processing;
      assert last[j].processing;
    }
    forall t | |running| <= t < |goroutines|
      ensures MarkedSince(table, first, last, goroutines[t].message)
    {
      var j :| 0 <= j < |table| && table[j] == goroutines[t].message && !middle[j].processing && last[j].processing;
      assert !first[j].processing;
    }
    forall t, u | |started| <= t < |running| && |running| <= u < |goroutines|
      ensures goroutines[t].message != goroutines[u].message
    {
      assert running[t].message == goroutines[t].message;
      var j :| 0 <= j < |table| && table[j] == running[t].message && !first[j].processing && middle[j].processing;
      var k :| 0 <= k < |table| && table[k] == goroutines[u].message && !middle[k].processing && last[k].processing;
      assert j != k;
    }
  }

  /** Every entry is under its own key, and is still to be looked at or has a known destination. */
  ghost predicate Sifted(cache: Cache, rest: set<RouteMessage>, known: set<Nid>) {
    forall k <- cache :: cache[k].Key() == k && (cache[k] in rest || cache[k].message.dst in known)
  }

  lemma SiftedAtFirst(c: Config, w: World, s: State, nid: Nid, known: set<Nid>)
    requires Agrees(c, w, s) && nid in w.caches
    ensures Sifted(w.caches[nid], w.caches[nid].Values, known)
  {
    assert CacheAgrees(nid, w.caches[nid], w.table, s);
  }

  lemma SiftedKeys(cache: Cache, rest: set<RouteMessage>, known: set<Nid>)
    requires Sifted(cache, rest, known)
    ensures forall m <- cache.Values :: m.Key() in cache
  {
  }

  lemma SiftedDone(cache: Cache, known: set<Nid>)
    requires Sifted(cache, {}, known)
    ensures forall k <- cache :: cache[k].message.dst in known
  {
  }

  lemma SiftedOne(cache: Cache, rest: set<RouteMessage>, known: set<Nid>, m: RouteMessage, cleared: bool)
    requires Sifted(cache, rest, known) && (m.message.dst in known || cleared)
    ensures Sifted(if cleared then cache - {m.Key()} else cache, rest - {m}, known)
    ensures Kept(if cleared then cache - {m.Key()} else cache, cache)
  {
  }

  lemma ListedInTable(table: seq<RouteMessage>, s: State, nid: Nid, rest: set<RouteMessage>, m: RouteMessage)
    requires Listed(table, s, nid, rest) && m in rest
    ensures m in table
  {
  }

  lemma PickStep(c: Config, s: State, r: nat)
    requires CanRouter(c, s, Pick(r))
    ensures Takes(c, s, Routed(Pick(r)), DoPick(s, r))
    ensures OnlyRoute(s, r, ToggleProcessing(s.objs[r].route), DoPick(s, r))
  {
  }

  lemma QueryFailedStep(c: Config, s: State, r: nat)
    requires s.router == Querying(r) && r < |s.objs|
    ensures Takes(c, s, Routed(QueryFailed), DoQueryFailed(s, r))
    ensures OnlyRoute(s, r, ToggleProcessing(s.objs[r].route), DoQueryFailed(s, r))
  {
  }

  lemma MissingStep(c: Config, w: World, s: State, r: nat)
    requires Agrees(c, w, s) && s.router == Querying(r) && r < |s.objs| && s.objs[r].route.msg.dst in c.finality
    ensures Takes(c, s, Routed(QueryMissing), DoQueryMissing(s, r))
    ensures r < |w.table| &&
      Agrees(c, w.(goroutines := w.goroutines + [Goroutine(w.table[r], s.objs[r].route.msg.dst, s.objs[r].home)]), DoQueryMissing(s, r))
  {
    hide Agrees;
    AgreesSpawn(c, w, s, r, DoQueryMissing(s, r));
  }

  /** The machine lets go of an object and of the message in the store. */
  ghost predicate OnlyCleared(s: State, r: nat, ok: bool, s': State) {
    && r < |s.objs| && s'.objs == s.objs && s'.cache == Unfiled(s, r) && SameTasks(s, s')
    && s'.messages == AfterDelete(s, s.objs[r].route.msg, ok)
    && s'.txs == s.txs && s'.heights == s.heights && s'.now == s.now
  }

  function UnknownCleared(s: State, r: nat, ok: bool): State
    requires r < |s.objs|
  {
    DoRouterDelete(DoPickUnknown(s, r), r, ok)
  }

  lemma UnknownStep(c: Config, s: State, r: nat, ok: bool)
    requires CanRouter(c, s, PickUnknown(r))
    ensures TakesTwo(c, s, Routed(PickUnknown(r)), Routed(RouterDelete(ok)), UnknownCleared(s, r, ok))
    ensures OnlyCleared(s, r, ok, UnknownCleared(s, r, ok))
  {
  }

  /** The router is through with object i; the others it has listed stay listed. */
  ghost predicate PassedOver(s: State, i: nat, s': State) {
    && s'.router.Resting? && s.snapshot - {i} <= s'.snapshot && |s'.objs| == |s.objs|
    && (forall j :: 0 <= j < |s.objs| ==> s'.objs[j].home == s.objs[j].home)
  }

  lemma PassedAfterPick(s: State, i: nat, now: int, ok: bool)
    requires i < |s.objs|
    ensures var p := DoPick(s.(now := now), i);
      && |p.objs| == |s.objs| && p.router == Querying(i)
      && PassedOver(s, i, DoQueryFailed(p, i)) && PassedOver(s, i, DoQueryMissing(p, i))
      && PassedOver(s, i, ReceivedCleared(p, i, ok))
      && p.objs[i].route == ToggleProcessing(s.objs[i].route) && p.objs[i].home == s.objs[i].home
  {
  }

  lemma PassedOtherwise(s: State, i: nat, now: int, ok: bool)
    requires i < |s.objs| && s.router.Resting?
    ensures PassedOver(s, i, s.(now := now)) && PassedOver(s, i, UnknownCleared(s, i, ok))
  {
  }

  lemma ListedAfter(table: seq<RouteMessage>, s: State, nid: Nid, rest: set<RouteMessage>, i: nat, s': State)
    requires Listed(table, s, nid, rest) && i < |table| && PassedOver(s, i, s')
    ensures Listed(table, s', nid, rest - {table[i]})
  {
    forall m | m in rest - {table[i]}
      ensures exists j :: 0 <= j < |table| && table[j] == m && j in s'.snapshot && s'.objs[j].home == nid
    {
      var j :| 0 <= j < |table| && table[j] == m && j in s.snapshot && s.objs[j].home == nid;
      assert table[j] == m && j in s'.snapshot;
    }
  }

  function ReceivedCleared(s: State, r: nat, ok: bool): State
    requires r < |s.objs|
  {
    DoRouterDelete(DoQueryReceived(s, r), r, ok)
  }

  lemma ReceivedStep(c: Config, s: State, r: nat, ok: bool)
    requires s.router == Querying(r) && r < |s.objs|
    ensures TakesTwo(c, s, Routed(QueryReceived), Routed(RouterDelete(ok)), ReceivedCleared(s, r, ok))
    ensures OnlyCleared(s, r, ok, ReceivedCleared(s, r, ok))
  {
  }

  // ----- Deliveries

  lemma StartStep(c: Config, s: State, t: nat)
    requires TaskIn(s, t, Spawned)
    ensures Takes(c, s, Deliver(t, Start), DoStart(s, t))
    ensures OnlyRoute(s, s.tasks[t].ref, IncrementRetry(s.objs[s.tasks[t].ref].route, s.now), DoStart(s, t))
    ensures TaskIn(DoStart(s, t), t, Routing)
  {
  }

  lemma FailStep(c: Config, s: State, t: nat)
    requires TaskIn(s, t, Routing)
    ensures Takes(c, s, Deliver(t, Fail), DoFail(s, t))
    ensures OnlyRoute(s, s.tasks[t].ref, ToggleProcessing(s.objs[s.tasks[t].ref].route), DoFail(s, t))
    ensures TaskIn(DoFail(s, t), t, Toggled)
  {
  }

  lemma RetireStep(c: Config, w: World, s: State, t: nat)
    requires Agrees(c, w, s) && TaskIn(s, t, Toggled) && s.objs[s.tasks[t].ref].route.retry < MAX_TX_RETRY
    ensures Takes(c, s, Deliver(t, Retire), DoRetire(s, t)) && Agrees(c, w, DoRetire(s, t))
  {
    hide Agrees;
    Unseen(c, w, s, DoRetire(s, t));
  }

  lemma PersistStep(c: Config, w: World, s: State, t: nat, ok: bool)
    requires Agrees(c, w, s) && TaskIn(s, t, Toggled) && s.objs[s.tasks[t].ref].route.retry >= MAX_TX_RETRY
    ensures Takes(c, s, Deliver(t, Persist(ok)), DoPersist(s, t, ok))
    ensures Agrees(c, w.(db := PutMessage(w.db, s.objs[s.tasks[t].ref].route, ok)), DoPersist(s, t, ok))
    ensures DoPersist(s, t, ok).objs == s.objs && DoPersist(s, t, ok).tasks == WithPhase(s, t, if ok then Persisted else Done)
  {
    hide Agrees, PutMessage, Mark, Collided;
    MessagePut(c, w, s, s.objs[s.tasks[t].ref].route, ok, DoPersist(s, t, ok));
  }

  lemma EvictStep(c: Config, w: World, s: State, t: nat)
    requires Agrees(c, w, s) && TaskIn(s, t, Persisted)
    ensures Takes(c, s, Deliver(t, Evict), DoEvict(s, t))
    ensures s.tasks[t].ref < |w.table| && s.objs[s.tasks[t].ref].home in w.caches
    ensures Agrees(c, w.(caches := Drop(w.caches, s.objs[s.tasks[t].ref].home, w.table[s.tasks[t].ref])), DoEvict(s, t))
  {
    hide Agrees;
    var r := s.tasks[t].ref;
    var mid := s.(cache := Unfiled(s, r));
    AgreesUnfile(c, w, s, r, mid);
    Unseen(c, w.(caches := Drop(w.caches, s.objs[r].home, w.table[r])), mid, DoEvict(s, t));
  }

  /** The record the callback writes for the object of task t. */
  function RecordOf(s: State, t: nat, txHash: string, txHeight: uint64): TxObject
    requires t < |s.tasks| && s.tasks[t].ref < |s.objs|
  {
    TxFor(s.objs[s.tasks[t].ref].route.msg, s.objs[s.tasks[t].ref].route.msg, txHash, txHeight)
  }

  /** It is written when the object is found in the cache and the destination has a finality wait. */
  ghost predicate Writes(c: Config, s: State, t: nat, ok: bool)
    requires t < |s.tasks| && s.tasks[t].ref < |s.objs| && s.objs[s.tasks[t].ref].route.msg.dst in c.finality
  {
    Cached(s, s.tasks[t].ref) && c.finality[s.objs[s.tasks[t].ref].route.msg.dst] > 0 && ok
  }

  lemma SucceedEffect(c: Config, s: State, t: nat, txHash: string, txHeight: uint64, ok: bool)
    requires KeysOwned(s) && TaskIn(s, t, Routing) && s.objs[s.tasks[t].ref].route.msg.dst in c.finality
    ensures Takes(c, s, Deliver(t, Succeed(txHash, txHeight, ok)), DoSucceed(c, s, t, txHash, txHeight, ok))
    ensures var tx := RecordOf(s, t, txHash, txHeight); var s' := DoSucceed(c, s, t, txHash, txHeight, ok);
      && s'.objs == s.objs && s'.cache == s.cache && SameTasks(s, s') && s'.now == s.now && s'.heights == s.heights
      && s'.messages == s.messages && s'.txs == if Writes(c, s, t, ok) then s.txs[TxStoreKey(tx) := tx] else s.txs
    ensures DoSucceed(c, s, t, txHash, txHeight, ok).tasks ==
      WithPhase(s, t, if Writes(c, s, t, ok) || (Cached(s, s.tasks[t].ref) && c.finality[s.objs[s.tasks[t].ref].route.msg.dst] == 0) then Delivered else Done)
  {
    var r := s.tasks[t].ref;
    FoundOwn(s, s.objs[r], r);
    FoundCached(s, r);
    hide KeysOwned, CollidedTx, Mark, Found, Cached;
  }

  lemma SucceedStep(c: Config, w: World, s: State, t: nat, txHash: string, txHeight: uint64, ok: bool)
    requires Agrees(c, w, s) && KeysOwned(s) && TaskIn(s, t, Routing) && s.objs[s.tasks[t].ref].route.msg.dst in c.finality
    ensures Takes(c, s, Deliver(t, Succeed(txHash, txHeight, ok)), DoSucceed(c, s, t, txHash, txHeight, ok))
    ensures Agrees(c, w.(db := PutTx(w.db, RecordOf(s, t, txHash, txHeight), Writes(c, s, t, ok))), DoSucceed(c, s, t, txHash, txHeight, ok))
  {
    SucceedEffect(c, s, t, txHash, txHeight, ok);
    hide Agrees, KeysOwned, DoSucceed, Takes, PutTx, Writes;
    TxPut(c, w, s, RecordOf(s, t, txHash, txHeight), Writes(c, s, t, ok), DoSucceed(c, s, t, txHash, txHeight, ok));
  }

  lemma FoundCached(s: State, r: nat)
    requires KeysOwned(s) && r < |s.objs|
    ensures Found(s, s.objs[r]).Some? <==> Cached(s, r)
  {
  }

  function DeliveredCleared(s: State, t: nat, ok: bool): State
    requires TaskIn(s, t, Delivered)
  {
    DoClearStore(DoClearCache(s, t), t, ok)
  }

  lemma DeliveredStep(c: Config, s: State, t: nat, ok: bool)
    requires TaskIn(s, t, Delivered)
    ensures TakesTwo(c, s, Deliver(t, ClearCache), Deliver(t, ClearStore(ok)), DeliveredCleared(s, t, ok))
    ensures OnlyCleared(s, s.tasks[t].ref, ok, DeliveredCleared(s, t, ok))
  {
    hide Mark, Collided, Own, Accounted, Stored;
  }

  /** What a success leaves in the database: the record, if there is a finality wait, and only when
      that could be written is the message deleted. */
  function AfterCallback(db: map<string, Lvldb.Value>, m: Message, waits: bool, txHash: string, txHeight: uint64,
                         written: bool, deleted: bool): map<string, Lvldb.Value> {
    if !waits then DeleteMessage(db, MessageStoreKey(m), deleted)
    else if !written then db
    else DeleteMessage(PutTx(db, TxObject(m.src, m.dst, m.sn, m.eventType, m.height, txHash, txHeight), true), MessageStoreKey(m), deleted)
  }

  /** The record first, if there is a finality wait, then the delete, unless the record was refused. Nothing
      for an object that is no longer cached. */
  function CallbackWrites(m: Message, found: bool, waits: bool, txHash: string, txHeight: uint64,
                          written: bool, deleted: bool): seq<Lvldb.Write> {
    if !found then []
    else if !waits then [DeleteOf(MessageStoreKey(m), deleted)]
    else if !written then [PutTxOf(TxObject(m.src, m.dst, m.sn, m.eventType, m.height, txHash, txHeight), false)]
    else [PutTxOf(TxObject(m.src, m.dst, m.sn, m.eventType, m.height, txHash, txHeight), true), DeleteOf(MessageStoreKey(m), deleted)]
  }

  /** The entry under an object's key is that object's own. */
  lemma KeyFindsOwn(c: Config, w: World, s: State, i: nat)
    requires Agrees(c, w, s) && i < |w.table|
    ensures i < |s.objs| && s.objs[i].home in w.caches
    ensures var cache := w.caches[s.objs[i].home];
      (w.table[i].Key() in cache <==> Cached(s, i)) && (Cached(s, i) ==> cache[w.table[i].Key()] == w.table[i])
  {
    ObjectsCountedIn(c, w, s);
    var cache := w.caches[s.objs[i].home];
    assert CacheAgrees(s.objs[i].home, cache, w.table, s);
    hide CachesAgree, GoroutinesAgree, Represents, HeightsAgree, Cached;
    var k := w.table[i].Key();
    if k in cache {
      var j :| 0 <= j < |w.table| && w.table[j] == cache[k];
      assert w.table[j].Key().sn == w.table[i].sn;
      assert i == j;
    }
    assert Holds(cache, w.table[i]) <==> Cached(s, i);
  }

  /** What has left the message store had expired by now, and nothing else has changed in it. */
  ghost predicate OnlyExpiredLeft(before: map<StoreKey, Route>, after: map<StoreKey, Route>, now: int) {
    && (forall key <- after :: key in before && after[key] == before[key])
    && (forall key <- before :: key in after || before[key].lastTry.Zero? || before[key].lastTry.ns + 86_400_000_000_000 < now)
  }

  lemma NoneLeft(messages: map<StoreKey, Route>, now: int)
    ensures OnlyExpiredLeft(messages, messages, now)
  {
  }

  lemma ExpiryComposes(a: map<StoreKey, Route>, b: map<StoreKey, Route>, c: map<StoreKey, Route>, now: int, now': int)
    requires OnlyExpiredLeft(a, b, now) && OnlyExpiredLeft(b, c, now') && now <= now'
    ensures OnlyExpiredLeft(a, c, now')
  {
  }

  /** For each message whether its delete was tried, and how that went: it was for all that had expired
      at first, and for no message that has not expired by now. */
  ghost predicate Attended(routes: seq<Route>, since: int, now: int, tries: seq<Option<bool>>) {
    && |tries| == |routes| && since <= now
    && (forall i :: 0 <= i < |routes| && (routes[i].lastTry.Zero? || routes[i].lastTry.ns + 86_400_000_000_000 < since) ==> tries[i].Some?)
    && (forall i :: 0 <= i < |routes| && tries[i].Some? ==> routes[i].lastTry.Zero? || routes[i].lastTry.ns + 86_400_000_000_000 < now)
  }

  /** The deletes tried, in order. */
  function DeletesOf(routes: seq<Route>, tries: seq<Option<bool>>): seq<Lvldb.Write>
    requires |tries| == |routes|
  {
    if routes == [] then []
    else
      var n := |routes| - 1;
      DeletesOf(routes[..n], tries[..n]) + DeleteIf(routes[n], tries[n])
  }

  function DeleteIf(route: Route, tried: Option<bool>): seq<Lvldb.Write> {
    if tried.Some? then [DeleteOf(MessageStoreKey(route.msg), tried.value)] else []
  }

  /** What the deletes that succeeded leave. */
  function WithoutDeleted(messages: map<StoreKey, Route>, routes: seq<Route>, tries: seq<Option<bool>>): map<StoreKey, Route>
    requires |tries| == |routes|
  {
    if routes == [] then messages
    else
      var n := |routes| - 1;
      WithoutIf(WithoutDeleted(messages, routes[..n], tries[..n]), routes[n], tries[n])
  }

  function WithoutIf(messages: map<StoreKey, Route>, route: Route, tried: Option<bool>): map<StoreKey, Route> {
    if tried == Some(true) then messages - {MessageStoreKey(route.msg)} else messages
  }

  /** What going over these messages has come to: in the typed store, in the database, and on record. */
  ghost predicate Expunged(routes: seq<Route>, since: int, now: int, tries: seq<Option<bool>>, messages: map<StoreKey, Route>,
                           messages': map<StoreKey, Route>, db: map<string, Lvldb.Value>, db': map<string, Lvldb.Value>,
                           writes: seq<Lvldb.Write>, writes': seq<Lvldb.Write>) {
    && Attended(routes, since, now, tries) && messages' == WithoutDeleted(messages, routes, tries)
    && db' == Lvldb.Replay(db, DeletesOf(routes, tries)) && writes' == writes + DeletesOf(routes, tries)
  }

  lemma ExpungedNone(now: int, messages: map<StoreKey, Route>, db: map<string, Lvldb.Value>, writes: seq<Lvldb.Write>)
    ensures Expunged([], now, now, [], messages, messages, db, db, writes, writes)
  {
  }

  lemma ExpungedOne(routes: seq<Route>, i: nat, since: int, now: int, now': int, tries: seq<Option<bool>>, tried: Option<bool>,
                    messages: map<StoreKey, Route>, messages': map<StoreKey, Route>, db: map<string, Lvldb.Value>,
                    db': map<string, Lvldb.Value>, writes: seq<Lvldb.Write>, writes': seq<Lvldb.Write>)
    requires i < |routes| && Expunged(routes[..i], since, now, tries, messages, messages', db, db', writes, writes') && now <= now'
    requires tried.Some? <==> routes[i].lastTry.Zero? || routes[i].lastTry.ns + 86_400_000_000_000 < now'
    ensures Expunged(routes[..i + 1], since, now', tries + [tried], messages, WithoutIf(messages', routes[i], tried),
                     db, Lvldb.Replay(db', DeleteIf(routes[i], tried)), writes, writes' + DeleteIf(routes[i], tried))
  {
    hide DeleteOf, MessageStoreKey, Lvldb.Replay;
    var done := routes[..i + 1];
    assert done[..i] == routes[..i] && (tries + [tried])[..i] == tries;
    forall j | 0 <= j < i ensures done[j] == routes[..i][j] && (tries + [tried])[j] == tries[j] {}
    Lvldb.ReplayTwo(db, DeletesOf(routes[..i], tries), DeleteIf(routes[i], tried));
  }

  /** One chain's turn in cleaning up. */
  datatype Sweep = Sweep(nid: Nid, since: int, tries: seq<Option<bool>>)

  /** The writes of the turns, one after the other, each for what its chain's scan gives by then. */
  ghost predicate Swept(db: map<string, Lvldb.Value>, sweeps: seq<Sweep>, now: int, writes: seq<Lvldb.Write>)
    decreases |sweeps|
  {
    if sweeps == [] then writes == []
    else
      var last := sweeps[|sweeps| - 1];
      exists i :: 0 <= i <= |writes| && Swept(db, sweeps[..|sweeps| - 1], now, writes[..i]) &&
        SweptBy(last, ScannedRoutes(Lvldb.Replay(db, writes[..i]), last.nid, MAX_FLUSH_MESSAGE), now, writes[i..])
  }

  ghost predicate SweptBy(sweep: Sweep, routes: seq<Route>, now: int, writes: seq<Lvldb.Write>) {
    Attended(routes, sweep.since, now, sweep.tries) && writes == DeletesOf(routes, sweep.tries)
  }

  lemma SweptByLater(sweep: Sweep, routes: seq<Route>, now: int, now': int, writes: seq<Lvldb.Write>)
    requires SweptBy(sweep, routes, now, writes) && now <= now'
    ensures SweptBy(sweep, routes, now', writes)
  {
    hide DeletesOf;
  }

  lemma {:induction false} SweptLater(db: map<string, Lvldb.Value>, sweeps: seq<Sweep>, now: int, now': int, writes: seq<Lvldb.Write>)
    requires Swept(db, sweeps, now, writes) && now <= now'
    ensures Swept(db, sweeps, now', writes)
    decreases |sweeps|
  {
    if sweeps != [] {
      hide ScannedRoutes, Lvldb.Replay, SweptBy;
      var last := sweeps[|sweeps| - 1];
      var i :| 0 <= i <= |writes| && Swept(db, sweeps[..|sweeps| - 1], now, writes[..i]) &&
        SweptBy(last, ScannedRoutes(Lvldb.Replay(db, writes[..i]), last.nid, MAX_FLUSH_MESSAGE), now, writes[i..]);
      SweptLater(db, sweeps[..|sweeps| - 1], now, now', writes[..i]);
      SweptByLater(last, ScannedRoutes(Lvldb.Replay(db, writes[..i]), last.nid, MAX_FLUSH_MESSAGE), now, now', writes[i..]);
    }
  }

  /** Each chain not still to do has had one turn. */
  ghost predicate Turns(sweeps: seq<Sweep>, done: set<Nid>) {
    && (forall sweep <- sweeps :: sweep.nid in done) && (forall nid <- done :: exists sweep :: sweep in sweeps && sweep.nid == nid)
    && (forall i, j :: 0 <= i < j < |sweeps| ==> sweeps[i].nid != sweeps[j].nid)
  }

  /** The clean-up so far: the writes made, what they leave, and whose turns they were. */
  ghost predicate CleanedUp(sweeps: seq<Sweep>, done: set<Nid>, now: int, db: map<string, Lvldb.Value>, db': map<string, Lvldb.Value>,
                            writes: seq<Lvldb.Write>, writes': seq<Lvldb.Write>) {
    Turns(sweeps, done) && writes <= writes' && Swept(db, sweeps, now, writes'[|writes|..]) && db' == Lvldb.Replay(db, writes'[|writes|..])
  }

  lemma NoneCleaned(now: int, db: map<string, Lvldb.Value>, writes: seq<Lvldb.Write>)
    ensures CleanedUp([], {}, now, db, db, writes, writes)
  {
  }

  lemma OneCleaned(sweeps: seq<Sweep>, done: set<Nid>, nid: Nid, now: int, now': int, tries: seq<Option<bool>>,
                   messages: map<StoreKey, Route>, messages': map<StoreKey, Route>, db: map<string, Lvldb.Value>,
                   middle: map<string, Lvldb.Value>, db': map<string, Lvldb.Value>,
                   writes: seq<Lvldb.Write>, between: seq<Lvldb.Write>, writes': seq<Lvldb.Write>)
    requires CleanedUp(sweeps, done, now, db, middle, writes, between) && nid !in done
    requires Expunged(ScannedRoutes(middle, nid, MAX_FLUSH_MESSAGE), now, now', tries, messages, messages', middle, db', between, writes')
    ensures CleanedUp(sweeps + [Sweep(nid, now, tries)], done + {nid}, now', db, db', writes, writes')
  {
    hide ScannedRoutes, Lvldb.Replay, DeletesOf, Attended, Turns;
    var more := sweeps + [Sweep(nid, now, tries)];
    var routes := ScannedRoutes(middle, nid, MAX_FLUSH_MESSAGE);
    var before, all := between[|writes|..], writes'[|writes|..];
    assert more[..|sweeps|] == sweeps;
    AttendedOrder(routes, now, now', tries);
    SweptLater(db, sweeps, now, now', before);
    assert all == before + DeletesOf(routes, tries) && all[..|before|] == before && all[|before|..] == DeletesOf(routes, tries);
    assert SweptBy(Sweep(nid, now, tries), routes, now', all[|before|..]);
    Lvldb.ReplayTwo(db, before, DeletesOf(routes, tries));
    OneTurn(sweeps, done, Sweep(nid, now, tries));
  }

  lemma AttendedOrder(routes: seq<Route>, since: int, now: int, tries: seq<Option<bool>>)
    requires Attended(routes, since, now, tries)
    ensures since <= now && |tries| == |routes|
  {
  }

  lemma OneTurn(sweeps: seq<Sweep>, done: set<Nid>, sweep: Sweep)
    requires Turns(sweeps, done) && sweep.nid !in done
    ensures Turns(sweeps + [sweep], done + {sweep.nid})
  {
    var more := sweeps + [sweep];
    forall nid | nid in done + {sweep.nid} ensures exists x :: x in more && x.nid == nid {
      if nid == sweep.nid {
        assert more[|sweeps|] == sweep;
      } else {
        var x :| x in sweeps && x.nid == nid;
        assert x in more;
      }
    }
  }

  lemma ReplayDelete(db: map<string, Lvldb.Value>, route: Route, tried: Option<bool>)
    ensures Lvldb.Replay(db, DeleteIf(route, tried)) == DeleteMessage(db, MessageStoreKey(route.msg), tried == Some(true))
    ensures tried.None? ==> Lvldb.Replay(db, DeleteIf(route, tried)) == db
  {
    hide MessageDbKey, MessageStoreKey;
    if tried.Some? {
      assert [DeleteOf(MessageStoreKey(route.msg), tried.value)][..0] == [];
    }
  }

  lemma FirstHeld(routes: seq<Route>, messages: map<StoreKey, Route>)
    requires Held(routes, messages) && routes != []
    ensures MessageStoreKey(routes[0].msg) in messages && messages[MessageStoreKey(routes[0].msg)] == routes[0]
    ensures Held(routes[1..], messages) && Held(routes[1..], messages - {MessageStoreKey(routes[0].msg)})
  {
  }

  lemma OneExpired(routes: seq<Route>, messages: map<StoreKey, Route>, tried: Option<bool>, now: int)
    requires Held(routes, messages) && routes != [] && (tried.Some? ==> routes[0].lastTry.Zero? || routes[0].lastTry.ns + 86_400_000_000_000 < now)
    ensures OnlyExpiredLeft(messages, WithoutIf(messages, routes[0], tried), now)
    ensures Held(routes[1..], WithoutIf(messages, routes[0], tried))
  {
  }

  // ----- Copies of stored messages

  /** A copy read from the store and filed. */
  function CopyFiled(s: State, nid: Nid, key: StoreKey, purpose: Purpose): State
    requires key in s.messages
  {
    DoMerge(DoRead(s, nid, key, purpose), |s.objs|)
  }

  lemma StepCopy(c: Config, w: World, s: State, nid: Nid, key: StoreKey, purpose: Purpose, r: RouteMessage)
    requires Agrees(c, w, s) && KeysOwned(s) && nid in c.finality && key in s.messages
    requires FitsNew(w, r, s.messages[key])
    requires !purpose.ForExpiry? && (purpose.ForFlush? ==> !IsStale(s.messages[key]))
    ensures TakesTwo(c, s, In(Read(nid, key, purpose)), In(Merge(|s.objs|)), CopyFiled(s, nid, key, purpose))
    ensures nid in w.caches && r.Key() !in w.caches[nid]
    ensures Agrees(c, WithCached(w, nid, r, s.messages[key]), CopyFiled(s, nid, key, purpose))
  {
    hide Agrees, KeysOwned, FitsNew, DoMerge;
    StepRead(c, w, s, nid, key, purpose, r);
    ObjectsCountedIn(c, w, s);
    StepMerge(c, WithNew(w, r, s.messages[key]), DoRead(s, nid, key, purpose), |s.objs|);
  }

  lemma ObjectsCountedIn(c: Config, w: World, s: State)
    requires Agrees(c, w, s)
    ensures |w.table| == |w.routes| == |s.objs|
    ensures forall i :: 0 <= i < |s.objs| ==> w.routes[i] == s.objs[i].route && w.table[i].message == s.objs[i].route.msg
    ensures forall i :: 0 <= i < |s.objs| ==> w.table[i].sn.value == w.table[i].message.sn && s.objs[i].home in c.finality
  {
    ObjectsCounted(w.table, w.routes, s.objs);
  }

  /** A copy read from the store, expired, and cleared. */
  function CopyExpired(s: State, nid: Nid, key: StoreKey, ok: bool): State
    requires key in s.messages
  {
    DoExpire(DoRead(s, nid, key, ForExpiry), |s.objs|, ok)
  }

  lemma StepExpire(c: Config, w: World, s: State, nid: Nid, key: StoreKey, ok: bool, r: RouteMessage)
    requires Agrees(c, w, s) && KeysOwned(s) && nid in c.finality && key in s.messages
    requires FitsNew(w, r, s.messages[key]) && IsElapsed(s.messages[key], MESSAGE_EXPIRATION, s.now)
    ensures TakesTwo(c, s, In(Read(nid, key, ForExpiry)), In(Expire(|s.objs|, ok)), CopyExpired(s, nid, key, ok))
    ensures key == MessageStoreKey(s.messages[key].msg)
    ensures nid in w.caches && w.caches[nid] - {r.Key()} == w.caches[nid]
    ensures w.caches[nid := w.caches[nid] - {r.Key()}] == w.caches
    ensures Agrees(c, WithNew(w, r, s.messages[key]).(db := DeleteMessage(w.db, key, ok)), CopyExpired(s, nid, key, ok))
  {
    hide Agrees, KeysOwned, FitsNew, Mark, Collided, Own, DeleteMessage;
    StoredUnderOwnKey(s, key);
    StepRead(c, w, s, nid, key, ForExpiry, r);
    ObjectsCountedIn(c, w, s);
    RemovesNothing(w.caches, nid, r.Key());
    assert (w.table + [r])[|s.objs|] == r;
    StepClear(c, WithNew(w, r, s.messages[key]), DoRead(s, nid, key, ForExpiry), |s.objs|, ok, CopyExpired(s, nid, key, ok));
  }

  lemma RemovesNothing(caches: map<Nid, Cache>, nid: Nid, key: MessageKey)
    requires nid in caches && key !in caches[nid]
    ensures caches[nid] - {key} == caches[nid] && caches[nid := caches[nid] - {key}] == caches
  {
    assert caches[nid] - {key} == caches[nid];
  }

  lemma StoredUnderOwnKey(s: State, key: StoreKey)
    requires KeysOwned(s) && key in s.messages
    ensures key == MessageStoreKey(s.messages[key].msg)
  {
  }

  // ----- The finality pass

  lemma PassLatchStep(c: Config, w: World, s: State, nid: Nid)
    requires Agrees(c, w, s) && CanPass(c, s, PassLatch(nid))
    ensures Takes(c, s, Finality(PassLatch(nid)), s.(pass := Latched(nid, HeightOf(s, nid))))
    ensures Agrees(c, w, s.(pass := Latched(nid, HeightOf(s, nid))))
    ensures nid in w.heights && HeightOf(s, nid) == w.heights[nid]
  {
    assert HeightsAgree(w.heights, s);
    hide Agrees;
    Unseen(c, w, s, s.(pass := Latched(nid, HeightOf(s, nid))));
  }

  lemma PassReadStep(c: Config, w: World, s: State, txs: seq<TxObject>)
    requires Agrees(c, w, s) && CanPass(c, s, PassRead(txs))
    ensures Takes(c, s, Finality(PassRead(txs)), s.(pass := Scanning(s.pass.nid, s.pass.height, txs)))
    ensures Agrees(c, w, s.(pass := Scanning(s.pass.nid, s.pass.height, txs)))
  {
    hide Agrees;
    Unseen(c, w, s, s.(pass := Scanning(s.pass.nid, s.pass.height, txs)));
  }

  lemma PassSkipStep(c: Config, w: World, s: State)
    requires Agrees(c, w, s) && AtRecord(s)
    ensures Takes(c, s, Finality(PassSkip), s.(pass := Scanning(s.pass.nid, s.pass.height, s.pass.rest[1..])))
    ensures Agrees(c, w, s.(pass := Scanning(s.pass.nid, s.pass.height, s.pass.rest[1..])))
  {
    hide Agrees;
    Unseen(c, w, s, s.(pass := Scanning(s.pass.nid, s.pass.height, s.pass.rest[1..])));
  }

  lemma PassConfirmStep(c: Config, w: World, s: State, ok: bool)
    requires Agrees(c, w, s) && AtMature(c, s)
    ensures Takes(c, s, Finality(PassConfirm(ok)), DoPassConfirm(s, ok))
    ensures Agrees(c, w.(db := DeleteTx(w.db, TxStoreKey(s.pass.rest[0]), ok)), DoPassConfirm(s, ok))
  {
    hide Agrees, DeleteTx, Mark, CollidedTx, Mature;
    TxDeleted(c, w, s, TxStoreKey(s.pass.rest[0]), ok, DoPassConfirm(s, ok));
  }

  lemma PassRegenerateStep(c: Config, w: World, s: State)
    requires Agrees(c, w, s) && AtMature(c, s) && s.pass.rest[0].src in c.finality
    ensures Takes(c, s, Finality(PassRegenerate), DoPassRegenerate(s))
    ensures Agrees(c, w.(db := DeleteTx(w.db, TxStoreKey(s.pass.rest[0]), true)), DoPassRegenerate(s))
  {
    hide Agrees, DeleteTx, Mark, CollidedTx, Mature;
    TxDeleted(c, w, s, TxStoreKey(s.pass.rest[0]), true, DoPassRegenerate(s));
  }

  lemma RegenerateEffect(s: State)
    requires AtRecord(s)
    ensures var tx := s.pass.rest[0]; var s' := DoPassRegenerate(s);
      && s'.pass == Generating(s.pass.nid, s.pass.height, s.pass.rest[1..], tx) && s'.txs == s.txs - {TxStoreKey(tx)}
      && s'.messages == s.messages && s'.heights == s.heights
  {
  }

  lemma NotDeletedTx(w: World, key: StoreKey)
    ensures w.(db := DeleteTx(w.db, key, false)) == w
  {
  }

  lemma PassGeneratedStep(c: Config, w: World, s: State, answer: Option<seq<Message>>)
    requires Agrees(c, w, s) && s.pass.Generating?
    ensures Takes(c, s, Finality(PassGenerated(answer)), DoPassGenerated(s, answer))
    ensures Agrees(c, w, DoPassGenerated(s, answer))
  {
    hide Agrees, Mark;
    Unseen(c, w, s, DoPassGenerated(s, answer));
  }

  lemma PassMergedStep(c: Config, w: World, s: State)
    requires Agrees(c, w, s) && s.pass.Merging? && s.pass.msgs == []
    ensures Takes(c, s, Finality(PassMerged), s.(pass := Scanning(s.pass.nid, s.pass.height, s.pass.rest)))
    ensures Agrees(c, w, s.(pass := Scanning(s.pass.nid, s.pass.height, s.pass.rest)))
  {
    hide Agrees;
    Unseen(c, w, s, s.(pass := Scanning(s.pass.nid, s.pass.height, s.pass.rest)));
  }

  // ----- What scans of the database give

  function ScannedTxs(db: map<string, Lvldb.Value>, nid: Nid, limit: nat): seq<Lvldb.Pair> {
    Stores.First(Lvldb.Entries(db, StoreKeys.GetKey([FINALITY, nid])), limit)
  }

  lemma ScannedTxsHeld(db: map<string, Lvldb.Value>, v: View, nid: Nid, limit: nat)
    requires Represents(db, v) && Stores.AllTxs(ScannedTxs(db, nid, limit))
    ensures |ScannedTxs(db, nid, limit)| <= limit
    ensures forall tx <- Stores.Txs(ScannedTxs(db, nid, limit)) :: tx in v.txs.Values
  {
    hide Lvldb.Entries, StoreKeys.GetKey, Lvldb.Matching, TxDbKey, Stores.Txs, StoreKeys.Less;
    var scanned := ScannedTxs(db, nid, limit);
    var txs := Stores.Txs(scanned);
    Lvldb.EntriesOrdered(db, StoreKeys.GetKey([FINALITY, nid]));
    forall tx | tx in txs ensures tx in v.txs.Values {
      var i :| 0 <= i < |txs| && txs[i] == tx;
      assert db[scanned[i].0] == Lvldb.TxValue(tx);
      assert v.txs[TxStoreKey(tx)] == tx;
    }
  }

  function Scanned(db: map<string, Lvldb.Value>, nid: Nid, limit: nat): seq<Lvldb.Pair> {
    Stores.Limited(Lvldb.Entries(db, ChainPrefix(nid)), limit)
  }

  /** The messages a limited scan gives, none if an entry does not decode. */
  function ScannedRoutes(db: map<string, Lvldb.Value>, nid: Nid, limit: nat): seq<Route> {
    var scanned := Scanned(db, nid, limit); if Stores.AllMessages(scanned) then Stores.Routes(scanned) else []
  }

  /** Each route is what the store holds under its key, and no key occurs twice. */
  ghost predicate Held(routes: seq<Route>, messages: map<StoreKey, Route>) {
    && (forall i :: 0 <= i < |routes| ==>
          MessageStoreKey(routes[i].msg) in messages && messages[MessageStoreKey(routes[i].msg)] == routes[i])
    && (forall i, j :: 0 <= i < j < |routes| ==> MessageStoreKey(routes[i].msg) != MessageStoreKey(routes[j].msg))
  }

  /** Whatever a scan visits, of this chain or of one whose keys continue its prefix, is stored. */
  lemma ScannedHeld(db: map<string, Lvldb.Value>, v: View, nid: Nid, limit: nat)
    requires Represents(db, v) && Stores.AllMessages(Scanned(db, nid, limit))
    ensures Held(Stores.Routes(Scanned(db, nid, limit)), v.messages)
  {
    hide Lvldb.Entries, ChainPrefix, Lvldb.Matching, MessageDbKey, Stores.Routes, StoreKeys.Less;
    var scanned := Scanned(db, nid, limit);
    var routes := Stores.Routes(scanned);
    Lvldb.EntriesOrdered(db, ChainPrefix(nid));
    forall i | 0 <= i < |routes|
      ensures scanned[i].0 == MessageDbKey(MessageStoreKey(routes[i].msg))
      ensures MessageStoreKey(routes[i].msg) in v.messages && v.messages[MessageStoreKey(routes[i].msg)] == routes[i]
    {
      assert db[scanned[i].0] == scanned[i].1;
    }
    forall i, j | 0 <= i < j < |routes|
      ensures MessageStoreKey(routes[i].msg) != MessageStoreKey(routes[j].msg)
    {
      assert StoreKeys.Less(scanned[i].0, scanned[j].0);
      StoreKeys.LessIrreflexive(scanned[i].0);
    }
  }

  /** The routes a flush takes. */
  function NotStale(routes: seq<Route>): (r: seq<Route>)
    ensures |r| <= |routes|
    ensures forall x <- r :: x in routes && x.retry < 15
    ensures forall x <- routes :: x.retry < 15 ==> x in r
  {
    if routes == [] then []
    else
      var last := routes[|routes| - 1];
      NotStale(routes[..|routes| - 1]) + if IsStale(last) then [] else [last]
  }

  const MAX_FLUSH_MESSAGE: nat := 10

  /** What flushing a chain copies: nothing if an entry of the scan does not decode. */
  function ToFlush(db: map<string, Lvldb.Value>, nid: Nid): seq<Route> {
    var scanned := Scanned(db, nid, MAX_FLUSH_MESSAGE);
    if Stores.AllMessages(scanned) then NotStale(Stores.Routes(scanned)) else []
  }

  /** What flushing does to a cache: every entry in it stays, and one copy of each route joins. */
  ghost predicate Flushed(before: map<MessageKey, Route>, after: map<MessageKey, Route>, routes: seq<Route>) {
    && (forall k <- before :: k in after && after[k] == before[k])
    && |after| == |before| + |routes|
    && (forall k <- after :: k in before || after[k] in routes)
    && (forall route <- routes :: Joined(before, after, route))
  }

  ghost predicate Joined(before: map<MessageKey, Route>, after: map<MessageKey, Route>, route: Route) {
    exists k :: k in after && k !in before && after[k] == route
  }

  lemma NoneFlushed(cache: map<MessageKey, Route>)
    ensures Flushed(cache, cache, [])
  {
  }

  /** Every cache that is not still to do has been flushed, the others are as they were. */
  ghost predicate FlushedAll(before: map<Nid, map<MessageKey, Route>>, after: map<Nid, map<MessageKey, Route>>,
                             db: map<string, Lvldb.Value>, todo: set<Nid>) {
    before.Keys == after.Keys &&
    forall nid <- before :: if nid in todo then after[nid] == before[nid] else Flushed(before[nid], after[nid], ToFlush(db, nid))
  }

  lemma NoneFlushedYet(caches: map<Nid, map<MessageKey, Route>>, db: map<string, Lvldb.Value>)
    ensures FlushedAll(caches, caches, db, caches.Keys)
  {
  }

  lemma FlushedOne(before: map<Nid, map<MessageKey, Route>>, middle: map<Nid, map<MessageKey, Route>>,
                   db: map<string, Lvldb.Value>, todo: set<Nid>, nid: Nid, cache: map<MessageKey, Route>)
    requires FlushedAll(before, middle, db, todo) && nid in todo && nid in middle
    requires Flushed(middle[nid], cache, ToFlush(db, nid))
    ensures FlushedAll(before, middle[nid := cache], db, todo - {nid})
  {
    hide Flushed, ToFlush;
  }

  lemma JoinedGrows(before: map<MessageKey, Route>, cache: map<MessageKey, Route>, key: MessageKey, last: Route, route: Route)
    requires key !in cache && (forall k <- before :: k in cache)
    ensures Joined(before, cache, route) ==> Joined(before, cache[key := last], route)
    ensures Joined(before, cache[key := last], last)
  {
    if Joined(before, cache, route) {
      var k :| k in cache && k !in before && cache[k] == route;
      assert cache[key := last][k] == route;
    }
    assert cache[key := last][key] == last;
  }

  lemma FlushedGrows(before: map<MessageKey, Route>, cache: map<MessageKey, Route>, routes: seq<Route>, i: nat, key: MessageKey)
    requires i < |routes| && Flushed(before, cache, routes[..i]) && key !in cache
    ensures Flushed(before, cache[key := routes[i]], routes[..i + 1])
  {
    hide Joined;
    var seen := routes[..i];
    assert routes[..i + 1] == seen + [routes[i]];
    forall route | route in seen + [routes[i]]
      ensures Joined(before, cache[key := routes[i]], route)
    {
      JoinedGrows(before, cache, key, routes[i], route);
    }
  }

  /** A copy of a message in the store that is not stale. */
  predicate FromStore(route: Route, messages: map<StoreKey, Route>) {
    MessageStoreKey(route.msg) in messages && messages[MessageStoreKey(route.msg)] == route && route.retry < 15
  }

  lemma ActiveHeld(routes: seq<Route>, messages: map<StoreKey, Route>)
    requires Held(routes, messages)
    ensures |NotStale(routes)| <= |routes| && forall x <- NotStale(routes) :: FromStore(x, messages)
  {
    hide NotStale;
  }

  /** A cache has kept every entry it had. */
  ghost predicate Kept(before: Cache, after: Cache) {
    forall k <- before :: k in after && after[k] == before[k]
  }

  lemma KeptAtFirst(cache: Cache)
    ensures Kept(cache, cache)
  {
  }

  lemma KeptOn(a: Cache, b: Cache, c: Cache)
    requires Kept(a, b) && Kept(b, c)
    ensures Kept(a, c)
  {
  }

  ghost predicate AllKept(before: map<Nid, Cache>, after: map<Nid, Cache>) {
    before.Keys == after.Keys && forall nid <- before :: Kept(before[nid], after[nid])
  }

  lemma AllKeptComposes(a: map<Nid, Cache>, b: map<Nid, Cache>, c: map<Nid, Cache>)
    requires AllKept(a, b) && AllKept(b, c)
    ensures AllKept(a, c)
  {
  }

  lemma AllKeptFirst(a: map<Nid, Cache>)
    ensures AllKept(a, a)
  {
  }
}
