/** What a flush and a finality pass take from the database, and what they never get to. */
module RelayFlush {
  import opened RelayTypes
  import opened RelayObjects
  import opened StoreKeys
  import opened StoreRefinement
  import opened RelaySteps
  import Lvldb
  import Stores

  ghost predicate InContents(cache: map<MessageKey, Route>, route: Route) {
    exists k :: k in cache && cache[k] == route
  }

  lemma FlushedFromEmpty(after: map<MessageKey, Route>, routes: seq<Route>, route: Route)
    requires Flushed(map[], after, routes)
    ensures InContents(after, route) <==> route in routes
  {
    if InContents(after, route) {
      var k :| k in after && after[k] == route;
    }
    if route in routes {
      assert Joined(map[], after, route);
    }
  }

  /** A message is flushed exactly when it is not stale and among the first ten of its chain's scan, all of
      which decode. */
  lemma FlushTakes(db: map<string, Lvldb.Value>, nid: Nid, route: Route)
    ensures route in ToFlush(db, nid) <==>
      Stores.AllMessages(Scanned(db, nid, 10)) && route.retry < 15 && route in Stores.Routes(Scanned(db, nid, 10))
  {
  }

  /** What it takes for a chain whose scan is unambiguous are messages of that chain. */
  lemma OnlyOwnChain(db: map<string, Lvldb.Value>, v: View, nid: Nid, route: Route)
    requires Represents(db, v) && Unambiguous(v, nid) && route in ToFlush(db, nid)
    ensures route.msg.src == nid
  {
    var scanned := Scanned(db, nid, MAX_FLUSH_MESSAGE);
    ScanInOrder(db, v, nid, MAX_FLUSH_MESSAGE);
    hide Lvldb.Entries, Represents, Unambiguous, Scanned, OfChain;
    FlushTakes(db, nid, route);
    var j :| 0 <= j < |scanned| && scanned[j].1 == Lvldb.MessageValue(route);
    assert EntryOfChain(v, nid, scanned[j]);
  }

  /** And the finality pass of such a chain sees records of deliveries to that chain. */
  lemma OnlyOwnScanned(db: map<string, Lvldb.Value>, v: View, nid: Nid, limit: nat, tx: TxObject)
    requires Represents(db, v) && UnambiguousTxs(v, nid) && Stores.AllTxs(ScannedTxs(db, nid, limit))
    requires tx in Stores.Txs(ScannedTxs(db, nid, limit))
    ensures tx.dst == nid
  {
    hide Lvldb.Entries, Represents, UnambiguousTxs, GetKey, Stores.Txs;
    var scanned := ScannedTxs(db, nid, limit);
    Lvldb.EntriesOrdered(db, GetKey([FINALITY, nid]));
    var j :| 0 <= j < |scanned| && scanned[j].1 == Lvldb.TxValue(tx);
    OnlyOwnRecords(db, v, nid, scanned[j].0);
  }

  // ----- Messages behind ten others

  ghost predicate Ahead(v: View, nid: Nid, k: StoreKey, ahead: set<StoreKey>) {
    forall a <- ahead :: a in v.messages && a.nid == nid && Less(MessageDbKey(a), MessageDbKey(k))
  }

  function KeysUpTo(entries: seq<Lvldb.Pair>, n: nat): (r: set<string>)
    requires n <= |entries|
    ensures |r| <= n && forall i :: 0 <= i < n ==> entries[i].0 in r
  {
    if n == 0 then {} else KeysUpTo(entries, n - 1) + {entries[n - 1].0}
  }

  /** An entry with ten others before it is not among the first ten. */
  lemma BehindTen(db: map<string, Lvldb.Value>, v: View, nid: Nid, k: StoreKey, ahead: set<StoreKey>, j: nat)
    requires Represents(db, v) && Ahead(v, nid, k, ahead)
    requires j < |Lvldb.Entries(db, ChainPrefix(nid))| && Lvldb.Entries(db, ChainPrefix(nid))[j].0 == MessageDbKey(k)
    ensures |ahead| <= j
  {
    hide Lvldb.Entries, ChainPrefix, MessageDbKey, SnString, Less, Lvldb.Matching, Represents;
    var all := Lvldb.Entries(db, ChainPrefix(nid));
    Lvldb.EntriesOrdered(db, ChainPrefix(nid));
    var keys := set a | a in ahead :: MessageDbKey(a);
    forall a | a in ahead ensures MessageDbKey(a) in KeysUpTo(all, j) {
      GetRefines(db, v, a, nid);
      PrefixOfKey(nid, a);
      Lvldb.EntriesComplete(db, ChainPrefix(nid), MessageDbKey(a));
      var i :| 0 <= i < |all| && all[i] == (MessageDbKey(a), db[MessageDbKey(a)]);
      BeforeByOrder(all, i, j);
    }
    SubsetCount(keys, KeysUpTo(all, j));
    DistinctKeys(ahead);
  }

  lemma BeforeByOrder(all: seq<Lvldb.Pair>, i: nat, j: nat)
    requires i < |all| && j < |all| && Less(all[i].0, all[j].0)
    requires forall a, b :: 0 <= a < b < |all| ==> Less(all[a].0, all[b].0)
    ensures i < j
  {
    LessIrreflexive(all[j].0);
    if i > j {
      LessTransitive(all[j].0, all[i].0, all[j].0);
    }
  }

  lemma SubsetCount(a: set<string>, b: set<string>)
    requires a <= b
    ensures |a| <= |b|
  {
    assert b == a + (b - a);
  }

  lemma {:induction false} DistinctKeys(ahead: set<StoreKey>)
    ensures |set a | a in ahead :: MessageDbKey(a)| == |ahead|
  {
    var keys := set a | a in ahead :: MessageDbKey(a);
    if ahead != {} {
      var a :| a in ahead;
      var rest := set b | b in ahead - {a} :: MessageDbKey(b);
      forall b | b in ahead - {a} ensures MessageDbKey(b) != MessageDbKey(a) { KeysApart(a, b, "", ""); }
      assert keys == rest + {MessageDbKey(a)} && MessageDbKey(a) !in rest;
      DistinctKeys(ahead - {a});
    } else {
      assert keys == {};
    }
  }

  /** A stored message with ten others of its chain before it in key order is not flushed, whether those
      are stale or not: it waits until some of them are gone. */
  lemma StarvedOut(db: map<string, Lvldb.Value>, v: View, nid: Nid, k: StoreKey, ahead: set<StoreKey>)
    requires Represents(db, v) && k in v.messages && Ahead(v, nid, k, ahead) && |ahead| >= 10
    ensures v.messages[k] !in ToFlush(db, nid)
  {
    var scanned := Scanned(db, nid, MAX_FLUSH_MESSAGE);
    if v.messages[k] in ToFlush(db, nid) {
      FlushTakes(db, nid, v.messages[k]);
      var j :| 0 <= j < |scanned| && scanned[j].1 == Lvldb.MessageValue(v.messages[k]);
      ScannedUnder(db, v, nid, j, k);
      BehindTen(db, v, nid, k, ahead, j);
    }
  }

  lemma ScannedUnder(db: map<string, Lvldb.Value>, v: View, nid: Nid, j: nat, k: StoreKey)
    requires Represents(db, v) && k in v.messages
    requires j < |Lvldb.Entries(db, ChainPrefix(nid))| && Lvldb.Entries(db, ChainPrefix(nid))[j].1 == Lvldb.MessageValue(v.messages[k])
    ensures Lvldb.Entries(db, ChainPrefix(nid))[j].0 == MessageDbKey(k)
  {
    hide Lvldb.Entries, ChainPrefix, MessageDbKey;
    Lvldb.EntriesOrdered(db, ChainPrefix(nid));
  }

  // ----- A store no flush gets anything out of

  function StaleRoute(nid: Nid, sn: nat): Route {
    Route(Message("", nid, sn, "", 0, "", 0), STALE_MARK_COUNT, false, Zero)
  }

  function FreshRoute(nid: Nid): Route {
    Fresh(Message("", nid, 20, "", 0, "", 0))
  }

  /** Ten stale messages, numbered from 10 to 19, and one never tried, numbered 20. */
  lemma StarvedStore(nid: Nid) returns (db: map<string, Lvldb.Value>, v: View)
    ensures Represents(db, v) && v.messages.Keys == set sn: nat | 10 <= sn <= 20 :: StoreKey(nid, sn)
    ensures v.messages[StoreKey(nid, 20)] == FreshRoute(nid) && FreshRoute(nid).retry < 15
    ensures forall sn :: 10 <= sn <= 19 ==> v.messages[StoreKey(nid, sn)] == StaleRoute(nid, sn)
    ensures ToFlush(db, nid) == []
  {
    hide MessageDbKey, TxDbKey, BlockDbKey, ToFlush, Less;
    db, v := StaleStore(nid, 20);
    PutMessageRefines(db, v, FreshRoute(nid));
    db := db[MessageDbKey(StoreKey(nid, 20)) := Lvldb.MessageValue(FreshRoute(nid))];
    v := v.(messages := v.messages[StoreKey(nid, 20) := FreshRoute(nid)]);
    var ahead := set sn: nat | 10 <= sn <= 19 :: StoreKey(nid, sn);
    TenKeys(nid);
    forall a | a in ahead ensures Less(MessageDbKey(a), MessageDbKey(StoreKey(nid, 20))) { TeenFirst(nid, a.sn); }
    StarvedOut(db, v, nid, StoreKey(nid, 20), ahead);
    if ToFlush(db, nid) != [] { OnlyFreshCounts(db, v, nid, ToFlush(db, nid)[0]); }
  }

  lemma OnlyFreshCounts(db: map<string, Lvldb.Value>, v: View, nid: Nid, route: Route)
    requires Represents(db, v) && (forall key <- v.messages :: IsStale(v.messages[key]) || key == StoreKey(nid, 20))
    requires StoreKey(nid, 20) in v.messages && v.messages[StoreKey(nid, 20)] !in ToFlush(db, nid)
    ensures route !in ToFlush(db, nid)
  {
    FlushTakes(db, nid, route);
    hide ToFlush, Stores.Routes, Represents;
    var scanned := Scanned(db, nid, MAX_FLUSH_MESSAGE);
    if Stores.AllMessages(scanned) {
      ScannedHeld(db, v, nid, MAX_FLUSH_MESSAGE);
    }
  }

  lemma {:induction false} StaleStore(nid: Nid, n: nat) returns (db: map<string, Lvldb.Value>, v: View)
    requires 10 <= n <= 20
    ensures Represents(db, v) && v.messages.Keys == set sn: nat | 10 <= sn < n :: StoreKey(nid, sn)
    ensures forall sn :: 10 <= sn < n ==> v.messages[StoreKey(nid, sn)] == StaleRoute(nid, sn)
  {
    if n == 10 {
      db, v := map[], View(map[], map[], map[]);
    } else {
      db, v := StaleStore(nid, n - 1);
      hide MessageDbKey, TxDbKey, BlockDbKey;
      PutMessageRefines(db, v, StaleRoute(nid, n - 1));
      db := db[MessageDbKey(StoreKey(nid, n - 1)) := Lvldb.MessageValue(StaleRoute(nid, n - 1))];
      v := v.(messages := v.messages[StoreKey(nid, n - 1) := StaleRoute(nid, n - 1)]);
    }
  }

  lemma TenKeys(nid: Nid)
    ensures |set sn: nat | 10 <= sn <= 19 :: StoreKey(nid, sn)| == 10
  {
    CountKeys(nid, 20);
    assert (set sn: nat | 10 <= sn <= 19 :: StoreKey(nid, sn)) == (set sn: nat | 10 <= sn < 20 :: StoreKey(nid, sn));
  }

  lemma {:induction false} CountKeys(nid: Nid, n: nat)
    requires 10 <= n <= 20
    ensures |set sn: nat | 10 <= sn < n :: StoreKey(nid, sn)| == n - 10
  {
    var keys := set sn: nat | 10 <= sn < n :: StoreKey(nid, sn);
    if n == 10 {
      assert keys == {};
    } else {
      CountKeys(nid, n - 1);
      assert keys == (set sn: nat | 10 <= sn < n - 1 :: StoreKey(nid, sn)) + {StoreKey(nid, n - 1)};
    }
  }

  lemma {:induction false} LessAfter(p: string, a: string, b: string)
    requires Less(a, b)
    ensures Less(p + a, p + b)
  {
    if p == "" {
      assert p + a == a && p + b == b;
    } else {
      LessAfter(p[1..], a, b);
      assert (p + a)[1..] == p[1..] + a && (p + b)[1..] == p[1..] + b;
    }
  }

  lemma TeenFirst(nid: Nid, sn: nat)
    requires 10 <= sn <= 19
    ensures Less(MessageDbKey(StoreKey(nid, sn)), MessageDbKey(StoreKey(nid, 20)))
  {
    ScopedKeyForm(MESSAGE, nid, sn);
    ScopedKeyForm(MESSAGE, nid, 20);
    assert Decimal(sn) == [Digit(1), Digit(sn % 10)] && Decimal(20) == [Digit(2), Digit(0)];
    assert Less(Decimal(sn), Decimal(20));
    var p := MESSAGE + "-" + (nid + "-");
    LessAfter(p, Decimal(sn), Decimal(20));
    assert p + Decimal(sn) == MESSAGE + "-" + (nid + "-" + Decimal(sn));
    assert p + Decimal(20) == MESSAGE + "-" + (nid + "-" + Decimal(20));
  }
}
