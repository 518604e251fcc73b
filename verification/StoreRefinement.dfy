/** Three stores in one string-keyed map behave as three independent typed maps. */
module StoreRefinement {
  import opened RelayTypes
  import opened StoreKeys
  import opened Lvldb
  import opened Stores

  const MESSAGE := "message"
  const BLOCK := "block"
  const FINALITY := "finality"

  /** What the engine thinks it keeps. */
  datatype View = View(messages: map<StoreKey, Route>, txs: map<StoreKey, TxObject>, blocks: map<Nid, nat>)

  function MessageDbKey(k: StoreKey): string {
    ScopedKey(MESSAGE, k.nid, k.sn)
  }

  function TxDbKey(k: StoreKey): string {
    ScopedKey(FINALITY, k.nid, k.sn)
  }

  function BlockDbKey(nid: Nid): string {
    GetKey([BLOCK, nid])
  }

  ghost predicate HoldsMessages(db: map<string, Value>, v: View) {
    && (forall k <- v.messages :: k == MessageStoreKey(v.messages[k].msg)
          && MessageDbKey(k) in db && db[MessageDbKey(k)] == MessageValue(v.messages[k]))
    && (forall s <- db :: db[s].MessageValue? ==>
          MessageStoreKey(db[s].route.msg) in v.messages && s == MessageDbKey(MessageStoreKey(db[s].route.msg)))
  }

  ghost predicate HoldsTxs(db: map<string, Value>, v: View) {
    && (forall k <- v.txs :: k == TxStoreKey(v.txs[k]) && TxDbKey(k) in db && db[TxDbKey(k)] == TxValue(v.txs[k]))
    && (forall s <- db :: db[s].TxValue? ==> TxStoreKey(db[s].tx) in v.txs && s == TxDbKey(TxStoreKey(db[s].tx)))
  }

  ghost predicate HoldsBlocks(db: map<string, Value>, v: View) {
    && (forall nid <- v.blocks :: BlockDbKey(nid) in db && db[BlockDbKey(nid)] == HeightValue(v.blocks[nid]))
    && (forall s <- db :: db[s].HeightValue? ==> exists nid :: nid in v.blocks && s == BlockDbKey(nid))
  }

  /** The database holds exactly the three maps. */
  ghost predicate Represents(db: map<string, Value>, v: View) {
    HoldsMessages(db, v) && HoldsTxs(db, v) && HoldsBlocks(db, v)
  }

  /** How the keys read. */
  lemma KeyTexts(k: StoreKey, nid: Nid)
    ensures MessageDbKey(k) == "message-" + (k.nid + "-" + Decimal(k.sn))
    ensures TxDbKey(k) == "finality-" + (k.nid + "-" + Decimal(k.sn))
    ensures BlockDbKey(nid) == "block-" + nid
  {
    ScopedKeyForm(MESSAGE, k.nid, k.sn);
    ScopedKeyForm(FINALITY, k.nid, k.sn);
    ChainKeyForm(BLOCK, nid);
    assert MESSAGE + "-" == "message-" && FINALITY + "-" == "finality-" && BLOCK + "-" == "block-";
  }

  /** The three key spaces are apart, and within each a key belongs to one place. */
  lemma KeysApart(k: StoreKey, k': StoreKey, nid: Nid, nid': Nid)
    ensures MessageDbKey(k) != TxDbKey(k') && MessageDbKey(k) != BlockDbKey(nid) && TxDbKey(k) != BlockDbKey(nid)
    ensures MessageDbKey(k) == MessageDbKey(k') <==> k == k'
    ensures TxDbKey(k) == TxDbKey(k') <==> k == k'
    ensures BlockDbKey(nid) == BlockDbKey(nid') <==> nid == nid'
  {
    ScopedKeyForm(MESSAGE, k.nid, k.sn);
    ScopedKeyForm(FINALITY, k.nid, k.sn);
    ScopedKeyForm(FINALITY, k'.nid, k'.sn);
    ChainKeyForm(BLOCK, nid);
    ChainKeyForm(BLOCK, nid');
    assert MessageDbKey(k)[0] == 'm' && TxDbKey(k)[0] == 'f' && TxDbKey(k')[0] == 'f' && BlockDbKey(nid)[0] == 'b';
    ScopedKeyInjective(MESSAGE, k.nid, k.sn, k'.nid, k'.sn);
    ScopedKeyInjective(FINALITY, k.nid, k.sn, k'.nid, k'.sn);
    assert BlockDbKey(nid)[|BLOCK| + 1..] == nid && BlockDbKey(nid')[|BLOCK| + 1..] == nid';
  }

  lemma MessageKeyApart(k: StoreKey)
    ensures forall k' :: MessageDbKey(k') == MessageDbKey(k) ==> k' == k
    ensures forall k' :: TxDbKey(k') != MessageDbKey(k)
    ensures forall nid :: BlockDbKey(nid) != MessageDbKey(k)
  {
    forall k' ensures MessageDbKey(k') == MessageDbKey(k) ==> k' == k { KeysApart(k, k', "", ""); }
    forall k' ensures TxDbKey(k') != MessageDbKey(k) { KeysApart(k, k', "", ""); }
    forall nid ensures BlockDbKey(nid) != MessageDbKey(k) { KeysApart(k, k, nid, nid); }
  }

  lemma TxKeyApart(k: StoreKey)
    ensures forall k' :: TxDbKey(k') == TxDbKey(k) ==> k' == k
    ensures forall k' :: MessageDbKey(k') != TxDbKey(k)
    ensures forall nid :: BlockDbKey(nid) != TxDbKey(k)
  {
    forall k' ensures TxDbKey(k') == TxDbKey(k) ==> k' == k { KeysApart(k, k', "", ""); }
    forall k' ensures MessageDbKey(k') != TxDbKey(k) { KeysApart(k', k, "", ""); }
    forall nid ensures BlockDbKey(nid) != TxDbKey(k) { KeysApart(k, k, nid, nid); }
  }

  lemma BlockKeyApart(nid: Nid)
    ensures forall nid' :: BlockDbKey(nid') == BlockDbKey(nid) ==> nid' == nid
    ensures forall k :: MessageDbKey(k) != BlockDbKey(nid)
    ensures forall k :: TxDbKey(k) != BlockDbKey(nid)
  {
    var none := StoreKey("", 0);
    forall nid' ensures BlockDbKey(nid') == BlockDbKey(nid) ==> nid' == nid { KeysApart(none, none, nid, nid'); }
    forall k ensures MessageDbKey(k) != BlockDbKey(nid) { KeysApart(k, k, nid, nid); }
    forall k ensures TxDbKey(k) != BlockDbKey(nid) { KeysApart(k, k, nid, nid); }
  }

  // ----- Each operation refines one on the typed maps and leaves the other two alone

  lemma PutMessageRefines(db: map<string, Value>, v: View, r: Route)
    requires Represents(db, v)
    ensures Represents(db[MessageDbKey(MessageStoreKey(r.msg)) := MessageValue(r)], v.(messages := v.messages[MessageStoreKey(r.msg) := r]))
  {
    MessageKeyApart(MessageStoreKey(r.msg));
    hide MessageDbKey, TxDbKey, BlockDbKey;
  }

  lemma DeleteMessageRefines(db: map<string, Value>, v: View, k: StoreKey)
    requires Represents(db, v)
    ensures Represents(db - {MessageDbKey(k)}, v.(messages := v.messages - {k}))
  {
    MessageKeyApart(k);
    hide MessageDbKey, TxDbKey, BlockDbKey, MessageStoreKey, TxStoreKey;
  }

  lemma PutTxRefines(db: map<string, Value>, v: View, tx: TxObject)
    requires Represents(db, v)
    ensures Represents(db[TxDbKey(TxStoreKey(tx)) := TxValue(tx)], v.(txs := v.txs[TxStoreKey(tx) := tx]))
  {
    TxKeyApart(TxStoreKey(tx));
    hide MessageDbKey, TxDbKey, BlockDbKey;
  }

  lemma DeleteTxRefines(db: map<string, Value>, v: View, k: StoreKey)
    requires Represents(db, v)
    ensures Represents(db - {TxDbKey(k)}, v.(txs := v.txs - {k}))
  {
    TxKeyApart(k);
    hide MessageDbKey, TxDbKey, BlockDbKey;
  }

  lemma PutBlockRefines(db: map<string, Value>, v: View, nid: Nid, height: nat)
    requires Represents(db, v)
    ensures Represents(db[BlockDbKey(nid) := HeightValue(height)], v.(blocks := v.blocks[nid := height]))
  {
    BlockKeyApart(nid);
    hide MessageDbKey, TxDbKey, BlockDbKey;
    var db' := db[BlockDbKey(nid) := HeightValue(height)];
    var v' := v.(blocks := v.blocks[nid := height]);
    forall s | s in db' && db'[s].HeightValue?
      ensures exists n :: n in v'.blocks && s == BlockDbKey(n)
    {
      if s == BlockDbKey(nid) {
        assert nid in v'.blocks;
      } else {
        var n :| n in v.blocks && s == BlockDbKey(n);
        assert n in v'.blocks;
      }
    }
  }

  /** Reads give what the typed maps hold. */
  lemma GetRefines(db: map<string, Value>, v: View, k: StoreKey, nid: Nid)
    requires Represents(db, v)
    ensures MessageDbKey(k) in db <==> k in v.messages
    ensures k in v.messages ==> db[MessageDbKey(k)] == MessageValue(v.messages[k])
    ensures TxDbKey(k) in db <==> k in v.txs
    ensures k in v.txs ==> db[TxDbKey(k)] == TxValue(v.txs[k])
    ensures BlockDbKey(nid) in db <==> nid in v.blocks
    ensures nid in v.blocks ==> db[BlockDbKey(nid)] == HeightValue(v.blocks[nid])
  {
    MessageKeyApart(k);
    TxKeyApart(k);
    BlockKeyApart(nid);
    hide MessageDbKey, TxDbKey, BlockDbKey;
  }

  // ----- Prefix scans

  function ChainPrefix(nid: Nid): string {
    GetKey([MESSAGE, nid])
  }

  /** No stored message of another chain has a key that continues this chain's prefix. */
  ghost predicate Unambiguous(v: View, nid: Nid) {
    forall k <- v.messages :: k.nid != nid ==> !(nid <= k.nid + "-" + SnString(k.sn))
  }

  ghost function OfChain(v: View, nid: Nid): set<string> {
    set k | k in v.messages && k.nid == nid :: MessageDbKey(k)
  }

  lemma PrefixOf(store: string, nid: Nid, k: StoreKey)
    ensures GetKey([store, nid]) <= ScopedKey(store, k.nid, k.sn) <==> nid <= k.nid + "-" + SnString(k.sn)
  {
    ChainKeyForm(store, nid);
    ScopedKeyForm(store, k.nid, k.sn);
    var p, x := GetKey([store, nid]), ScopedKey(store, k.nid, k.sn);
    var y := k.nid + "-" + SnString(k.sn);
    assert x == (store + "-") + y && p == (store + "-") + nid;
    assert |x| == |store| + 1 + |y| && |p| == |store| + 1 + |nid|;
    if nid <= y {
      assert y == nid + y[|nid|..];
      assert x == p + y[|nid|..];
    }
    if p <= x {
      assert x[|store| + 1..] == y && p[|store| + 1..] == nid;
      assert x[..|p|] == p;
      assert y[..|nid|] == x[|store| + 1..|p|];
    }
  }

  lemma PrefixOfKey(nid: Nid, k: StoreKey)
    ensures ChainPrefix(nid) <= MessageDbKey(k) <==> nid <= k.nid + "-" + SnString(k.sn)
    ensures k.nid == nid ==> nid <= k.nid + "-" + SnString(k.sn)
  {
    PrefixOf(MESSAGE, nid, k);
    if k.nid == nid {
      assert k.nid + "-" + SnString(k.sn) == nid + ("-" + SnString(k.sn));
    }
  }

  /** No record of another destination has a key that continues this chain's prefix. */
  ghost predicate UnambiguousTxs(v: View, nid: Nid) {
    forall k <- v.txs :: k.nid != nid ==> !(nid <= k.nid + "-" + SnString(k.sn))
  }

  /** Then its scan visits records of that destination only. */
  lemma OnlyOwnRecords(db: map<string, Value>, v: View, nid: Nid, s: string)
    requires Represents(db, v) && UnambiguousTxs(v, nid) && s in db && GetKey([FINALITY, nid]) <= s && db[s].TxValue?
    ensures db[s].tx.dst == nid
  {
    hide UnambiguousTxs, SnString, GetKey;
    assert TxDbKey(TxStoreKey(db[s].tx)) == s && TxStoreKey(db[s].tx) in v.txs;
    PrefixOf(FINALITY, nid, TxStoreKey(db[s].tx));
    NotAmbiguous(v, nid, TxStoreKey(db[s].tx));
  }

  lemma NotAmbiguous(v: View, nid: Nid, k: StoreKey)
    requires UnambiguousTxs(v, nid) && k in v.txs && nid <= k.nid + "-" + SnString(k.sn)
    ensures k.nid == nid
  {
  }

  lemma OnlyMessagesUnderPrefix(db: map<string, Value>, v: View, nid: Nid, s: string)
    requires Represents(db, v) && s in db && ChainPrefix(nid) <= s
    ensures db[s].MessageValue?
  {
    ChainKeyForm(MESSAGE, nid);
    assert s[0] == 'm';
    if db[s].TxValue? {
      ScopedKeyForm(FINALITY, TxStoreKey(db[s].tx).nid, TxStoreKey(db[s].tx).sn);
    } else if db[s].HeightValue? {
      var n :| n in v.blocks && s == BlockDbKey(n);
      ChainKeyForm(BLOCK, n);
    }
  }

  lemma OtherChain(v: View, nid: Nid, k: StoreKey)
    requires k.nid != nid
    ensures MessageDbKey(k) !in OfChain(v, nid)
  {
    forall k' | k' in v.messages && k'.nid == nid
      ensures MessageDbKey(k') != MessageDbKey(k)
    {
      KeysApart(k, k', nid, nid);
    }
  }

  /** The scan for a chain visits exactly that chain's messages if and only if no other chain's
      keys continue its prefix. */
  lemma ScanExact(db: map<string, Value>, v: View, nid: Nid)
    requires Represents(db, v)
    ensures Matching(db, ChainPrefix(nid)) == OfChain(v, nid) <==> Unambiguous(v, nid)
    ensures OfChain(v, nid) <= Matching(db, ChainPrefix(nid))
  {
    var scan := Matching(db, ChainPrefix(nid));
    forall s | s in OfChain(v, nid) ensures s in scan {
      var k :| k in v.messages && k.nid == nid && s == MessageDbKey(k);
      PrefixOfKey(nid, k);
    }
    forall s | s in scan
      ensures exists k :: k in v.messages && s == MessageDbKey(k)
    {
      OnlyMessagesUnderPrefix(db, v, nid, s);
      assert MessageStoreKey(db[s].route.msg) in v.messages;
    }
    if Unambiguous(v, nid) {
      forall s | s in scan ensures s in OfChain(v, nid) {
        var k :| k in v.messages && s == MessageDbKey(k);
        PrefixOfKey(nid, k);
      }
    }
    if scan == OfChain(v, nid) {
      forall k | k in v.messages && k.nid != nid
        ensures !(nid <= k.nid + "-" + SnString(k.sn))
      {
        PrefixOfKey(nid, k);
        OtherChain(v, nid, k);
        assert MessageDbKey(k) in db;
      }
    }
  }

  /** Chain names of which none continues another, this one included, are never ambiguous. */
  lemma PrefixFreeUnambiguous(v: View, nid: Nid)
    requires forall k <- v.messages :: k.nid == nid || !(k.nid <= nid || nid <= k.nid)
    ensures Unambiguous(v, nid)
  {
    forall k | k in v.messages && k.nid != nid
      ensures !(nid <= k.nid + "-" + SnString(k.sn))
    {
      PrefixesNest(nid, k.nid, "-" + SnString(k.sn));
      assert k.nid + "-" + SnString(k.sn) == k.nid + ("-" + SnString(k.sn));
    }
  }

  lemma PrefixesNest(p: string, x: string, tail: string)
    ensures p <= x + tail ==> p <= x || x <= p
  {
    if p <= x + tail {
      if |p| <= |x| {
        assert p == (x + tail)[..|p|] == x[..|p|];
      } else {
        assert x == (x + tail)[..|x|] == p[..|x|];
      }
    }
  }

  /** Entry i of the scan is the stored message of that chain under its own key. */
  ghost predicate EntryOfChain(v: View, nid: Nid, entry: Pair) {
    && entry.1.MessageValue?
    && entry.1.route.msg.src == nid
    && MessageStoreKey(entry.1.route.msg) in v.messages && v.messages[MessageStoreKey(entry.1.route.msg)] == entry.1.route
    && entry.0 == MessageDbKey(MessageStoreKey(entry.1.route.msg))
  }

  lemma ScannedEntry(db: map<string, Value>, v: View, nid: Nid, s: string)
    requires Represents(db, v) && Unambiguous(v, nid) && s in db && ChainPrefix(nid) <= s
    ensures EntryOfChain(v, nid, (s, db[s]))
  {
    OnlyMessagesUnderPrefix(db, v, nid, s);
    ScanExact(db, v, nid);
    assert s in OfChain(v, nid);
    var k :| k in v.messages && k.nid == nid && s == MessageDbKey(k);
    KeysApart(k, MessageStoreKey(db[s].route.msg), nid, nid);
  }

  /** GetMessages for an unambiguous chain: no decoding error, and the result is, in key byte
      order, the first `limit` of that chain's messages, or all of them when the limit is zero. */
  lemma ScanInOrder(db: map<string, Value>, v: View, nid: Nid, limit: nat)
    requires Represents(db, v) && Unambiguous(v, nid)
    ensures var taken := Limited(Entries(db, ChainPrefix(nid)), limit);
      && AllMessages(taken)
      && |taken| == (if limit == 0 || |OfChain(v, nid)| <= limit then |OfChain(v, nid)| else limit)
      && (forall i :: 0 <= i < |taken| ==> EntryOfChain(v, nid, taken[i]))
      && (forall i, j :: 0 <= i < j < |taken| ==> Less(taken[i].0, taken[j].0))
  {
    hide Represents, Unambiguous, Entries, OfChain, ChainPrefix, EntryOfChain, Less, Matching;
    var all := Entries(db, ChainPrefix(nid));
    ScanExact(db, v, nid);
    EntriesOrdered(db, ChainPrefix(nid));
    forall i | 0 <= i < |all|
      ensures EntryOfChain(v, nid, all[i])
    {
      ScannedEntry(db, v, nid, all[i].0);
    }
    LimitedKeeps(v, nid, all, limit);
  }

  lemma LimitedKeeps(v: View, nid: Nid, all: seq<Pair>, limit: nat)
    requires forall i :: 0 <= i < |all| ==> EntryOfChain(v, nid, all[i])
    requires forall i, j :: 0 <= i < j < |all| ==> Less(all[i].0, all[j].0)
    ensures var taken := Limited(all, limit);
      && AllMessages(taken)
      && |taken| == (if limit == 0 || |all| <= limit then |all| else limit)
      && (forall i :: 0 <= i < |taken| ==> taken[i] == all[i] && EntryOfChain(v, nid, taken[i]))
      && (forall i, j :: 0 <= i < j < |taken| ==> Less(taken[i].0, taken[j].0))
  {
    hide Less;
    forall i | 0 <= i < |all| ensures all[i].1.MessageValue? { assert EntryOfChain(v, nid, all[i]); }
    hide EntryOfChain;
  }

  /** A message of the chain that GetMessages leaves out comes after all those it returns. */
  lemma ScanTakesSmallest(db: map<string, Value>, v: View, nid: Nid, limit: nat, k: StoreKey, i: nat)
    requires Represents(db, v) && k in v.messages && k.nid == nid
    requires var taken := Limited(Entries(db, ChainPrefix(nid)), limit);
      i < |taken| && forall j :: 0 <= j < |taken| ==> taken[j].0 != MessageDbKey(k)
    ensures Less(Limited(Entries(db, ChainPrefix(nid)), limit)[i].0, MessageDbKey(k))
  {
    hide Entries, MessageDbKey, ChainPrefix, SnString, Less, Matching;
    var all := Entries(db, ChainPrefix(nid));
    EntriesOrdered(db, ChainPrefix(nid));
    PrefixOfKey(nid, k);
    EntriesComplete(db, ChainPrefix(nid), MessageDbKey(k));
    var j :| 0 <= j < |all| && all[j] == (MessageDbKey(k), db[MessageDbKey(k)]);
    assert j >= |Limited(all, limit)|;
  }

  /** With prefix-free chain names each stored message is visited by the scan of its own chain and
      by no other chain's scan, so the scans partition the store. */
  lemma ScansPartition(db: map<string, Value>, v: View, chains: set<Nid>)
    requires Represents(db, v)
    requires forall k <- v.messages :: k.nid in chains
    requires forall a, b :: a in chains && b in chains && a != b ==> !(a <= b)
    ensures forall a, b :: a in chains && b in chains && a != b ==>
      Matching(db, ChainPrefix(a)) !! Matching(db, ChainPrefix(b))
    ensures forall k <- v.messages :: MessageDbKey(k) in Matching(db, ChainPrefix(k.nid))
  {
    forall a | a in chains
      ensures Matching(db, ChainPrefix(a)) == OfChain(v, a)
    {
      PrefixFreeUnambiguous(v, a);
      ScanExact(db, v, a);
    }
    forall a, b | a in chains && b in chains && a != b
      ensures OfChain(v, a) !! OfChain(v, b)
    {
      forall k, k' | k in v.messages && k.nid == a && k' in v.messages && k'.nid == b
        ensures MessageDbKey(k) != MessageDbKey(k')
      {
        KeysApart(k, k', a, b);
      }
    }
  }
}
