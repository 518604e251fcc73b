/** The message, finality and block stores over one shared database
    (relayer/store/messageStore.go, finalityStore.go, blockStore.go). */
module Stores {
  import opened RelayTypes
  import opened StoreKeys
  import opened Lvldb

  /** A limit of zero takes everything: the loop stops when the count reaches the limit. */
  function Limited(entries: seq<Pair>, limit: nat): (r: seq<Pair>)
    ensures r <= entries && (limit == 0 ==> r == entries) && (limit > 0 ==> |r| <= limit && (|r| == limit || r == entries))
  {
    if limit == 0 || |entries| <= limit then entries else entries[..limit]
  }

  function First(entries: seq<Pair>, limit: nat): (r: seq<Pair>)
    ensures r <= entries && |r| <= limit && (|r| == limit || r == entries)
  {
    if |entries| <= limit then entries else entries[..limit]
  }

  predicate AllMessages(entries: seq<Pair>) {
    forall i :: 0 <= i < |entries| ==> entries[i].1.MessageValue?
  }

  function Routes(entries: seq<Pair>): (r: seq<Route>)
    requires AllMessages(entries)
    ensures |r| == |entries| && forall i :: 0 <= i < |r| ==> r[i] == entries[i].1.route
  {
    if entries == [] then [] else Routes(entries[..|entries| - 1]) + [entries[|entries| - 1].1.route]
  }

  ghost predicate RoutesUpTo(entries: seq<Pair>, found: seq<Route>) {
    |found| <= |entries| && forall i :: 0 <= i < |found| ==> entries[i].1 == MessageValue(found[i])
  }

  lemma RoutesAre(entries: seq<Pair>, found: seq<Route>)
    requires |found| == |entries| && RoutesUpTo(entries, found)
    ensures AllMessages(entries) && found == Routes(entries)
  {
  }

  lemma BadEntry(entries: seq<Pair>, limit: nat, i: nat)
    requires i < |entries| && !entries[i].1.MessageValue? && (limit > 0 ==> i < limit)
    ensures !AllMessages(Limited(entries, limit))
  {
    assert Limited(entries, limit)[i] == entries[i];
  }

  predicate AllTxs(entries: seq<Pair>) {
    forall i :: 0 <= i < |entries| ==> entries[i].1.TxValue?
  }

  function Txs(entries: seq<Pair>): (r: seq<TxObject>)
    requires AllTxs(entries)
    ensures |r| == |entries| && forall i :: 0 <= i < |r| ==> r[i] == entries[i].1.tx
  {
    if entries == [] then [] else Txs(entries[..|entries| - 1]) + [entries[|entries| - 1].1.tx]
  }

  ghost predicate TxsUpTo(entries: seq<Pair>, found: seq<TxObject>) {
    |found| <= |entries| && forall i :: 0 <= i < |found| ==> entries[i].1 == TxValue(found[i])
  }

  lemma TxsAre(entries: seq<Pair>, found: seq<TxObject>)
    requires |found| == |entries| && TxsUpTo(entries, found)
    ensures AllTxs(entries) && found == Txs(entries)
  {
  }

  lemma BadTx(entries: seq<Pair>, limit: nat, i: nat)
    requires i < |entries| && i < limit && !entries[i].1.TxValue?
    ensures !AllTxs(First(entries, limit))
  {
    assert First(entries, limit)[i] == entries[i];
  }

  method CountEntries(db: LVLDB, key: string) returns (count: nat)
    ensures count == |Matching(db.db, key)|
  {
    EntriesOrdered(db.db, key);
    var iter := db.NewIterator(key);
    ghost var all := iter.rest;
    count := 0;
    while true
      invariant count <= |all| && iter.rest == all[count..] && fresh(iter)
      decreases |all| - count
    {
      var more := iter.Next();
      if !more { break; }
      count := count + 1;
    }
  }

  class MessageStore {
    const db: LVLDB
    const prefix: string

    constructor (db: LVLDB, prefix: string)
      ensures this.db == db && this.prefix == prefix
    {
      this.db := db;
      this.prefix := prefix;
    }

    method TotalCount() returns (count: nat)
      ensures count == |Matching(db.db, prefix)|
    {
      count := CountEntries(db, GetKey([prefix]));
    }

    method TotalCountByChain(nid: string) returns (count: nat)
      ensures count == |Matching(db.db, GetKey([prefix, nid]))|
    {
      count := CountEntries(db, GetKey([prefix, nid]));
    }

    /** A nil message is an error, and the write itself can fail. */
    method StoreMessage(message: Option<Route>) returns (ok: bool)
      modifies db
      ensures ok ==> message.Some?
      ensures ok ==>
        db.db == old(db.db)[ScopedKey(prefix, message.value.msg.src, message.value.msg.sn) := MessageValue(message.value)]
      ensures !ok ==> db.db == old(db.db)
      ensures db.writes == old(db.writes) +
        if message.None? then [] else
        [Put(ScopedKey(prefix, message.value.msg.src, message.value.msg.sn), MessageValue(message.value), ok)]
    {
      if message.None? { return false; }
      ok := db.SetByKey(GetKey([prefix, message.value.msg.src, SnString(message.value.msg.sn)]), MessageValue(message.value));
    }

    method GetMessage(src: Nid, sn: int) returns (message: Option<Route>)
      ensures var key := ScopedKey(prefix, src, sn);
        message == if key in db.db && db.db[key].MessageValue? then Some(db.db[key].route) else None
    {
      var v := db.GetByKey(GetKey([prefix, src, SnString(sn)]));
      message := if v.Some? && v.value.MessageValue? then Some(v.value.route) else None;
    }

    /** The first messages the prefix scan visits; an entry that does not decode is an error. */
    method GetMessages(nid: string, limit: nat) returns (messages: Option<seq<Route>>)
      ensures var entries := Limited(Entries(db.db, GetKey([prefix, nid])), limit);
        messages == if AllMessages(entries) then Some(Routes(entries)) else None
    {
      hide Entries, GetKey, AllMessages, Routes;
      var iter := db.NewIterator(GetKey([prefix, nid]));
      ghost var all := iter.rest;
      var found: seq<Route> := [];
      while true
        invariant |found| <= |all| && iter.rest == all[|found|..] && fresh(iter)
        invariant limit > 0 ==> |found| < limit
        invariant RoutesUpTo(all, found)
        decreases |all| - |found|
      {
        var more := iter.Next();
        if !more { break; }
        assert iter.current.value == all[|found|];
        if !iter.current.value.1.MessageValue? {
          BadEntry(all, limit, |found|);
          return None;
        }
        found := found + [iter.current.value.1.route];
        if |found| == limit { break; }
      }
      RoutesAre(Limited(all, limit), found);
      messages := Some(found);
    }

    method DeleteMessage(src: Nid, sn: int) returns (ok: bool)
      modifies db
      ensures db.db == if ok then old(db.db) - {ScopedKey(prefix, src, sn)} else old(db.db)
      ensures db.writes == old(db.writes) + [Delete(ScopedKey(prefix, src, sn), ok)]
    {
      ok := db.DeleteByKey(GetKey([prefix, src, SnString(sn)]));
    }
  }

  class FinalityStore {
    const db: LVLDB
    const prefix: string

    constructor (db: LVLDB, prefix: string)
      ensures this.db == db && this.prefix == prefix
    {
      this.db := db;
      this.prefix := prefix;
    }

    method TotalCountByChain(nid: string) returns (count: nat)
      ensures count == |Matching(db.db, GetKey([prefix, nid]))|
    {
      count := CountEntries(db, GetKey([prefix, nid]));
    }

    method StoreTxObject(message: Option<TxObject>) returns (ok: bool)
      modifies db
      ensures ok ==> message.Some?
      ensures ok ==>
        db.db == old(db.db)[ScopedKey(prefix, message.value.dst, message.value.sn) := TxValue(message.value)]
      ensures !ok ==> db.db == old(db.db)
      ensures db.writes == old(db.writes) +
        if message.None? then [] else
        [Put(ScopedKey(prefix, message.value.dst, message.value.sn), TxValue(message.value), ok)]
    {
      if message.None? { return false; }
      ok := db.SetByKey(GetKey([prefix, message.value.dst, SnString(message.value.sn)]), TxValue(message.value));
    }

    method GetTxObject(dst: Nid, sn: int) returns (tx: Option<TxObject>)
      ensures var key := ScopedKey(prefix, dst, sn);
        tx == if key in db.db && db.db[key].TxValue? then Some(db.db[key].tx) else None
    {
      var v := db.GetByKey(GetKey([prefix, dst, SnString(sn)]));
      tx := if v.Some? && v.value.TxValue? then Some(v.value.tx) else None;
    }

    /** All records the scan visits when asked for all, else at most `limit`: here zero means none. */
    method GetTxObjects(nid: string, all: bool, limit: nat) returns (txs: Option<seq<TxObject>>)
      ensures var visited := Entries(db.db, GetKey([prefix, nid]));
        var entries := if all then visited else First(visited, limit);
        txs == if AllTxs(entries) then Some(Txs(entries)) else None
    {
      hide Entries, GetKey, AllTxs, Txs;
      var iter := db.NewIterator(GetKey([prefix, nid]));
      ghost var visited := iter.rest;
      var found: seq<TxObject> := [];
      if all {
        while true
          invariant |found| <= |visited| && iter.rest == visited[|found|..] && fresh(iter)
          invariant TxsUpTo(visited, found)
          decreases |visited| - |found|
        {
          var more := iter.Next();
          if !more { break; }
          assert iter.current.value == visited[|found|];
          if !iter.current.value.1.TxValue? {
            BadTx(visited, |visited|, |found|);
            return None;
          }
          found := found + [iter.current.value.1.tx];
        }
      }
      var i := 0;
      while i < limit
        invariant |found| <= |visited| && iter.rest == visited[|found|..] && fresh(iter)
        invariant TxsUpTo(visited, found)
        invariant if all then |found| == |visited| else i == |found| <= limit
      {
        var more := iter.Next();
        if !more { break; }
        assert iter.current.value == visited[|found|];
        if !iter.current.value.1.TxValue? {
          BadTx(visited, limit, |found|);
          return None;
        }
        found := found + [iter.current.value.1.tx];
        i := i + 1;
      }
      TxsAre(if all then visited else First(visited, limit), found);
      txs := Some(found);
    }

    method DeleteTxObject(dst: Nid, sn: int) returns (ok: bool)
      modifies db
      ensures db.db == if ok then old(db.db) - {ScopedKey(prefix, dst, sn)} else old(db.db)
      ensures db.writes == old(db.writes) + [Delete(ScopedKey(prefix, dst, sn), ok)]
    {
      ok := db.DeleteByKey(GetKey([prefix, dst, SnString(sn)]));
    }
  }

  class BlockStore {
    const db: LVLDB
    const prefix: string

    constructor (db: LVLDB, prefix: string)
      ensures this.db == db && this.prefix == prefix
    {
      this.db := db;
      this.prefix := prefix;
    }

    method StoreBlock(height: nat, nid: Nid) returns (ok: bool)
      modifies db
      ensures db.db == if ok then old(db.db)[GetKey([prefix, nid]) := HeightValue(height)] else old(db.db)
      ensures db.writes == old(db.writes) + [Put(GetKey([prefix, nid]), HeightValue(height), ok)]
    {
      ok := db.SetByKey(GetKey([prefix, nid]), HeightValue(height));
    }

    method GetLastStoredBlock(nid: Nid) returns (height: Option<nat>)
      ensures var key := GetKey([prefix, nid]);
        height == if key in db.db && db.db[key].HeightValue? then Some(db.db[key].height) else None
    {
      var v := db.GetByKey(GetKey([prefix, nid]));
      height := if v.Some? && v.value.HeightValue? then Some(v.value.height) else None;
    }
  }
}
