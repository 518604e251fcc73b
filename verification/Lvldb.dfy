/** The ordered key-value database under the stores (relayer/lvldb/lvldb.go). */
module Lvldb {
  import opened RelayTypes
  import opened StoreKeys

  /** What the stores write; encoding and decoding keep the structure. */
  datatype Value = MessageValue(route: Route) | TxValue(tx: TxObject) | HeightValue(height: nat)

  type Pair = (string, Value)

  /** One write with its outcome. Empty is the batch that deletes everything. */
  datatype Write = Put(key: string, value: Value, ok: bool) | Delete(key: string, ok: bool) | Empty(ok: bool)

  /** What the writes leave of a database, one after the other; those that failed changed nothing. */
  function Replay(db: map<string, Value>, writes: seq<Write>): map<string, Value> {
    if writes == [] then db
    else
      var before := Replay(db, writes[..|writes| - 1]);
      match writes[|writes| - 1]
      case Put(key, value, ok) => if ok then before[key := value] else before
      case Delete(key, ok) => if ok then before - {key} else before
      case Empty(ok) => if ok then map[] else before
  }

  lemma ReplayNone(db: map<string, Value>)
    ensures Replay(db, []) == db
  {
  }

  lemma ReplayAppended(db: map<string, Value>, writes: seq<Write>, w: Write)
    ensures Replay(db, writes + [w]) == Replay(Replay(db, writes), [w])
  {
    assert (writes + [w])[..|writes|] == writes;
    assert [w][..0] == [];
  }

  function Matching(db: map<string, Value>, prefix: string): set<string> {
    set k | k in db && prefix <= k
  }

  function Pairs(db: map<string, Value>, keys: seq<string>): (r: seq<Pair>)
    requires forall k :: k in keys ==> k in db
    ensures |r| == |keys| && forall i :: 0 <= i < |r| ==> r[i] == (keys[i], db[keys[i]])
  {
    if keys == [] then [] else [(keys[0], db[keys[0]])] + Pairs(db, keys[1..])
  }

  /** What an iterator over a prefix visits: every key with that prefix, in byte order. */
  function Entries(db: map<string, Value>, prefix: string): seq<Pair> {
    Pairs(db, Ordered(Matching(db, prefix)))
  }

  lemma EntriesOrdered(db: map<string, Value>, prefix: string)
    ensures var r := Entries(db, prefix);
      && |r| == |Matching(db, prefix)|
      && (forall i :: 0 <= i < |r| ==> r[i].0 in db && prefix <= r[i].0 && r[i].1 == db[r[i].0])
      && (forall i, j :: 0 <= i < j < |r| ==> Less(r[i].0, r[j].0))
  {
    var keys := Ordered(Matching(db, prefix));
    assert forall i :: 0 <= i < |keys| ==> keys[i] in keys;
  }

  lemma EntriesComplete(db: map<string, Value>, prefix: string, k: string)
    requires k in db && prefix <= k
    ensures exists i :: 0 <= i < |Entries(db, prefix)| && Entries(db, prefix)[i] == (k, db[k])
  {
    var keys := Ordered(Matching(db, prefix));
    assert k in Matching(db, prefix);
    var i :| 0 <= i < |keys| && keys[i] == k;
    assert Entries(db, prefix)[i] == (k, db[k]);
  }

  lemma {:induction false} ReplayTwo(db: map<string, Value>, writes: seq<Write>, more: seq<Write>)
    ensures Replay(db, writes + more) == Replay(Replay(db, writes), more)
    decreases |more|
  {
    if more == [] {
      assert writes + more == writes;
    } else {
      var n := |more| - 1;
      assert writes + more == writes + more[..n] + [more[n]];
      assert more == more[..n] + [more[n]];
      ReplayAppended(db, writes + more[..n], more[n]);
      ReplayTwo(db, writes, more[..n]);
      ReplayAppended(Replay(db, writes), more[..n], more[n]);
    }
  }

  class Iterator {
    var rest: seq<Pair>
    var current: Option<Pair>

    constructor (entries: seq<Pair>)
      ensures rest == entries && current == None
    {
      rest := entries;
      current := None;
    }

    method Next() returns (more: bool)
      modifies this
      ensures more == (old(rest) != [])
      ensures more ==> current == Some(old(rest)[0]) && rest == old(rest)[1..]
      ensures !more ==> rest == []
    {
      more := rest != [];
      if more {
        current := Some(rest[0]);
        rest := rest[1..];
      }
    }
  }

  class LVLDB {
    var db: map<string, Value>
    /** Every write so far, with its outcome. By convention only the three writing methods below extend it:
        any method that may modify the database could. */
    ghost var writes: seq<Write>

    constructor ()
      ensures db == map[] && writes == []
    {
      db := map[];
      writes := [];
    }

    method GetByKey(key: string) returns (value: Option<Value>)
      ensures value == if key in db then Some(db[key]) else None
    {
      value := if key in db then Some(db[key]) else None;
    }

    /** A write succeeds or, not ok, changes nothing. */
    method SetByKey(key: string, value: Value) returns (ok: bool)
      modifies this
      ensures db == if ok then old(db)[key := value] else old(db)
      ensures writes == old(writes) + [Put(key, value, ok)]
    {
      ok := *;
      if ok { db := db[key := value]; }
      writes := writes + [Put(key, value, ok)];
    }

    method DeleteByKey(key: string) returns (ok: bool)
      modifies this
      ensures db == if ok then old(db) - {key} else old(db)
      ensures writes == old(writes) + [Delete(key, ok)]
    {
      ok := *;
      if ok { db := db - {key}; }
      writes := writes + [Delete(key, ok)];
    }

    method NewIterator(prefix: string) returns (iter: Iterator)
      ensures fresh(iter) && iter.rest == Entries(db, prefix)
    {
      iter := new Iterator(Entries(db, prefix));
    }

    /** Collects a delete for every key an unbounded iterator visits, then writes the batch. */
    method ClearStore() returns (ok: bool)
      modifies this
      ensures db == if ok then map[] else old(db)
      ensures writes == old(writes) + [Empty(ok)]
    {
      hide Entries, Matching;
      var iter := NewIterator("");
      ghost var all := iter.rest;
      ghost var done := 0;
      var batch: set<string> := {};
      while true
        invariant done <= |all| && iter.rest == all[done..]
        invariant fresh(iter) && db == old(db) && writes == old(writes)
        invariant forall i :: 0 <= i < done ==> all[i].0 in batch
        decreases |all| - done
      {
        var more := iter.Next();
        if !more { break; }
        batch := batch + {iter.current.value.0};
        done := done + 1;
      }
      forall k | k in db ensures k in batch {
        EntriesComplete(db, "", k);
      }
      ok := *;
      if ok { db := db - batch; }
      writes := writes + [Empty(ok)];
    }
  }
}
