/** The EVM nonce tracker (relayer/chains/evm/types/types.go) over mutable big integers: the
    arithmetic works in place, so Current, Previous, the argument of Set and every nonce handed
    out for an address are one object. */
module EvmNonce {
  import opened BigInts
  import opened RelayTypes

  type Address = string

  /** Three minutes, in nanoseconds. */
  const NONCE_UPDATE_INTERVAL := 180_000_000_000

  /** What the tracker knows about an address: the nonce it handed out last, and when it last asked the chain. */
  datatype Nonce = Nonce(last: int, updated: int)

  predicate InWindow(n: Nonce, now: int) {
    now - n.updated <= NONCE_UPDATE_INTERVAL
  }

  /** The tracker after Get; the value it hands out is its `last`. */
  function AfterGet(n: Nonce, now: int, pending: Option<nat>): Nonce {
    if InWindow(n, now) then n.(last := n.last + 1)
    else if pending.Some? then Nonce(pending.value - 1, now)
    else n
  }

  function AfterSet(nonce: int, now: int): Nonce {
    Nonce(nonce - 1, now)
  }

  class NonceValue {
    var lastUpdated: int
    var previous: BigInt
    var current: BigInt

    constructor (previous: BigInt, current: BigInt, updated: int)
      ensures this.previous == previous && this.current == current && lastUpdated == updated
    {
      this.previous, this.current, lastUpdated := previous, current, updated;
    }
  }

  class NonceTracker {
    var address: map<Address, NonceValue>

    /** previous and current are one object; no two addresses share anything. */
    ghost predicate Valid()
      reads this, address.Values, set a | a in address :: address[a].current
    {
      && (forall a <- address :: address[a].previous == address[a].current)
      && (forall a, b :: a in address && b in address && a != b ==>
            address[a] != address[b] && address[a].current != address[b].current)
    }

    ghost function At(a: Address): Nonce
      requires a in address
      reads this, address.Values, set a | a in address :: address[a].current
    {
      Nonce(address[a].current.value, address[a].lastUpdated)
    }

    constructor ()
      ensures Valid() && address == map[]
    {
      address := map[];
    }

    /** `pending` is what the chain answers if it is asked. */
    method Get(addr: Address, now: int, pending: Option<nat>) returns (nonce: BigInt)
      requires Valid() && addr in address
      modifies address[addr], address[addr].current
      ensures Valid() && address == old(address)
      ensures At(addr) == AfterGet(old(At(addr)), now, pending)
      // In the window, after a refresh, after a refresh that failed.
      ensures var n := old(At(addr));
        && (now - n.updated <= 180_000_000_000 ==> At(addr) == Nonce(n.last + 1, n.updated))
        && (now - n.updated > 180_000_000_000 && pending.Some? ==> At(addr) == Nonce(pending.value - 1, now))
        && (now - n.updated > 180_000_000_000 && pending.None? ==> At(addr) == n)
      ensures nonce == address[addr].current && nonce.value == At(addr).last
      ensures nonce == old(address[addr].current) || fresh(nonce)
      ensures InWindow(old(At(addr)), now) ==> nonce == old(address[addr].current)
      ensures forall a :: a in address && a != addr ==> At(a) == old(At(a))
    {
      var n := address[addr];
      var one := new BigInt(1);
      if now - n.lastUpdated > NONCE_UPDATE_INTERVAL {
        if pending.Some? {
          var p := new BigInt(pending.value);
          n.lastUpdated := now;
          n.current := p;
          n.previous := p.Sub(p, one);
        }
      } else {
        var c := n.current.Cmp(n.previous);
        if c != 1 {
          n.current := n.current.Add(n.current, one);
          n.previous := n.current;
        }
      }
      nonce := n.current;
    }

    /** The caller's integer is decremented and kept. */
    method Set(addr: Address, nonce: BigInt, now: int)
      requires Valid() && forall a <- address :: address[a].current != nonce
      modifies this, nonce
      ensures Valid() && address.Keys == old(address.Keys) + {addr}
      ensures At(addr) == AfterSet(old(nonce.value), now) && nonce.value == old(nonce.value) - 1 && address[addr].lastUpdated == now
      ensures address[addr].current == nonce && fresh(address[addr])
      ensures forall a :: a in address && a != addr ==> address[a] == old(address)[a] && At(a) == old(At(a))
    {
      var one := new BigInt(1);
      var previous := nonce.Sub(nonce, one);
      var v := new NonceValue(previous, nonce, now);
      address := address[addr := v];
    }
  }

  /** Two nonces handed out in the window are one object, so the first reads like the second. */
  method TwoGetsAlias(tracker: NonceTracker, addr: Address, now: int, later: int) returns (a: BigInt, b: BigInt)
    requires tracker.Valid() && addr in tracker.address
    requires now <= later && InWindow(tracker.At(addr), later)
    modifies tracker.address[addr], tracker.address[addr].current
    ensures a == b && a.value == old(tracker.At(addr)).last + 2
  {
    a := tracker.Get(addr, now, None);
    b := tracker.Get(addr, later, None);
  }

  // ----- Sequences of nonces

  /** One call of Get: its time and the chain's answer if asked. */
  datatype Call = Call(now: int, pending: Option<nat>)

  /** The values handed out. */
  function Handed(n: Nonce, calls: seq<Call>): (r: seq<int>)
    ensures |r| == |calls|
    decreases |calls|
  {
    if calls == [] then []
    else
      var n' := AfterGet(n, calls[0].now, calls[0].pending);
      [n'.last] + Handed(n', calls[1..])
  }

  /** Inside the window the values are consecutive: no gap and no repeat. */
  lemma {:induction false} WindowConsecutive(n: Nonce, calls: seq<Call>, i: nat)
    requires forall c <- calls :: InWindow(n, c.now)
    requires i < |calls|
    ensures Handed(n, calls)[i] == n.last + 1 + i
    decreases |calls|
  {
    if i > 0 {
      WindowConsecutive(AfterGet(n, calls[0].now, calls[0].pending), calls[1..], i - 1);
    }
  }

  /** After Set(k) the window hands out k, k + 1, k + 2 and so on. */
  lemma SetThenGets(k: int, setAt: int, calls: seq<Call>, i: nat)
    requires forall c <- calls :: InWindow(AfterSet(k, setAt), c.now)
    requires i < |calls|
    ensures Handed(AfterSet(k, setAt), calls)[i] == k + i
  {
    WindowConsecutive(AfterSet(k, setAt), calls, i);
  }

  /** A refresh to pending value p restarts the sequence at p - 1, not at p. */
  lemma RefreshRestarts(n: Nonce, p: nat, at: int, calls: seq<Call>, i: nat)
    requires !InWindow(n, at)
    requires forall c <- calls :: InWindow(Nonce(p - 1, at), c.now)
    requires i < |calls| + 1
    ensures Handed(n, [Call(at, Some(p))] + calls)[i] == p - 1 + i
  {
    assert ([Call(at, Some(p))] + calls)[1..] == calls;
    if i > 0 {
      WindowConsecutive(Nonce(p - 1, at), calls, i - 1);
    }
  }

  /** Exactly when the next nonce is the successor of the last one: in the window, or when the
      chain is asked and answers two more than the last one. A failed refresh repeats the last. */
  lemma NextIsSuccessor(n: Nonce, now: int, pending: Option<nat>)
    ensures AfterGet(n, now, pending).last == n.last + 1 <==>
            InWindow(n, now) || (pending.Some? && pending.value == n.last + 2)
    ensures AfterGet(n, now, pending).last == n.last <==>
            !InWindow(n, now) && (pending.Some? ==> pending.value == n.last + 1)
  {
  }
}
