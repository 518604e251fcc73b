/** The values the relay engine moves around (relayer/types/types.go): messages, the
    mutable part of a route message, and the objects kept in the two message stores. */
module RelayTypes {
  type Nid = string

  type uint8 = n: nat | n < 256

  const MAX_TX_RETRY: uint8 := 5
  const STALE_MARK_COUNT: uint8 := 15
  /** Three seconds plus the route ticker's three seconds, in nanoseconds. */
  const RETRY_INTERVAL: nat := 6_000_000_000
  const MESSAGE_EXPIRATION: nat := 86_400_000_000_000
  const UINT64_SIZE: nat := 0x1_0000_0000_0000_0000

  type uint64 = n: nat | n < UINT64_SIZE

  datatype Option<+T> = None | Some(value: T)

  datatype Message = Message(
    dst: Nid, src: Nid, sn: nat, data: string, height: nat, eventType: string, reqID: int)

  /** Go's time.Time: the zero time, or an instant in nanoseconds. */
  datatype Instant = Zero | At(ns: int)

  /** The state of a RouteMessage; also what the message store holds for it. */
  datatype Route = Route(msg: Message, retry: uint8, processing: bool, lastTry: Instant)

  /** A delivered transaction under finality watch. It carries the message key and height, not the data. */
  datatype TxObject = TxObject(
    src: Nid, dst: Nid, sn: nat, eventType: string, height: nat, txHash: string, txHeight: nat)

  /** The message store is keyed by (Src, Sn), the finality store by (Dst, Sn). */
  datatype StoreKey = StoreKey(nid: Nid, sn: nat)

  function MessageStoreKey(m: Message): StoreKey {
    StoreKey(m.src, m.sn)
  }

  function TxStoreKey(tx: TxObject): StoreKey {
    StoreKey(tx.dst, tx.sn)
  }

  function Fresh(m: Message): Route {
    Route(m, 0, false, Zero)
  }

  function Pow2(n: nat): nat {
    if n == 0 then 1 else 2 * Pow2(n - 1)
  }

  /** Two's complement reading of an integer in 64 bits, as time.Duration arithmetic gives it. */
  function WrapInt64(x: int): int {
    var low := x % UINT64_SIZE;
    if low < UINT64_SIZE / 2 then low else low - UINT64_SIZE
  }

  /** The 64-bit number that differs by a multiple of 2^64. */
  lemma WrapIs(x: int)
    ensures -0x8000_0000_0000_0000 <= WrapInt64(x) < 0x8000_0000_0000_0000
    ensures (WrapInt64(x) - x) % 0x1_0000_0000_0000_0000 == 0
  {
    var low := x % UINT64_SIZE;
    assert x == UINT64_SIZE * (x / UINT64_SIZE) + low;
    var q := -(x / UINT64_SIZE) - if low < UINT64_SIZE / 2 then 0 else 1;
    assert WrapInt64(x) - x == UINT64_SIZE * q;
  }

  function BackoffDelay(retry: nat): int {
    WrapInt64(RETRY_INTERVAL * Pow2(retry))
  }

  function IncrementRetry(r: Route, now: int): Route {
    var retry: uint8 := (r.retry + 1) % 256;
    r.(retry := retry, lastTry := At(now + BackoffDelay(retry)))
  }

  function ToggleProcessing(r: Route): Route {
    r.(processing := !r.processing)
  }

  predicate TryElapsed(t: Instant, now: int) {
    t.Zero? || t.ns < now
  }

  predicate IsProcessing(r: Route, now: int) {
    r.processing || !TryElapsed(r.lastTry, now)
  }

  predicate IsStale(r: Route) {
    r.retry >= STALE_MARK_COUNT
  }

  /** The zero time lies far more than any duration in the past. */
  predicate IsElapsed(r: Route, duration: nat, now: int) {
    r.lastTry.Zero? || r.lastTry.ns + duration < now
  }

  predicate Matches(m: Message, tx: TxObject) {
    m.src == tx.src && m.dst == tx.dst && m.sn == tx.sn && m.eventType == tx.eventType && m.height == tx.height
  }

  lemma {:induction false} Pow2Monotone(a: nat, b: nat)
    requires a <= b
    ensures Pow2(a) <= Pow2(b)
  {
    if a < b {
      Pow2Monotone(a, b - 1);
    }
  }

  lemma Pow2At30()
    ensures Pow2(30) == 0x4000_0000
    ensures Pow2(31) == 0x8000_0000
  {
    assert Pow2(10) == 1024;
    assert Pow2(20) == 1024 * 1024 by {
      assert Pow2(14) == 16 * Pow2(10);
      assert Pow2(18) == 16 * Pow2(14);
    }
    assert Pow2(24) == 16 * Pow2(20);
    assert Pow2(28) == 16 * Pow2(24);
  }

  /** The back-off delay is exact in int64 nanoseconds for every retry count up to 30, and only for those;
      beyond, it is off by a multiple of 2^64. */
  lemma BackoffFitsInt64(retry: nat)
    ensures BackoffDelay(retry) == 6_000_000_000 * Pow2(retry) <==> retry <= 30
    ensures (BackoffDelay(retry) - 6_000_000_000 * Pow2(retry)) % 0x1_0000_0000_0000_0000 == 0
  {
    WrapIs(6_000_000_000 * Pow2(retry));
    Pow2At30();
    if retry <= 30 {
      Pow2Monotone(retry, 30);
    } else {
      Pow2Monotone(31, retry);
    }
  }

  /** After a try the object is not sent again before its back-off is over, and from then on as soon as its
      mark is off. */
  lemma NextTryWaits(r: Route, now: int, later: int)
    requires r.retry < 30
    ensures IsProcessing(IncrementRetry(r, now), later) <==>
      r.processing || later <= now + 6_000_000_000 * Pow2(r.retry + 1)
  {
    BackoffFitsInt64(r.retry + 1);
  }
}
