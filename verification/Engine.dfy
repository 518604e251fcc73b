/** The relay engine as a state machine (relayer/relay.go, relayer/chain_runtime.go and the
    state-changing requests of relayer/socket/server.go).

    Every goroutine is cut at each point where another one can run: at each call of a chain, at
    each store write and at each cache operation. Goroutine locals that survive such a cut are
    part of the state. A label names one step together with the answers of its environment. */
module Engine {
  import opened RelayTypes

  /** The configured chains, each with the finality wait of its provider (0: none). */
  datatype Config = Config(finality: map<Nid, nat>)

  /** A RouteMessage object. Its identity is its index in `State.objs`; `sn` is the identity of
      the big.Int its message points to. `base` and `starts` are history: the retry count the
      object was created with and the times its deliveries started. */
  datatype Entry = Entry(route: Route, home: Nid, sn: nat, base: uint8, starts: seq<int>)

  /** A cache key: the sequence number is compared by pointer. */
  datatype Key = Key(sn: nat, src: Nid, dst: Nid, eventType: string)

  /** A place in the cache of one chain runtime. */
  datatype Slot = Slot(home: Nid, key: Key)

  /** One delivery goroutine: RouteMessage with its callback and its failure handler. */
  datatype Phase = Spawned | Routing | Delivered | Cleared | Toggled | Persisted | Done
  datatype Task = Task(ref: nat, phase: Phase)

  /** The router asks about an object, or is about to delete its message from the store: because the
      destination has received it, or because the destination is unknown. */
  datatype Router = Resting | Querying(ref: nat) | Deleting(ref: nat, received: bool)

  /** The finality goroutine: the chain it has come to with the height it read there, records still to
      look at, and what it regenerates. */
  datatype Pass =
    | Latched(nid: Nid, height: nat)
    | Scanning(nid: Nid, height: nat, rest: seq<TxObject>)
    | Generating(nid: Nid, height: nat, rest: seq<TxObject>, tx: TxObject)
    | Merging(nid: Nid, height: nat, rest: seq<TxObject>, src: Nid, msgs: seq<Message>)

  /** What a copy decoded from the message store was read for. */
  datatype Purpose = ForFlush | ForExpiry | ForRelay

  datatype Cause =
    | UnknownDestination | Expired | RemovedByHand | Pruned | RegenerationFailed | Collision
    | LateClear | LostInCrash

  datatype State = State(
    objs: seq<Entry>,
    cache: map<Slot, nat>,
    messages: map<StoreKey, Route>,
    txs: map<StoreKey, TxObject>,
    heights: map<Nid, nat>,
    now: int,
    router: Router,
    snapshot: set<nat>,
    tasks: seq<Task>,
    held: map<nat, Purpose>,
    pass: Pass,
    // History.
    observed: set<Message>,
    known: set<Message>,
    settled: set<Message>,
    handed: set<Message>,
    unwritten: set<Message>,
    dropped: map<Message, Cause>)

  /** What reaches the engine from outside: blocks, the clock, store copies, requests, crashes. */
  datatype Input =
    | Observe(nid: Nid, msg: Message, ok: bool)
    | NewHeight(nid: Nid, height: nat)
    | Tick(elapsed: nat)
    | Read(nid: Nid, key: StoreKey, purpose: Purpose)
    | Merge(ref: nat)
    | Expire(ref: nat, ok: bool)
    | Generate(nid: Nid, msg: Message)
    | RemoveByHand(key: StoreKey)
    | Prune
    | Crash

  datatype RouterStep =
    | Scan(nid: Nid)
    | PickUnknown(ref: nat)
    | Pick(ref: nat)
    | QueryFailed
    | QueryReceived
    | QueryMissing
    | RouterDelete(ok: bool)

  datatype TaskStep =
    | Start
    | Succeed(txHash: string, txHeight: nat, ok: bool)
    | ClearCache
    | ClearStore(ok: bool)
    | Fail
    | Retire
    | Persist(ok: bool)
    | Evict

  datatype PassStep =
    | PassLatch(nid: Nid)
    | PassRead(txs: seq<TxObject>)
    | PassSkip
    | PassConfirm(ok: bool)
    | PassRegenerate
    | PassGenerated(answer: Option<seq<Message>>)
    | PassMerge
    | PassMerged

  datatype Label = In(input: Input) | Routed(router: RouterStep) | Deliver(task: nat, step: TaskStep) | Finality(pass: PassStep)

  // ----- Places and views

  function KeyOf(e: Entry): Key {
    Key(e.sn, e.route.msg.src, e.route.msg.dst, e.route.msg.eventType)
  }

  function SlotOf(e: Entry): Slot {
    Slot(e.home, KeyOf(e))
  }

  predicate Cached(s: State, r: nat) {
    r < |s.objs| && SlotOf(s.objs[r]) in s.cache && s.cache[SlotOf(s.objs[r])] == r
  }

  predicate Stored(s: State, m: Message) {
    MessageStoreKey(m) in s.messages && s.messages[MessageStoreKey(m)].msg == m
  }

  predicate Watched(s: State, m: Message) {
    StoreKey(m.dst, m.sn) in s.txs && Matches(m, s.txs[StoreKey(m.dst, m.sn)])
  }

  function Matching(s: State, tx: TxObject): set<Message> {
    set m | m in s.known && Matches(m, tx)
  }

  /** From the moment the delivery goroutine is created to the end of its success callback. */
  predicate Active(p: Phase) {
    Pending(p) || p.Cleared?
  }

  /** Active, and the callback has not yet removed the object from the cache. */
  predicate Pending(p: Phase) {
    p.Spawned? || p.Routing? || p.Delivered?
  }

  /** Inside HandleMessageFailed, after its toggle. */
  predicate Handling(p: Phase) {
    p.Toggled? || p.Persisted?
  }

  ghost predicate PendingOn(tasks: seq<Task>, r: nat) {
    exists t :: 0 <= t < |tasks| && tasks[t].ref == r && Pending(tasks[t].phase)
  }

  ghost predicate HandlerOn(tasks: seq<Task>, r: nat) {
    exists t :: 0 <= t < |tasks| && tasks[t].ref == r && Handling(tasks[t].phase)
  }

  ghost predicate InFlight(s: State, r: nat) {
    s.router == Querying(r) || PendingOn(s.tasks, r)
  }

  ghost predicate InHandler(s: State, r: nat) {
    HandlerOn(s.tasks, r)
  }

  // ----- Elementary updates

  /** A new RouteMessage object, with a sequence number object of its own. */
  function NewEntry(s: State, route: Route, home: Nid): Entry {
    Entry(route, home, |s.objs|, route.retry, [])
  }

  function Filed(s: State, e: Entry, r: nat): map<Slot, nat> {
    s.cache[SlotOf(e) := r]
  }

  function Unfiled(s: State, r: nat): map<Slot, nat>
    requires r < |s.objs|
  {
    s.cache - {SlotOf(s.objs[r])}
  }

  function WithRoute(s: State, r: nat, route: Route): seq<Entry>
    requires r < |s.objs|
  {
    s.objs[r := s.objs[r].(route := route)]
  }

  function WithPhase(s: State, t: nat, phase: Phase): seq<Task>
    requires t < |s.tasks|
  {
    s.tasks[t := s.tasks[t].(phase := phase)]
  }

  function Mark(dropped: map<Message, Cause>, ms: set<Message>, cause: Cause): map<Message, Cause> {
    dropped + map m | m in ms :: cause
  }

  /** StoreMessage; a write that fails (not ok) leaves the store as it was. */
  function AfterPut(s: State, route: Route, ok: bool): map<StoreKey, Route> {
    if ok then s.messages[MessageStoreKey(route.msg) := route] else s.messages
  }

  /** What DeleteMessage leaves. */
  function AfterDelete(s: State, m: Message, ok: bool): map<StoreKey, Route> {
    if ok then s.messages - {MessageStoreKey(m)} else s.messages
  }

  /** A write or delete for message m takes away another message under the same key. */
  function Collided(s: State, m: Message, ok: bool): set<Message> {
    if ok && MessageStoreKey(m) in s.messages && s.messages[MessageStoreKey(m)].msg != m
    then {s.messages[MessageStoreKey(m)].msg} else {}
  }

  /** A write or delete for record tx takes away the record under its key, which can belong to another message. */
  function CollidedTx(s: State, tx: TxObject, ok: bool): set<Message> {
    if ok && TxStoreKey(tx) in s.txs then Matching(s, s.txs[TxStoreKey(tx)]) - Matching(s, tx) else {}
  }

  function Own(m: Message, lost: bool): set<Message> {
    if lost then {m} else {}
  }

  function HeightOf(s: State, nid: Nid): nat {
    if nid in s.heights then s.heights[nid] else 0
  }

  /** At this height of the chain the finality pass goes on with the record; the sum is a uint64. */
  predicate Mature(c: Config, nid: Nid, height: nat, tx: TxObject) {
    nid in c.finality && c.finality[nid] > 0 && tx.txHeight != 0 && (tx.txHeight + c.finality[nid]) % UINT64_SIZE <= height
  }

  /** The record the callback builds from the key of the message routed and the height of the entry found. */
  function TxFor(routed: Message, found: Message, txHash: string, txHeight: nat): TxObject {
    TxObject(routed.src, routed.dst, routed.sn, routed.eventType, found.height, txHash, txHeight)
  }

  /** Accounted for without the caches and the message store. */
  predicate Accounted(s: State, m: Message) {
    Watched(s, m) || m in s.settled || m in s.dropped
  }

  // ----- Observations, copies read from the store, messages asked for by hand

  /** processBlockInfo for one message: cached and written to the store in one step. */
  function DoObserve(s: State, nid: Nid, msg: Message, ok: bool): State {
    var e := NewEntry(s, Fresh(msg), nid);
    s.(objs := s.objs + [e], known := s.known + {msg}, cache := Filed(s, e, |s.objs|),
       observed := s.observed + {msg}, unwritten := s.unwritten + Own(msg, !ok),
       messages := AfterPut(s, Fresh(msg), ok), dropped := Mark(s.dropped, Collided(s, msg, ok), Collision))
  }

  function DoRead(s: State, nid: Nid, key: StoreKey, purpose: Purpose): State
    requires key in s.messages
  {
    s.(objs := s.objs + [NewEntry(s, s.messages[key], nid)], known := s.known + {s.messages[key].msg},
       held := s.held[|s.objs| := purpose])
  }

  function DoMerge(s: State, r: nat): State
    requires r < |s.objs|
  {
    s.(cache := Filed(s, s.objs[r], r), held := s.held - {r})
  }

  /** ClearMessages for an expired copy. */
  function DoExpire(s: State, r: nat, ok: bool): State
    requires r < |s.objs|
  {
    var m := s.objs[r].route.msg;
    s.(cache := Unfiled(s, r), held := s.held - {r}, messages := AfterDelete(s, m, ok),
       dropped := Mark(Mark(s.dropped, Collided(s, m, ok), Collision), Own(m, ok && Stored(s, m)), Expired))
  }

  function DoGenerate(s: State, nid: Nid, msg: Message): State {
    var e := NewEntry(s, Fresh(msg), nid);
    s.(objs := s.objs + [e], known := s.known + {msg}, cache := Filed(s, e, |s.objs|))
  }

  // ----- The router

  function DoScan(s: State, nid: Nid): State {
    s.(snapshot := set slot | slot in s.cache && slot.home == nid :: s.cache[slot])
  }

  function DoPickUnknown(s: State, r: nat): State
    requires r < |s.objs|
  {
    s.(cache := Unfiled(s, r), snapshot := s.snapshot - {r}, router := Deleting(r, false),
       dropped := Mark(s.dropped, {s.objs[r].route.msg}, UnknownDestination))
  }

  function DoPick(s: State, r: nat): State
    requires r < |s.objs|
  {
    s.(objs := WithRoute(s, r, ToggleProcessing(s.objs[r].route)), snapshot := s.snapshot - {r}, router := Querying(r))
  }

  function DoQueryFailed(s: State, r: nat): State
    requires r < |s.objs|
  {
    s.(objs := WithRoute(s, r, ToggleProcessing(s.objs[r].route)), router := Resting)
  }

  function DoQueryReceived(s: State, r: nat): State
    requires r < |s.objs|
  {
    s.(cache := Unfiled(s, r), router := Deleting(r, true), settled := s.settled + {s.objs[r].route.msg})
  }

  function DoQueryMissing(s: State, r: nat): State {
    s.(router := Resting, tasks := s.tasks + [Task(r, Spawned)])
  }

  function DoRouterDelete(s: State, r: nat, ok: bool): State
    requires r < |s.objs|
  {
    var m := s.objs[r].route.msg;
    s.(router := Resting, messages := AfterDelete(s, m, ok), dropped := Mark(s.dropped, Collided(s, m, ok), Collision))
  }

  // ----- Deliveries

  predicate TaskIn(s: State, t: nat, phase: Phase) {
    t < |s.tasks| && s.tasks[t].phase == phase && s.tasks[t].ref < |s.objs|
  }

  function DoStart(s: State, t: nat): State
    requires TaskIn(s, t, Spawned)
  {
    var r := s.tasks[t].ref;
    s.(objs := s.objs[r := s.objs[r].(route := IncrementRetry(s.objs[r].route, s.now), starts := s.objs[r].starts + [s.now])],
       tasks := WithPhase(s, t, Routing))
  }

  /** What the success callback finds in the cache under the key it is given. */
  function Found(s: State, e: Entry): Option<Message> {
    if SlotOf(e) in s.cache && s.cache[SlotOf(e)] < |s.objs| then Some(s.objs[s.cache[SlotOf(e)]].route.msg) else None
  }

  /** The success callback up to the end of StoreTxObject. An object whose key is not in the
      cache, or whose record cannot be written, is left as it is. */
  function DoSucceed(c: Config, s: State, t: nat, txHash: string, txHeight: nat, ok: bool): State
    requires TaskIn(s, t, Routing) && s.objs[s.tasks[t].ref].route.msg.dst in c.finality
  {
    var e := s.objs[s.tasks[t].ref];
    var found := Found(s, e);
    var waits := c.finality[e.route.msg.dst] > 0;
    var writes := found.Some? && waits && ok;
    var tx := TxFor(e.route.msg, if found.Some? then found.value else e.route.msg, txHash, txHeight);
    s.(tasks := WithPhase(s, t, if writes || (found.Some? && !waits) then Delivered else Done),
       settled := if found.Some? && !waits then s.settled + {found.value} else s.settled,
       txs := if writes then s.txs[TxStoreKey(tx) := tx] else s.txs,
       dropped := Mark(s.dropped, CollidedTx(s, tx, writes), Collision))
  }

  function DoClearCache(s: State, t: nat): State
    requires TaskIn(s, t, Delivered)
  {
    s.(tasks := WithPhase(s, t, Cleared), cache := Unfiled(s, s.tasks[t].ref))
  }

  function DoClearStore(s: State, t: nat, ok: bool): State
    requires TaskIn(s, t, Cleared)
  {
    var m := s.objs[s.tasks[t].ref].route.msg;
    s.(tasks := WithPhase(s, t, Done), messages := AfterDelete(s, m, ok),
       dropped := Mark(Mark(s.dropped, Collided(s, m, ok), Collision),
                       Own(m, ok && Stored(s, m) && !Accounted(s, m)), LateClear))
  }

  function DoFail(s: State, t: nat): State
    requires TaskIn(s, t, Routing)
  {
    s.(objs := WithRoute(s, s.tasks[t].ref, ToggleProcessing(s.objs[s.tasks[t].ref].route)),
       tasks := WithPhase(s, t, Toggled))
  }

  function DoRetire(s: State, t: nat): State
    requires TaskIn(s, t, Toggled)
  {
    s.(tasks := WithPhase(s, t, Done))
  }

  function DoPersist(s: State, t: nat, ok: bool): State
    requires TaskIn(s, t, Toggled)
  {
    var route := s.objs[s.tasks[t].ref].route;
    s.(tasks := WithPhase(s, t, if ok then Persisted else Done), messages := AfterPut(s, route, ok),
       dropped := Mark(s.dropped, Collided(s, route.msg, ok), Collision))
  }

  function DoEvict(s: State, t: nat): State
    requires TaskIn(s, t, Persisted)
  {
    s.(tasks := WithPhase(s, t, Done), cache := Unfiled(s, s.tasks[t].ref))
  }

  // ----- The finality pass

  predicate AtRecord(s: State) {
    s.pass.Scanning? && s.pass.rest != []
  }

  /** The pass has come to the next record, and the height it read is enough for it. */
  predicate AtMature(c: Config, s: State) {
    AtRecord(s) && Mature(c, s.pass.nid, s.pass.height, s.pass.rest[0])
  }

  /** The pass is through with a chain, or could not read its records. */
  predicate BetweenChains(p: Pass) {
    p.Latched? || (p.Scanning? && p.rest == [])
  }

  function DoPassConfirm(s: State, ok: bool): State
    requires AtRecord(s)
  {
    var tx := s.pass.rest[0];
    s.(pass := Scanning(s.pass.nid, s.pass.height, s.pass.rest[1..]),
       txs := if ok then s.txs - {TxStoreKey(tx)} else s.txs,
       settled := if ok then s.settled + Matching(s, tx) else s.settled,
       dropped := Mark(s.dropped, CollidedTx(s, tx, ok), Collision))
  }

  function DoPassRegenerate(s: State): State
    requires AtRecord(s)
  {
    var tx := s.pass.rest[0];
    s.(pass := Generating(s.pass.nid, s.pass.height, s.pass.rest[1..], tx), txs := s.txs - {TxStoreKey(tx)},
       handed := s.handed + Matching(s, tx), dropped := Mark(s.dropped, CollidedTx(s, tx, true), Collision))
  }

  function DoPassGenerated(s: State, answer: Option<seq<Message>>): State
    requires s.pass.Generating?
  {
    var msgs := if answer.Some? then answer.value else [];
    s.(pass := Merging(s.pass.nid, s.pass.height, s.pass.rest, s.pass.tx.src, msgs),
       dropped := Mark(s.dropped, (set m | m in Matching(s, s.pass.tx) && m !in msgs), RegenerationFailed))
  }

  function DoPassMerge(s: State): State
    requires s.pass.Merging? && s.pass.msgs != []
  {
    var e := NewEntry(s, Fresh(s.pass.msgs[0]), s.pass.src);
    s.(objs := s.objs + [e], known := s.known + {s.pass.msgs[0]}, cache := Filed(s, e, |s.objs|),
       pass := Merging(s.pass.nid, s.pass.height, s.pass.rest, s.pass.src, s.pass.msgs[1..]))
  }

  // ----- Requests that delete, and crashes

  function DoRemoveByHand(s: State, key: StoreKey): State
    requires key in s.messages
  {
    s.(messages := s.messages - {key}, dropped := Mark(s.dropped, {s.messages[key].msg}, RemovedByHand))
  }

  function DoPrune(s: State): State {
    s.(messages := map[], txs := map[],
       dropped := Mark(s.dropped, (set m | m in s.known && (Stored(s, m) || Watched(s, m))), Pruned))
  }

  /** The process dies and restarts: what was in memory is gone. */
  function DoCrash(s: State): State {
    s.(cache := map[], heights := map[], router := Resting, snapshot := {}, tasks := [], held := map[],
       pass := Scanning("", 0, []),
       dropped := Mark(s.dropped, (set m | m in s.observed && !Stored(s, m) && !Accounted(s, m)), LostInCrash))
  }

  // ----- The step relation

  predicate CanInput(c: Config, s: State, i: Input) {
    match i
    case Observe(nid, msg, ok) => nid in c.finality
    case NewHeight(nid, height) => nid in c.finality && height < UINT64_SIZE
    case Tick(elapsed) => true
    case Read(nid, key, purpose) =>
      nid in c.finality && key in s.messages && (purpose.ForFlush? ==> !IsStale(s.messages[key]))
    case Merge(ref) => ref in s.held && !s.held[ref].ForExpiry? && ref < |s.objs|
    case Expire(ref, ok) =>
      ref in s.held && s.held[ref].ForExpiry? && ref < |s.objs| &&
      IsElapsed(s.objs[ref].route, MESSAGE_EXPIRATION, s.now)
    case Generate(nid, msg) => nid in c.finality
    case RemoveByHand(key) => key in s.messages
    case Prune => true
    case Crash => true
  }

  function NextInput(c: Config, s: State, i: Input): State
    requires CanInput(c, s, i)
  {
    match i
    case Observe(nid, msg, ok) => DoObserve(s, nid, msg, ok)
    case NewHeight(nid, height) => s.(heights := s.heights[nid := height])
    case Tick(elapsed) => s.(now := s.now + elapsed)
    case Read(nid, key, purpose) => DoRead(s, nid, key, purpose)
    case Merge(ref) => DoMerge(s, ref)
    case Expire(ref, ok) => DoExpire(s, ref, ok)
    case Generate(nid, msg) => DoGenerate(s, nid, msg)
    case RemoveByHand(key) => DoRemoveByHand(s, key)
    case Prune => DoPrune(s)
    case Crash => DoCrash(s)
  }

  predicate CanRouter(c: Config, s: State, l: RouterStep) {
    match l
    case Scan(nid) => nid in c.finality && s.router.Resting?
    case PickUnknown(ref) =>
      s.router.Resting? && ref in s.snapshot && ref < |s.objs| && s.objs[ref].route.msg.dst !in c.finality
    case Pick(ref) =>
      s.router.Resting? && ref in s.snapshot && ref < |s.objs| && s.objs[ref].route.msg.dst in c.finality &&
      !IsProcessing(s.objs[ref].route, s.now)
    case QueryFailed => s.router.Querying? && s.router.ref < |s.objs|
    case QueryReceived => s.router.Querying? && s.router.ref < |s.objs|
    case QueryMissing => s.router.Querying? && s.router.ref < |s.objs|
    case RouterDelete(ok) => s.router.Deleting? && s.router.ref < |s.objs|
  }

  function NextRouter(c: Config, s: State, l: RouterStep): State
    requires CanRouter(c, s, l)
  {
    match l
    case Scan(nid) => DoScan(s, nid)
    case PickUnknown(ref) => DoPickUnknown(s, ref)
    case Pick(ref) => DoPick(s, ref)
    case QueryFailed => DoQueryFailed(s, s.router.ref)
    case QueryReceived => DoQueryReceived(s, s.router.ref)
    case QueryMissing => DoQueryMissing(s, s.router.ref)
    case RouterDelete(ok) => DoRouterDelete(s, s.router.ref, ok)
  }

  predicate CanTask(c: Config, s: State, t: nat, l: TaskStep) {
    match l
    case Start => TaskIn(s, t, Spawned)
    case Succeed(txHash, txHeight, ok) =>
      TaskIn(s, t, Routing) && s.objs[s.tasks[t].ref].route.msg.dst in c.finality && txHeight < UINT64_SIZE
    case ClearCache => TaskIn(s, t, Delivered)
    case ClearStore(ok) => TaskIn(s, t, Cleared)
    case Fail => TaskIn(s, t, Routing)
    case Retire => TaskIn(s, t, Toggled) && s.objs[s.tasks[t].ref].route.retry < MAX_TX_RETRY
    case Persist(ok) => TaskIn(s, t, Toggled) && s.objs[s.tasks[t].ref].route.retry >= MAX_TX_RETRY
    case Evict => TaskIn(s, t, Persisted)
  }

  function NextTask(c: Config, s: State, t: nat, l: TaskStep): State
    requires CanTask(c, s, t, l)
  {
    match l
    case Start => DoStart(s, t)
    case Succeed(txHash, txHeight, ok) => DoSucceed(c, s, t, txHash, txHeight, ok)
    case ClearCache => DoClearCache(s, t)
    case ClearStore(ok) => DoClearStore(s, t, ok)
    case Fail => DoFail(s, t)
    case Retire => DoRetire(s, t)
    case Persist(ok) => DoPersist(s, t, ok)
    case Evict => DoEvict(s, t)
  }

  predicate CanPass(c: Config, s: State, l: PassStep) {
    match l
    case PassLatch(nid) => BetweenChains(s.pass) && nid in c.finality
    case PassRead(txs) =>
      s.pass.Latched? && s.pass.nid in c.finality && c.finality[s.pass.nid] > 0 && |txs| <= 10 &&
      forall tx <- txs :: tx in s.txs.Values
    case PassSkip => AtRecord(s)
    case PassConfirm(ok) => AtMature(c, s)
    case PassRegenerate => AtMature(c, s) && s.pass.rest[0].src in c.finality
    case PassGenerated(answer) => s.pass.Generating?
    case PassMerge => s.pass.Merging? && s.pass.msgs != []
    case PassMerged => s.pass.Merging? && s.pass.msgs == []
  }

  function NextPass(c: Config, s: State, l: PassStep): State
    requires CanPass(c, s, l)
  {
    match l
    case PassLatch(nid) => s.(pass := Latched(nid, HeightOf(s, nid)))
    case PassRead(txs) => s.(pass := Scanning(s.pass.nid, s.pass.height, txs))
    case PassSkip => s.(pass := Scanning(s.pass.nid, s.pass.height, s.pass.rest[1..]))
    case PassConfirm(ok) => DoPassConfirm(s, ok)
    case PassRegenerate => DoPassRegenerate(s)
    case PassGenerated(answer) => DoPassGenerated(s, answer)
    case PassMerge => DoPassMerge(s)
    case PassMerged => s.(pass := Scanning(s.pass.nid, s.pass.height, s.pass.rest))
  }

  predicate Enabled(c: Config, s: State, l: Label) {
    match l
    case In(i) => CanInput(c, s, i)
    case Routed(r) => CanRouter(c, s, r)
    case Deliver(t, d) => CanTask(c, s, t, d)
    case Finality(f) => CanPass(c, s, f)
  }

  function Next(c: Config, s: State, l: Label): State
    requires Enabled(c, s, l)
  {
    match l
    case In(i) => NextInput(c, s, i)
    case Routed(r) => NextRouter(c, s, r)
    case Deliver(t, d) => NextTask(c, s, t, d)
    case Finality(f) => NextPass(c, s, f)
  }

  // ----- Runs

  function Init(now: int): State {
    State([], map[], map[], map[], map[], now, Resting, {}, [], map[], Scanning("", 0, []), {}, {}, {}, {}, {}, map[])
  }

  predicate ValidRun(c: Config, s: State, run: seq<Label>)
    decreases |run|
  {
    run == [] || (Enabled(c, s, run[0]) && ValidRun(c, Next(c, s, run[0]), run[1..]))
  }

  function Final(c: Config, s: State, run: seq<Label>): State
    requires ValidRun(c, s, run)
    decreases |run|
  {
    if run == [] then s else Final(c, Next(c, s, run[0]), run[1..])
  }

  /** Appending one enabled step to a run. */
  lemma {:induction false} RunExtend(c: Config, s: State, run: seq<Label>, l: Label)
    requires ValidRun(c, s, run) && Enabled(c, Final(c, s, run), l)
    ensures ValidRun(c, s, run + [l]) && Final(c, s, run + [l]) == Next(c, Final(c, s, run), l)
    decreases |run|
  {
    if run == [] {
      assert run + [l] == [l];
      assert [l][1..] == [];
    } else {
      RunExtend(c, Next(c, s, run[0]), run[1..], l);
      assert (run + [l])[1..] == run[1..] + [l];
    }
  }

  /** A run in two parts. */
  lemma {:induction false} RunSplit(c: Config, s: State, run: seq<Label>, more: seq<Label>)
    requires ValidRun(c, s, run + more)
    ensures ValidRun(c, s, run) && ValidRun(c, Final(c, s, run), more)
    ensures Final(c, s, run + more) == Final(c, Final(c, s, run), more)
    decreases |run|
  {
    if run == [] {
      assert run + more == more;
    } else {
      assert (run + more)[1..] == run[1..] + more;
      RunSplit(c, Next(c, s, run[0]), run[1..], more);
    }
  }
}
