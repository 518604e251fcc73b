/** What it takes for a message to be settled or dropped: the exact events, over all steps. */
module EngineCauses {
  import opened RelayTypes
  import opened Engine
  import opened EngineIdentity

  /** The destination reported m as received, or accepted it with no finality wait, or its mature
      record was confirmed by a receipt. */
  ghost predicate SettledBy(c: Config, s: State, l: Label, m: Message) {
    || (l == Routed(QueryReceived) && s.router.Querying? && Holds(s, s.router.ref, m))
    || (l.Deliver? && l.step.Succeed? && TaskIn(s, l.task, Routing) && Holds(s, s.tasks[l.task].ref, m)
        && m.dst in c.finality && c.finality[m.dst] == 0)
    || (l == Finality(PassConfirm(true)) && AtMature(c, s) && Matches(m, s.pass.rest[0]))
  }

  predicate Holds(s: State, r: nat, m: Message) {
    r < |s.objs| && s.objs[r].route.msg == m
  }

  /** The event behind each cause. */
  ghost predicate DroppedBy(c: Config, s: State, l: Label, m: Message, cause: Cause) {
    match cause
    case UnknownDestination => l.Routed? && l.router.PickUnknown? && Holds(s, l.router.ref, m) && m.dst !in c.finality
    case Expired =>
      Stored(s, m) && l.In? && l.input.Expire? && Holds(s, l.input.ref, m)
      && (s.objs[l.input.ref].route.lastTry.Zero? || s.objs[l.input.ref].route.lastTry.ns + 86_400_000_000_000 < s.now)
    case RemovedByHand => Stored(s, m) && l == In(RemoveByHand(MessageStoreKey(m)))
    case Pruned => (Stored(s, m) || Watched(s, m)) && l == In(Prune)
    case RegenerationFailed =>
      s.pass.Generating? && Matches(m, s.pass.tx) && l.Finality? && l.pass.PassGenerated?
      && (l.pass.answer.Some? ==> m !in l.pass.answer.value)
    case Collision => (Stored(s, m) && SharesKey(s, l, m)) || (Watched(s, m) && SharesTxKey(s, l, m))
    case LateClear => Stored(s, m) && !Accounted(s, m) && l.Deliver? && l.step.ClearStore?
    case LostInCrash => m in s.observed && !Stored(s, m) && !Accounted(s, m) && l == In(Crash)
  }

  /** The step writes or deletes, for another message, the store entry of m. */
  ghost predicate SharesKey(s: State, l: Label, m: Message) {
    exists other: Message :: other != m && MessageStoreKey(other) == MessageStoreKey(m) && WritesFor(s, l, other)
  }

  ghost predicate WritesFor(s: State, l: Label, m: Message) {
    || (l.In? && l.input.Observe? && l.input.msg == m)
    || (l.In? && l.input.Expire? && Holds(s, l.input.ref, m))
    || (l.Routed? && l.router.RouterDelete? && s.router.Deleting? && Holds(s, s.router.ref, m))
    || (l.Deliver? && (l.step.ClearStore? || l.step.Persist?) && l.task < |s.tasks| && Holds(s, s.tasks[l.task].ref, m))
  }

  /** The step writes or deletes, for a record that is not m's, the finality entry of m. */
  ghost predicate SharesTxKey(s: State, l: Label, m: Message) {
    || (l.Deliver? && l.step.Succeed? && l.task < |s.tasks|
        && exists other: Message :: Holds(s, s.tasks[l.task].ref, other) && other != m && other.dst == m.dst && other.sn == m.sn)
    || (l.Finality? && (l.pass.PassConfirm? || l.pass.PassRegenerate?) && AtRecord(s)
        && TxStoreKey(s.pass.rest[0]) == StoreKey(m.dst, m.sn) && !Matches(m, s.pass.rest[0]))
  }

  ghost predicate NewlyDropped(s: State, s': State, m: Message) {
    m in s'.dropped && (m !in s.dropped || s.dropped[m] != s'.dropped[m])
  }

  ghost predicate Named(c: Config, s: State, l: Label, s': State, m: Message) {
    && (m in s'.settled && m !in s.settled ==> SettledBy(c, s, l, m))
    && (NewlyDropped(s, s', m) ==> DroppedBy(c, s, l, m, s'.dropped[m]))
  }

  lemma NamedObserve(c: Config, s: State, nid: Nid, msg: Message, ok: bool, m: Message)
    requires KeysOwned(s)
    ensures Named(c, s, In(Observe(nid, msg, ok)), DoObserve(s, nid, msg, ok), m)
  {
    hide SettledBy, SharesTxKey, KeysOwned;
    CollidedShares(s, In(Observe(nid, msg, ok)), msg, ok, m);
  }

  lemma NamedExpire(c: Config, s: State, r: nat, ok: bool, m: Message)
    requires KeysOwned(s) && CanInput(c, s, Expire(r, ok))
    ensures Named(c, s, In(Expire(r, ok)), DoExpire(s, r, ok), m)
  {
    hide SettledBy, SharesTxKey, KeysOwned;
    CollidedShares(s, In(Expire(r, ok)), s.objs[r].route.msg, ok, m);
  }

  /** What a write for `other` takes away shares its key with it. */
  lemma CollidedShares(s: State, l: Label, other: Message, ok: bool, m: Message)
    requires KeysOwned(s) && WritesFor(s, l, other)
    ensures m in Collided(s, other, ok) ==> Stored(s, m) && SharesKey(s, l, m)
  {
    hide WritesFor;
  }

  lemma NamedInput(c: Config, s: State, i: Input, m: Message)
    requires KeysOwned(s) && CanInput(c, s, i)
    ensures Named(c, s, In(i), NextInput(c, s, i), m)
  {
    hide SettledBy, SharesKey, SharesTxKey, WritesFor;
    match i
    case Observe(nid, msg, ok) => NamedObserve(c, s, nid, msg, ok, m);
    case Expire(r, ok) => NamedExpire(c, s, r, ok, m);
    case _ =>
  }

  lemma NamedRouter(c: Config, s: State, l: RouterStep, m: Message)
    requires KeysOwned(s) && CanRouter(c, s, l)
    ensures Named(c, s, Routed(l), NextRouter(c, s, l), m)
  {
    if l.RouterDelete? { assert WritesFor(s, Routed(l), s.objs[s.router.ref].route.msg); }
  }

  lemma NamedPersist(c: Config, s: State, t: nat, ok: bool, m: Message)
    requires KeysOwned(s) && TaskIn(s, t, Toggled)
    ensures Named(c, s, Deliver(t, Persist(ok)), DoPersist(s, t, ok), m)
  {
    hide SettledBy, SharesTxKey, KeysOwned;
    CollidedShares(s, Deliver(t, Persist(ok)), s.objs[s.tasks[t].ref].route.msg, ok, m);
  }

  lemma NamedClearStore(c: Config, s: State, t: nat, ok: bool, m: Message)
    requires KeysOwned(s) && TaskIn(s, t, Cleared)
    ensures Named(c, s, Deliver(t, ClearStore(ok)), DoClearStore(s, t, ok), m)
  {
    hide SettledBy, SharesTxKey, KeysOwned;
    CollidedShares(s, Deliver(t, ClearStore(ok)), s.objs[s.tasks[t].ref].route.msg, ok, m);
  }

  lemma NamedSucceed(c: Config, s: State, t: nat, txHash: string, txHeight: nat, ok: bool, m: Message)
    requires KeysOwned(s) && CanTask(c, s, t, Succeed(txHash, txHeight, ok))
    ensures Named(c, s, Deliver(t, Succeed(txHash, txHeight, ok)), DoSucceed(c, s, t, txHash, txHeight, ok), m)
  {
    hide SharesKey;
    var e := s.objs[s.tasks[t].ref];
    FoundOwn(s, e, s.tasks[t].ref);
    assert Holds(s, s.tasks[t].ref, e.route.msg);
    hide KeysOwned, Found;
    var tx := TxFor(e.route.msg, e.route.msg, txHash, txHeight);
    assert m in CollidedTx(s, tx, true) ==> Watched(s, m) && e.route.msg != m;
  }

  lemma NamedTask(c: Config, s: State, t: nat, l: TaskStep, m: Message)
    requires KeysOwned(s) && CanTask(c, s, t, l)
    ensures Named(c, s, Deliver(t, l), NextTask(c, s, t, l), m)
  {
    hide KeysOwned, SharesKey, SharesTxKey, WritesFor, DroppedBy, SettledBy;
    match l
    case Persist(ok) => NamedPersist(c, s, t, ok, m);
    case ClearStore(ok) => NamedClearStore(c, s, t, ok, m);
    case Succeed(txHash, txHeight, ok) => NamedSucceed(c, s, t, txHash, txHeight, ok, m);
    case _ =>
  }

  lemma NamedPass(c: Config, s: State, l: PassStep, m: Message)
    requires KeysOwned(s) && CanPass(c, s, l)
    ensures Named(c, s, Finality(l), NextPass(c, s, l), m)
  {
  }

  /** Nothing else settles or drops a message. */
  lemma NamedStep(c: Config, s: State, l: Label, m: Message)
    requires KeysOwned(s) && Enabled(c, s, l)
    ensures Named(c, s, l, Next(c, s, l), m)
  {
    hide CanInput, CanRouter, CanTask, CanPass, NextInput, NextRouter, NextTask, NextPass, KeysOwned, Named;
    match l
    case In(i) => NamedInput(c, s, i, m);
    case Routed(r) => NamedRouter(c, s, r, m);
    case Deliver(t, d) => NamedTask(c, s, t, d, m);
    case Finality(f) => NamedPass(c, s, f, m);
  }
}
