/** What it takes for a message to leave the database: crashes, evictions and whatever else happens to the
    caches do not. */
module EngineDurable {
  import opened RelayTypes
  import opened Engine
  import opened EngineIdentity
  import opened EngineInFlight
  import opened EngineConservation
  import opened EngineCauses
  import opened EnginePresence

  /** In the message store or under finality watch. */
  predicate InStores(s: State, m: Message) {
    Stored(s, m) || Watched(s, m)
  }

  /** Expired for a day, removed by request, pruned; deleted because the destination is unknown or has it,
      or after a delivery; its mature record confirmed or given up; or its key written for another message. */
  ghost predicate EndsIn(c: Config, s: State, l: Label, m: Message) {
    || (l.In? && EndsByInput(s, l.input, m))
    || (l == Routed(RouterDelete(true)) && s.router.Deleting? && Holds(s, s.router.ref, m) && (s.router.received || m.dst !in c.finality))
    || (l.Deliver? && l.step == ClearStore(true) && TaskIn(s, l.task, Cleared) && Holds(s, s.tasks[l.task].ref, m))
    || (l.Finality? && (l.pass == PassConfirm(true) || l.pass.PassRegenerate?) && AtMature(c, s) && Matches(m, s.pass.rest[0]))
    || (Stored(s, m) && SharesKey(s, l, m)) || (Watched(s, m) && SharesTxKey(s, l, m))
  }

  predicate EndsByInput(s: State, i: Input, m: Message) {
    || (i.Expire? && i.ok && Holds(s, i.ref, m)
        && (s.objs[i.ref].route.lastTry.Zero? || s.objs[i.ref].route.lastTry.ns + 86_400_000_000_000 < s.now))
    || i == RemoveByHand(MessageStoreKey(m)) || i.Prune?
  }

  ghost predicate StaysIn(c: Config, s: State, l: Label, s': State, m: Message) {
    InStores(s, m) && !EndsIn(c, s, l, m) ==> InStores(s', m)
  }

  lemma StaysInput(c: Config, s: State, i: Input, m: Message)
    requires KeysOwned(s) && CanInput(c, s, i)
    ensures StaysIn(c, s, In(i), NextInput(c, s, i), m)
  {
    hide Mark, Collided, CollidedTx, Own, Matching, SharesKey, SharesTxKey, IsStale;
    if i.Observe? && i.msg != m && MessageStoreKey(i.msg) == MessageStoreKey(m) { OtherShares(s, In(i), i.msg, m); }
    if i.Expire? {
      var other := s.objs[i.ref].route.msg;
      if other != m && MessageStoreKey(other) == MessageStoreKey(m) { OtherShares(s, In(i), other, m); }
    }
  }

  lemma StaysRouter(c: Config, s: State, l: RouterStep, m: Message)
    requires KeysOwned(s) && DestinationsKnown(c, s) && CanRouter(c, s, l)
    ensures StaysIn(c, s, Routed(l), NextRouter(c, s, l), m)
  {
    hide Mark, Collided, CollidedTx, Own, Matching, SharesKey, SharesTxKey, IsProcessing, ToggleProcessing;
    if l.RouterDelete? {
      var other := s.objs[s.router.ref].route.msg;
      if other != m && MessageStoreKey(other) == MessageStoreKey(m) { OtherShares(s, Routed(l), other, m); }
    }
  }

  lemma StaysSuccess(c: Config, s: State, t: nat, txHash: string, txHeight: nat, ok: bool, m: Message)
    requires KeysOwned(s) && CanTask(c, s, t, Succeed(txHash, txHeight, ok))
    ensures StaysIn(c, s, Deliver(t, Succeed(txHash, txHeight, ok)), NextTask(c, s, t, Succeed(txHash, txHeight, ok)), m)
  {
    var e := s.objs[s.tasks[t].ref];
    FoundOwn(s, e, s.tasks[t].ref);
    assert Holds(s, s.tasks[t].ref, e.route.msg);
    hide Mark, Collided, CollidedTx, Own, Matching, SharesKey, KeysOwned, Found;
  }

  lemma StaysTask(c: Config, s: State, t: nat, l: TaskStep, m: Message)
    requires KeysOwned(s) && CanTask(c, s, t, l) && !l.Succeed?
    ensures StaysIn(c, s, Deliver(t, l), NextTask(c, s, t, l), m)
  {
    hide Mark, Collided, CollidedTx, Own, Matching, SharesKey, SharesTxKey, KeysOwned, DoSucceed;
    if l.ClearStore? || l.Persist? {
      var other := s.objs[s.tasks[t].ref].route.msg;
      if other != m && MessageStoreKey(other) == MessageStoreKey(m) { OtherShares(s, Deliver(t, l), other, m); }
    }
  }

  lemma StaysPass(c: Config, s: State, l: PassStep, m: Message)
    requires KeysOwned(s) && CanPass(c, s, l)
    ensures StaysIn(c, s, Finality(l), NextPass(c, s, l), m)
  {
    hide Mark, Collided, CollidedTx, Own, Matching, SharesKey, Mature;
  }

  /** A message leaves the database only by one of those events, whichever goroutine takes the step. */
  lemma LeavesStores(c: Config, s: State, l: Label, m: Message)
    requires Orderly(c, s) && Enabled(c, s, l) && InStores(s, m) && !InStores(Next(c, s, l), m)
    ensures EndsIn(c, s, l, m)
  {
    hide CanInput, CanRouter, CanTask, CanPass, NextInput, NextRouter, NextTask, NextPass;
    hide KeysOwned, HeldAlone, Exclusive, DestinationsKnown, EndsIn, InStores, DoSucceed;
    match l
    case In(i) => StaysInput(c, s, i, m);
    case Routed(p) => StaysRouter(c, s, p, m);
    case Deliver(t, d) =>
      if d.Succeed? { StaysSuccess(c, s, t, d.txHash, d.txHeight, d.ok, m); } else { StaysTask(c, s, t, d, m); }
    case Finality(f) => StaysPass(c, s, f, m);
  }

  ghost predicate EndsAlong(c: Config, s: State, run: seq<Label>, m: Message)
    requires ValidRun(c, s, run)
    decreases |run|
  {
    run != [] && (EndsIn(c, s, run[0], m) || EndsAlong(c, Next(c, s, run[0]), run[1..], m))
  }

  lemma {:induction false} StoredUntil(c: Config, s: State, run: seq<Label>, m: Message)
    requires Orderly(c, s) && ValidRun(c, s, run) && InStores(s, m) && !InStores(Final(c, s, run), m)
    ensures EndsAlong(c, s, run, m)
    decreases |run|
  {
    if run != [] {
      hide Enabled, Next, Orderly, EndsIn, InStores;
      OrderlyStep(c, s, run[0]);
      if InStores(Next(c, s, run[0]), m) {
        StoredUntil(c, Next(c, s, run[0]), run[1..], m);
      } else {
        LeavesStores(c, s, run[0], m);
      }
    }
  }

  /** From every observation whose write was accepted, on any run that follows and through any number of
      crashes in it, the message is in the database until such an event. */
  lemma AcceptedUntil(c: Config, now: int, before: seq<Label>, nid: Nid, m: Message, run: seq<Label>)
    requires ValidRun(c, Init(now), before) && Enabled(c, Final(c, Init(now), before), In(Observe(nid, m, true)))
    requires var s := Next(c, Final(c, Init(now), before), In(Observe(nid, m, true)));
      ValidRun(c, s, run) && !InStores(Final(c, s, run), m)
    ensures var s := Next(c, Final(c, Init(now), before), In(Observe(nid, m, true))); EndsAlong(c, s, run, m)
  {
    var s := Final(c, Init(now), before);
    InitOrderly(c, now);
    OrderlyRun(c, Init(now), before);
    OrderlyStep(c, s, In(Observe(nid, m, true)));
    AcceptedIsStored(c, s, nid, m);
    hide Enabled, Next, Orderly, InStores;
    StoredUntil(c, Next(c, s, In(Observe(nid, m, true))), run, m);
  }

  /** The same for a run from any state that has what every reachable state has. */
  lemma AcceptedSplit(c: Config, start: State, before: seq<Label>, nid: Nid, m: Message, run: seq<Label>)
    requires Orderly(c, start) && ValidRun(c, start, before + [In(Observe(nid, m, true))] + run)
    requires !InStores(Final(c, start, before + [In(Observe(nid, m, true))] + run), m)
    ensures ValidRun(c, start, before + [In(Observe(nid, m, true))])
    ensures var s := Final(c, start, before + [In(Observe(nid, m, true))]); ValidRun(c, s, run) && EndsAlong(c, s, run, m)
  {
    var l := In(Observe(nid, m, true));
    hide Enabled, Next, Orderly, InStores;
    RunSplit(c, start, before + [l], run);
    RunSplit(c, start, before, [l]);
    var s := Final(c, start, before);
    assert [l][0] == l && [l][1..] == [];
    assert ValidRun(c, s, [l]) && Final(c, s, [l]) == Next(c, s, l);
    OrderlyRun(c, start, before);
    OrderlyStep(c, s, l);
    AcceptedIsStored(c, s, nid, m);
    StoredUntil(c, Next(c, s, l), run, m);
  }

  lemma AcceptedIsStored(c: Config, s: State, nid: Nid, m: Message)
    requires Enabled(c, s, In(Observe(nid, m, true)))
    ensures InStores(Next(c, s, In(Observe(nid, m, true))), m)
  {
    assert Next(c, s, In(Observe(nid, m, true))) == DoObserve(s, nid, m, true);
  }
}
