/** Where a message is, whatever has been recorded about it before, and the events that end it. */
module EnginePresence {
  import opened RelayTypes
  import opened Engine
  import opened EngineIdentity
  import opened EngineInFlight
  import opened EngineConservation
  import opened EngineCauses

  /** The engine still has the message in one of its places. */
  ghost predicate Present(s: State, m: Message) {
    Stored(s, m) || Watched(s, m) || Regenerating(s, m) || FirmlyCached(s, m)
  }

  /** Expiry after a day, a request, a prune, a crash. */
  ghost predicate LeftByInput(s: State, i: Input, m: Message) {
    || (i.Expire? && Holds(s, i.ref, m)
        && (s.objs[i.ref].route.lastTry.Zero? || s.objs[i.ref].route.lastTry.ns + 86_400_000_000_000 < s.now))
    || i == RemoveByHand(MessageStoreKey(m)) || i.Prune? || i.Crash?
  }

  /** The destination is unknown or has the message. */
  ghost predicate LeftByRouter(c: Config, s: State, l: RouterStep, m: Message) {
    || (l.PickUnknown? && Holds(s, l.ref, m) && m.dst !in c.finality)
    || (l.QueryReceived? && s.router.Querying? && Holds(s, s.router.ref, m))
    || (l == RouterDelete(true) && s.router.Deleting? && Holds(s, s.router.ref, m) && (s.router.received || m.dst !in c.finality))
  }

  /** A delivery succeeded, with no finality wait, or is at its last deletion. */
  ghost predicate LeftByTask(c: Config, s: State, t: nat, l: TaskStep, m: Message) {
    || (l.Succeed? && TaskIn(s, t, Routing) && Holds(s, s.tasks[t].ref, m) && m.dst in c.finality && c.finality[m.dst] == 0)
    || (l == ClearStore(true) && TaskIn(s, t, Cleared) && Holds(s, s.tasks[t].ref, m))
  }

  /** A mature record is confirmed, or the source does not give its message again. */
  ghost predicate LeftByPass(c: Config, s: State, l: PassStep, m: Message) {
    || (l == PassConfirm(true) && AtMature(c, s) && Matches(m, s.pass.rest[0]))
    || (l.PassGenerated? && s.pass.Generating? && Matches(m, s.pass.tx) && (l.answer.Some? ==> m !in l.answer.value))
  }

  ghost predicate LeftBy(c: Config, s: State, l: Label, m: Message) {
    || (l.In? && LeftByInput(s, l.input, m))
    || (l.Routed? && LeftByRouter(c, s, l.router, m))
    || (l.Deliver? && LeftByTask(c, s, l.task, l.step, m))
    || (l.Finality? && LeftByPass(c, s, l.pass, m))
    || (Stored(s, m) && SharesKey(s, l, m)) || (Watched(s, m) && SharesTxKey(s, l, m))
  }

  // ----- Messages in the store

  /** The entry of m goes only for m or for another message under its key. */
  ghost predicate EntryKept(c: Config, s: State, l: Label, s': State, m: Message) {
    Stored(s, m) && !LeftBy(c, s, l, m) ==> Stored(s', m)
  }

  lemma OtherShares(s: State, l: Label, other: Message, m: Message)
    requires WritesFor(s, l, other) && other != m && MessageStoreKey(other) == MessageStoreKey(m)
    ensures SharesKey(s, l, m)
  {
  }

  lemma EntryInput(c: Config, s: State, i: Input, m: Message)
    requires KeysOwned(s) && CanInput(c, s, i)
    ensures EntryKept(c, s, In(i), NextInput(c, s, i), m)
  {
    hide Mark, Collided, CollidedTx, Own, Matching, SharesKey, SharesTxKey, Watched;
    if i.Observe? && i.msg != m && MessageStoreKey(i.msg) == MessageStoreKey(m) { OtherShares(s, In(i), i.msg, m); }
    if i.Expire? {
      var other := s.objs[i.ref].route.msg;
      if other != m && MessageStoreKey(other) == MessageStoreKey(m) { OtherShares(s, In(i), other, m); }
    }
  }

  lemma EntryRouter(c: Config, s: State, l: RouterStep, m: Message)
    requires KeysOwned(s) && DestinationsKnown(c, s) && CanRouter(c, s, l)
    ensures EntryKept(c, s, Routed(l), NextRouter(c, s, l), m)
  {
    hide Mark, Collided, CollidedTx, Own, Matching, SharesKey, SharesTxKey, Watched;
    if l.RouterDelete? {
      var other := s.objs[s.router.ref].route.msg;
      if other != m && MessageStoreKey(other) == MessageStoreKey(m) { OtherShares(s, Routed(l), other, m); }
    }
  }

  lemma EntryTask(c: Config, s: State, t: nat, l: TaskStep, m: Message)
    requires KeysOwned(s) && CanTask(c, s, t, l)
    ensures EntryKept(c, s, Deliver(t, l), NextTask(c, s, t, l), m)
  {
    hide Mark, Collided, CollidedTx, Own, Matching, SharesKey, SharesTxKey, Watched, Found, LeftByInput, LeftByRouter, LeftByPass, IncrementRetry;
    if l.ClearStore? || l.Persist? {
      var other := s.objs[s.tasks[t].ref].route.msg;
      if other != m && MessageStoreKey(other) == MessageStoreKey(m) { OtherShares(s, Deliver(t, l), other, m); }
    }
  }

  lemma EntryPass(c: Config, s: State, l: PassStep, m: Message)
    requires CanPass(c, s, l)
    ensures EntryKept(c, s, Finality(l), NextPass(c, s, l), m)
  {
    hide Mark, Collided, CollidedTx, Own, Matching, SharesKey, SharesTxKey, Watched, Mature;
  }

  // ----- Records and regeneration

  ghost predicate RecordKept(c: Config, s: State, l: Label, s': State, m: Message) {
    Watched(s, m) && !LeftBy(c, s, l, m) ==> Watched(s', m) || Regenerating(s', m)
  }

  ghost predicate RegenerationKept(c: Config, s: State, l: Label, s': State, m: Message) {
    Regenerating(s, m) && !LeftBy(c, s, l, m) ==> Regenerating(s', m) || FirmlyCached(s', m)
  }

  lemma RecordInput(c: Config, s: State, i: Input, m: Message)
    requires CanInput(c, s, i)
    ensures RecordKept(c, s, In(i), NextInput(c, s, i), m) && RegenerationKept(c, s, In(i), NextInput(c, s, i), m)
  {
    hide Mark, Collided, CollidedTx, Own, Matching, SharesKey, SharesTxKey, FirmlyCached;
  }

  lemma RecordRouter(c: Config, s: State, l: RouterStep, m: Message)
    requires CanRouter(c, s, l)
    ensures RecordKept(c, s, Routed(l), NextRouter(c, s, l), m) && RegenerationKept(c, s, Routed(l), NextRouter(c, s, l), m)
  {
    hide Mark, Collided, CollidedTx, Own, Matching, SharesKey, SharesTxKey, FirmlyCached;
  }

  lemma RecordTask(c: Config, s: State, t: nat, l: TaskStep, m: Message)
    requires KeysOwned(s) && CanTask(c, s, t, l)
    ensures RecordKept(c, s, Deliver(t, l), NextTask(c, s, t, l), m) && RegenerationKept(c, s, Deliver(t, l), NextTask(c, s, t, l), m)
  {
    if l.Succeed? {
      var e := s.objs[s.tasks[t].ref];
      FoundOwn(s, e, s.tasks[t].ref);
      assert Holds(s, s.tasks[t].ref, e.route.msg);
    }
    hide Mark, Collided, CollidedTx, Own, Matching, SharesKey, FirmlyCached, Stored, KeysOwned, Found;
  }

  lemma RecordPass(c: Config, s: State, l: PassStep, m: Message)
    requires KeysOwned(s) && CanPass(c, s, l)
    ensures RecordKept(c, s, Finality(l), NextPass(c, s, l), m) && RegenerationKept(c, s, Finality(l), NextPass(c, s, l), m)
  {
    if l.PassMerge? { MergedIsCached(s); }
    hide Mark, Collided, CollidedTx, Own, Matching, SharesKey, FirmlyCached, Stored;
  }

  // ----- Cached messages

  /** The object of m stays firmly cached unless its message is then in a store. */
  ghost predicate ObjectKept(c: Config, s: State, l: Label, s': State, r: nat) {
    Firm(s, r) && !LeftBy(c, s, l, MessageOf(s, r)) ==>
      MessageOf(s', r) == MessageOf(s, r) && (Firm(s', r) || Stored(s', MessageOf(s, r)) || Watched(s', MessageOf(s, r)))
  }

  lemma ObjectFiling(c: Config, s: State, i: Input, r: nat)
    requires KeysOwned(s) && CanInput(c, s, i) && Filing(i)
    ensures ObjectKept(c, s, In(i), NextInput(c, s, i), r)
  {
    hide Mark, Collided, CollidedTx, Own, Matching, SharesKey, SharesTxKey;
  }

  lemma ObjectOther(c: Config, s: State, i: Input, r: nat)
    requires KeysOwned(s) && HeldAlone(s) && CanInput(c, s, i) && !Filing(i)
    ensures ObjectKept(c, s, In(i), NextInput(c, s, i), r)
  {
    hide Mark, Collided, CollidedTx, Own, Matching, SharesKey, SharesTxKey;
  }

  lemma ObjectRouter(c: Config, s: State, l: RouterStep, r: nat)
    requires KeysOwned(s) && CanRouter(c, s, l)
    ensures ObjectKept(c, s, Routed(l), NextRouter(c, s, l), r)
  {
    hide Mark, Collided, CollidedTx, Own, Matching, SharesKey, SharesTxKey;
  }

  lemma ObjectTask(c: Config, s: State, t: nat, l: TaskStep, r: nat)
    requires KeysOwned(s) && CanTask(c, s, t, l)
    ensures ObjectKept(c, s, Deliver(t, l), NextTask(c, s, t, l), r)
  {
    if !ReleasedOn(s.tasks, r) { ReleasedMoved(s.tasks, t, NextTask(c, s, t, l).tasks[t].phase, r); }
    hide Mark, Collided, CollidedTx, Own, Matching, SharesKey, SharesTxKey, IncrementRetry, ToggleProcessing, LeftByInput, LeftByRouter, LeftByPass;
  }

  lemma ObjectPass(c: Config, s: State, l: PassStep, r: nat)
    requires KeysOwned(s) && CanPass(c, s, l)
    ensures ObjectKept(c, s, Finality(l), NextPass(c, s, l), r)
  {
    hide Mark, Collided, CollidedTx, Own, Matching, SharesKey, SharesTxKey, Mature;
  }

  // ----- Together

  lemma PlaceKept(c: Config, s: State, l: Label, m: Message)
    requires Orderly(c, s) && Enabled(c, s, l)
    ensures EntryKept(c, s, l, Next(c, s, l), m) && RecordKept(c, s, l, Next(c, s, l), m)
    ensures RegenerationKept(c, s, l, Next(c, s, l), m)
  {
    hide CanInput, CanRouter, CanTask, CanPass, NextInput, NextRouter, NextTask, NextPass;
    hide KeysOwned, HeldAlone, Exclusive, DestinationsKnown, EntryKept, RecordKept, RegenerationKept;
    match l
    case In(i) => EntryInput(c, s, i, m); RecordInput(c, s, i, m);
    case Routed(p) => EntryRouter(c, s, p, m); RecordRouter(c, s, p, m);
    case Deliver(t, d) => EntryTask(c, s, t, d, m); RecordTask(c, s, t, d, m);
    case Finality(f) => EntryPass(c, s, f, m); RecordPass(c, s, f, m);
  }

  lemma ObjectStep(c: Config, s: State, l: Label, r: nat)
    requires Orderly(c, s) && Enabled(c, s, l)
    ensures ObjectKept(c, s, l, Next(c, s, l), r)
  {
    hide CanInput, CanRouter, CanTask, CanPass, NextInput, NextRouter, NextTask, NextPass;
    hide KeysOwned, HeldAlone, Exclusive, DestinationsKnown, ObjectKept;
    match l
    case In(i) => if Filing(i) { ObjectFiling(c, s, i, r); } else { ObjectOther(c, s, i, r); }
    case Routed(p) => ObjectRouter(c, s, p, r);
    case Deliver(t, d) => ObjectTask(c, s, t, d, r);
    case Finality(f) => ObjectPass(c, s, f, r);
  }

  /** A message that is somewhere in the engine is still somewhere after any step that is not one of the
      named events for it, whatever was recorded about it before. */
  lemma LeavesByNamedEvent(c: Config, s: State, l: Label, m: Message)
    requires Orderly(c, s) && Enabled(c, s, l) && Present(s, m) && !Present(Next(c, s, l), m)
    ensures LeftBy(c, s, l, m)
  {
    hide Enabled, Next, Orderly, LeftBy, Stored, Watched, Regenerating, Firm;
    PlaceKept(c, s, l, m);
    if FirmlyCached(s, m) {
      var r :| 0 <= r < |s.objs| && s.objs[r].route.msg == m && Firm(s, r);
      ObjectStep(c, s, l, r);
      FirmIsCached(Next(c, s, l), r);
    }
  }

  /** Some step of the run is a named event for m. */
  ghost predicate LeftAlong(c: Config, s: State, run: seq<Label>, m: Message)
    requires ValidRun(c, s, run)
    decreases |run|
  {
    run != [] && (LeftBy(c, s, run[0], m) || LeftAlong(c, Next(c, s, run[0]), run[1..], m))
  }

  lemma {:induction false} PresentUntil(c: Config, s: State, run: seq<Label>, m: Message)
    requires Orderly(c, s) && ValidRun(c, s, run) && Present(s, m) && !Present(Final(c, s, run), m)
    ensures LeftAlong(c, s, run, m)
    decreases |run|
  {
    if run != [] {
      hide Enabled, Next, Orderly, LeftBy, Present;
      OrderlyStep(c, s, run[0]);
      if Present(Next(c, s, run[0]), m) {
        PresentUntil(c, Next(c, s, run[0]), run[1..], m);
      } else {
        LeavesByNamedEvent(c, s, run[0], m);
      }
    }
  }

  /** The same for a run from any state that has what every reachable state has. */
  lemma ObservedSplit(c: Config, start: State, before: seq<Label>, nid: Nid, m: Message, ok: bool, run: seq<Label>)
    requires Orderly(c, start) && ValidRun(c, start, before + [In(Observe(nid, m, ok))] + run)
    requires !Present(Final(c, start, before + [In(Observe(nid, m, ok))] + run), m)
    ensures ValidRun(c, start, before + [In(Observe(nid, m, ok))])
    ensures var s := Final(c, start, before + [In(Observe(nid, m, ok))]); ValidRun(c, s, run) && LeftAlong(c, s, run, m)
  {
    var l := In(Observe(nid, m, ok));
    hide Enabled, Next, Orderly, Present;
    RunSplit(c, start, before + [l], run);
    RunSplit(c, start, before, [l]);
    var s := Final(c, start, before);
    assert [l][0] == l && [l][1..] == [];
    assert ValidRun(c, s, [l]) && Final(c, s, [l]) == Next(c, s, l);
    OrderlyRun(c, start, before);
    OrderlyStep(c, s, l);
    KeysOwnedHere(c, s);
    ObservedIsPresent(c, s, nid, m, ok);
    PresentUntil(c, Next(c, s, l), run, m);
  }

  lemma KeysOwnedHere(c: Config, s: State)
    requires Orderly(c, s)
    ensures KeysOwned(s)
  {
  }

  /** Each observation starts afresh: a message just observed is in the engine until, later in the run,
      a named event for it, no matter what became of it earlier. */
  lemma ObservedUntil(c: Config, now: int, before: seq<Label>, nid: Nid, m: Message, ok: bool, run: seq<Label>)
    requires ValidRun(c, Init(now), before) && Enabled(c, Final(c, Init(now), before), In(Observe(nid, m, ok)))
    requires var s := Next(c, Final(c, Init(now), before), In(Observe(nid, m, ok)));
      ValidRun(c, s, run) && !Present(Final(c, s, run), m)
    ensures var s := Next(c, Final(c, Init(now), before), In(Observe(nid, m, ok))); LeftAlong(c, s, run, m)
  {
    var s := Final(c, Init(now), before);
    var s' := Next(c, s, In(Observe(nid, m, ok)));
    InitOrderly(c, now);
    OrderlyRun(c, Init(now), before);
    OrderlyStep(c, s, In(Observe(nid, m, ok)));
    ObservedIsPresent(c, s, nid, m, ok);
    hide Enabled, Next, Orderly, Present;
    PresentUntil(c, s', run, m);
  }

  lemma ObservedIsPresent(c: Config, s: State, nid: Nid, m: Message, ok: bool)
    requires KeysOwned(s) && Enabled(c, s, In(Observe(nid, m, ok)))
    ensures Present(Next(c, s, In(Observe(nid, m, ok))), m)
  {
    var s' := DoObserve(s, nid, m, ok);
    assert Next(c, s, In(Observe(nid, m, ok))) == s';
    assert Firm(s', |s.objs|);
    FirmIsCached(s', |s.objs|);
  }
}
