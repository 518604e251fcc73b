/** Which object a cache key, a goroutine or the router denotes, in every interleaving. */
module EngineIdentity {
  import opened RelayTypes
  import opened Engine

  /** Every cache entry is filed under its own message's key, no two objects share a sequence
      number object, and a copy just decoded from the store is nobody else's. */
  ghost predicate KeysOwned(s: State) {
    && (forall slot <- s.cache :: s.cache[slot] < |s.objs| && slot == SlotOf(s.objs[s.cache[slot]]))
    && (forall r :: 0 <= r < |s.objs| ==> s.objs[r].sn == r && s.objs[r].route.msg in s.known)
    && (forall key <- s.messages :: s.messages[key].msg in s.known && key == MessageStoreKey(s.messages[key].msg))
    && (forall t :: 0 <= t < |s.tasks| ==> s.tasks[t].ref < |s.objs|)
    && (forall r <- s.snapshot :: r < |s.objs|)
    && (!s.router.Resting? ==> s.router.ref < |s.objs|)
    && s.observed <= s.known
    && (forall key <- s.txs :: key == TxStoreKey(s.txs[key]))
  }

  ghost predicate HeldAlone(s: State) {
    forall r <- s.held ::
      && r < |s.objs|
      && SlotOf(s.objs[r]) !in s.cache
      && r !in s.snapshot
      && (!s.router.Resting? ==> s.router.ref != r)
      && (forall t :: 0 <= t < |s.tasks| ==> s.tasks[t].ref != r)
  }

  ghost predicate Processing(s: State, r: nat) {
    r < |s.objs| && s.objs[r].route.processing
  }

  /** An object that is looked up or routed is marked as processing, and one goroutine at a time does so. */
  ghost predicate Exclusive(s: State) {
    && (forall t :: 0 <= t < |s.tasks| && Active(s.tasks[t].phase) ==>
          Processing(s, s.tasks[t].ref) && s.router != Querying(s.tasks[t].ref))
    && (forall t, u :: 0 <= t < u < |s.tasks| && Active(s.tasks[t].phase) && Active(s.tasks[u].phase) ==>
          s.tasks[t].ref != s.tasks[u].ref)
    && (s.router.Querying? ==> Processing(s, s.router.ref))
  }

  ghost predicate Sound(s: State) {
    KeysOwned(s) && HeldAlone(s) && Exclusive(s)
  }

  lemma InitSound(now: int)
    ensures Sound(Init(now))
  {
  }

  lemma KeysOwnedInput(c: Config, s: State, i: Input)
    requires KeysOwned(s) && CanInput(c, s, i)
    ensures KeysOwned(NextInput(c, s, i))
  {
  }

  lemma HeldAloneInput(c: Config, s: State, i: Input)
    requires KeysOwned(s) && HeldAlone(s) && CanInput(c, s, i)
    ensures HeldAlone(NextInput(c, s, i))
  {
    hide Mark, Collided, CollidedTx, Own, Matching, Mature, Accounted, Stored, Watched;
  }

  lemma ExclusiveInput(c: Config, s: State, i: Input)
    requires KeysOwned(s) && Exclusive(s) && CanInput(c, s, i)
    ensures Exclusive(NextInput(c, s, i))
  {
  }

  lemma KeysOwnedRouter(c: Config, s: State, l: RouterStep)
    requires KeysOwned(s) && CanRouter(c, s, l)
    ensures KeysOwned(NextRouter(c, s, l))
  {
  }

  lemma HeldAloneRouter(c: Config, s: State, l: RouterStep)
    requires KeysOwned(s) && HeldAlone(s) && CanRouter(c, s, l)
    ensures HeldAlone(NextRouter(c, s, l))
  {
  }

  lemma ExclusiveRouter(c: Config, s: State, l: RouterStep)
    requires KeysOwned(s) && Exclusive(s) && CanRouter(c, s, l)
    ensures Exclusive(NextRouter(c, s, l))
  {
  }

  lemma KeysOwnedTask(c: Config, s: State, t: nat, l: TaskStep)
    requires KeysOwned(s) && CanTask(c, s, t, l)
    ensures KeysOwned(NextTask(c, s, t, l))
  {
    hide Mark, Collided, CollidedTx, Own, Matching, Mature, Accounted, Stored, Watched, Found, BackoffDelay;
  }

  lemma HeldAloneTask(c: Config, s: State, t: nat, l: TaskStep)
    requires KeysOwned(s) && HeldAlone(s) && CanTask(c, s, t, l)
    ensures HeldAlone(NextTask(c, s, t, l))
  {
  }

  predicate Succeeding(l: TaskStep) {
    l.Start? || l.Succeed? || l.ClearCache? || l.ClearStore?
  }

  lemma ExclusiveSuccess(c: Config, s: State, t: nat, l: TaskStep)
    requires KeysOwned(s) && Exclusive(s) && CanTask(c, s, t, l) && Succeeding(l)
    ensures Exclusive(NextTask(c, s, t, l))
  {
    hide Mark, Collided, CollidedTx, Own, Matching, Mature, Accounted, Stored, Watched, Found, TxFor, BackoffDelay;
  }

  lemma ExclusiveFailure(c: Config, s: State, t: nat, l: TaskStep)
    requires KeysOwned(s) && Exclusive(s) && CanTask(c, s, t, l) && !Succeeding(l)
    ensures Exclusive(NextTask(c, s, t, l))
  {
    hide Mark, Collided, CollidedTx, Own, Matching, Mature, Accounted, Stored, Watched, Found, TxFor, BackoffDelay;
  }

  lemma KeysOwnedPass(c: Config, s: State, l: PassStep)
    requires KeysOwned(s) && CanPass(c, s, l)
    ensures KeysOwned(NextPass(c, s, l))
  {
  }

  lemma HeldAlonePass(c: Config, s: State, l: PassStep)
    requires KeysOwned(s) && HeldAlone(s) && CanPass(c, s, l)
    ensures HeldAlone(NextPass(c, s, l))
  {
  }

  lemma ExclusivePass(c: Config, s: State, l: PassStep)
    requires KeysOwned(s) && Exclusive(s) && CanPass(c, s, l)
    ensures Exclusive(NextPass(c, s, l))
  {
  }

  lemma SoundStep(c: Config, s: State, l: Label)
    requires Sound(s) && Enabled(c, s, l)
    ensures Sound(Next(c, s, l))
  {
    hide CanInput, CanRouter, CanTask, CanPass, NextInput, NextRouter, NextTask, NextPass, KeysOwned, HeldAlone, Exclusive;
    match l
    case In(i) => KeysOwnedInput(c, s, i); HeldAloneInput(c, s, i); ExclusiveInput(c, s, i);
    case Routed(r) => KeysOwnedRouter(c, s, r); HeldAloneRouter(c, s, r); ExclusiveRouter(c, s, r);
    case Deliver(t, d) =>
      KeysOwnedTask(c, s, t, d);
      HeldAloneTask(c, s, t, d);
      if Succeeding(d) { ExclusiveSuccess(c, s, t, d); } else { ExclusiveFailure(c, s, t, d); }
    case Finality(f) => KeysOwnedPass(c, s, f); HeldAlonePass(c, s, f); ExclusivePass(c, s, f);
  }

  /** In every reachable state of every interleaving. */
  lemma {:induction false} SoundRun(c: Config, s: State, run: seq<Label>)
    requires Sound(s) && ValidRun(c, s, run)
    ensures Sound(Final(c, s, run))
    decreases |run|
  {
    if run != [] {
      SoundStep(c, s, run[0]);
      SoundRun(c, Next(c, s, run[0]), run[1..]);
    }
  }

  /** A cache key denotes the object filed under it and no other. */
  lemma FoundOwn(s: State, e: Entry, r: nat)
    requires KeysOwned(s) && r < |s.objs| && e == s.objs[r]
    ensures Found(s, e).Some? ==> Found(s, e).value == e.route.msg && s.cache[SlotOf(e)] == r
  {
  }

  /** ToggleProcessing is a toggle and not a set, yet it always goes the intended way: a mark
      appears exactly when the router picks the object, and disappears exactly when its lookup or
      its delivery fails. */
  ghost predicate TogglesAsIntended(s: State, l: Label, s': State) {
    forall r :: 0 <= r < |s.objs| ==>
      && r < |s'.objs|
      && (!Processing(s, r) && Processing(s', r) <==> l == Routed(Pick(r)))
      && (Processing(s, r) && !Processing(s', r) <==>
            (l == Routed(QueryFailed) && s.router == Querying(r)) || (l.Deliver? && l.step.Fail? && TaskIn(s, l.task, Routing) && s.tasks[l.task].ref == r))
  }

  lemma TogglesInput(c: Config, s: State, i: Input)
    requires Exclusive(s) && CanInput(c, s, i)
    ensures TogglesAsIntended(s, In(i), NextInput(c, s, i))
  {
  }

  lemma TogglesRouter(c: Config, s: State, l: RouterStep)
    requires Exclusive(s) && CanRouter(c, s, l)
    ensures TogglesAsIntended(s, Routed(l), NextRouter(c, s, l))
  {
  }

  lemma TogglesTask(c: Config, s: State, t: nat, l: TaskStep)
    requires Exclusive(s) && CanTask(c, s, t, l)
    ensures TogglesAsIntended(s, Deliver(t, l), NextTask(c, s, t, l))
  {
  }

  lemma TogglesPass(c: Config, s: State, l: PassStep)
    requires Exclusive(s) && CanPass(c, s, l)
    ensures TogglesAsIntended(s, Finality(l), NextPass(c, s, l))
  {
  }

  lemma ToggleDirection(c: Config, now: int, run: seq<Label>, l: Label)
    requires ValidRun(c, Init(now), run) && Enabled(c, Final(c, Init(now), run), l)
    ensures var s := Final(c, Init(now), run); TogglesAsIntended(s, l, Next(c, s, l))
  {
    hide CanInput, CanRouter, CanTask, CanPass, NextInput, NextRouter, NextTask, NextPass;
    hide KeysOwned, HeldAlone, Exclusive, TogglesAsIntended;
    InitSound(now);
    SoundRun(c, Init(now), run);
    var s := Final(c, Init(now), run);
    match l
    case In(i) => TogglesInput(c, s, i);
    case Routed(r) => TogglesRouter(c, s, r);
    case Deliver(t, d) => TogglesTask(c, s, t, d);
    case Finality(f) => TogglesPass(c, s, f);
  }

  /** No RouteMessage object is handled by two goroutines at once, in any interleaving, and each
      cache entry is filed under its own message's key. */
  lemma ExclusiveRouting(c: Config, now: int, run: seq<Label>)
    requires ValidRun(c, Init(now), run)
    ensures var s := Final(c, Init(now), run);
      && (forall t, u :: 0 <= t < u < |s.tasks| && Active(s.tasks[t].phase) && Active(s.tasks[u].phase) ==>
            s.tasks[t].ref != s.tasks[u].ref)
      && (forall t :: 0 <= t < |s.tasks| && Active(s.tasks[t].phase) ==>
            Processing(s, s.tasks[t].ref) && s.router != Querying(s.tasks[t].ref))
      && (forall slot <- s.cache :: s.cache[slot] < |s.objs| && slot == SlotOf(s.objs[s.cache[slot]]))
      && (forall slot, slot' :: slot in s.cache && slot' in s.cache && s.cache[slot] == s.cache[slot'] ==> slot == slot')
  {
    hide Enabled, Next;
    InitSound(now);
    SoundRun(c, Init(now), run);
  }
}
