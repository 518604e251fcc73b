/** An object in flight stays in its cache until its own completion, except when the failure handler is
    overtaken: HandleMessageFailed first clears the processing mark, then stores the message, then
    evicts it, and in between the router can pick the same object again. The steps that break it
    are named exactly. */
module EngineInFlight {
  import opened RelayTypes
  import opened Engine
  import opened EngineIdentity

  ghost predicate FlightCached(s: State) {
    && (forall t :: 0 <= t < |s.tasks| && Pending(s.tasks[t].phase) ==> Cached(s, s.tasks[t].ref))
    && (s.router.Querying? ==> Cached(s, s.router.ref))
  }

  ghost predicate DestinationKnown(c: Config, s: State, r: nat) {
    r < |s.objs| && s.objs[r].route.msg.dst in c.finality
  }

  /** Whatever is looked up or delivered has a known destination, and what is deleted without having
      been received has an unknown one. */
  ghost predicate DestinationsKnown(c: Config, s: State) {
    && (forall t :: 0 <= t < |s.tasks| ==> DestinationKnown(c, s, s.tasks[t].ref))
    && (s.router.Querying? ==> DestinationKnown(c, s, s.router.ref))
    && (s.router.Deleting? && !s.router.received ==> !DestinationKnown(c, s, s.router.ref))
  }

  ghost predicate Orderly(c: Config, s: State) {
    Sound(s) && DestinationsKnown(c, s)
  }

  /** A pick takes what is still cached, and an eviction what nobody has picked since its failure. */
  ghost predicate SparesFlight(s: State, l: Label) {
    && (l.Routed? && l.router.Pick? ==> Cached(s, l.router.ref))
    && (l.Deliver? && l.step.Evict? && l.task < |s.tasks| ==> !InFlight(s, s.tasks[l.task].ref))
  }

  predicate Filing(i: Input) {
    i.Observe? || i.Read? || i.Merge? || i.Generate?
  }

  // ----- Known destinations

  lemma DestinationsKnownInput(c: Config, s: State, i: Input)
    requires KeysOwned(s) && DestinationsKnown(c, s) && CanInput(c, s, i)
    ensures DestinationsKnown(c, NextInput(c, s, i))
  {
  }

  lemma DestinationsKnownRouter(c: Config, s: State, l: RouterStep)
    requires KeysOwned(s) && DestinationsKnown(c, s) && CanRouter(c, s, l)
    ensures DestinationsKnown(c, NextRouter(c, s, l))
  {
  }

  lemma DestinationsKnownTask(c: Config, s: State, t: nat, l: TaskStep)
    requires KeysOwned(s) && DestinationsKnown(c, s) && CanTask(c, s, t, l)
    ensures DestinationsKnown(c, NextTask(c, s, t, l))
  {
  }

  lemma DestinationsKnownPass(c: Config, s: State, l: PassStep)
    requires KeysOwned(s) && DestinationsKnown(c, s) && CanPass(c, s, l)
    ensures DestinationsKnown(c, NextPass(c, s, l))
  {
  }

  lemma InitOrderly(c: Config, now: int)
    ensures Orderly(c, Init(now))
  {
  }

  lemma OrderlyStep(c: Config, s: State, l: Label)
    requires Orderly(c, s) && Enabled(c, s, l)
    ensures Orderly(c, Next(c, s, l))
  {
    hide CanInput, CanRouter, CanTask, CanPass, NextInput, NextRouter, NextTask, NextPass;
    hide KeysOwned, HeldAlone, Exclusive, DestinationsKnown;
    SoundStep(c, s, l);
    match l
    case In(i) => DestinationsKnownInput(c, s, i);
    case Routed(r) => DestinationsKnownRouter(c, s, r);
    case Deliver(t, d) => DestinationsKnownTask(c, s, t, d);
    case Finality(f) => DestinationsKnownPass(c, s, f);
  }

  lemma {:induction false} OrderlyRun(c: Config, s: State, run: seq<Label>)
    requires Orderly(c, s) && ValidRun(c, s, run)
    ensures Orderly(c, Final(c, s, run))
    decreases |run|
  {
    if run != [] {
      hide Enabled, Next, Orderly;
      OrderlyStep(c, s, run[0]);
      OrderlyRun(c, Next(c, s, run[0]), run[1..]);
    }
  }

  // ----- In flight stays cached

  lemma FlightFiling(c: Config, s: State, i: Input)
    requires KeysOwned(s) && FlightCached(s) && CanInput(c, s, i) && Filing(i)
    ensures FlightCached(NextInput(c, s, i))
  {
    hide Mark, Collided, CollidedTx, Own, Matching, Mature, Accounted, Stored, Watched, IsStale, IsElapsed;
    var s' := NextInput(c, s, i);
    forall u | 0 <= u < |s'.tasks| && Pending(s'.tasks[u].phase)
      ensures Cached(s', s'.tasks[u].ref)
    {
      assert Cached(s, s.tasks[u].ref);
    }
  }

  lemma FlightOther(c: Config, s: State, i: Input)
    requires KeysOwned(s) && HeldAlone(s) && FlightCached(s) && CanInput(c, s, i) && !Filing(i)
    ensures FlightCached(NextInput(c, s, i))
  {
    hide Mark, Collided, CollidedTx, Own, Matching, Mature, Accounted, Stored, Watched;
    var s' := NextInput(c, s, i);
    forall u | 0 <= u < |s'.tasks| && Pending(s'.tasks[u].phase)
      ensures Cached(s', s'.tasks[u].ref)
    {
      assert Cached(s, s.tasks[u].ref);
    }
  }

  lemma FlightPick(s: State, r: nat)
    requires FlightCached(s) && r < |s.objs|
    ensures FlightCached(DoPick(s, r)) <==> Cached(s, r)
  {
    var s' := DoPick(s, r);
    assert SlotOf(s'.objs[r]) == SlotOf(s.objs[r]);
    forall u | 0 <= u < |s.tasks| && Pending(s.tasks[u].phase)
      ensures Cached(s', s.tasks[u].ref)
    {
      assert Cached(s, s.tasks[u].ref);
    }
  }

  lemma FlightRouter(c: Config, s: State, l: RouterStep)
    requires KeysOwned(s) && Exclusive(s) && FlightCached(s) && DestinationsKnown(c, s) && CanRouter(c, s, l) && !l.Pick?
    ensures FlightCached(NextRouter(c, s, l))
  {
    hide Mark, Collided, CollidedTx, Own, Matching, Mature, Accounted, Stored, Watched;
  }

  lemma FlightSuccess(c: Config, s: State, t: nat, l: TaskStep)
    requires KeysOwned(s) && Exclusive(s) && FlightCached(s) && CanTask(c, s, t, l) && Succeeding(l)
    ensures FlightCached(NextTask(c, s, t, l))
  {
    hide Mark, Collided, CollidedTx, Own, Matching, Mature, Accounted, Stored, Watched;
    var s' := NextTask(c, s, t, l);
    forall u | 0 <= u < |s'.tasks| && Pending(s'.tasks[u].phase)
      ensures Cached(s', s'.tasks[u].ref)
    {
      assert Cached(s, s.tasks[u].ref);
    }
  }

  lemma FlightFailure(c: Config, s: State, t: nat, l: TaskStep)
    requires KeysOwned(s) && FlightCached(s) && CanTask(c, s, t, l) && !Succeeding(l) && !l.Evict?
    ensures FlightCached(NextTask(c, s, t, l))
  {
    hide Mark, Collided, CollidedTx, Own, Matching, Mature, Accounted, Stored, Watched;
    var s' := NextTask(c, s, t, l);
    forall u | 0 <= u < |s'.tasks| && Pending(s'.tasks[u].phase)
      ensures Cached(s', s'.tasks[u].ref)
    {
      assert Cached(s, s.tasks[u].ref);
    }
  }

  /** The eviction at the end of a failure handler leaves every object in flight cached exactly
      when nobody has picked the evicted object meanwhile. */
  lemma EvictKeepsFlight(s: State, t: nat)
    requires KeysOwned(s) && FlightCached(s) && TaskIn(s, t, Persisted)
    ensures FlightCached(DoEvict(s, t)) <==> !InFlight(s, s.tasks[t].ref)
  {
    var s' := DoEvict(s, t);
    var r := s.tasks[t].ref;
    assert !Cached(s', r);
    if u :| 0 <= u < |s.tasks| && s.tasks[u].ref == r && Pending(s.tasks[u].phase) {
      assert s'.tasks[u] == s.tasks[u];
    }
    if !InFlight(s, r) {
      forall u | 0 <= u < |s'.tasks| && Pending(s'.tasks[u].phase)
        ensures Cached(s', s'.tasks[u].ref)
      {
        assert Cached(s, s.tasks[u].ref);
      }
    }
  }

  lemma FlightPass(c: Config, s: State, l: PassStep)
    requires KeysOwned(s) && FlightCached(s) && CanPass(c, s, l)
    ensures FlightCached(NextPass(c, s, l))
  {
    hide Mark, Collided, CollidedTx, Own, Matching, Mature, Accounted, Stored, Watched;
  }

  /** Among all steps of all goroutines exactly two can lose the entry of an object in flight: a pick
      of something no longer cached, and an eviction of something picked meanwhile. */
  lemma FlightStep(c: Config, s: State, l: Label)
    requires Orderly(c, s) && FlightCached(s) && Enabled(c, s, l)
    ensures FlightCached(Next(c, s, l)) <==> SparesFlight(s, l)
  {
    hide CanInput, CanPass, NextInput, NextPass;
    hide KeysOwned, HeldAlone, Exclusive, FlightCached, DestinationsKnown;
    match l
    case In(i) => if Filing(i) { FlightFiling(c, s, i); } else { FlightOther(c, s, i); }
    case Routed(r) =>
      if r.Pick? { FlightPick(s, r.ref); } else { FlightRouter(c, s, r); }
    case Deliver(t, d) =>
      if d.Evict? { EvictKeepsFlight(s, t); }
      else if Succeeding(d) { FlightSuccess(c, s, t, d); }
      else { FlightFailure(c, s, t, d); }
    case Finality(f) => FlightPass(c, s, f);
  }

  ghost predicate SparingRun(c: Config, s: State, run: seq<Label>)
    requires ValidRun(c, s, run)
    decreases |run|
  {
    run == [] || (SparesFlight(s, run[0]) && SparingRun(c, Next(c, s, run[0]), run[1..]))
  }

  /** In every state the run goes through. */
  ghost predicate FlightCachedAlong(c: Config, s: State, run: seq<Label>)
    requires ValidRun(c, s, run)
    decreases |run|
  {
    FlightCached(s) && (run == [] || FlightCachedAlong(c, Next(c, s, run[0]), run[1..]))
  }

  lemma {:induction false} FlightRun(c: Config, s: State, run: seq<Label>)
    requires Orderly(c, s) && FlightCached(s) && ValidRun(c, s, run)
    ensures FlightCachedAlong(c, s, run) <==> SparingRun(c, s, run)
    ensures SparingRun(c, s, run) ==> Sound(Final(c, s, run)) && FlightCached(Final(c, s, run))
    decreases |run|
  {
    hide Enabled, Next, DestinationsKnown, KeysOwned, HeldAlone, Exclusive, SparesFlight, FlightCached;
    if run != [] {
      OrderlyStep(c, s, run[0]);
      FlightStep(c, s, run[0]);
      if SparesFlight(s, run[0]) {
        FlightRun(c, Next(c, s, run[0]), run[1..]);
      } else {
        NotAlong(c, Next(c, s, run[0]), run[1..]);
      }
    }
  }

  lemma NotAlong(c: Config, s: State, run: seq<Label>)
    requires ValidRun(c, s, run) && !FlightCached(s)
    ensures !FlightCachedAlong(c, s, run)
  {
  }

  /** Over whole runs: every object in flight is cached in every state if and only if no step picks
      what is no longer cached or evicts what has been picked meanwhile. */
  lemma FlightStaysCached(c: Config, now: int, run: seq<Label>)
    requires ValidRun(c, Init(now), run)
    ensures FlightCachedAlong(c, Init(now), run) <==> SparingRun(c, Init(now), run)
  {
    InitOrderly(c, now);
    hide Enabled, Next, Orderly;
    FlightRun(c, Init(now), run);
  }

  /** In those runs, whatever flushes, expiries and re-observations happen meanwhile, the success
      callback finds in the cache exactly the object that was routed, and clearing its key removes that
      object and no other entry. */
  lemma CallbackFindsRouted(c: Config, now: int, run: seq<Label>, t: nat)
    requires ValidRun(c, Init(now), run) && SparingRun(c, Init(now), run)
    requires var s := Final(c, Init(now), run); TaskIn(s, t, Routing) || TaskIn(s, t, Delivered)
    ensures var s := Final(c, Init(now), run);
      var r := s.tasks[t].ref;
      && Found(s, s.objs[r]) == Some(s.objs[r].route.msg)
      && Cached(s, r)
      && (forall slot <- s.cache :: slot in Unfiled(s, r) <==> s.cache[slot] != r)
  {
    InitOrderly(c, now);
    hide Enabled, Next, SparesFlight, Orderly;
    FlightRun(c, Init(now), run);
    var s := Final(c, Init(now), run);
    assert Cached(s, s.tasks[t].ref);
  }

  // ----- Marks in the store

  /** No store copy carries the processing mark, so each can be routed once it is flushed. */
  ghost predicate CopiesIdle(s: State) {
    && (forall key <- s.messages :: !s.messages[key].processing)
    && (forall r <- s.held :: !Processing(s, r))
  }

  /** A failure handler does not store an object that has been picked meanwhile. */
  ghost predicate StoresUnmarked(s: State, l: Label) {
    l.Deliver? && l.step.Persist? && l.step.ok && l.task < |s.tasks| ==> !Processing(s, s.tasks[l.task].ref)
  }

  lemma CopiesInput(c: Config, s: State, i: Input)
    requires KeysOwned(s) && HeldAlone(s) && CopiesIdle(s) && CanInput(c, s, i)
    ensures CopiesIdle(NextInput(c, s, i))
  {
    hide Mark, Collided, CollidedTx, Own, Matching, Mature, Accounted, Stored, Watched;
  }

  lemma CopiesRouter(c: Config, s: State, l: RouterStep)
    requires KeysOwned(s) && HeldAlone(s) && CopiesIdle(s) && CanRouter(c, s, l)
    ensures CopiesIdle(NextRouter(c, s, l))
  {
  }

  lemma CopiesPersist(s: State, t: nat, ok: bool)
    requires KeysOwned(s) && CopiesIdle(s) && TaskIn(s, t, Toggled)
    ensures CopiesIdle(DoPersist(s, t, ok)) <==> (ok ==> !Processing(s, s.tasks[t].ref))
  {
    hide Mark, Collided, CollidedTx, Own, Matching, Mature, Accounted, Stored, Watched;
    var route := s.objs[s.tasks[t].ref].route;
    var s' := DoPersist(s, t, ok);
    assert s'.objs == s.objs && s'.held == s.held && s'.messages == AfterPut(s, route, ok);
    hide KeysOwned, DoPersist, MessageStoreKey;
    if ok {
      assert s'.messages[MessageStoreKey(route.msg)] == route;
    }
  }

  lemma CopiesTask(c: Config, s: State, t: nat, l: TaskStep)
    requires KeysOwned(s) && HeldAlone(s) && CopiesIdle(s) && CanTask(c, s, t, l) && !l.Persist?
    ensures CopiesIdle(NextTask(c, s, t, l))
  {
    hide Mark, Collided, CollidedTx, Own, Matching, Mature, Accounted, Stored, Watched;
  }

  lemma CopiesPass(c: Config, s: State, l: PassStep)
    requires KeysOwned(s) && HeldAlone(s) && CopiesIdle(s) && CanPass(c, s, l)
    ensures CopiesIdle(NextPass(c, s, l))
  {
  }

  /** A marked message gets into the store by exactly one step: a handler that stores an object the
      router has picked since the handler cleared the mark. */
  lemma CopiesStep(c: Config, s: State, l: Label)
    requires Sound(s) && CopiesIdle(s) && Enabled(c, s, l)
    ensures CopiesIdle(Next(c, s, l)) <==> StoresUnmarked(s, l)
  {
    hide CanInput, CanRouter, CanPass, NextInput, NextRouter, NextPass;
    hide KeysOwned, HeldAlone, Exclusive, CopiesIdle;
    match l
    case In(i) => CopiesInput(c, s, i);
    case Routed(r) => CopiesRouter(c, s, r);
    case Deliver(t, d) =>
      if d.Persist? { CopiesPersist(s, t, d.ok); } else { CopiesTask(c, s, t, d); }
    case Finality(f) => CopiesPass(c, s, f);
  }

  // ----- Objects nobody will deliver

  /** The object is marked, and nobody is left who would take the mark off. */
  ghost predicate Stuck(s: State, r: nat) {
    && Processing(s, r) && s.router != Querying(r)
    && (forall t :: 0 <= t < |s.tasks| && s.tasks[t].ref == r ==> !s.tasks[t].phase.Spawned? && !s.tasks[t].phase.Routing?)
  }

  ghost predicate StaysStuck(s: State, s': State, r: nat) {
    Stuck(s, r) ==> Stuck(s', r) && s'.objs[r].starts == s.objs[r].starts
  }

  lemma StuckInput(c: Config, s: State, i: Input, r: nat)
    requires CanInput(c, s, i)
    ensures StaysStuck(s, NextInput(c, s, i), r)
  {
  }

  lemma StuckRouter(c: Config, s: State, l: RouterStep, r: nat)
    requires CanRouter(c, s, l)
    ensures StaysStuck(s, NextRouter(c, s, l), r)
  {
  }

  lemma StuckTask(c: Config, s: State, t: nat, l: TaskStep, r: nat)
    requires CanTask(c, s, t, l)
    ensures StaysStuck(s, NextTask(c, s, t, l), r)
  {
  }

  lemma StuckPass(c: Config, s: State, l: PassStep, r: nat)
    requires CanPass(c, s, l)
    ensures StaysStuck(s, NextPass(c, s, l), r)
  {
  }

  lemma StuckStep(c: Config, s: State, l: Label, r: nat)
    requires Enabled(c, s, l)
    ensures StaysStuck(s, Next(c, s, l), r)
  {
    hide CanInput, CanRouter, CanTask, CanPass, NextInput, NextRouter, NextTask, NextPass, StaysStuck;
    match l
    case In(i) => StuckInput(c, s, i, r);
    case Routed(p) => StuckRouter(c, s, p, r);
    case Deliver(t, d) => StuckTask(c, s, t, d, r);
    case Finality(f) => StuckPass(c, s, f, r);
  }

  /** Such an object is never delivered again, however the run goes on. A copy of a message stored with
      its mark is one, and so is an object whose success could not be recorded. */
  lemma {:induction false} StuckForever(c: Config, s: State, run: seq<Label>, r: nat)
    requires ValidRun(c, s, run) && Stuck(s, r)
    ensures Stuck(Final(c, s, run), r) && Final(c, s, run).objs[r].starts == s.objs[r].starts
    decreases |run|
  {
    if run != [] {
      hide Enabled, Next, Stuck;
      StuckStep(c, s, run[0], r);
      StuckForever(c, Next(c, s, run[0]), run[1..], r);
    }
  }

  lemma MarkedCopyIsStuck(s: State, nid: Nid, key: StoreKey, purpose: Purpose)
    requires KeysOwned(s) && key in s.messages
    ensures Stuck(DoRead(s, nid, key, purpose), |s.objs|) <==> s.messages[key].processing
  {
  }

  lemma UnrecordedIsStuck(c: Config, s: State, t: nat, txHash: string, txHeight: nat)
    requires Exclusive(s) && TaskIn(s, t, Routing) && s.objs[s.tasks[t].ref].route.msg.dst in c.finality
    requires Cached(s, s.tasks[t].ref) && c.finality[s.objs[s.tasks[t].ref].route.msg.dst] > 0
    ensures var s' := DoSucceed(c, s, t, txHash, txHeight, false); Stuck(s', s.tasks[t].ref) && Cached(s', s.tasks[t].ref)
  {
  }
}
