/** The retry counter: every flush feeds persisted messages back, yet it stays within 15 as long as no
    delivery is started for an object with fifteen tries, and exactly as long. */
module EngineRetry {
  import opened RelayTypes
  import opened Engine
  import opened EngineIdentity
  import opened EngineInFlight

  /** No message is relayed by hand out of the store, and the store accepts failed messages. */
  predicate Plain(l: Label) {
    && (l.In? && l.input.Read? ==> !l.input.purpose.ForRelay?)
    && (l.Deliver? && l.step.Persist? ==> l.step.ok)
  }

  predicate PlainRun(run: seq<Label>) {
    forall l <- run :: Plain(l)
  }

  predicate RetryAtMost(s: State, r: nat, bound: nat) {
    r < |s.objs| && s.objs[r].route.retry <= bound
  }

  ghost predicate Idle(s: State, r: nat) {
    Cached(s, r) && !Processing(s, r) && !InHandler(s, r)
  }

  /** Delivery starts only below fifteen tries. */
  predicate StartsBelow(s: State, l: Label) {
    l.Deliver? && l.step.Start? && l.task < |s.tasks| && s.tasks[l.task].ref < |s.objs| ==>
      s.objs[s.tasks[l.task].ref].route.retry < STALE_MARK_COUNT
  }

  /** The router picks only what has fewer than fifteen tries. */
  predicate PicksBelow(s: State, l: Label) {
    l.Routed? && l.router.Pick? && l.router.ref < |s.objs| ==> s.objs[l.router.ref].route.retry < STALE_MARK_COUNT
  }

  ghost predicate CountersBounded(s: State) {
    && (forall r :: 0 <= r < |s.objs| ==> s.objs[r].route.retry <= STALE_MARK_COUNT)
    && (forall key <- s.messages :: s.messages[key].retry <= STALE_MARK_COUNT)
    && (forall r <- s.held :: !s.held[r].ForRelay? && (s.held[r].ForFlush? ==> RetryAtMost(s, r, STALE_MARK_COUNT - 1)))
  }

  ghost predicate IdleBounded(s: State) {
    forall r :: 0 <= r < |s.objs| && Idle(s, r) ==> s.objs[r].route.retry < STALE_MARK_COUNT
  }

  /** An object with fifteen tries is looked up only while a failure handler still has it, or after one
      has evicted it. */
  ghost predicate LookupCovered(s: State) {
    s.router.Querying? ==>
      RetryAtMost(s, s.router.ref, STALE_MARK_COUNT - 1) || InHandler(s, s.router.ref) || !Cached(s, s.router.ref)
  }

  ghost predicate Bounded(s: State) {
    CountersBounded(s) && IdleBounded(s) && LookupCovered(s)
  }

  lemma HandlerAppended(tasks: seq<Task>, task: Task, r: nat)
    ensures HandlerOn(tasks, r) ==> HandlerOn(tasks + [task], r)
  {
    if u :| 0 <= u < |tasks| && tasks[u].ref == r && Handling(tasks[u].phase) {
      assert (tasks + [task])[u] == tasks[u];
    }
  }

  lemma HandlerMoved(tasks: seq<Task>, t: nat, phase: Phase, r: nat)
    requires t < |tasks|
    ensures HandlerOn(tasks, r) && (tasks[t].ref != r || Handling(phase)) ==> HandlerOn(tasks[t := tasks[t].(phase := phase)], r)
    ensures tasks[t].ref == r && Handling(phase) ==> HandlerOn(tasks[t := tasks[t].(phase := phase)], r)
  {
    var moved := tasks[t := tasks[t].(phase := phase)];
    if tasks[t].ref == r && Handling(phase) {
      assert moved[t].ref == r && Handling(moved[t].phase);
    } else if u :| 0 <= u < |tasks| && tasks[u].ref == r && Handling(tasks[u].phase) {
      assert u != t ==> moved[u] == tasks[u];
    }
  }

  // ----- Counters

  lemma CountersFiling(c: Config, s: State, i: Input)
    requires CountersBounded(s) && CanInput(c, s, i) && Filing(i) && Plain(In(i))
    ensures CountersBounded(NextInput(c, s, i))
  {
  }

  lemma CountersOther(c: Config, s: State, i: Input)
    requires CountersBounded(s) && CanInput(c, s, i) && !Filing(i) && Plain(In(i))
    ensures CountersBounded(NextInput(c, s, i))
  {
  }

  lemma CountersRouter(c: Config, s: State, l: RouterStep)
    requires CountersBounded(s) && CanRouter(c, s, l)
    ensures CountersBounded(NextRouter(c, s, l))
  {
    hide Mark, Collided, CollidedTx, Own, Matching, Mature, Accounted, Stored, Watched;
  }

  lemma CountersTask(c: Config, s: State, t: nat, l: TaskStep)
    requires HeldAlone(s) && CountersBounded(s) && CanTask(c, s, t, l) && Plain(Deliver(t, l)) && StartsBelow(s, Deliver(t, l))
    ensures CountersBounded(NextTask(c, s, t, l))
  {
    hide Mark, Collided, CollidedTx, Own, Matching, Mature, Accounted, Stored, Watched, Found, BackoffDelay;
  }

  lemma CountersPass(c: Config, s: State, l: PassStep)
    requires CountersBounded(s) && CanPass(c, s, l)
    ensures CountersBounded(NextPass(c, s, l))
  {
  }

  // ----- Idle objects

  lemma IdleInput(c: Config, s: State, i: Input)
    requires KeysOwned(s) && HeldAlone(s) && CountersBounded(s) && IdleBounded(s) && CanInput(c, s, i) && Plain(In(i))
    ensures IdleBounded(NextInput(c, s, i))
  {
    hide Mark, Collided, CollidedTx, Own, Matching, Mature, Accounted, Stored, Watched;
    var s' := NextInput(c, s, i);
    forall r | 0 <= r < |s'.objs| && Idle(s', r)
      ensures s'.objs[r].route.retry < STALE_MARK_COUNT
    {
      assert r < |s.objs| && Idle(s, r) ==> s.objs[r].route.retry < STALE_MARK_COUNT;
    }
  }

  lemma IdleRouter(c: Config, s: State, l: RouterStep)
    requires KeysOwned(s) && IdleBounded(s) && LookupCovered(s) && CanRouter(c, s, l)
    ensures IdleBounded(NextRouter(c, s, l))
  {
    hide Mark, Collided, CollidedTx, Own, Matching, Mature, Accounted, Stored, Watched;
    var s' := NextRouter(c, s, l);
    forall r | 0 <= r < |s'.objs| && Idle(s', r)
      ensures s'.objs[r].route.retry < STALE_MARK_COUNT
    {
      if l.QueryMissing? { HandlerAppended(s.tasks, Task(s.router.ref, Spawned), r); }
      assert r < |s.objs| && Idle(s, r) ==> s.objs[r].route.retry < STALE_MARK_COUNT;
    }
  }

  lemma IdleTask(c: Config, s: State, t: nat, l: TaskStep)
    requires KeysOwned(s) && Exclusive(s) && IdleBounded(s) && CanTask(c, s, t, l) && Plain(Deliver(t, l))
    ensures IdleBounded(NextTask(c, s, t, l))
  {
    hide Mark, Collided, CollidedTx, Own, Matching, Mature, Accounted, Stored, Watched;
    var s' := NextTask(c, s, t, l);
    forall r | 0 <= r < |s'.objs| && Idle(s', r)
      ensures s'.objs[r].route.retry < STALE_MARK_COUNT
    {
      HandlerMoved(s.tasks, t, s'.tasks[t].phase, r);
      assert r < |s.objs| && Idle(s, r) ==> s.objs[r].route.retry < STALE_MARK_COUNT;
    }
  }

  lemma IdlePass(c: Config, s: State, l: PassStep)
    requires KeysOwned(s) && IdleBounded(s) && CanPass(c, s, l)
    ensures IdleBounded(NextPass(c, s, l))
  {
    var s' := NextPass(c, s, l);
    forall r | 0 <= r < |s'.objs| && Idle(s', r)
      ensures s'.objs[r].route.retry < STALE_MARK_COUNT
    {
      assert r < |s.objs| && Idle(s, r) ==> s.objs[r].route.retry < STALE_MARK_COUNT;
    }
  }

  // ----- Lookups

  lemma LookupInput(c: Config, s: State, i: Input)
    requires KeysOwned(s) && HeldAlone(s) && LookupCovered(s) && CanInput(c, s, i)
    ensures LookupCovered(NextInput(c, s, i))
  {
    hide Mark, Collided, CollidedTx, Own, Matching, Mature, Accounted, Stored, Watched, HandlerOn;
  }

  lemma LookupRouter(c: Config, s: State, l: RouterStep)
    requires KeysOwned(s) && IdleBounded(s) && LookupCovered(s) && CanRouter(c, s, l)
    ensures LookupCovered(NextRouter(c, s, l))
  {
    hide Mark, Collided, CollidedTx, Own, Matching, Mature, Accounted, Stored, Watched, HandlerOn;
    if l.Pick? && Cached(s, l.ref) && !InHandler(s, l.ref) {
      assert Idle(s, l.ref);
    }
  }

  lemma LookupTask(c: Config, s: State, t: nat, l: TaskStep)
    requires KeysOwned(s) && Exclusive(s) && LookupCovered(s) && CanTask(c, s, t, l) && Plain(Deliver(t, l))
    ensures LookupCovered(NextTask(c, s, t, l))
  {
    hide Mark, Collided, CollidedTx, Own, Matching, Mature, Accounted, Stored, Watched, HandlerOn;
    HandlerMoved(s.tasks, t, NextTask(c, s, t, l).tasks[t].phase, if s.router.Querying? then s.router.ref else 0);
  }

  lemma LookupPass(c: Config, s: State, l: PassStep)
    requires KeysOwned(s) && LookupCovered(s) && CanPass(c, s, l)
    ensures LookupCovered(NextPass(c, s, l))
  {
    hide Mark, Collided, CollidedTx, Own, Matching, Mature, Accounted, Stored, Watched, HandlerOn;
  }

  lemma BoundedStep(c: Config, s: State, l: Label)
    requires Sound(s) && Bounded(s) && Enabled(c, s, l) && Plain(l) && StartsBelow(s, l)
    ensures Bounded(Next(c, s, l))
  {
    hide CanInput, CanRouter, CanTask, CanPass, NextInput, NextRouter, NextTask, NextPass;
    hide KeysOwned, HeldAlone, Exclusive, Plain, CountersBounded, IdleBounded, LookupCovered;
    match l
    case In(i) =>
      if Filing(i) { CountersFiling(c, s, i); } else { CountersOther(c, s, i); }
      IdleInput(c, s, i);
      LookupInput(c, s, i);
    case Routed(r) => CountersRouter(c, s, r); IdleRouter(c, s, r); LookupRouter(c, s, r);
    case Deliver(t, d) => CountersTask(c, s, t, d); IdleTask(c, s, t, d); LookupTask(c, s, t, d);
    case Finality(f) => CountersPass(c, s, f); IdlePass(c, s, f); LookupPass(c, s, f);
  }

  // ----- Whole runs

  ghost predicate StartsBelowRun(c: Config, s: State, run: seq<Label>)
    requires ValidRun(c, s, run)
    decreases |run|
  {
    run == [] || (StartsBelow(s, run[0]) && StartsBelowRun(c, Next(c, s, run[0]), run[1..]))
  }

  ghost predicate PicksBelowRun(c: Config, s: State, run: seq<Label>)
    requires ValidRun(c, s, run)
    decreases |run|
  {
    run == [] || (PicksBelow(s, run[0]) && PicksBelowRun(c, Next(c, s, run[0]), run[1..]))
  }

  /** Idle cached objects have at most 14 tries, all others and store copies at most 15, and the next
      increment of the uint8 counter does not wrap. */
  ghost predicate WithinRetryBound(s: State) {
    && (forall r :: 0 <= r < |s.objs| ==> s.objs[r].route.retry <= 15)
    && (forall r :: 0 <= r < |s.objs| && Idle(s, r) ==> s.objs[r].route.retry <= 14)
    && (forall key <- s.messages :: s.messages[key].retry <= 15)
    && (forall t: nat :: TaskIn(s, t, Spawned) ==>
          IncrementRetry(s.objs[s.tasks[t].ref].route, s.now).retry == s.objs[s.tasks[t].ref].route.retry + 1)
  }

  ghost predicate WithinAlong(c: Config, s: State, run: seq<Label>)
    requires ValidRun(c, s, run)
    decreases |run|
  {
    WithinRetryBound(s) && (run == [] || WithinAlong(c, Next(c, s, run[0]), run[1..]))
  }

  lemma BoundedIsWithin(s: State)
    requires Bounded(s)
    ensures WithinRetryBound(s)
  {
  }

  lemma InitBounded(now: int)
    ensures Bounded(Init(now))
  {
  }

  /** A sixteenth try is one too many. */
  lemma StartBreaks(c: Config, s: State, l: Label)
    requires WithinRetryBound(s) && Enabled(c, s, l) && !StartsBelow(s, l)
    ensures !WithinRetryBound(Next(c, s, l))
  {
    var r := s.tasks[l.task].ref;
    assert Next(c, s, l) == DoStart(s, l.task);
    assert Next(c, s, l).objs[r].route.retry == 16;
  }

  lemma {:induction false} BoundRun(c: Config, s: State, run: seq<Label>)
    requires Sound(s) && Bounded(s) && ValidRun(c, s, run) && PlainRun(run)
    ensures WithinAlong(c, s, run) <==> StartsBelowRun(c, s, run)
    ensures StartsBelowRun(c, s, run) ==> Bounded(Final(c, s, run))
    decreases |run|
  {
    BoundedIsWithin(s);
    hide Enabled, Next, Sound, Bounded, StartsBelow, Plain, WithinRetryBound;
    if run != [] {
      if StartsBelow(s, run[0]) {
        SoundStep(c, s, run[0]);
        BoundedStep(c, s, run[0]);
        BoundRun(c, Next(c, s, run[0]), run[1..]);
      } else {
        StartBreaks(c, s, run[0]);
      }
    }
  }

  /** Over whole runs, with every interleaving allowed: all states are within the bound if and only if
      no delivery starts with fifteen tries or more. */
  lemma RetryBoundExact(c: Config, now: int, run: seq<Label>)
    requires ValidRun(c, Init(now), run) && PlainRun(run)
    ensures WithinAlong(c, Init(now), run) <==> StartsBelowRun(c, Init(now), run)
  {
    InitSound(now);
    InitBounded(now);
    hide Enabled, Next, Sound, Bounded;
    BoundRun(c, Init(now), run);
  }

  // ----- The guard at the pick

  /** Whatever is about to be delivered has fewer than fifteen tries. */
  ghost predicate ChosenBelow(s: State) {
    && (forall t :: 0 <= t < |s.tasks| && s.tasks[t].phase.Spawned? ==> RetryAtMost(s, s.tasks[t].ref, STALE_MARK_COUNT - 1))
    && (s.router.Querying? ==> RetryAtMost(s, s.router.ref, STALE_MARK_COUNT - 1))
  }

  lemma ChosenInput(c: Config, s: State, i: Input)
    requires ChosenBelow(s) && CanInput(c, s, i)
    ensures ChosenBelow(NextInput(c, s, i))
  {
  }

  lemma ChosenRouter(c: Config, s: State, l: RouterStep)
    requires ChosenBelow(s) && CanRouter(c, s, l) && PicksBelow(s, Routed(l))
    ensures ChosenBelow(NextRouter(c, s, l))
  {
  }

  lemma ChosenTask(c: Config, s: State, t: nat, l: TaskStep)
    requires Exclusive(s) && ChosenBelow(s) && CanTask(c, s, t, l)
    ensures ChosenBelow(NextTask(c, s, t, l))
  {
    hide Mark, Collided, CollidedTx, Own, Matching, Mature, Accounted, Stored, Watched, Found, BackoffDelay;
  }

  lemma ChosenPass(c: Config, s: State, l: PassStep)
    requires ChosenBelow(s) && CanPass(c, s, l)
    ensures ChosenBelow(NextPass(c, s, l))
  {
  }

  lemma ChosenStep(c: Config, s: State, l: Label)
    requires Sound(s) && ChosenBelow(s) && Enabled(c, s, l) && PicksBelow(s, l)
    ensures StartsBelow(s, l) && ChosenBelow(Next(c, s, l))
  {
    assert StartsBelow(s, l);
    hide CanInput, CanRouter, CanTask, CanPass, NextInput, NextRouter, NextTask, NextPass;
    hide KeysOwned, HeldAlone, Exclusive, ChosenBelow, PicksBelow, StartsBelow;
    match l
    case In(i) => ChosenInput(c, s, i);
    case Routed(r) => ChosenRouter(c, s, r);
    case Deliver(t, d) => ChosenTask(c, s, t, d);
    case Finality(f) => ChosenPass(c, s, f);
  }

  lemma {:induction false} ChosenRun(c: Config, s: State, run: seq<Label>)
    requires Sound(s) && ChosenBelow(s) && ValidRun(c, s, run) && PicksBelowRun(c, s, run)
    ensures StartsBelowRun(c, s, run) && ChosenBelow(Final(c, s, run)) && Sound(Final(c, s, run))
    decreases |run|
  {
    hide Enabled, Next, Sound, ChosenBelow, PicksBelow, StartsBelow;
    if run != [] {
      SoundStep(c, s, run[0]);
      ChosenStep(c, s, run[0]);
      ChosenRun(c, Next(c, s, run[0]), run[1..]);
    }
  }

  /** Where every pick takes an object with fewer than fifteen tries, the retry bound holds, with every
      overtaking interleaving allowed. */
  lemma RetryBound(c: Config, now: int, run: seq<Label>)
    requires ValidRun(c, Init(now), run) && PlainRun(run) && PicksBelowRun(c, Init(now), run)
    ensures WithinRetryBound(Final(c, Init(now), run)) && WithinAlong(c, Init(now), run)
  {
    InitSound(now);
    InitBounded(now);
    assert ChosenBelow(Init(now));
    hide Enabled, Next, Sound, Bounded, ChosenBelow, WithinRetryBound;
    ChosenRun(c, Init(now), run);
    BoundRun(c, Init(now), run);
    BoundedIsWithin(Final(c, Init(now), run));
  }

  // ----- One pick

  /** What a pick of r comes to when the lookup finds nothing and the delivery starts at once. */
  function PickedAndStarted(s: State, r: nat): State
    requires r < |s.objs|
  {
    DoStart(DoQueryMissing(DoPick(s, r), r), |s.tasks|)
  }

  lemma PickDelivers(c: Config, s: State, r: nat)
    requires CanRouter(c, s, Pick(r))
    ensures var run := [Routed(Pick(r)), Routed(QueryMissing), Deliver(|s.tasks|, Start)];
      ValidRun(c, s, run) && PlainRun(run) && Final(c, s, run) == PickedAndStarted(s, r)
  {
    var picked := DoPick(s, r);
    var missing := DoQueryMissing(picked, r);
    hide ValidRun, Final;
    var l0, l1, l2 := Routed(Pick(r)), Routed(QueryMissing), Deliver(|s.tasks|, Start);
    assert Enabled(c, s, l0) && Next(c, s, l0) == picked;
    assert Enabled(c, picked, l1) && Next(c, picked, l1) == missing;
    assert Enabled(c, missing, l2) && Next(c, missing, l2) == PickedAndStarted(s, r);
    hide Enabled, Next, DoPick, DoQueryMissing, DoStart;
    ThreeSteps(c, s, l0, l1, l2);
  }

  lemma ThreeSteps(c: Config, s: State, l0: Label, l1: Label, l2: Label)
    requires Enabled(c, s, l0) && Enabled(c, Next(c, s, l0), l1) && Enabled(c, Next(c, Next(c, s, l0), l1), l2)
    ensures ValidRun(c, s, [l0, l1, l2]) && Final(c, s, [l0, l1, l2]) == Next(c, Next(c, Next(c, s, l0), l1), l2)
  {
    hide Enabled, Next;
    RunExtend(c, s, [], l0);
    assert [] + [l0] == [l0];
    RunExtend(c, s, [l0], l1);
    assert [l0] + [l1] == [l0, l1];
    RunExtend(c, s, [l0, l1], l2);
    assert [l0, l1] + [l2] == [l0, l1, l2];
  }

  /** The guard is exact at each pick: from any state such runs reach, letting a pick be delivered at
      once ends within the bound if and only if the object has fewer than fifteen tries. */
  lemma PickDecidesBound(c: Config, now: int, run: seq<Label>, r: nat)
    requires ValidRun(c, Init(now), run) && PlainRun(run) && PicksBelowRun(c, Init(now), run)
    requires CanRouter(c, Final(c, Init(now), run), Pick(r))
    ensures var s := Final(c, Init(now), run);
      var more := [Routed(Pick(r)), Routed(QueryMissing), Deliver(|s.tasks|, Start)];
      && ValidRun(c, s, more) && PlainRun(more) && Final(c, s, more) == PickedAndStarted(s, r)
      && (WithinRetryBound(PickedAndStarted(s, r)) <==> s.objs[r].route.retry < STALE_MARK_COUNT)
  {
    InitSound(now);
    InitBounded(now);
    assert ChosenBelow(Init(now));
    hide Enabled, Next, Sound, Bounded, WithinRetryBound, ValidRun, Final, PlainRun;
    ChosenRun(c, Init(now), run);
    BoundRun(c, Init(now), run);
    var s := Final(c, Init(now), run);
    PickDelivers(c, s, r);
    PickDecides(c, s, r);
  }

  lemma PickDecides(c: Config, s: State, r: nat)
    requires Sound(s) && Bounded(s) && CanRouter(c, s, Pick(r))
    ensures WithinRetryBound(PickedAndStarted(s, r)) <==> s.objs[r].route.retry < STALE_MARK_COUNT
  {
    var more := [Routed(Pick(r)), Routed(QueryMissing), Deliver(|s.tasks|, Start)];
    PickDelivers(c, s, r);
    BoundedIsWithin(s);
    assert PickedAndStarted(s, r).objs[r].route.retry == (s.objs[r].route.retry + 1) % 256;
    if s.objs[r].route.retry < STALE_MARK_COUNT {
      PickedRunStarts(c, s, r);
      hide Enabled, Next, Sound, Bounded, WithinRetryBound, ValidRun, Final, PlainRun, CanRouter;
      BoundRun(c, s, more);
      BoundedIsWithin(Final(c, s, more));
    }
  }

  lemma PickedRunStarts(c: Config, s: State, r: nat)
    requires CanRouter(c, s, Pick(r)) && s.objs[r].route.retry < STALE_MARK_COUNT
    requires ValidRun(c, s, [Routed(Pick(r)), Routed(QueryMissing), Deliver(|s.tasks|, Start)])
    ensures StartsBelowRun(c, s, [Routed(Pick(r)), Routed(QueryMissing), Deliver(|s.tasks|, Start)])
  {
    var run := [Routed(Pick(r)), Routed(QueryMissing), Deliver(|s.tasks|, Start)];
    assert run[1..] == [Routed(QueryMissing), Deliver(|s.tasks|, Start)];
    assert run[1..][1..] == [Deliver(|s.tasks|, Start)];
    assert run[1..][1..][1..] == [];
    var picked := DoPick(s, r);
    var missing := DoQueryMissing(picked, r);
    assert Next(c, s, run[0]) == picked && Next(c, picked, run[1..][0]) == missing;
    assert StartsBelow(missing, Deliver(|s.tasks|, Start));
    assert StartsBelowRun(c, missing, run[1..][1..]);
    assert StartsBelowRun(c, picked, run[1..]);
  }
}
