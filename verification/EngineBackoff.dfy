/** Deliveries of one object keep the exponential distance, in every interleaving. */
module EngineBackoff {
  import opened RelayTypes
  import opened Engine
  import opened EngineIdentity
  import opened EngineInFlight
  import opened EngineRetry

  /** After the start that made the retry count k, the next start is more than the back-off for k
      later. Stated while the counts stay in the range where the delay fits int64. */
  ghost predicate SpacedEntry(e: Entry) {
    var n := |e.starts|;
    e.base + n <= 30 ==>
      && e.route.retry == e.base + n
      && (n > 0 ==> e.route.lastTry == At(e.starts[n - 1] + 6_000_000_000 * Pow2(e.base + n)))
      && (forall i :: 0 <= i < n - 1 ==> e.starts[i] + 6_000_000_000 * Pow2(e.base + i + 1) < e.starts[i + 1])
  }

  function Started(e: Entry, now: int): Entry {
    e.(route := IncrementRetry(e.route, now), starts := e.starts + [now])
  }

  lemma StartKeepsSpacing(e: Entry, now: int)
    requires SpacedEntry(e) && TryElapsed(e.route.lastTry, now)
    ensures SpacedEntry(Started(e, now))
  {
    hide Pow2;
    var e' := Started(e, now);
    var n := |e.starts|;
    if e.base + n + 1 <= 30 {
      BackoffFitsInt64(e.base + n + 1);
      forall i | 0 <= i < n
        ensures e'.starts[i] + 6_000_000_000 * Pow2(e.base + i + 1) < e'.starts[i + 1]
      {
      }
    }
  }

  predicate Elapsed(s: State, r: nat) {
    r < |s.objs| && TryElapsed(s.objs[r].route.lastTry, s.now)
  }

  ghost predicate Spaced(s: State) {
    forall r :: 0 <= r < |s.objs| ==> SpacedEntry(s.objs[r])
  }

  /** An object chosen for delivery stays past its back-off until the delivery starts. */
  ghost predicate ChosenElapsed(s: State) {
    && (s.router.Querying? ==> Elapsed(s, s.router.ref))
    && (forall t :: 0 <= t < |s.tasks| && s.tasks[t].phase.Spawned? ==> Elapsed(s, s.tasks[t].ref))
  }

  lemma SpacedInput(c: Config, s: State, i: Input)
    requires KeysOwned(s) && Spaced(s) && ChosenElapsed(s) && CanInput(c, s, i)
    ensures Spaced(NextInput(c, s, i)) && ChosenElapsed(NextInput(c, s, i))
  {
  }

  lemma SpacedRouter(c: Config, s: State, l: RouterStep)
    requires KeysOwned(s) && Spaced(s) && ChosenElapsed(s) && CanRouter(c, s, l)
    ensures Spaced(NextRouter(c, s, l)) && ChosenElapsed(NextRouter(c, s, l))
  {
    hide SpacedEntry;
    forall r | 0 <= r < |s.objs| ensures SpacedEntry(s.objs[r].(route := ToggleProcessing(s.objs[r].route))) {
      ToggleKeepsSpacing(s.objs[r]);
    }
  }

  lemma SpacedTask(c: Config, s: State, t: nat, l: TaskStep)
    requires KeysOwned(s) && Exclusive(s) && Spaced(s) && ChosenElapsed(s) && CanTask(c, s, t, l)
    ensures Spaced(NextTask(c, s, t, l)) && ChosenElapsed(NextTask(c, s, t, l))
  {
    hide SpacedEntry;
    var e := s.objs[s.tasks[t].ref];
    if l.Start? { StartKeepsSpacing(e, s.now); }
    ToggleKeepsSpacing(e);
  }

  lemma SpacedPass(c: Config, s: State, l: PassStep)
    requires KeysOwned(s) && Spaced(s) && ChosenElapsed(s) && CanPass(c, s, l)
    ensures Spaced(NextPass(c, s, l)) && ChosenElapsed(NextPass(c, s, l))
  {
  }

  lemma ToggleKeepsSpacing(e: Entry)
    requires SpacedEntry(e)
    ensures SpacedEntry(e.(route := ToggleProcessing(e.route)))
  {
  }

  lemma SpacedStep(c: Config, s: State, l: Label)
    requires Sound(s) && Spaced(s) && ChosenElapsed(s) && Enabled(c, s, l)
    ensures Spaced(Next(c, s, l)) && ChosenElapsed(Next(c, s, l))
  {
    hide CanInput, CanRouter, CanTask, CanPass, NextInput, NextRouter, NextTask, NextPass;
    hide KeysOwned, HeldAlone, Exclusive, Spaced, ChosenElapsed;
    match l
    case In(i) => SpacedInput(c, s, i);
    case Routed(r) => SpacedRouter(c, s, r);
    case Deliver(t, d) => SpacedTask(c, s, t, d);
    case Finality(f) => SpacedPass(c, s, f);
  }

  lemma {:induction false} SpacedRun(c: Config, s: State, run: seq<Label>)
    requires Sound(s) && Spaced(s) && ChosenElapsed(s) && ValidRun(c, s, run)
    ensures Spaced(Final(c, s, run))
    decreases |run|
  {
    if run != [] {
      hide Enabled, Next, Sound, Spaced, ChosenElapsed;
      SoundStep(c, s, run[0]);
      SpacedStep(c, s, run[0]);
      SpacedRun(c, Next(c, s, run[0]), run[1..]);
    }
  }

  lemma {:induction false} AttemptsApart(e: Entry, k: nat)
    requires SpacedEntry(e) && e.base == 0 && |e.starts| <= 30 && 2 <= k <= |e.starts|
    ensures e.starts[k - 1] - e.starts[0] > 6_000_000_000 * (Pow2(k) - 2)
  {
    assert e.starts[k - 2] + 6_000_000_000 * Pow2(e.base + (k - 2) + 1) < e.starts[k - 1];
    if k > 2 {
      AttemptsApart(e, k - 1);
    }
  }

  /** In every run, the k-th delivery of an object created fresh starts more than
      6 * (2^k - 2) seconds after its first. */
  lemma AttemptSpacing(c: Config, now: int, run: seq<Label>, r: nat, k: nat)
    requires ValidRun(c, Init(now), run)
    requires var s := Final(c, Init(now), run);
      r < |s.objs| && s.objs[r].base == 0 && |s.objs[r].starts| <= 30 && 2 <= k <= |s.objs[r].starts|
    ensures var e := Final(c, Init(now), run).objs[r];
      e.starts[k - 1] - e.starts[0] > 6_000_000_000 * (Pow2(k) - 2)
  {
    hide Enabled, Next;
    SpacedRun(c, Init(now), run);
    AttemptsApart(Final(c, Init(now), run).objs[r], k);
  }

  ghost predicate CountsInRange(s: State) {
    forall r :: 0 <= r < |s.objs| ==> s.objs[r].base + |s.objs[r].starts| <= 30
  }

  /** One step starts at most one delivery of an object. */
  ghost predicate StartsGrowByOne(s: State, s': State) {
    && |s.objs| <= |s'.objs|
    && (forall r :: 0 <= r < |s.objs| ==>
          s'.objs[r].base == s.objs[r].base && |s'.objs[r].starts| <= |s.objs[r].starts| + 1)
    && (forall r :: |s.objs| <= r < |s'.objs| ==>
          |s'.objs[r].starts| == 0 && s'.objs[r].base == s'.objs[r].route.retry)
  }

  lemma StartsGrowInput(c: Config, s: State, i: Input)
    requires CanInput(c, s, i)
    ensures StartsGrowByOne(s, NextInput(c, s, i))
  {
  }

  lemma StartsGrowRouter(c: Config, s: State, l: RouterStep)
    requires CanRouter(c, s, l)
    ensures StartsGrowByOne(s, NextRouter(c, s, l))
  {
  }

  lemma StartsGrowTask(c: Config, s: State, t: nat, l: TaskStep)
    requires CanTask(c, s, t, l)
    ensures StartsGrowByOne(s, NextTask(c, s, t, l))
  {
  }

  lemma StartsGrowPass(c: Config, s: State, l: PassStep)
    requires CanPass(c, s, l)
    ensures StartsGrowByOne(s, NextPass(c, s, l))
  {
  }

  lemma CountsStep(c: Config, s: State, l: Label)
    requires Enabled(c, s, l) && Spaced(s) && Bounded(s) && CountsInRange(s)
    requires Spaced(Next(c, s, l)) && Bounded(Next(c, s, l))
    ensures CountsInRange(Next(c, s, l))
  {
    hide CanInput, CanRouter, CanTask, CanPass, NextInput, NextRouter, NextTask, NextPass, IdleBounded;
    match l {
      case In(i) => StartsGrowInput(c, s, i);
      case Routed(r) => StartsGrowRouter(c, s, r);
      case Deliver(t, d) => StartsGrowTask(c, s, t, d);
      case Finality(f) => StartsGrowPass(c, s, f);
    }
    hide Enabled, Next;
    var s' := Next(c, s, l);
    forall r | 0 <= r < |s'.objs|
      ensures s'.objs[r].base + |s'.objs[r].starts| <= 30
    {
      if r < |s.objs| {
        assert SpacedEntry(s.objs[r]);
        assert s.objs[r].route.retry <= STALE_MARK_COUNT;
      }
    }
  }

  lemma {:induction false} CountsRun(c: Config, s: State, run: seq<Label>)
    requires Sound(s) && Bounded(s) && Spaced(s) && ChosenElapsed(s) && CountsInRange(s)
    requires ValidRun(c, s, run) && StartsBelowRun(c, s, run) && PlainRun(run)
    ensures Spaced(Final(c, s, run)) && CountsInRange(Final(c, s, run))
    decreases |run|
  {
    if run != [] {
      hide Enabled, Next, Sound, StartsBelow, Plain, Bounded, Spaced, ChosenElapsed, CountsInRange;
      SoundStep(c, s, run[0]);
      BoundedStep(c, s, run[0]);
      SpacedStep(c, s, run[0]);
      CountsStep(c, s, run[0]);
      CountsRun(c, Next(c, s, run[0]), run[1..]);
    }
  }

  /** Where every pick takes an object with fewer than fifteen tries, the same holds for every k. */
  lemma AttemptSpacingAlways(c: Config, now: int, run: seq<Label>, r: nat, k: nat)
    requires ValidRun(c, Init(now), run) && PicksBelowRun(c, Init(now), run) && PlainRun(run)
    requires var s := Final(c, Init(now), run);
      r < |s.objs| && s.objs[r].base == 0 && 2 <= k <= |s.objs[r].starts|
    ensures var e := Final(c, Init(now), run).objs[r];
      e.starts[k - 1] - e.starts[0] > 6_000_000_000 * (Pow2(k) - 2)
  {
    InitSound(now);
    InitBounded(now);
    assert ChosenBelow(Init(now));
    hide Enabled, Next, Sound, PicksBelow, StartsBelow, Bounded, ChosenBelow;
    ChosenRun(c, Init(now), run);
    CountsRun(c, Init(now), run);
    AttemptsApart(Final(c, Init(now), run).objs[r], k);
  }

  /** A fresh object needs more than 109 hours to come to its sixteenth delivery. */
  lemma SixteenthTakesDays(c: Config, now: int, run: seq<Label>, r: nat)
    requires ValidRun(c, Init(now), run)
    requires var s := Final(c, Init(now), run); r < |s.objs| && s.objs[r].base == 0 && 16 <= |s.objs[r].starts| <= 30
    ensures var e := Final(c, Init(now), run).objs[r];
      e.starts[15] - e.starts[0] > 109 * 3_600_000_000_000
  {
    hide Enabled, Next;
    AttemptSpacing(c, now, run, r, 16);
    assert Pow2(10) == 1024;
    assert Pow2(16) == 64 * Pow2(10);
  }
}
