/** Without new input, only a bounded number of deliveries can start. */
module EngineProgress {
  import opened RelayTypes
  import opened Engine
  import opened EngineIdentity
  import opened EngineInFlight
  import opened EngineRetry

  /** Nothing enters a cache: no observation, no flush, no regeneration, no request by hand. */
  predicate Quiet(l: Label) {
    && (l.In? ==> !Filing(l.input))
    && (l.Finality? ==> !l.pass.PassMerge?)
  }

  ghost predicate On(tasks: seq<Task>, r: nat, phase: Phase) {
    exists t :: 0 <= t < |tasks| && tasks[t].ref == r && tasks[t].phase == phase
  }

  /** Tries an object has before its failure handler evicts it. */
  function Left(retry: nat): nat {
    if retry < MAX_TX_RETRY then MAX_TX_RETRY - retry else 0
  }

  /** The same for an object that will be tried at least once more. */
  function LeftWaiting(retry: nat): nat {
    if retry < MAX_TX_RETRY then MAX_TX_RETRY - retry else 1
  }

  /** The next thing that can happen to the object is a delivery start. */
  ghost predicate Waiting(s: State, r: nat) {
    Idle(s, r) || s.router == Querying(r) || On(s.tasks, r, Spawned)
  }

  ghost predicate Underway(s: State, r: nat) {
    On(s.tasks, r, Routing) || On(s.tasks, r, Toggled)
  }

  ghost function Weight(s: State, r: nat): nat
    requires r < |s.objs|
  {
    if Waiting(s, r) then LeftWaiting(s.objs[r].route.retry)
    else if Underway(s, r) then Left(s.objs[r].route.retry)
    else 0
  }

  /** The termination measure: the sum of the weights of the first n objects. */
  ghost function Total(s: State, n: nat): nat
    requires n <= |s.objs|
  {
    if n == 0 then 0 else Total(s, n - 1) + Weight(s, n - 1)
  }

  predicate Starts(l: Label) {
    l.Deliver? && l.step.Start?
  }

  function CountStarts(run: seq<Label>): nat {
    if run == [] then 0 else (if Starts(run[0]) then 1 else 0) + CountStarts(run[1..])
  }

  lemma OnAppended(tasks: seq<Task>, task: Task, r: nat, phase: Phase)
    ensures On(tasks + [task], r, phase) ==> On(tasks, r, phase) || task == Task(r, phase)
  {
    if u :| 0 <= u < |tasks| + 1 && (tasks + [task])[u].ref == r && (tasks + [task])[u].phase == phase {
      assert u < |tasks| ==> tasks[u].ref == r && tasks[u].phase == phase;
    }
  }

  lemma OnMoved(tasks: seq<Task>, t: nat, phase': Phase, r: nat, phase: Phase)
    requires t < |tasks|
    ensures On(tasks[t := tasks[t].(phase := phase')], r, phase) ==> On(tasks, r, phase) || (tasks[t].ref == r && phase == phase')
  {
    var moved := tasks[t := tasks[t].(phase := phase')];
    if u :| 0 <= u < |moved| && moved[u].ref == r && moved[u].phase == phase {
      assert u != t ==> tasks[u].ref == r && tasks[u].phase == phase;
    }
  }

  lemma WeightInput(c: Config, s: State, i: Input, r: nat)
    requires KeysOwned(s) && HeldAlone(s) && CanInput(c, s, i) && !Filing(i)
    ensures var s' := NextInput(c, s, i); |s'.objs| == |s.objs| && (r < |s.objs| ==> Weight(s', r) <= Weight(s, r))
  {
    hide Mark, Collided, CollidedTx, Own, Matching, Mature, Accounted, Stored, Watched, BackoffDelay;
  }

  lemma WeightPass(c: Config, s: State, l: PassStep, r: nat)
    requires CanPass(c, s, l) && !l.PassMerge?
    ensures var s' := NextPass(c, s, l); |s'.objs| == |s.objs| && (r < |s.objs| ==> Weight(s', r) <= Weight(s, r))
  {
  }

  /** Picks of objects that are not idle: still inside a failure handler, or evicted since the scan. */
  ghost predicate Overtakes(s: State, l: Label) {
    l.Routed? && l.router.Pick? && !Idle(s, l.router.ref)
  }

  /** A failed message is not accepted by the store and stays cached, to be tried again. */
  predicate Refused(l: Label) {
    l.Deliver? && l.step == Persist(false)
  }

  /** The start sets the uint8 counter from 255 back to zero. */
  predicate Wraps(s: State, l: Label) {
    Starts(l) && l.task < |s.tasks| && s.tasks[l.task].ref < |s.objs| && s.objs[s.tasks[l.task].ref].route.retry == 255
  }

  /** The tries a step can add. */
  ghost function Surplus(s: State, l: Label): nat {
    if Overtakes(s, l) && l.router.ref < |s.objs| then LeftWaiting(s.objs[l.router.ref].route.retry)
    else if Refused(l) then 1
    else if Wraps(s, l) then MAX_TX_RETRY
    else 0
  }

  ghost function SurplusRun(c: Config, s: State, run: seq<Label>): nat
    requires ValidRun(c, s, run)
    decreases |run|
  {
    if run == [] then 0 else Surplus(s, run[0]) + SurplusRun(c, Next(c, s, run[0]), run[1..])
  }

  lemma WeightPick(s: State, p: nat, r: nat)
    requires p < |s.objs| && s.router.Resting?
    ensures var s' := DoPick(s, p);
      |s'.objs| == |s.objs| &&
      (r < |s.objs| ==> Weight(s', r) <= Weight(s, r) + if r == p && !Idle(s, p) then LeftWaiting(s.objs[p].route.retry) else 0)
  {
  }

  lemma WeightRouter(c: Config, s: State, l: RouterStep, r: nat)
    requires KeysOwned(s) && CanRouter(c, s, l) && !l.Pick?
    ensures var s' := NextRouter(c, s, l); |s'.objs| == |s.objs| && (r < |s.objs| ==> Weight(s', r) <= Weight(s, r))
  {
    hide Mark, Collided, CollidedTx, Own, Matching, Mature, Accounted, Stored, Watched;
    if l.QueryMissing? {
      HandlerAppended(s.tasks, Task(s.router.ref, Spawned), r);
      OnAppended(s.tasks, Task(s.router.ref, Spawned), r, Spawned);
      OnAppended(s.tasks, Task(s.router.ref, Spawned), r, Routing);
      OnAppended(s.tasks, Task(s.router.ref, Spawned), r, Toggled);
    }
  }

  lemma WeightStart(c: Config, s: State, t: nat, r: nat)
    requires KeysOwned(s) && Exclusive(s) && TaskIn(s, t, Spawned)
    ensures var s' := DoStart(s, t);
      |s'.objs| == |s.objs| &&
      (r < |s.objs| && s.tasks[t].ref == r ==> Weight(s', r) + 1 <= Weight(s, r) + if s.objs[r].route.retry == 255 then MAX_TX_RETRY else 0) &&
      (r < |s.objs| && s.tasks[t].ref != r ==> Weight(s', r) <= Weight(s, r))
  {
    hide BackoffDelay;
    var s' := DoStart(s, t);
    HandlerMoved(s.tasks, t, Routing, r);
    OnMoved(s.tasks, t, Routing, r, Spawned);
    OnMoved(s.tasks, t, Routing, r, Routing);
    OnMoved(s.tasks, t, Routing, r, Toggled);
    assert On(s.tasks, s.tasks[t].ref, s.tasks[t].phase);
    if s.tasks[t].ref == r {
      forall u | 0 <= u < |s'.tasks| && s'.tasks[u].ref == r
        ensures !s'.tasks[u].phase.Spawned?
      {
      }
      assert Processing(s', r);
    }
  }

  lemma WeightOther(c: Config, s: State, t: nat, l: TaskStep, r: nat)
    requires KeysOwned(s) && Exclusive(s) && CanTask(c, s, t, l)
    requires !l.Start?
    ensures var s' := NextTask(c, s, t, l);
      |s'.objs| == |s.objs| &&
      (r < |s.objs| ==> Weight(s', r) <= Weight(s, r) + if l == Persist(false) && s.tasks[t].ref == r then 1 else 0)
  {
    hide Mark, Collided, CollidedTx, Own, Matching, Mature, Accounted, Stored, Watched, Found;
    var s' := NextTask(c, s, t, l);
    HandlerMoved(s.tasks, t, s'.tasks[t].phase, r);
    OnMoved(s.tasks, t, s'.tasks[t].phase, r, Spawned);
    OnMoved(s.tasks, t, s'.tasks[t].phase, r, Routing);
    OnMoved(s.tasks, t, s'.tasks[t].phase, r, Toggled);
    assert On(s.tasks, s.tasks[t].ref, s.tasks[t].phase);
  }

  lemma WeightTask(c: Config, s: State, t: nat, l: TaskStep, r: nat)
    requires KeysOwned(s) && Exclusive(s) && CanTask(c, s, t, l)
    ensures var s' := NextTask(c, s, t, l);
      |s'.objs| == |s.objs| && t < |s.tasks| &&
      (r < |s.objs| ==>
        Weight(s', r) + (if l.Start? && s.tasks[t].ref == r then 1 else 0) <=
        Weight(s, r) + if s.tasks[t].ref == r then Surplus(s, Deliver(t, l)) else 0)
  {
    hide Weight, KeysOwned, Exclusive;
    if l.Start? { WeightStart(c, s, t, r); } else { WeightOther(c, s, t, l, r); }
  }

  lemma {:induction false} TotalFalls(s: State, s': State, n: nat, k: nat, d: nat, j: nat, e: nat)
    requires n <= |s.objs| && |s'.objs| == |s.objs|
    requires forall r :: 0 <= r < n ==> Weight(s', r) + (if r == k then d else 0) <= Weight(s, r) + (if r == j then e else 0)
    ensures Total(s', n) + (if k < n then d else 0) <= Total(s, n) + (if j < n then e else 0)
  {
    if n > 0 {
      TotalFalls(s, s', n - 1, k, d, j, e);
    }
  }

  function StartedObject(c: Config, s: State, l: Label): (r: nat)
    requires Starts(l) && Enabled(c, s, l)
    ensures r < |s.objs|
  {
    s.tasks[l.task].ref
  }

  /** The object a step can add tries to, or none. */
  function RaisedObject(s: State, l: Label): nat {
    if l.Routed? && l.router.Pick? then l.router.ref
    else if l.Deliver? && l.task < |s.tasks| then s.tasks[l.task].ref
    else |s.objs|
  }

  lemma WeightStep(c: Config, s: State, l: Label, r: nat)
    requires Sound(s) && Enabled(c, s, l) && Quiet(l)
    ensures var s' := Next(c, s, l);
      |s'.objs| == |s.objs| &&
      (r < |s.objs| ==>
        Weight(s', r) + (if Starts(l) && StartedObject(c, s, l) == r then 1 else 0) <=
        Weight(s, r) + if r == RaisedObject(s, l) then Surplus(s, l) else 0)
  {
    hide CanInput, CanTask, CanPass, NextInput, NextTask, NextPass;
    hide HeldAlone, Exclusive, Weight, Filing, Idle, Wraps;
    match l
    case In(i) => WeightInput(c, s, i, r);
    case Routed(p) => if p.Pick? { WeightPick(s, p.ref, r); } else { WeightRouter(c, s, p, r); }
    case Deliver(t, d) => WeightTask(c, s, t, d, r);
    case Finality(f) => WeightPass(c, s, f, r);
  }

  /** The measure falls at each delivery start, and rises only by the surplus of a step. */
  lemma MeasureStep(c: Config, s: State, l: Label)
    requires Sound(s) && Enabled(c, s, l) && Quiet(l)
    ensures var s' := Next(c, s, l);
      |s'.objs| == |s.objs| &&
      Total(s', |s'.objs|) + (if Starts(l) then 1 else 0) <= Total(s, |s.objs|) + Surplus(s, l)
  {
    hide Enabled, Next, Sound, Quiet, Weight, Starts, RaisedObject, Idle, Surplus;
    var s' := Next(c, s, l);
    var k := if Starts(l) then StartedObject(c, s, l) else |s.objs|;
    var j := RaisedObject(s, l);
    WeightStep(c, s, l, 0);
    forall r | 0 <= r < |s.objs|
      ensures Weight(s', r) + (if r == k then 1 else 0) <= Weight(s, r) + (if r == j then Surplus(s, l) else 0)
    {
      WeightStep(c, s, l, r);
    }
    TotalFalls(s, s', |s.objs|, k, 1, j, Surplus(s, l));
  }

  ghost predicate QuietRun(run: seq<Label>) {
    forall l <- run :: Quiet(l)
  }

  lemma {:induction false} MeasureRun(c: Config, s: State, run: seq<Label>)
    requires Sound(s) && ValidRun(c, s, run) && QuietRun(run)
    ensures var s' := Final(c, s, run);
      |s'.objs| == |s.objs| &&
      CountStarts(run) + Total(s', |s'.objs|) <= Total(s, |s.objs|) + SurplusRun(c, s, run)
    decreases |run|
  {
    if run != [] {
      hide Sound, Quiet, Enabled, Next, Total, Starts, Surplus;
      SoundStep(c, s, run[0]);
      MeasureStep(c, s, run[0]);
      MeasureRun(c, Next(c, s, run[0]), run[1..]);
    }
  }

  /** From any reachable state, with every interleaving allowed, a run without new input starts at most
      as many deliveries as there are tries left, plus those that picks of objects not idle, refused
      writes of failed messages and wraps of the counter add. */
  lemma StartsBounded(c: Config, now: int, before: seq<Label>, run: seq<Label>)
    requires ValidRun(c, Init(now), before) && ValidRun(c, Final(c, Init(now), before), run) && QuietRun(run)
    ensures var s := Final(c, Init(now), before);
      CountStarts(run) + Total(Final(c, s, run), |Final(c, s, run).objs|) <= Total(s, |s.objs|) + SurplusRun(c, s, run)
  {
    InitSound(now);
    hide Quiet, Enabled, Next, Total, Sound, Surplus;
    SoundRun(c, Init(now), before);
    MeasureRun(c, Final(c, Init(now), before), run);
  }
}
