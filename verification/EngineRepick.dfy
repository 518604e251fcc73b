/** What happens when the router picks an object that is still inside its failure handler. */
module EngineRepick {
  import opened RelayTypes
  import opened Engine
  import opened EngineIdentity
  import opened EngineInFlight
  import opened EngineRetry

  /** The router can deliver object r. */
  predicate Ready(c: Config, s: State, r: nat) {
    && s.router.Resting? && Cached(s, r) && !s.objs[r].route.processing
    && s.objs[r].home in c.finality && s.objs[r].route.msg.dst in c.finality
  }

  /** s' is s with one more delivery of r under way. */
  predicate Redelivered(s: State, s': State, r: nat) {
    && r < |s.objs| && |s'.objs| == |s.objs|
    && s'.objs[r].route == IncrementRetry(s.objs[r].route.(processing := true), s'.now)
    && SlotOf(s'.objs[r]) == SlotOf(s.objs[r]) && s'.objs[r].home == s.objs[r].home
    && s'.cache == s.cache && s'.router.Resting?
    && s'.tasks == s.tasks + [Task(r, Routing)]
  }

  lemma Take(c: Config, s0: State, run: seq<Label>, l: Label) returns (run': seq<Label>)
    requires ValidRun(c, s0, run) && Enabled(c, Final(c, s0, run), l)
    ensures ValidRun(c, s0, run') && Final(c, s0, run') == Next(c, Final(c, s0, run), l)
    ensures PlainRun(run) && Plain(l) ==> PlainRun(run')
  {
    RunExtend(c, s0, run, l);
    run' := run + [l];
  }

  lemma CanTick(c: Config, s: State, d: nat)
    ensures Enabled(c, s, In(Tick(d))) && Next(c, s, In(Tick(d))) == s.(now := s.now + d)
  {
  }

  lemma CanScan(c: Config, s: State, nid: Nid)
    requires nid in c.finality && s.router.Resting?
    ensures Enabled(c, s, Routed(Scan(nid))) && Next(c, s, Routed(Scan(nid))) == DoScan(s, nid)
  {
  }

  lemma CanPick(c: Config, s: State, r: nat)
    requires CanRouter(c, s, Pick(r))
    ensures Enabled(c, s, Routed(Pick(r))) && Next(c, s, Routed(Pick(r))) == DoPick(s, r)
  {
  }

  lemma CanMiss(c: Config, s: State, r: nat)
    requires s.router == Querying(r) && r < |s.objs|
    ensures Enabled(c, s, Routed(QueryMissing)) && Next(c, s, Routed(QueryMissing)) == DoQueryMissing(s, r)
  {
  }

  lemma CanDeliver(c: Config, s: State, t: nat, l: TaskStep)
    requires CanTask(c, s, t, l)
    ensures Enabled(c, s, Deliver(t, l)) && Next(c, s, Deliver(t, l)) == NextTask(c, s, t, l)
  {
    hide CanTask, NextTask;
  }

  lemma Redeliver(c: Config, s0: State, run: seq<Label>, r: nat) returns (run': seq<Label>)
    requires ValidRun(c, s0, run) && Ready(c, Final(c, s0, run), r)
    ensures ValidRun(c, s0, run') && Redelivered(Final(c, s0, run), Final(c, s0, run'), r)
    ensures PlainRun(run) ==> PlainRun(run')
  {
    hide Enabled, Next, ValidRun, Final, PlainRun;
    var s := Final(c, s0, run);
    var e := s.objs[r];
    var d := if e.route.lastTry.At? && e.route.lastTry.ns >= s.now then e.route.lastTry.ns - s.now + 1 else 0;
    CanTick(c, s, d);
    var run1 := Take(c, s0, run, In(Tick(d)));
    var s1 := s.(now := s.now + d);
    CanScan(c, s1, e.home);
    var run2 := Take(c, s0, run1, Routed(Scan(e.home)));
    var s2 := DoScan(s1, e.home);
    assert r in s2.snapshot;
    CanPick(c, s2, r);
    var run3 := Take(c, s0, run2, Routed(Pick(r)));
    var s3 := DoPick(s2, r);
    CanMiss(c, s3, r);
    var run4 := Take(c, s0, run3, Routed(QueryMissing));
    var s4 := DoQueryMissing(s3, r);
    CanDeliver(c, s4, |s.tasks|, Start);
    run' := Take(c, s0, run4, Deliver(|s.tasks|, Start));
    assert NextTask(c, s4, |s.tasks|, Start) == DoStart(s4, |s.tasks|);
  }

  /** One failed delivery that the engine will retry. */
  lemma FailOnce(c: Config, s0: State, run: seq<Label>, r: nat) returns (run': seq<Label>)
    requires ValidRun(c, s0, run) && Ready(c, Final(c, s0, run), r)
    requires Final(c, s0, run).objs[r].route.retry < MAX_TX_RETRY - 1
    ensures ValidRun(c, s0, run') && Ready(c, Final(c, s0, run'), r)
    ensures Final(c, s0, run').objs[r].route.retry == Final(c, s0, run).objs[r].route.retry + 1
  {
    hide Enabled, Next, ValidRun, Final;
    var run1 := Redeliver(c, s0, run, r);
    var s1 := Final(c, s0, run1);
    var t := |Final(c, s0, run).tasks|;
    CanDeliver(c, s1, t, Fail);
    var run2 := Take(c, s0, run1, Deliver(t, Fail));
    var s2 := DoFail(s1, t);
    CanDeliver(c, s2, t, Retire);
    run' := Take(c, s0, run2, Deliver(t, Retire));
  }

  lemma ObserveOnce(c: Config, now: int, nid: Nid, m: Message) returns (run: seq<Label>)
    requires nid in c.finality && m.dst in c.finality
    ensures PlainRun(run)
    ensures ValidRun(c, Init(now), run) && Ready(c, Final(c, Init(now), run), 0)
    ensures Final(c, Init(now), run).objs[0].route.retry == 0
  {
    run := Take(c, Init(now), [], In(Observe(nid, m, true)));
  }

  /** The fifth failure, up to the toggle that opens the window. */
  lemma FailLast(c: Config, s0: State, run: seq<Label>, r: nat) returns (run': seq<Label>, t: nat)
    requires ValidRun(c, s0, run) && Ready(c, Final(c, s0, run), r)
    requires Final(c, s0, run).objs[r].route.retry == MAX_TX_RETRY - 1
    ensures ValidRun(c, s0, run') && Ready(c, Final(c, s0, run'), r)
    ensures var s := Final(c, s0, run');
      TaskIn(s, t, Toggled) && s.tasks[t].ref == r && s.objs[r].route.retry == MAX_TX_RETRY
  {
    hide Enabled, Next, ValidRun, Final;
    t := |Final(c, s0, run).tasks|;
    var run1 := Redeliver(c, s0, run, r);
    CanDeliver(c, Final(c, s0, run1), t, Fail);
    run' := Take(c, s0, run1, Deliver(t, Fail));
  }

  lemma EvictUnderDelivery(c: Config, s0: State, run: seq<Label>, r: nat, t1: nat) returns (run': seq<Label>, t: nat)
    requires ValidRun(c, s0, run) && Ready(c, Final(c, s0, run), r)
    requires var s := Final(c, s0, run);
      TaskIn(s, t1, Toggled) && s.tasks[t1].ref == r && s.objs[r].route.retry == MAX_TX_RETRY
    ensures ValidRun(c, s0, run')
    ensures var s := Final(c, s0, run');
      TaskIn(s, t, Routing) && s.tasks[t].ref == r && !Cached(s, r) && s.objs[r].route.retry > MAX_TX_RETRY
  {
    hide Enabled, Next, ValidRun, Final;
    t := |Final(c, s0, run).tasks|;
    var run1 := Redeliver(c, s0, run, r);
    var s1 := Final(c, s0, run1);
    CanDeliver(c, s1, t1, Persist(true));
    var run2 := Take(c, s0, run1, Deliver(t1, Persist(true)));
    var s2 := DoPersist(s1, t1, true);
    CanDeliver(c, s2, t1, Evict);
    run' := Take(c, s0, run2, Deliver(t1, Evict));
    assert Final(c, s0, run') == DoEvict(s2, t1);
  }

  /** For any observed message there is a run in which its object is being delivered while its
      cache entry is gone, and its retry count is beyond the limit of five: the object fails for
      the fifth time, is picked again before it is stored and evicted, and then evicted. */
  lemma RepickLosesEntry(c: Config, now: int, nid: Nid, m: Message) returns (run: seq<Label>, t: nat)
    requires nid in c.finality && m.dst in c.finality
    ensures ValidRun(c, Init(now), run)
    ensures var s := Final(c, Init(now), run);
      TaskIn(s, t, Routing) && s.tasks[t].ref == 0 && !Cached(s, 0) && s.objs[0].route.retry > MAX_TX_RETRY
  {
    hide Enabled, Next, ValidRun, Final;
    run := ObserveOnce(c, now, nid, m);
    run := FailOnce(c, Init(now), run, 0);
    run := FailOnce(c, Init(now), run, 0);
    run := FailOnce(c, Init(now), run, 0);
    run := FailOnce(c, Init(now), run, 0);
    var t1;
    run, t1 := FailLast(c, Init(now), run, 0);
    run, t := EvictUnderDelivery(c, Init(now), run, 0, t1);
  }

  /** A failed delivery whose handler gets no further than its toggle. */
  lemma FailOpen(c: Config, s0: State, run: seq<Label>, r: nat) returns (run': seq<Label>)
    requires ValidRun(c, s0, run) && Ready(c, Final(c, s0, run), r) && PlainRun(run)
    ensures ValidRun(c, s0, run') && Ready(c, Final(c, s0, run'), r) && PlainRun(run')
    ensures Final(c, s0, run').objs[r].route.retry == (Final(c, s0, run).objs[r].route.retry + 1) % 256
  {
    hide Enabled, Next, ValidRun, Final, PlainRun;
    var t := |Final(c, s0, run).tasks|;
    var run1 := Redeliver(c, s0, run, r);
    CanDeliver(c, Final(c, s0, run1), t, Fail);
    run' := Take(c, s0, run1, Deliver(t, Fail));
  }

  /** Picked again each time its back-off is over, while its failure handlers are still suspended after
      their toggle, an object reaches any number of tries. The run lets the clock advance past every
      back-off, so k tries take the time AttemptSpacing says: 109 hours for sixteen. */
  lemma {:induction false} RepickCounts(c: Config, now: int, nid: Nid, m: Message, k: nat) returns (run: seq<Label>)
    requires nid in c.finality && m.dst in c.finality
    ensures ValidRun(c, Init(now), run) && PlainRun(run) && Ready(c, Final(c, Init(now), run), 0)
    ensures Final(c, Init(now), run).objs[0].route.retry == k % 256
  {
    hide Enabled, Next, ValidRun, Final, PlainRun;
    if k == 0 {
      run := ObserveOnce(c, now, nid, m);
    } else {
      run := RepickCounts(c, now, nid, m, k - 1);
      run := FailOpen(c, Init(now), run, 0);
    }
  }

  /** So without the condition on picks the retry bound fails, for any observed message. By
      SixteenthTakesDays a fresh object needs more than 109 hours for it, and failure handlers suspended
      for most of that time. */
  lemma RepickBreaksBound(c: Config, now: int, nid: Nid, m: Message) returns (run: seq<Label>)
    requires nid in c.finality && m.dst in c.finality
    ensures ValidRun(c, Init(now), run) && PlainRun(run) && !WithinRetryBound(Final(c, Init(now), run))
  {
    hide Enabled, Next, ValidRun, Final, PlainRun;
    run := RepickCounts(c, now, nid, m, 16);
    assert Final(c, Init(now), run).objs[0].route.retry == 16;
  }
}
