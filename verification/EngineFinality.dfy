/** When records leave the finality store. */
module EngineFinality {
  import opened RelayTypes
  import opened Engine
  import opened EngineCauses

  /** At this height of its destination the record has waited out its finality period. */
  predicate PastFinality(c: Config, nid: Nid, height: nat, tx: TxObject) {
    nid in c.finality && tx.txHeight != 0 && tx.txHeight + c.finality[nid] <= height
  }

  /** The uint64 comparison of the pass agrees with the intended one exactly when the sum does not
      wrap, or wraps to more than the height the pass read. */
  lemma MatureIsPastFinality(c: Config, nid: Nid, height: nat, tx: TxObject)
    requires nid in c.finality && 0 < c.finality[nid] < UINT64_SIZE
    requires 0 < tx.txHeight < UINT64_SIZE && height < UINT64_SIZE
    ensures (Mature(c, nid, height, tx) <==> PastFinality(c, nid, height, tx)) <==>
            (tx.txHeight + c.finality[nid] < 0x1_0000_0000_0000_0000 || tx.txHeight + c.finality[nid] - 0x1_0000_0000_0000_0000 > height)
  {
    var sum := tx.txHeight + c.finality[nid];
    if sum >= UINT64_SIZE {
      assert sum % UINT64_SIZE == sum - UINT64_SIZE;
    }
  }

  /** A confirmed or regenerated record, at the head of the pass and mature at the height read. */
  ghost predicate RemovedByPass(c: Config, s: State, l: Label, key: StoreKey) {
    && l.Finality? && (l.pass == PassConfirm(true) || l.pass.PassRegenerate?)
    && AtMature(c, s) && TxStoreKey(s.pass.rest[0]) == key
  }

  lemma RecordLeavesInput(c: Config, s: State, i: Input, key: StoreKey)
    requires CanInput(c, s, i)
    ensures key in s.txs && key !in NextInput(c, s, i).txs ==> i.Prune?
    ensures key !in s.txs && key in NextInput(c, s, i).txs ==> false
  {
  }

  lemma RecordLeavesRouter(c: Config, s: State, l: RouterStep, key: StoreKey)
    requires CanRouter(c, s, l)
    ensures key in s.txs && key !in NextRouter(c, s, l).txs ==> false
    ensures key !in s.txs && key in NextRouter(c, s, l).txs ==> false
  {
  }

  lemma RecordLeavesTask(c: Config, s: State, t: nat, l: TaskStep, key: StoreKey)
    requires CanTask(c, s, t, l)
    ensures key in s.txs && key !in NextTask(c, s, t, l).txs ==> false
    ensures key !in s.txs && key in NextTask(c, s, t, l).txs ==> l.Succeed?
  {
  }

  lemma RecordLeavesPass(c: Config, s: State, l: PassStep, key: StoreKey)
    requires CanPass(c, s, l)
    ensures key in s.txs && key !in NextPass(c, s, l).txs ==> RemovedByPass(c, s, Finality(l), key)
    ensures key !in s.txs && key in NextPass(c, s, l).txs ==> false
  {
  }

  /** In every step a record leaves the store only by a pass that found it mature and confirmed or
      regenerated it, or by a prune; and one enters only by a success on a chain with a finality wait. */
  lemma RecordLeaves(c: Config, s: State, l: Label, key: StoreKey)
    requires Enabled(c, s, l)
    ensures key in s.txs && key !in Next(c, s, l).txs ==> l == In(Prune) || RemovedByPass(c, s, l, key)
    ensures key !in s.txs && key in Next(c, s, l).txs ==> l.Deliver? && l.step.Succeed?
  {
    hide CanInput, CanRouter, CanTask, CanPass, NextInput, NextRouter, NextTask, NextPass, RemovedByPass;
    match l
    case In(i) => RecordLeavesInput(c, s, i, key);
    case Routed(r) => RecordLeavesRouter(c, s, r, key);
    case Deliver(t, d) => RecordLeavesTask(c, s, t, d, key);
    case Finality(f) => RecordLeavesPass(c, s, f, key);
  }

  // ----- The height the pass goes by

  /** The chain had this last height at some point of the run. */
  ghost predicate HadHeight(c: Config, s: State, run: seq<Label>, nid: Nid, height: nat)
    requires ValidRun(c, s, run)
    decreases |run|
  {
    HeightOf(s, nid) == height || (run != [] && HadHeight(c, Next(c, s, run[0]), run[1..], nid, height))
  }

  /** The pass has the chain and height it had, or those of a chain now. */
  predicate HeightFollows(s: State, s': State) {
    (s'.pass.nid == s.pass.nid && s'.pass.height == s.pass.height) || HeightOf(s', s'.pass.nid) == s'.pass.height
  }

  lemma HeightInput(c: Config, s: State, i: Input)
    requires CanInput(c, s, i)
    ensures HeightFollows(s, NextInput(c, s, i))
  {
  }

  lemma HeightRouter(c: Config, s: State, l: RouterStep)
    requires CanRouter(c, s, l)
    ensures HeightFollows(s, NextRouter(c, s, l))
  {
  }

  lemma HeightTask(c: Config, s: State, t: nat, l: TaskStep)
    requires CanTask(c, s, t, l)
    ensures HeightFollows(s, NextTask(c, s, t, l))
  {
  }

  lemma HeightPass(c: Config, s: State, l: PassStep)
    requires CanPass(c, s, l)
    ensures HeightFollows(s, NextPass(c, s, l))
  {
  }

  lemma HeightStep(c: Config, s: State, l: Label)
    requires Enabled(c, s, l)
    ensures HeightFollows(s, Next(c, s, l))
  {
    hide CanInput, CanRouter, CanTask, CanPass, NextInput, NextRouter, NextTask, NextPass, HeightFollows;
    match l
    case In(i) => HeightInput(c, s, i);
    case Routed(r) => HeightRouter(c, s, r);
    case Deliver(t, d) => HeightTask(c, s, t, d);
    case Finality(f) => HeightPass(c, s, f);
  }

  lemma {:induction false} HeightRun(c: Config, s: State, run: seq<Label>)
    requires ValidRun(c, s, run)
    ensures var p := Final(c, s, run).pass;
      (p.nid == s.pass.nid && p.height == s.pass.height) || HadHeight(c, s, run, p.nid, p.height)
    decreases |run|
  {
    if run != [] {
      hide Enabled, Next, HeightOf;
      HeightStep(c, s, run[0]);
      HeightRun(c, Next(c, s, run[0]), run[1..]);
    }
  }

  /** The pass may go by an old height, but it is one the chain has had: whatever record it removes, the
      chain's height was at some point enough for it, even if the chain has gone back since. */
  lemma RemovedWhenMature(c: Config, now: int, run: seq<Label>, l: Label, key: StoreKey)
    requires ValidRun(c, Init(now), run) && Enabled(c, Final(c, Init(now), run), l)
    requires RemovedByPass(c, Final(c, Init(now), run), l, key)
    ensures var p := Final(c, Init(now), run).pass;
      Mature(c, p.nid, p.height, p.rest[0]) && HadHeight(c, Init(now), run, p.nid, p.height)
  {
    hide Enabled, Next;
    HeightRun(c, Init(now), run);
    StartHeight(c, now, run);
  }

  lemma StartHeight(c: Config, now: int, run: seq<Label>)
    requires ValidRun(c, Init(now), run)
    ensures HadHeight(c, Init(now), run, "", 0)
  {
  }
}
