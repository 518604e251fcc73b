/** No observed message is ever lost without a named cause, and none that the store accepted
    depends on a cache: conservation over every run and durability at every store write. */
module EngineConservation {
  import opened RelayTypes
  import opened Engine
  import opened EngineIdentity
  import opened EngineInFlight

  /** The delivery goroutine has recorded the outcome and will take the object out of the cache. */
  predicate Released(p: Phase) {
    p.Delivered? || p.Cleared? || p.Persisted?
  }

  ghost predicate ReleasedOn(tasks: seq<Task>, r: nat) {
    exists t :: 0 <= t < |tasks| && tasks[t].ref == r && Released(tasks[t].phase)
  }

  ghost predicate Firm(s: State, r: nat) {
    Cached(s, r) && !ReleasedOn(s.tasks, r)
  }

  /** Some object for m is in a cache, and no goroutine is about to remove it. */
  ghost predicate FirmlyCached(s: State, m: Message) {
    exists r :: 0 <= r < |s.objs| && s.objs[r].route.msg == m && Firm(s, r)
  }

  /** The finality goroutine holds m between deleting its record and refilling the cache. */
  predicate Regenerating(s: State, m: Message) {
    (s.pass.Generating? && Matches(m, s.pass.tx)) || (s.pass.Merging? && m in s.pass.msgs)
  }

  ghost predicate Located(s: State, m: Message) {
    Stored(s, m) || Accounted(s, m) || Regenerating(s, m) || FirmlyCached(s, m)
  }

  /** Does not depend on a cache: in a store, settled or dropped; or its record was given up for
      regeneration; or the store refused it when it was observed. */
  predicate Durable(s: State, m: Message) {
    Stored(s, m) || Accounted(s, m) || m in s.handed || m in s.unwritten
  }

  ghost predicate Conserved(s: State) {
    forall m <- s.observed :: Located(s, m) && Durable(s, m)
  }

  /** Whoever is about to delete a message from the store has accounted for it. */
  ghost predicate Backed(s: State) {
    && (s.router.Deleting? ==> MessageOf(s, s.router.ref) in s.settled || MessageOf(s, s.router.ref) in s.dropped)
    && (forall t :: 0 <= t < |s.tasks| && (s.tasks[t].phase.Delivered? || s.tasks[t].phase.Cleared?) ==>
          Accounted(s, MessageOf(s, s.tasks[t].ref)) || MessageOf(s, s.tasks[t].ref) in s.handed)
  }

  function MessageOf(s: State, r: nat): Message {
    if r < |s.objs| then s.objs[r].route.msg else Message("", "", 0, "", 0, "", 0)
  }

  // ----- Messages outside the caches

  /** A stored message stays stored until it is accounted for. */
  ghost predicate StoredKept(s: State, s': State, m: Message) {
    Stored(s, m) ==> Stored(s', m) || Accounted(s', m)
  }

  /** A message accounted for stays so, unless its record is given up for regeneration. */
  ghost predicate AccountedKept(s: State, s': State, m: Message) {
    Accounted(s, m) ==> Accounted(s', m) || (Regenerating(s', m) && m in s'.handed)
  }

  /** What the finality pass holds goes into a cache or is accounted for. */
  ghost predicate RegeneratingKept(s: State, s': State, m: Message) {
    Regenerating(s, m) ==> Regenerating(s', m) || FirmlyCached(s', m) || Stored(s', m) || Accounted(s', m)
  }

  lemma MergedIsCached(s: State)
    requires KeysOwned(s) && s.pass.Merging? && s.pass.msgs != []
    ensures FirmlyCached(DoPassMerge(s), s.pass.msgs[0])
  {
    assert Firm(DoPassMerge(s), |s.objs|);
  }

  lemma KeptFiling(c: Config, s: State, i: Input, m: Message)
    requires CanInput(c, s, i) && Filing(i)
    ensures var s' := NextInput(c, s, i);
      StoredKept(s, s', m) && AccountedKept(s, s', m) && RegeneratingKept(s, s', m)
  {
    hide FirmlyCached, Firm, IsElapsed, IsStale;
  }

  lemma KeptOther(c: Config, s: State, i: Input, m: Message)
    requires CanInput(c, s, i) && !Filing(i) && KeysOwned(s) && Backed(s) && m in s.known
    ensures var s' := NextInput(c, s, i);
      StoredKept(s, s', m) && AccountedKept(s, s', m) && (m in s.observed ==> RegeneratingKept(s, s', m))
  {
    hide FirmlyCached, Firm, IsElapsed, IsStale;
  }

  lemma KeptInput(c: Config, s: State, i: Input, m: Message)
    requires CanInput(c, s, i) && KeysOwned(s) && Backed(s) && m in s.known
    ensures var s' := NextInput(c, s, i);
      StoredKept(s, s', m) && AccountedKept(s, s', m) && (m in s.observed ==> RegeneratingKept(s, s', m))
  {
    hide StoredKept, AccountedKept, RegeneratingKept, CanInput, NextInput, KeysOwned, Backed, Filing;
    if Filing(i) { KeptFiling(c, s, i, m); } else { KeptOther(c, s, i, m); }
  }

  lemma KeptRouter(c: Config, s: State, l: RouterStep, m: Message)
    requires CanRouter(c, s, l) && KeysOwned(s) && Backed(s) && m in s.known
    ensures var s' := NextRouter(c, s, l);
      StoredKept(s, s', m) && AccountedKept(s, s', m) && (m in s.observed ==> RegeneratingKept(s, s', m))
  {
    hide FirmlyCached, Firm;
  }

  lemma KeptTask(c: Config, s: State, t: nat, l: TaskStep, m: Message)
    requires CanTask(c, s, t, l) && KeysOwned(s) && Backed(s) && m in s.known
    ensures var s' := NextTask(c, s, t, l);
      StoredKept(s, s', m) && AccountedKept(s, s', m) && (m in s.observed ==> RegeneratingKept(s, s', m))
  {
    hide FirmlyCached, Firm;
  }

  lemma KeptPass(c: Config, s: State, l: PassStep, m: Message)
    requires CanPass(c, s, l) && KeysOwned(s) && Backed(s) && m in s.known
    ensures var s' := NextPass(c, s, l);
      StoredKept(s, s', m) && AccountedKept(s, s', m) && (m in s.observed ==> RegeneratingKept(s, s', m))
  {
    hide FirmlyCached, Firm;
    if l.PassMerge? {
      MergedIsCached(s);
    }
  }

  // ----- Cached messages

  lemma ReleasedMoved(tasks: seq<Task>, t: nat, phase: Phase, r: nat)
    requires t < |tasks| && !ReleasedOn(tasks, r)
    ensures tasks[t].ref != r || !Released(phase) ==> !ReleasedOn(tasks[t := tasks[t].(phase := phase)], r)
  {
    forall u | 0 <= u < |tasks| && u != t
      ensures tasks[t := tasks[t].(phase := phase)][u] == tasks[u]
    {
    }
  }

  lemma FirmFiling(c: Config, s: State, i: Input, r: nat)
    requires CanInput(c, s, i) && Filing(i)
    requires KeysOwned(s) && Firm(s, r)
    ensures var s' := NextInput(c, s, i);
      MessageOf(s', r) == MessageOf(s, r) && (Firm(s', r) || Stored(s', MessageOf(s, r)) || Accounted(s', MessageOf(s, r)))
  {
  }

  lemma FirmOther(c: Config, s: State, i: Input, r: nat)
    requires CanInput(c, s, i) && !Filing(i)
    requires KeysOwned(s) && HeldAlone(s) && MessageOf(s, r) in s.observed && Firm(s, r)
    ensures var s' := NextInput(c, s, i);
      MessageOf(s', r) == MessageOf(s, r) && (Firm(s', r) || Stored(s', MessageOf(s, r)) || Accounted(s', MessageOf(s, r)))
  {
  }

  lemma FirmRouter(c: Config, s: State, l: RouterStep, r: nat)
    requires CanRouter(c, s, l)
    requires KeysOwned(s) && Firm(s, r)
    ensures var s' := NextRouter(c, s, l);
      MessageOf(s', r) == MessageOf(s, r) && (Firm(s', r) || Stored(s', MessageOf(s, r)) || Accounted(s', MessageOf(s, r)))
  {
  }

  lemma FirmTask(c: Config, s: State, t: nat, l: TaskStep, r: nat)
    requires CanTask(c, s, t, l)
    requires KeysOwned(s) && Firm(s, r)
    ensures var s' := NextTask(c, s, t, l);
      MessageOf(s', r) == MessageOf(s, r) && (Firm(s', r) || Stored(s', MessageOf(s, r)) || Accounted(s', MessageOf(s, r)))
  {
    hide Matching, Mature, BackoffDelay;
    ReleasedMoved(s.tasks, t, NextTask(c, s, t, l).tasks[t].phase, r);
  }

  lemma FirmPass(c: Config, s: State, l: PassStep, r: nat)
    requires CanPass(c, s, l)
    requires KeysOwned(s) && Firm(s, r)
    ensures var s' := NextPass(c, s, l);
      MessageOf(s', r) == MessageOf(s, r) && (Firm(s', r) || Stored(s', MessageOf(s, r)) || Accounted(s', MessageOf(s, r)))
  {
  }

  // ----- What every step keeps

  ghost predicate HistoryGrows(s: State, s': State) {
    && s.known <= s'.known && s.observed <= s'.observed && s.settled <= s'.settled
    && s.handed <= s'.handed && s.unwritten <= s'.unwritten && s.dropped.Keys <= s'.dropped.Keys
    && |s.objs| <= |s'.objs|
    && (forall r :: 0 <= r < |s.objs| ==> MessageOf(s', r) == MessageOf(s, r))
  }

  lemma HistoryGrowsInput(c: Config, s: State, i: Input)
    requires CanInput(c, s, i)
    ensures HistoryGrows(s, NextInput(c, s, i))
    ensures !i.Observe? ==> NextInput(c, s, i).observed == s.observed
  {
  }

  lemma HistoryGrowsRouter(c: Config, s: State, l: RouterStep)
    requires CanRouter(c, s, l)
    ensures HistoryGrows(s, NextRouter(c, s, l))
    ensures NextRouter(c, s, l).observed == s.observed
  {
  }

  lemma HistoryGrowsTask(c: Config, s: State, t: nat, l: TaskStep)
    requires CanTask(c, s, t, l)
    ensures HistoryGrows(s, NextTask(c, s, t, l))
    ensures NextTask(c, s, t, l).observed == s.observed
  {
  }

  lemma HistoryGrowsPass(c: Config, s: State, l: PassStep)
    requires CanPass(c, s, l)
    ensures HistoryGrows(s, NextPass(c, s, l))
    ensures NextPass(c, s, l).observed == s.observed
  {
  }

  lemma BackedInput(c: Config, s: State, i: Input)
    requires KeysOwned(s) && Backed(s) && CanInput(c, s, i)
    ensures Backed(NextInput(c, s, i))
  {
    var s' := NextInput(c, s, i);
    HistoryGrowsInput(c, s, i);
    forall u | 0 <= u < |s'.tasks| && (s'.tasks[u].phase.Delivered? || s'.tasks[u].phase.Cleared?)
      ensures Accounted(s', MessageOf(s', s'.tasks[u].ref)) || MessageOf(s', s'.tasks[u].ref) in s'.handed
    {
      KeptInput(c, s, i, MessageOf(s, s.tasks[u].ref));
    }
  }

  lemma BackedRouter(c: Config, s: State, l: RouterStep)
    requires KeysOwned(s) && Backed(s) && CanRouter(c, s, l)
    ensures Backed(NextRouter(c, s, l))
  {
    var s' := NextRouter(c, s, l);
    HistoryGrowsRouter(c, s, l);
    forall u | 0 <= u < |s'.tasks| && (s'.tasks[u].phase.Delivered? || s'.tasks[u].phase.Cleared?)
      ensures Accounted(s', MessageOf(s', s'.tasks[u].ref)) || MessageOf(s', s'.tasks[u].ref) in s'.handed
    {
      KeptRouter(c, s, l, MessageOf(s, s.tasks[u].ref));
    }
  }

  lemma BackedTask(c: Config, s: State, t: nat, l: TaskStep)
    requires KeysOwned(s) && Backed(s) && CanTask(c, s, t, l)
    ensures Backed(NextTask(c, s, t, l))
  {
    var s' := NextTask(c, s, t, l);
    HistoryGrowsTask(c, s, t, l);
    forall u | 0 <= u < |s'.tasks| && (s'.tasks[u].phase.Delivered? || s'.tasks[u].phase.Cleared?)
      ensures Accounted(s', MessageOf(s', s'.tasks[u].ref)) || MessageOf(s', s'.tasks[u].ref) in s'.handed
    {
      KeptTask(c, s, t, l, MessageOf(s, s.tasks[u].ref));
    }
  }

  lemma BackedPass(c: Config, s: State, l: PassStep)
    requires KeysOwned(s) && Backed(s) && CanPass(c, s, l)
    ensures Backed(NextPass(c, s, l))
  {
    var s' := NextPass(c, s, l);
    HistoryGrowsPass(c, s, l);
    forall u | 0 <= u < |s'.tasks| && (s'.tasks[u].phase.Delivered? || s'.tasks[u].phase.Cleared?)
      ensures Accounted(s', MessageOf(s', s'.tasks[u].ref)) || MessageOf(s', s'.tasks[u].ref) in s'.handed
    {
      KeptPass(c, s, l, MessageOf(s, s.tasks[u].ref));
    }
  }

  // ----- Conservation and durability

  lemma ObservedKnown(s: State)
    requires KeysOwned(s)
    ensures s.observed <= s.known
  {
  }

  lemma FirmIsCached(s: State, r: nat)
    ensures Firm(s, r) ==> FirmlyCached(s, MessageOf(s, r))
  {
  }

  lemma LocatedInput(c: Config, s: State, i: Input, m: Message)
    requires CanInput(c, s, i) && KeysOwned(s) && HeldAlone(s) && Backed(s)
    requires m in s.observed && Located(s, m)
    ensures Located(NextInput(c, s, i), m)
  {
    hide CanInput, NextInput, KeysOwned, HeldAlone, Backed, Stored, Accounted, Regenerating, Firm, Filing;
    ObservedKnown(s);
    KeptInput(c, s, i, m);
    if FirmlyCached(s, m) {
      var r :| 0 <= r < |s.objs| && s.objs[r].route.msg == m && Firm(s, r);
      if Filing(i) { FirmFiling(c, s, i, r); } else { FirmOther(c, s, i, r); }
      FirmIsCached(NextInput(c, s, i), r);
    }
  }

  lemma LocatedRouter(c: Config, s: State, l: RouterStep, m: Message)
    requires CanRouter(c, s, l) && KeysOwned(s) && Backed(s)
    requires m in s.observed && Located(s, m)
    ensures Located(NextRouter(c, s, l), m)
  {
    hide CanRouter, NextRouter, KeysOwned, Backed, Stored, Accounted, Regenerating, Firm;
    ObservedKnown(s);
    KeptRouter(c, s, l, m);
    if FirmlyCached(s, m) {
      var r :| 0 <= r < |s.objs| && s.objs[r].route.msg == m && Firm(s, r);
      FirmRouter(c, s, l, r);
      FirmIsCached(NextRouter(c, s, l), r);
    }
  }

  lemma LocatedTask(c: Config, s: State, t: nat, l: TaskStep, m: Message)
    requires CanTask(c, s, t, l) && KeysOwned(s) && Backed(s)
    requires m in s.observed && Located(s, m)
    ensures Located(NextTask(c, s, t, l), m)
  {
    hide CanTask, NextTask, KeysOwned, Backed, Stored, Accounted, Regenerating, Firm;
    ObservedKnown(s);
    KeptTask(c, s, t, l, m);
    if FirmlyCached(s, m) {
      var r :| 0 <= r < |s.objs| && s.objs[r].route.msg == m && Firm(s, r);
      FirmTask(c, s, t, l, r);
      FirmIsCached(NextTask(c, s, t, l), r);
    }
  }

  lemma LocatedPass(c: Config, s: State, l: PassStep, m: Message)
    requires CanPass(c, s, l) && KeysOwned(s) && Backed(s)
    requires m in s.observed && Located(s, m)
    ensures Located(NextPass(c, s, l), m)
  {
    hide CanPass, NextPass, KeysOwned, Backed, Stored, Accounted, Regenerating, Firm;
    ObservedKnown(s);
    KeptPass(c, s, l, m);
    if FirmlyCached(s, m) {
      var r :| 0 <= r < |s.objs| && s.objs[r].route.msg == m && Firm(s, r);
      FirmPass(c, s, l, r);
      FirmIsCached(NextPass(c, s, l), r);
    }
  }

  lemma HistoryGrowsStep(c: Config, s: State, l: Label)
    requires Enabled(c, s, l)
    ensures HistoryGrows(s, Next(c, s, l))
    ensures !(l.In? && l.input.Observe?) ==> Next(c, s, l).observed == s.observed
  {
    hide CanInput, CanRouter, CanTask, CanPass, NextInput, NextRouter, NextTask, NextPass, HistoryGrows;
    match l
    case In(i) => HistoryGrowsInput(c, s, i);
    case Routed(r) => HistoryGrowsRouter(c, s, r);
    case Deliver(t, d) => HistoryGrowsTask(c, s, t, d);
    case Finality(f) => HistoryGrowsPass(c, s, f);
  }

  lemma BackedStep(c: Config, s: State, l: Label)
    requires KeysOwned(s) && Backed(s) && Enabled(c, s, l)
    ensures Backed(Next(c, s, l))
  {
    hide CanInput, CanRouter, CanTask, CanPass, NextInput, NextRouter, NextTask, NextPass, KeysOwned, Backed;
    match l
    case In(i) => BackedInput(c, s, i);
    case Routed(r) => BackedRouter(c, s, r);
    case Deliver(t, d) => BackedTask(c, s, t, d);
    case Finality(f) => BackedPass(c, s, f);
  }

  lemma LocatedStep(c: Config, s: State, l: Label, m: Message)
    requires Enabled(c, s, l) && KeysOwned(s) && HeldAlone(s) && Backed(s)
    requires m in s.observed && Located(s, m)
    ensures Located(Next(c, s, l), m)
  {
    hide CanInput, CanRouter, CanTask, CanPass, NextInput, NextRouter, NextTask, NextPass;
    hide KeysOwned, HeldAlone, Backed, Located;
    match l
    case In(i) => LocatedInput(c, s, i, m);
    case Routed(r) => LocatedRouter(c, s, r, m);
    case Deliver(t, d) => LocatedTask(c, s, t, d, m);
    case Finality(f) => LocatedPass(c, s, f, m);
  }

  lemma DurableStep(c: Config, s: State, l: Label, m: Message)
    requires Enabled(c, s, l) && KeysOwned(s) && Backed(s)
    requires m in s.observed && Durable(s, m)
    ensures Durable(Next(c, s, l), m)
  {
    hide CanInput, CanRouter, CanTask, CanPass, NextInput, NextRouter, NextTask, NextPass;
    hide KeysOwned, Backed, Stored, Accounted;
    ObservedKnown(s);
    HistoryGrowsStep(c, s, l);
    match l
    case In(i) => KeptInput(c, s, i, m);
    case Routed(r) => KeptRouter(c, s, r, m);
    case Deliver(t, d) => KeptTask(c, s, t, d, m);
    case Finality(f) => KeptPass(c, s, f, m);
  }

  lemma JustObserved(c: Config, s: State, nid: Nid, msg: Message, ok: bool)
    requires KeysOwned(s)
    ensures var s' := DoObserve(s, nid, msg, ok);
      s'.observed == s.observed + {msg} && Located(s', msg) && Durable(s', msg)
  {
    var s' := DoObserve(s, nid, msg, ok);
    assert Firm(s', |s.objs|);
    FirmIsCached(s', |s.objs|);
  }

  ghost predicate Lossless(s: State) {
    Sound(s) && Backed(s) && Conserved(s)
  }

  lemma LosslessStep(c: Config, s: State, l: Label)
    requires Lossless(s) && Enabled(c, s, l)
    ensures Lossless(Next(c, s, l))
  {
    hide Enabled, Next, KeysOwned, HeldAlone, Exclusive, Backed, Located, Durable;
    SoundStep(c, s, l);
    BackedStep(c, s, l);
    HistoryGrowsStep(c, s, l);
    var s' := Next(c, s, l);
    forall m | m in s'.observed
      ensures Located(s', m) && Durable(s', m)
    {
      if m in s.observed {
        LocatedStep(c, s, l, m);
        DurableStep(c, s, l, m);
      } else {
        NextObserve(c, s, l);
        JustObserved(c, s, l.input.nid, l.input.msg, l.input.ok);
      }
    }
  }

  lemma NextObserve(c: Config, s: State, l: Label)
    requires Enabled(c, s, l) && l.In? && l.input.Observe?
    ensures Next(c, s, l) == DoObserve(s, l.input.nid, l.input.msg, l.input.ok)
  {
  }

  /** Conservation and durability in every reachable state of every interleaving. */
  lemma {:induction false} LosslessRun(c: Config, s: State, run: seq<Label>)
    requires Lossless(s) && ValidRun(c, s, run)
    ensures Lossless(Final(c, s, run))
    decreases |run|
  {
    if run != [] {
      hide Enabled, Next, Lossless;
      LosslessStep(c, s, run[0]);
      LosslessRun(c, Next(c, s, run[0]), run[1..]);
    }
  }

  /** A crash takes only what was handed to regeneration or refused by the store; a late clear
      takes only what was handed to regeneration. */
  ghost predicate CausesExplained(s: State) {
    forall m <- s.dropped ::
      && (s.dropped[m].LostInCrash? ==> m in s.handed || m in s.unwritten)
      && (s.dropped[m].LateClear? ==> m in s.handed)
  }

  lemma CausesExplainedInput(c: Config, s: State, i: Input)
    requires KeysOwned(s) && Conserved(s) && CausesExplained(s) && CanInput(c, s, i)
    ensures CausesExplained(NextInput(c, s, i))
  {
  }

  lemma CausesExplainedRouter(c: Config, s: State, l: RouterStep)
    requires CausesExplained(s) && CanRouter(c, s, l)
    ensures CausesExplained(NextRouter(c, s, l))
  {
  }

  lemma CausesExplainedTask(c: Config, s: State, t: nat, l: TaskStep)
    requires KeysOwned(s) && Backed(s) && CausesExplained(s) && CanTask(c, s, t, l)
    ensures CausesExplained(NextTask(c, s, t, l))
  {
  }

  lemma CausesExplainedPass(c: Config, s: State, l: PassStep)
    requires CausesExplained(s) && CanPass(c, s, l)
    ensures CausesExplained(NextPass(c, s, l))
  {
  }

  lemma CausesExplainedStep(c: Config, s: State, l: Label)
    requires Lossless(s) && CausesExplained(s) && Enabled(c, s, l)
    ensures CausesExplained(Next(c, s, l))
  {
    hide CanInput, CanRouter, CanTask, CanPass, NextInput, NextRouter, NextTask, NextPass;
    hide KeysOwned, HeldAlone, Exclusive, Backed, Conserved, CausesExplained;
    match l
    case In(i) => CausesExplainedInput(c, s, i);
    case Routed(r) => CausesExplainedRouter(c, s, r);
    case Deliver(t, d) => CausesExplainedTask(c, s, t, d);
    case Finality(f) => CausesExplainedPass(c, s, f);
  }

  lemma {:induction false} CausesExplainedRun(c: Config, s: State, run: seq<Label>)
    requires Lossless(s) && CausesExplained(s) && ValidRun(c, s, run)
    ensures CausesExplained(Final(c, s, run))
    decreases |run|
  {
    if run != [] {
      hide Enabled, Next, Lossless, CausesExplained;
      LosslessStep(c, s, run[0]);
      CausesExplainedStep(c, s, run[0]);
      CausesExplainedRun(c, Next(c, s, run[0]), run[1..]);
    }
  }

  /** In every reachable state each observed message is in the message store, under finality
      watch, settled, dropped for a named cause, with the finality pass, or in a cache; and a
      crash at that point loses only messages handed to regeneration or refused by the store. */
  lemma Conservation(c: Config, now: int, run: seq<Label>, m: Message)
    requires ValidRun(c, Init(now), run)
    requires m in Final(c, Init(now), run).observed
    ensures var s := Final(c, Init(now), run);
      && (Stored(s, m) || Watched(s, m) || m in s.settled || m in s.dropped || Regenerating(s, m) || FirmlyCached(s, m))
      && (m in s.dropped && s.dropped[m].LostInCrash? ==> m in s.handed || m in s.unwritten)
      && (m in s.dropped && s.dropped[m].LateClear? ==> m in s.handed)
      && (m !in s.handed && m !in s.unwritten ==> Stored(DoCrash(s), m) || Accounted(s, m))
  {
    hide Enabled, Next;
    LosslessRun(c, Init(now), run);
    CausesExplainedRun(c, Init(now), run);
  }
}
