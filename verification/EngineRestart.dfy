/** Processes one after the other over the same stores, each with chains and finality waits of its own
    (NewRelayer, relayer/relay.go). */
module EngineRestart {
  import opened RelayTypes
  import opened Engine
  import opened EngineIdentity
  import opened EngineInFlight
  import opened EngineConservation

  /** A process with its chains, the run it made, and the time until the next one starts. */
  datatype Reign = Reign(c: Config, run: seq<Label>, pause: nat)

  /** What the next process starts from: the stores. The objects of the last one are gone. */
  function Carried(s: State, pause: nat): State {
    DoCrash(s).(objs := [], now := s.now + pause)
  }

  ghost predicate ValidReigns(born: int, past: seq<Reign>)
    decreases |past|, 0
  {
    past == [] ||
    (var n := |past| - 1; ValidReigns(born, past[..n]) && ValidRun(past[n].c, Reached(born, past[..n]), past[n].run))
  }

  ghost function Reached(born: int, past: seq<Reign>): State
    requires ValidReigns(born, past)
    decreases |past|, 1
  {
    if past == [] then Init(born)
    else
      var n := |past| - 1;
      Carried(Final(past[n].c, Reached(born, past[..n]), past[n].run), past[n].pause)
  }

  lemma OneMore(born: int, past: seq<Reign>, reign: Reign)
    requires ValidReigns(born, past) && ValidRun(reign.c, Reached(born, past), reign.run)
    ensures ValidReigns(born, past + [reign])
    ensures Reached(born, past + [reign]) == Carried(Final(reign.c, Reached(born, past), reign.run), reign.pause)
  {
    assert (past + [reign])[..|past|] == past;
  }

  lemma CarriedSound(c: Config, s: State, pause: nat)
    requires KeysOwned(s)
    ensures Orderly(c, Carried(s, pause)) && Backed(Carried(s, pause))
  {
  }

  /** What the stores do not hold and nothing accounts for is lost with the process; so it is dropped. */
  lemma CarriedConserved(s: State, pause: nat)
    requires Conserved(s)
    ensures Conserved(Carried(s, pause))
  {
    var s' := Carried(s, pause);
    forall m | m in s'.observed ensures Located(s', m) && Durable(s', m) {
      assert Located(s, m) && Durable(s, m);
    }
  }

  lemma CarriedExplained(s: State, pause: nat)
    requires Conserved(s) && CausesExplained(s)
    ensures CausesExplained(Carried(s, pause))
  {
    var s' := Carried(s, pause);
    forall m | m in s'.dropped
      ensures s'.dropped[m].LostInCrash? ==> m in s'.handed || m in s'.unwritten
      ensures s'.dropped[m].LateClear? ==> m in s'.handed
    {
      if m in s.observed { assert Durable(s, m); }
    }
  }

  lemma {:induction false} ReachedLossless(born: int, past: seq<Reign>, c: Config)
    requires ValidReigns(born, past)
    ensures Lossless(Reached(born, past)) && Orderly(c, Reached(born, past)) && CausesExplained(Reached(born, past))
    decreases |past|
  {
    if past == [] {
      InitOrderly(c, born);
    } else {
      hide KeysOwned, HeldAlone, Exclusive, Backed, Conserved, DestinationsKnown, Enabled, Next, Carried, CausesExplained;
      var n := |past| - 1;
      ReachedLossless(born, past[..n], past[n].c);
      LosslessRun(past[n].c, Reached(born, past[..n]), past[n].run);
      CarriedSound(c, Final(past[n].c, Reached(born, past[..n]), past[n].run), past[n].pause);
      CarriedConserved(Final(past[n].c, Reached(born, past[..n]), past[n].run), past[n].pause);
      CausesExplainedRun(past[n].c, Reached(born, past[..n]), past[n].run);
      CarriedExplained(Final(past[n].c, Reached(born, past[..n]), past[n].run), past[n].pause);
    }
  }

  /** Conservation over any number of restarts, whatever chains are added, removed or given another
      finality wait: each message ever observed is in a store, settled, dropped for a named cause, with
      the finality pass or in a cache; and unless its record was given up or its first write refused, it
      does not need a cache and no crash or late clear takes it. */
  lemma ConservedAcross(born: int, past: seq<Reign>, c: Config, run: seq<Label>, m: Message)
    requires ValidReigns(born, past) && ValidRun(c, Reached(born, past), run)
    requires m in Final(c, Reached(born, past), run).observed
    ensures var s := Final(c, Reached(born, past), run);
      && (Stored(s, m) || Watched(s, m) || m in s.settled || m in s.dropped || Regenerating(s, m) || FirmlyCached(s, m))
      && (m !in s.handed && m !in s.unwritten ==> Stored(s, m) || Accounted(s, m))
      && (m in s.dropped && s.dropped[m].LostInCrash? ==> m in s.handed || m in s.unwritten)
      && (m in s.dropped && s.dropped[m].LateClear? ==> m in s.handed)
  {
    hide Enabled, Next, FirmlyCached, Regenerating;
    ReachedLossless(born, past, c);
    LosslessRun(c, Reached(born, past), run);
    CausesExplainedRun(c, Reached(born, past), run);
  }

  /** A restart with other chains keeps every message and every record in the stores, those of chains that
      are gone included; only what was in memory alone is dropped. */
  lemma RestartKeeps(s: State, pause: nat, m: Message)
    ensures Stored(Carried(s, pause), m) <==> Stored(s, m)
    ensures Watched(Carried(s, pause), m) <==> Watched(s, m)
    ensures m in Carried(s, pause).dropped && m !in s.dropped <==>
            m in s.observed && !Stored(s, m) && !Watched(s, m) && m !in s.settled && m !in s.dropped
  {
  }
}
