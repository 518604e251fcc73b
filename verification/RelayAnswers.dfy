/** What the providers were asked and answered and what was written, and how that backs what the relayer
    records. */
module RelayAnswers {
  import opened RelayTypes
  import opened RelayObjects
  import opened Engine
  import opened EngineIdentity
  import opened RelayLink
  import opened RelaySteps
  import opened StoreRefinement
  import Lvldb

  /** What a delivery comes to: the callback with a successful response, no callback or one with a
      failed response, or an error from Route. */
  datatype RouteAnswer = Relayed(txHash: string, txHeight: uint64) | NoSuccess | RouteError

  /** A message to generate again, by its key and height. */
  datatype Request = Request(src: Nid, dst: Nid, sn: int, eventType: string, height: nat)

  /** One question to a chain's provider with its answer; None is an error, which counts as no where the
      source treats it so. A receipt is asked for by hash; the record it is asked for is kept as well, and
      with a delivery the finality wait of its provider. Began is no question: a relayer was made with
      these chains. */
  datatype Asked =
    | Began(chains: set<Nid>)
    | ShouldReceive(nid: Nid, m: Message, yes: bool)
    | ShouldSend(nid: Nid, m: Message, yes: bool)
    | Received(nid: Nid, key: MessageKey, received: Option<bool>)
    | Sending(nid: Nid, wait: nat, m: Message, sent: RouteAnswer)
    | Receipt(nid: Nid, tx: TxObject, status: Option<bool>)
    | Generation(nid: Nid, request: Request, messages: Option<seq<Message>>)

  /** All questions and answers so far, of one relayer after the other. That only the providers extend it,
      and the making of a relayer, is a convention: any method that may modify it could. */
  class AnswerLog {
    ghost var log: seq<Asked>

    constructor ()
      ensures log == []
    {
      log := [];
    }
  }

  /** The key is that message's. */
  predicate Names(key: MessageKey, m: Message) {
    key.sn.value == m.sn && key.src == m.src && key.dst == m.dst && key.eventType == m.eventType
  }

  /** The destination said it has the message, or accepted it with no finality wait, or a receipt
      confirmed the record of its delivery. */
  predicate Settles(a: Asked, m: Message) {
    || (a.Received? && a.received == Some(true) && a.nid == m.dst && Names(a.key, m))
    || (a.Sending? && a.sent.Relayed? && a.nid == m.dst && a.m == m && a.wait == 0)
    || (a.Receipt? && a.status == Some(true) && Matches(m, a.tx))
  }

  /** The record is of a delivery that succeeded with this hash and height. */
  predicate Records(a: Asked, tx: TxObject) {
    a.Sending? && a.sent.Relayed? && a.sent.txHash == tx.txHash && a.sent.txHeight == tx.txHeight && a.nid == tx.dst && Matches(a.m, tx)
  }

  /** A receipt said that the delivery of the message is gone. */
  predicate Revokes(a: Asked, m: Message) {
    a.Receipt? && a.status == Some(false) && Matches(m, a.tx)
  }

  /** The source was asked for the message again, by its key and its own height, and did not give it. */
  predicate Withholds(a: Asked, m: Message) {
    && a.Generation? && a.nid == m.src && a.request.src == m.src && a.request.dst == m.dst && a.request.sn == m.sn
    && a.request.eventType == m.eventType && a.request.height == m.height
    && (a.messages.Some? ==> m !in a.messages.value)
  }

  /** A relayer was made without the message's destination. */
  predicate Lacks(a: Asked, m: Message) {
    a.Began? && m.dst !in a.chains
  }

  /** The database refused to take the message when it was observed. */
  predicate Refuses(w: Lvldb.Write, m: Message) {
    w == PutOf(Route(m, 0, false, Zero), false)
  }

  ghost predicate SomeSettles(log: seq<Asked>, m: Message) {
    exists i :: 0 <= i < |log| && Settles(log[i], m)
  }

  ghost predicate SomeLacks(log: seq<Asked>, m: Message) {
    exists i :: 0 <= i < |log| && Lacks(log[i], m)
  }

  ghost predicate SomeRefuses(writes: seq<Lvldb.Write>, m: Message) {
    exists i :: 0 <= i < |writes| && Refuses(writes[i], m)
  }

  ghost predicate SomeRecords(log: seq<Asked>, tx: TxObject) {
    exists i :: 0 <= i < |log| && Records(log[i], tx)
  }

  ghost predicate SomeRevokes(log: seq<Asked>, m: Message) {
    exists i :: 0 <= i < |log| && Revokes(log[i], m)
  }

  ghost predicate SomeWithholds(log: seq<Asked>, m: Message) {
    exists i :: 0 <= i < |log| && Withholds(log[i], m)
  }

  lemma NoneRefused(writes: seq<Lvldb.Write>, m: Message)
    requires forall w <- writes :: w.ok
    ensures !SomeRefuses(writes, m)
  {
    assert forall i :: 0 <= i < |writes| ==> writes[i].ok;
  }

  /** Everything the engine has taken for settled, recorded, given up, lost in regeneration or addressed to
      an unknown destination is backed by an entry of the log, and everything it has taken for unwritten by a
      write. */
  ghost predicate Vouched(c: Config, s: State, log: seq<Asked>, writes: seq<Lvldb.Write>) {
    && Began(c.finality.Keys) in log
    && (forall m <- s.settled :: SomeSettles(log, m))
    && (forall key <- s.txs :: SomeRecords(log, s.txs[key]))
    && (forall m <- s.handed :: SomeRevokes(log, m))
    && (forall m <- s.dropped :: s.dropped[m].RegenerationFailed? ==> SomeWithholds(log, m))
    && (forall m <- s.dropped :: s.dropped[m].UnknownDestination? ==> SomeLacks(log, m))
    && (forall m <- s.unwritten :: SomeRefuses(writes, m))
  }

  lemma LogGrows(c: Config, s: State, log: seq<Asked>, log': seq<Asked>, writes: seq<Lvldb.Write>, writes': seq<Lvldb.Write>)
    requires Vouched(c, s, log, writes) && log <= log' && writes <= writes'
    ensures Vouched(c, s, log', writes')
  {
    hide Settles, Records, Revokes, Withholds, Lacks, Refuses;
    forall m | m in s.settled ensures SomeSettles(log', m) {
      var i :| 0 <= i < |log| && Settles(log[i], m);
      assert log'[i] == log[i];
    }
    forall key | key in s.txs ensures SomeRecords(log', s.txs[key]) {
      var i :| 0 <= i < |log| && Records(log[i], s.txs[key]);
      assert log'[i] == log[i];
    }
    forall m | m in s.handed ensures SomeRevokes(log', m) {
      var i :| 0 <= i < |log| && Revokes(log[i], m);
      assert log'[i] == log[i];
    }
    forall m | m in s.dropped && s.dropped[m].RegenerationFailed? ensures SomeWithholds(log', m) {
      var i :| 0 <= i < |log| && Withholds(log[i], m);
      assert log'[i] == log[i];
    }
    forall m | m in s.dropped && s.dropped[m].UnknownDestination? ensures SomeLacks(log', m) {
      var i :| 0 <= i < |log| && Lacks(log[i], m);
      assert log'[i] == log[i];
    }
    forall m | m in s.unwritten ensures SomeRefuses(writes', m) {
      var i :| 0 <= i < |writes| && Refuses(writes[i], m);
      assert writes'[i] == writes[i];
    }
  }

  // ----- Steps that need no entry

  predicate Claiming(l: Label) {
    || (l.In? && l.input.Observe? && !l.input.ok)
    || (l.Routed? && l.router.QueryReceived?)
    || (l.Deliver? && l.step.Succeed?)
    || (l.Finality? && (l.pass.PassConfirm? || l.pass.PassRegenerate? || l.pass.PassGenerated?))
  }

  /** The step claims nothing that an entry would have to back. */
  ghost predicate ClaimsNothing(c: Config, s: State, s': State) {
    && s'.settled == s.settled && s'.handed == s.handed && s'.unwritten == s.unwritten
    && (forall key <- s'.txs :: key in s.txs && s'.txs[key] == s.txs[key])
    && (forall m <- s'.dropped :: s'.dropped[m].RegenerationFailed? ==> m in s.dropped && s.dropped[m] == s'.dropped[m])
    && (forall m <- s'.dropped :: s'.dropped[m].UnknownDestination? ==>
          (m in s.dropped && s.dropped[m] == s'.dropped[m]) || m.dst !in c.finality)
  }

  lemma InputClaims(c: Config, s: State, i: Input)
    requires CanInput(c, s, i) && !Claiming(In(i))
    ensures ClaimsNothing(c, s, NextInput(c, s, i))
  {
  }

  lemma RouterClaims(c: Config, s: State, l: RouterStep)
    requires CanRouter(c, s, l) && !l.QueryReceived?
    ensures ClaimsNothing(c, s, NextRouter(c, s, l))
  {
  }

  lemma TaskClaims(c: Config, s: State, t: nat, l: TaskStep)
    requires CanTask(c, s, t, l) && !l.Succeed?
    ensures ClaimsNothing(c, s, NextTask(c, s, t, l))
  {
  }

  lemma PassClaims(c: Config, s: State, l: PassStep)
    requires CanPass(c, s, l) && !Claiming(Finality(l))
    ensures ClaimsNothing(c, s, NextPass(c, s, l))
  {
  }

  lemma VouchedStep(c: Config, s: State, l: Label, log: seq<Asked>, writes: seq<Lvldb.Write>)
    requires Vouched(c, s, log, writes) && Enabled(c, s, l) && !Claiming(l)
    ensures Vouched(c, Next(c, s, l), log, writes)
  {
    hide CanInput, CanRouter, CanTask, CanPass, NextInput, NextRouter, NextTask, NextPass;
    match l {
      case In(i) => InputClaims(c, s, i);
      case Routed(r) => RouterClaims(c, s, r);
      case Deliver(t, d) => TaskClaims(c, s, t, d);
      case Finality(f) => PassClaims(c, s, f);
    }
    forall m: Message | m.dst !in c.finality ensures SomeLacks(log, m) {
      Lacking(c, log, m);
    }
    hide SomeSettles, SomeRecords, SomeRevokes, SomeWithholds, SomeLacks, SomeRefuses;
  }

  lemma Lacking(c: Config, log: seq<Asked>, m: Message)
    requires Began(c.finality.Keys) in log && m.dst !in c.finality
    ensures SomeLacks(log, m)
  {
    var i :| 0 <= i < |log| && log[i] == Began(c.finality.Keys);
    assert Lacks(log[i], m);
  }

  // ----- Steps that do

  lemma VouchObserved(c: Config, s: State, nid: Nid, m: Message, ok: bool, log: seq<Asked>, writes: seq<Lvldb.Write>)
    requires Vouched(c, s, log, writes) && (ok || PutOf(Fresh(m), ok) in writes)
    ensures Vouched(c, DoObserve(s, nid, m, ok), log, writes)
  {
    if !ok {
      var i :| 0 <= i < |writes| && writes[i] == PutOf(Fresh(m), false);
      assert Refuses(writes[i], m);
    }
    hide SomeSettles, SomeRecords, SomeRevokes, SomeWithholds, SomeLacks, PutOf, Refuses;
  }

  lemma ReceivedClaims(c: Config, s: State, r: nat, ok: bool)
    requires r < |s.objs|
    ensures var s' := ReceivedCleared(s, r, ok);
      && s'.handed == s.handed && s'.unwritten == s.unwritten && s'.txs == s.txs && s'.settled == s.settled + {s.objs[r].route.msg}
      && (forall x <- s'.dropped :: (x in s.dropped && s.dropped[x] == s'.dropped[x]) || s'.dropped[x].Collision?)
  {
  }

  lemma VouchReceived(c: Config, s: State, r: nat, ok: bool, log: seq<Asked>, writes: seq<Lvldb.Write>, a: Asked)
    requires Vouched(c, s, log, writes) && r < |s.objs| && a in log && Settles(a, s.objs[r].route.msg)
    ensures Vouched(c, ReceivedCleared(s, r, ok), log, writes)
  {
    var i :| 0 <= i < |log| && log[i] == a;
    assert SomeSettles(log, s.objs[r].route.msg);
    ReceivedClaims(c, s, r, ok);
    hide ReceivedCleared, SomeSettles, SomeRecords, SomeRevokes, SomeWithholds, SomeLacks, SomeRefuses, Settles;
  }

  lemma SucceedClaims(c: Config, s: State, t: nat, txHash: string, txHeight: uint64, ok: bool)
    requires KeysOwned(s) && TaskIn(s, t, Routing) && s.objs[s.tasks[t].ref].route.msg.dst in c.finality
    ensures var m := s.objs[s.tasks[t].ref].route.msg; var s' := DoSucceed(c, s, t, txHash, txHeight, ok);
      && s'.handed == s.handed && s'.unwritten == s.unwritten
      && (forall x <- s'.settled :: x in s.settled || (x == m && c.finality[m.dst] == 0))
      && (forall key <- s'.txs :: (key in s.txs && s'.txs[key] == s.txs[key]) || s'.txs[key] == TxFor(m, m, txHash, txHeight))
      && (forall x <- s'.dropped :: (x in s.dropped && s.dropped[x] == s'.dropped[x]) || s'.dropped[x].Collision?)
  {
    FoundOwn(s, s.objs[s.tasks[t].ref], s.tasks[t].ref);
    hide KeysOwned, Found, CollidedTx;
  }

  lemma VouchedAfter(c: Config, s: State, s': State, log: seq<Asked>, writes: seq<Lvldb.Write>, m: Message, tx: TxObject)
    requires Vouched(c, s, log, writes) && SomeRecords(log, tx) && s'.handed == s.handed && s'.unwritten == s.unwritten
    requires forall x <- s'.settled :: x in s.settled || (x == m && SomeSettles(log, m))
    requires forall key <- s'.txs :: (key in s.txs && s'.txs[key] == s.txs[key]) || s'.txs[key] == tx
    requires forall x <- s'.dropped :: (x in s.dropped && s.dropped[x] == s'.dropped[x]) || s'.dropped[x].Collision?
    ensures Vouched(c, s', log, writes)
  {
    hide SomeSettles, SomeRecords, SomeRevokes, SomeWithholds, SomeLacks, SomeRefuses;
  }

  lemma VouchSucceeded(c: Config, s: State, t: nat, txHash: string, txHeight: uint64, ok: bool, log: seq<Asked>, writes: seq<Lvldb.Write>)
    requires Vouched(c, s, log, writes) && KeysOwned(s) && TaskIn(s, t, Routing) && s.objs[s.tasks[t].ref].route.msg.dst in c.finality
    requires var m := s.objs[s.tasks[t].ref].route.msg; Sending(m.dst, c.finality[m.dst], m, Relayed(txHash, txHeight)) in log
    ensures Vouched(c, DoSucceed(c, s, t, txHash, txHeight, ok), log, writes)
  {
    var m := s.objs[s.tasks[t].ref].route.msg;
    var tx := TxFor(m, m, txHash, txHeight);
    var i :| 0 <= i < |log| && log[i] == Sending(m.dst, c.finality[m.dst], m, Relayed(txHash, txHeight));
    assert Records(log[i], tx);
    assert c.finality[m.dst] == 0 ==> Settles(log[i], m);
    SucceedClaims(c, s, t, txHash, txHeight, ok);
    hide DoSucceed, Settles, Records, KeysOwned, Vouched;
    VouchedAfter(c, s, DoSucceed(c, s, t, txHash, txHeight, ok), log, writes, m, tx);
  }

  lemma VouchConfirmed(c: Config, s: State, ok: bool, log: seq<Asked>, writes: seq<Lvldb.Write>, nid: Nid)
    requires Vouched(c, s, log, writes) && AtRecord(s) && Receipt(nid, s.pass.rest[0], Some(true)) in log
    ensures Vouched(c, DoPassConfirm(s, ok), log, writes)
  {
    var i :| 0 <= i < |log| && log[i] == Receipt(nid, s.pass.rest[0], Some(true));
    forall m | m in Matching(s, s.pass.rest[0]) ensures SomeSettles(log, m) {
      assert Settles(log[i], m);
    }
    hide SomeSettles, SomeRecords, SomeRevokes, SomeWithholds, SomeLacks, SomeRefuses, Settles;
  }

  lemma VouchGivenUp(c: Config, s: State, log: seq<Asked>, writes: seq<Lvldb.Write>, nid: Nid)
    requires Vouched(c, s, log, writes) && AtRecord(s) && Receipt(nid, s.pass.rest[0], Some(false)) in log
    ensures Vouched(c, DoPassRegenerate(s), log, writes)
  {
    var i :| 0 <= i < |log| && log[i] == Receipt(nid, s.pass.rest[0], Some(false));
    forall m | m in Matching(s, s.pass.rest[0]) ensures SomeRevokes(log, m) {
      assert Revokes(log[i], m);
    }
    hide SomeSettles, SomeRecords, SomeRevokes, SomeWithholds, SomeLacks, SomeRefuses, Revokes;
  }

  lemma VouchGenerated(c: Config, s: State, answer: Option<seq<Message>>, log: seq<Asked>, writes: seq<Lvldb.Write>)
    requires Vouched(c, s, log, writes) && s.pass.Generating?
    requires Generation(s.pass.tx.src, Request(s.pass.tx.src, s.pass.tx.dst, s.pass.tx.sn, s.pass.tx.eventType, s.pass.tx.height), answer) in log
    ensures Vouched(c, DoPassGenerated(s, answer), log, writes)
  {
    var i :| 0 <= i < |log| && log[i] == Generation(s.pass.tx.src, Request(s.pass.tx.src, s.pass.tx.dst, s.pass.tx.sn, s.pass.tx.eventType, s.pass.tx.height), answer);
    var s' := DoPassGenerated(s, answer);
    forall m | m in s'.dropped && s'.dropped[m].RegenerationFailed? ensures SomeWithholds(log, m) {
      if Matches(m, s.pass.tx) && m in s.known && (answer.Some? ==> m !in answer.value) {
        assert Withholds(log[i], m);
      } else {
        assert m in s.dropped && s.dropped[m] == s'.dropped[m];
      }
    }
    hide SomeSettles, SomeRecords, SomeRevokes, SomeWithholds, SomeLacks, SomeRefuses;
  }

  // ----- Questions since some point

  /** The question has been answered this way since the log had `since` entries. */
  ghost predicate Since(log: seq<Asked>, since: nat, a: Asked) {
    exists i :: since <= i < |log| && log[i] == a
  }

  lemma SinceGrows(log: seq<Asked>, log': seq<Asked>, since: nat, a: Asked)
    requires Since(log, since, a) && log <= log'
    ensures Since(log', since, a)
  {
    var i :| since <= i < |log| && log[i] == a;
    assert log'[i] == a;
  }

  /** The providers of both ends were asked whether to relay m, the source only if the destination said
      yes, and `yes` is what it came to. */
  predicate Consulted(asked: seq<Asked>, m: Message, src: Nid, yes: bool) {
    asked == [ShouldReceive(m.dst, m, true), ShouldSend(src, m, yes)] || (!yes && asked == [ShouldReceive(m.dst, m, false)])
  }

  ghost predicate Considered(log: seq<Asked>, since: nat, m: RouteMessage) {
    exists yes :: Since(log, since, ShouldReceive(m.message.dst, m.message, yes))
  }

  /** What the router did with one message: no such destination, not to be sent now, lookup failed,
      already received, delivery started; and whether a delete succeeded. */
  datatype Looked = UnknownDst(deleted: bool) | NotNow | LookupFailed | AlreadyThere(deleted: bool) | Sent

  /** The message has been taken from the cache, and its delete from the store tried. */
  predicate Clears(r: Looked) {
    r.UnknownDst? || r.AlreadyThere?
  }

  function ClearingWrites(r: Looked, m: Message): seq<Lvldb.Write> {
    if Clears(r) then [DeleteOf(MessageStoreKey(m), r.deleted)] else []
  }

  function AnswerOf(r: Looked): Option<bool> {
    match r
    case AlreadyThere(_) => Some(true)
    case Sent => Some(false)
    case _ => None
  }

  /** What was asked about a message is what its outcome calls for, and nothing else: nobody about an
      unknown destination or a message that waits; otherwise the providers, and if both agree the
      destination, whose answer is the outcome. */
  predicate Explains(asked: seq<Asked>, r: Looked, m: Message, key: MessageKey, src: Nid, waiting: bool) {
    match r
    case UnknownDst(_) => asked == []
    case NotNow => if waiting then asked == [] else Consulted(asked, m, src, false)
    case _ =>
      !waiting && asked == [ShouldReceive(m.dst, m, true), ShouldSend(src, m, true), Received(m.dst, key, AnswerOf(r))]
  }

  /** So an outcome determines what was asked last and answered, and a message that waits or has an unknown
      destination is asked about with nobody. */
  lemma Outcomes(asked: seq<Asked>, r: Looked, m: Message, key: MessageKey, src: Nid, waiting: bool)
    requires Explains(asked, r, m, key, src, waiting)
    ensures waiting || r.UnknownDst? <==> asked == []
    ensures asked != [] ==> asked[0].ShouldReceive? && asked[0].nid == m.dst && asked[0].m == m
    ensures asked != [] && !asked[0].yes ==> |asked| == 1 && r.NotNow?
    ensures |asked| >= 2 ==> asked[1].ShouldSend? && asked[1].nid == src && asked[1].m == m && (asked[1].yes <==> |asked| == 3)
    ensures |asked| == 3 ==> asked[2].Received? && asked[2].nid == m.dst && asked[2].key == key
    ensures r.Sent? <==> |asked| == 3 && asked[2].received == Some(false)
    ensures r.AlreadyThere? <==> |asked| == 3 && asked[2].received == Some(true)
    ensures r.LookupFailed? <==> |asked| == 3 && asked[2].received == None
  {
  }

  /** Whatever left the cache has an unknown destination, or the destination said since that it has it. */
  ghost predicate ClearedForCause(before: Cache, after: Cache, known: set<Nid>, log: seq<Asked>, since: nat) {
    forall k <- before :: k in after || k.dst !in known || Since(log, since, Received(k.dst, k, Some(true)))
  }

  /** Each delivery started is for a message whose destination said since that it does not have it. */
  ghost predicate StartedForCause(started: seq<Goroutine>, goroutines: seq<Goroutine>, log: seq<Asked>, since: nat) {
    forall t :: |started| <= t < |goroutines| ==>
      Since(log, since, Received(goroutines[t].message.message.dst, goroutines[t].message.Key(), Some(false)))
  }

  lemma ClearedGrows(before: Cache, after: Cache, known: set<Nid>, log: seq<Asked>, log': seq<Asked>, since: nat)
    requires ClearedForCause(before, after, known, log, since) && log <= log'
    ensures ClearedForCause(before, after, known, log', since)
  {
    forall k | k in before && k !in after && k.dst in known
      ensures Since(log', since, Received(k.dst, k, Some(true)))
    {
      SinceGrows(log, log', since, Received(k.dst, k, Some(true)));
    }
  }

  lemma StartedGrows(started: seq<Goroutine>, goroutines: seq<Goroutine>, log: seq<Asked>, log': seq<Asked>, since: nat)
    requires StartedForCause(started, goroutines, log, since) && log <= log'
    ensures StartedForCause(started, goroutines, log', since)
  {
    forall t | |started| <= t < |goroutines|
      ensures Since(log', since, Received(goroutines[t].message.message.dst, goroutines[t].message.Key(), Some(false)))
    {
      SinceGrows(log, log', since, Received(goroutines[t].message.message.dst, goroutines[t].message.Key(), Some(false)));
    }
  }

  lemma ConsideredGrows(log: seq<Asked>, log': seq<Asked>, since: nat, m: RouteMessage)
    requires Considered(log, since, m) && log <= log'
    ensures Considered(log', since, m)
  {
    var yes :| Since(log, since, ShouldReceive(m.message.dst, m.message, yes));
    SinceGrows(log, log', since, ShouldReceive(m.message.dst, m.message, yes));
  }

  /** Of the chains that are done, every idle message has been put to its provider. */
  ghost predicate AllConsidered(idle: map<Nid, set<RouteMessage>>, todo: set<Nid>, log: seq<Asked>, since: nat) {
    forall nid <- idle :: nid !in todo ==> forall m <- idle[nid] :: Considered(log, since, m)
  }

  lemma NoneConsidered(idle: map<Nid, set<RouteMessage>>, log: seq<Asked>)
    ensures AllConsidered(idle, idle.Keys, log, |log|)
  {
  }

  lemma EachConsidered(idle: map<Nid, set<RouteMessage>>, log: seq<Asked>, since: nat)
    requires AllConsidered(idle, {}, log, since)
    ensures forall nid <- idle :: forall m <- idle[nid] :: Considered(log, since, m)
  {
    hide Considered;
  }

  lemma ConsideredNext(idle: map<Nid, set<RouteMessage>>, todo: set<Nid>, log: seq<Asked>, log': seq<Asked>, since: nat, nid: Nid)
    requires AllConsidered(idle, todo, log, since) && log <= log' && since <= |log|
    requires nid in idle ==> forall m <- idle[nid] :: Considered(log', |log|, m)
    ensures AllConsidered(idle, todo - {nid}, log', since)
  {
    forall n, m | n in idle && n !in todo - {nid} && m in idle[n]
      ensures Considered(log', since, m)
    {
      if n == nid {
        ConsideredEarlier(log', since, |log|, m);
      } else {
        ConsideredGrows(log, log', since, m);
      }
    }
  }

  lemma ConsideredIs(log: seq<Asked>, since: nat, m: RouteMessage)
    requires Considered(log, since, m)
    ensures exists yes :: Since(log, since, ShouldReceive(m.message.dst, m.message, yes))
  {
    hide Since;
  }

  lemma ConsideredEarlier(log: seq<Asked>, since: nat, later: nat, m: RouteMessage)
    requires Considered(log, later, m) && since <= later
    ensures Considered(log, since, m)
  {
    var yes :| Since(log, later, ShouldReceive(m.message.dst, m.message, yes));
    var i :| later <= i < |log| && log[i] == ShouldReceive(m.message.dst, m.message, yes);
    assert Since(log, since, ShouldReceive(m.message.dst, m.message, yes));
  }

  lemma JustAsked(log: seq<Asked>, asked: seq<Asked>, since: nat, i: nat)
    requires since <= |log| && i < |asked|
    ensures Since(log + asked, since, asked[i])
  {
    assert (log + asked)[|log| + i] == asked[i];
  }

  /** One message more has been looked at. */
  lemma ClearedOne(before: Cache, cache: Cache, known: set<Nid>, log: seq<Asked>, since: nat, asked: seq<Asked>,
                   m: RouteMessage, r: Looked, src: Nid, waiting: bool)
    requires ClearedForCause(before, cache, known, log, since) && Kept(cache, before) && since <= |log|
    requires Explains(asked, r, m.message, m.Key(), src, waiting) && (r.UnknownDst? ==> m.message.dst !in known)
    ensures ClearedForCause(before, if Clears(r) then cache - {m.Key()} else cache, known, log + asked, since)
  {
    ClearedGrows(before, cache, known, log, log + asked, since);
    if r.AlreadyThere? { JustAsked(log, asked, since, 2); }
    hide Since;
  }

  lemma StartedOne(started: seq<Goroutine>, goroutines: seq<Goroutine>, log: seq<Asked>, since: nat, asked: seq<Asked>,
                   m: RouteMessage, r: Looked, src: Nid, waiting: bool)
    requires StartedForCause(started, goroutines, log, since) && since <= |log| && started <= goroutines
    requires Explains(asked, r, m.message, m.Key(), src, waiting)
    ensures StartedForCause(started, goroutines + if r.Sent? then [Goroutine(m, m.message.dst, src)] else [], log + asked, since)
  {
    StartedGrows(started, goroutines, log, log + asked, since);
    if r.Sent? { JustAsked(log, asked, since, 2); }
    hide Since;
  }

  lemma ConsideredOne(log: seq<Asked>, since: nat, asked: seq<Asked>, m: RouteMessage, r: Looked, src: Nid, waiting: bool)
    requires Explains(asked, r, m.message, m.Key(), src, waiting) && !waiting && !r.UnknownDst? && since <= |log|
    ensures Considered(log + asked, since, m)
  {
    JustAsked(log, asked, since, 0);
  }

  lemma NoneStartedYet(goroutines: seq<Goroutine>, log: seq<Asked>)
    ensures StartedForCause(goroutines, goroutines, log, |log|)
  {
  }

  lemma CausesCompose(started: seq<Goroutine>, running: seq<Goroutine>, goroutines: seq<Goroutine>, log: seq<Asked>, log': seq<Asked>, since: nat)
    requires StartedForCause(started, running, log, since) && StartedForCause(running, goroutines, log', |log|)
    requires log <= log' && since <= |log| && running <= goroutines
    ensures StartedForCause(started, goroutines, log', since)
  {
    forall t | |started| <= t < |goroutines|
      ensures Since(log', since, Received(goroutines[t].message.message.dst, goroutines[t].message.Key(), Some(false)))
    {
      var a := Received(goroutines[t].message.message.dst, goroutines[t].message.Key(), Some(false));
      if t < |running| {
        assert goroutines[t] == running[t];
        SinceGrows(log, log', since, a);
      } else {
        var i :| |log| <= i < |log'| && log'[i] == a;
      }
    }
  }

  // ----- The deletes for what has left a cache

  /** The write tries to delete the message under this key. */
  predicate ForKey(w: Lvldb.Write, k: MessageKey) {
    w.Delete? && w == DeleteOf(StoreKey(k.src, k.sn.value), w.ok)
  }

  ghost predicate TriedFor(made: seq<Lvldb.Write>, k: MessageKey) {
    exists i :: 0 <= i < |made| && ForKey(made[i], k)
  }

  ghost predicate ForLost(w: Lvldb.Write, before: Cache, after: Cache) {
    exists k :: k in before && k !in after && ForKey(w, k)
  }

  /** The writes made are deletes for what has left the cache, and there is one for each such entry. */
  ghost predicate Deleted(before: Cache, after: Cache, made: seq<Lvldb.Write>) {
    && (forall k <- before :: k in after || TriedFor(made, k))
    && (forall i :: 0 <= i < |made| ==> ForLost(made[i], before, after))
  }

  lemma NoneDeleted(cache: Cache)
    ensures Deleted(cache, cache, [])
  {
  }

  lemma TriedGrows(made: seq<Lvldb.Write>, more: seq<Lvldb.Write>, k: MessageKey)
    requires TriedFor(made, k) || TriedFor(more, k)
    ensures TriedFor(made + more, k)
  {
    if i :| 0 <= i < |made| && ForKey(made[i], k) {
      assert ForKey((made + more)[i], k);
    } else {
      var i :| 0 <= i < |more| && ForKey(more[i], k);
      assert ForKey((made + more)[|made| + i], k);
    }
  }

  lemma DeletedOne(before: Cache, after: Cache, made: seq<Lvldb.Write>, m: RouteMessage, r: Looked)
    requires Deleted(before, after, made) && m.Key() in before && m.sn.value == m.message.sn
    ensures Deleted(before, if Clears(r) then after - {m.Key()} else after, made + ClearingWrites(r, m.message))
  {
    hide Deleted;
    assert made + [] == made;
    if Clears(r) {
      var w := ClearingWrites(r, m.message)[0];
      assert ForKey(w, m.Key());
      hide ForKey, DeleteOf;
      assert ClearingWrites(r, m.message) == [w];
      DeletedKey(before, after, made, m.Key(), w);
    }
  }

  lemma DeletedKey(before: Cache, after: Cache, made: seq<Lvldb.Write>, key: MessageKey, w: Lvldb.Write)
    requires Deleted(before, after, made) && key in before && ForKey(w, key)
    ensures Deleted(before, after - {key}, made + [w])
  {
    hide ForKey, TriedFor, ForLost;
    forall k | k in before && k !in after - {key} ensures TriedFor(made + [w], k) {
      JustTried(w, key);
      TriedGrows(made, [w], k);
    }
    forall i | 0 <= i < |made + [w]| ensures ForLost((made + [w])[i], before, after - {key}) {
      if i < |made| { LostStill(made[i], before, after, key); } else { JustLost(w, before, after, key); }
    }
  }

  lemma JustTried(w: Lvldb.Write, key: MessageKey)
    requires ForKey(w, key)
    ensures TriedFor([w], key)
  {
    assert ForKey([w][0], key);
  }

  lemma LostStill(w: Lvldb.Write, before: Cache, after: Cache, key: MessageKey)
    requires ForLost(w, before, after)
    ensures ForLost(w, before, after - {key})
  {
    hide ForKey;
  }

  lemma JustLost(w: Lvldb.Write, before: Cache, after: Cache, key: MessageKey)
    requires key in before && ForKey(w, key)
    ensures ForLost(w, before, after - {key})
  {
    hide ForKey;
  }

  /** The same for all caches. */
  ghost predicate DeletedAll(before: map<Nid, Cache>, after: map<Nid, Cache>, made: seq<Lvldb.Write>) {
    before.Keys == after.Keys &&
    (forall nid <- before :: forall k <- before[nid] :: k in after[nid] || TriedFor(made, k)) &&
    (forall i :: 0 <= i < |made| ==> exists nid :: nid in before && nid in after && ForLost(made[i], before[nid], after[nid]))
  }

  lemma NoneDeletedYet(caches: map<Nid, Cache>)
    ensures DeletedAll(caches, caches, [])
  {
  }

  lemma DeletedNext(before: map<Nid, Cache>, middle: map<Nid, Cache>, made: seq<Lvldb.Write>, nid: Nid, cache: Cache, more: seq<Lvldb.Write>)
    requires DeletedAll(before, middle, made) && nid in before && nid in middle && middle[nid] == before[nid]
    requires Deleted(before[nid], cache, more)
    ensures DeletedAll(before, middle[nid := cache], made + more)
  {
    var after := middle[nid := cache];
    hide TriedFor, ForLost;
    forall n, k | n in before && k in before[n] && k !in after[n] ensures TriedFor(made + more, k) {
      TriedGrows(made, more, k);
    }
    forall i | 0 <= i < |made + more| ensures exists n :: n in before && n in after && ForLost((made + more)[i], before[n], after[n]) {
      if i < |made| {
        var n :| n in before && n in middle && ForLost(made[i], before[n], middle[n]);
        if n == nid { NoneLost(made[i], before[nid]); }
        assert ForLost((made + more)[i], before[n], after[n]);
      } else {
        assert ForLost(more[i - |made|], before[nid], after[nid]);
      }
    }
  }

  lemma NoneLost(w: Lvldb.Write, cache: Cache)
    ensures !ForLost(w, cache, cache)
  {
  }

  // ----- A cache the router has gone over

  /** It has only lost entries, each for a cause, and none is left whose destination is unknown. */
  ghost predicate WentOver(before: Cache, after: Cache, known: set<Nid>, log: seq<Asked>, since: nat) {
    && Kept(after, before) && (forall k <- after :: after[k].message.dst in known)
    && ClearedForCause(before, after, known, log, since)
  }

  ghost predicate WentOverAll(before: map<Nid, Cache>, after: map<Nid, Cache>, known: set<Nid>, todo: set<Nid>,
                              log: seq<Asked>, since: nat) {
    before.Keys == after.Keys &&
    forall nid <- before :: if nid in todo then after[nid] == before[nid] else WentOver(before[nid], after[nid], known, log, since)
  }

  lemma WentOverNone(caches: map<Nid, Cache>, known: set<Nid>, log: seq<Asked>)
    ensures WentOverAll(caches, caches, known, caches.Keys, log, |log|)
  {
  }

  lemma NotYetOver(before: map<Nid, Cache>, middle: map<Nid, Cache>, known: set<Nid>, todo: set<Nid>, log: seq<Asked>, since: nat, nid: Nid)
    requires WentOverAll(before, middle, known, todo, log, since) && nid in todo && nid in middle
    ensures nid in before && middle[nid] == before[nid]
  {
  }

  lemma WentOverGrows(before: Cache, after: Cache, known: set<Nid>, log: seq<Asked>, log': seq<Asked>, since: nat, later: nat)
    requires WentOver(before, after, known, log, later) && log <= log' && since <= later
    ensures WentOver(before, after, known, log', since)
  {
    forall k | k in before && k !in after && k.dst in known
      ensures Since(log', since, Received(k.dst, k, Some(true)))
    {
      var i :| later <= i < |log| && log[i] == Received(k.dst, k, Some(true));
      assert log'[i] == log[i];
    }
  }

  lemma WentOverOne(before: map<Nid, Cache>, middle: map<Nid, Cache>, known: set<Nid>, todo: set<Nid>, nid: Nid, cache: Cache,
                    log: seq<Asked>, log': seq<Asked>, since: nat)
    requires WentOverAll(before, middle, known, todo, log, since) && nid in todo && nid in middle && log <= log' && since <= |log|
    requires WentOver(middle[nid], cache, known, log', |log|)
    ensures WentOverAll(before, middle[nid := cache], known, todo - {nid}, log', since)
  {
    forall n | n in before && n !in todo
      ensures WentOver(before[n], middle[n], known, log', since)
    {
      WentOverGrows(before[n], middle[n], known, log, log', since, since);
    }
    WentOverGrows(middle[nid], cache, known, log', log', since, |log|);
    hide WentOver;
  }

  // ----- A cache the router is going over

  lemma ExplainsIdle(asked: seq<Asked>, r: Looked, m: Message, key: MessageKey, src: Nid, waiting: bool)
    requires Explains(asked, r, m, key, src, waiting)
    ensures r.Sent? || r.AlreadyThere? || r.LookupFailed? ==> !waiting
  {
  }

  /** With the messages in `rest` still to look at: entries have gone only for a cause, those left with an
      unknown destination are still to look at, and the idle ones looked at have been put to a provider. */
  ghost predicate GoneOver(cache: Cache, rest: set<RouteMessage>, before: Cache, idle: set<RouteMessage>, known: set<Nid>,
                           log: seq<Asked>, since: nat) {
    && since <= |log| && Sifted(cache, rest, known) && Kept(cache, before)
    && ClearedForCause(before, cache, known, log, since)
    && (forall m <- idle :: m in rest || Considered(log, since, m))
  }

  lemma NoneGoneOver(cache: Cache, idle: set<RouteMessage>, known: set<Nid>, log: seq<Asked>)
    requires Sifted(cache, cache.Values, known) && idle <= cache.Values
    ensures GoneOver(cache, cache.Values, cache, idle, known, log, |log|)
  {
    hide Sifted;
  }

  lemma GoneOverSince(cache: Cache, rest: set<RouteMessage>, before: Cache, idle: set<RouteMessage>, known: set<Nid>, log: seq<Asked>, since: nat)
    requires GoneOver(cache, rest, before, idle, known, log, since)
    ensures since <= |log|
  {
  }

  lemma AllGoneOver(cache: Cache, before: Cache, idle: set<RouteMessage>, known: set<Nid>, log: seq<Asked>, since: nat)
    requires GoneOver(cache, {}, before, idle, known, log, since)
    ensures WentOver(before, cache, known, log, since)
    ensures forall m <- idle :: Considered(log, since, m)
  {
    hide Considered, ClearedForCause;
    SiftedDone(cache, known);
  }

  /** One message more. */
  lemma GoesOn(cache: Cache, rest: set<RouteMessage>, before: Cache, idle: set<RouteMessage>, known: set<Nid>, log: seq<Asked>, since: nat,
               asked: seq<Asked>, m: RouteMessage, r: Looked, src: Nid, waiting: bool)
    requires GoneOver(cache, rest, before, idle, known, log, since) && m in rest
    requires Explains(asked, r, m.message, m.Key(), src, waiting) && (r.UnknownDst? <==> m.message.dst !in known)
    requires m in idle ==> !waiting && m.message.dst in known
    ensures GoneOver(if Clears(r) then cache - {m.Key()} else cache, rest - {m}, before, idle, known, log + asked, since)
  {
    hide Sifted, Kept, ClearedForCause, Explains, Considered;
    SiftedOne(cache, rest, known, m, Clears(r));
    KeptOn(if Clears(r) then cache - {m.Key()} else cache, cache, before);
    ClearedOne(before, cache, known, log, since, asked, m, r, src, waiting);
    forall x | x in idle && x !in rest - {m}
      ensures Considered(log + asked, since, x)
    {
      if x == m {
        ConsideredOne(log, since, asked, m, r, src, waiting);
      } else {
        ConsideredGrows(log, log + asked, since, x);
      }
    }
  }
}
