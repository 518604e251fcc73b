/** The relayer with its objects in the heap: chain runtimes, their caches, and three stores in one
    database (relayer/relay.go, relayer/chain_runtime.go, relayer/socket/server.go). Every method
    is a run of the machine: `trace` is the run so far, after those in `past` of processes with other
    chains, and `model` its final state. */
module Relayer {
  import opened RelayTypes
  import opened RelayObjects
  import opened Engine
  import opened EngineIdentity
  import opened EngineConservation
  import opened EnginePresence
  import opened EngineInFlight
  import opened EngineRestart
  import opened EngineDurable
  import opened StoreKeys
  import opened StoreRefinement
  import opened RelayLink
  import opened RelaySteps
  import opened RelayAnswers
  import opened RelayFlush
  import Lvldb
  import Stores

  /** A chain runtime. The methods after the constructor are its provider: nothing is known about the
      answers, and every question is on record with its answer. */
  class ChainRuntime {
    const nid: Nid
    const finalityBlock: uint64
    const cache: MessageCache
    ghost const answers: AnswerLog
    var lastBlockHeight: uint64
    var lastSavedHeight: uint64

    constructor (nid: Nid, finalityBlock: uint64, ghost answers: AnswerLog)
      ensures this.nid == nid && this.finalityBlock == finalityBlock && this.answers == answers
      ensures fresh(cache) && cache.messages == map[] && lastBlockHeight == 0 && lastSavedHeight == 0
    {
      this.nid := nid;
      this.finalityBlock := finalityBlock;
      this.answers := answers;
      cache := new MessageCache();
      lastBlockHeight := 0;
      lastSavedHeight := 0;
    }

    method ShouldReceiveMessage(m: Message) returns (yes: bool)
      modifies answers
      ensures answers.log == old(answers.log) + [ShouldReceive(nid, m, yes)]
    {
      yes := *;
      answers.log := answers.log + [ShouldReceive(nid, m, yes)];
    }

    method ShouldSendMessage(m: Message) returns (yes: bool)
      modifies answers
      ensures answers.log == old(answers.log) + [ShouldSend(nid, m, yes)]
    {
      yes := *;
      answers.log := answers.log + [ShouldSend(nid, m, yes)];
    }

    method MessageReceived(key: MessageKey) returns (answer: Option<bool>)
      modifies answers
      ensures answers.log == old(answers.log) + [Received(nid, key, answer)]
    {
      answer :| true;
      answers.log := answers.log + [Received(nid, key, answer)];
    }

    method Route(m: Message) returns (answer: RouteAnswer)
      modifies answers
      ensures answers.log == old(answers.log) + [Sending(nid, finalityBlock, m, answer)]
    {
      answer :| true;
      answers.log := answers.log + [Sending(nid, finalityBlock, m, answer)];
    }

    /** The status of a receipt, or an error. */
    method QueryTransactionReceipt(txHash: string, ghost tx: TxObject) returns (answer: Option<bool>)
      requires txHash == tx.txHash
      modifies answers
      ensures answers.log == old(answers.log) + [Receipt(nid, tx, answer)]
    {
      answer :| true;
      answers.log := answers.log + [Receipt(nid, tx, answer)];
    }

    method GenerateMessages(request: Request) returns (answer: Option<seq<Message>>)
      modifies answers
      ensures answers.log == old(answers.log) + [Generation(nid, request, answer)]
    {
      answer :| true;
      answers.log := answers.log + [Generation(nid, request, answer)];
    }
  }

  /** What the finality pass did with one record. */
  datatype Check =
    | ZeroHeight
    | Young
    | ReceiptError
    | Confirmed(deleted: bool)
    | UnknownSource
    | NotDeleted
    | Regenerated(answer: Option<seq<Message>>)

  /** The write made for each verdict. */
  function WritesOf(tx: TxObject, v: Check): seq<Lvldb.Write> {
    match v
    case Confirmed(deleted) => [DeleteTxOf(TxStoreKey(tx), deleted)]
    case NotDeleted => [DeleteTxOf(TxStoreKey(tx), false)]
    case Regenerated(_) => [DeleteTxOf(TxStoreKey(tx), true)]
    case _ => []
  }

  function AllWrites(log: CheckLog): seq<Lvldb.Write> {
    if log == [] then [] else AllWrites(log[..|log| - 1]) + WritesOf(log[|log| - 1].0, log[|log| - 1].1)
  }

  lemma NoWrites()
    ensures AllWrites([]) == []
  {
  }

  lemma WritesAppended(log: CheckLog, tx: TxObject, v: Check)
    ensures AllWrites(log + [(tx, v)]) == AllWrites(log) + WritesOf(tx, v)
  {
    assert (log + [(tx, v)])[..|log|] == log;
  }

  predicate Removes(v: Check) {
    v == Confirmed(true) || v.Regenerated?
  }

  /** The verdict on a record is the one its height calls for, given the chain's finality wait and last
      height, and a record is only given up for a source that is known. */
  predicate Judged(tx: TxObject, v: Check, finalityBlock: uint64, height: uint64, known: set<Nid>) {
    && (v.ZeroHeight? <==> tx.txHeight == 0)
    && (v.Young? <==> tx.txHeight != 0 && (tx.txHeight + finalityBlock) % UINT64_SIZE > height)
    && (v.UnknownSource? ==> tx.src !in known)
    && (v.NotDeleted? || v.Regenerated? ==> tx.src in known)
  }

  type CheckLog = seq<(TxObject, Check)>

  /** What is asked about a record for each verdict: its receipt once it has waited out its finality, and
      the message again if the receipt says that the transaction is gone and the record is given up. */
  function QuestionsOf(nid: Nid, tx: TxObject, v: Check): seq<Asked> {
    match v
    case ZeroHeight => []
    case Young => []
    case ReceiptError => [Receipt(nid, tx, None)]
    case Confirmed(_) => [Receipt(nid, tx, Some(true))]
    case UnknownSource => [Receipt(nid, tx, Some(false))]
    case NotDeleted => [Receipt(nid, tx, Some(false))]
    case Regenerated(answer) => [Receipt(nid, tx, Some(false)), Generation(tx.src, Request(tx.src, tx.dst, tx.sn, tx.eventType, tx.height), answer)]
  }

  /** What the verdicts come to: nothing is asked or written about a record that has not waited out its
      finality; about any other its receipt is asked for first, and the status decides. A delete is tried for a
      good one, and for a bad one of a known source; the record is removed exactly if that succeeds, and then a
      bad one's message is asked for. */
  lemma Verdicts(nid: Nid, tx: TxObject, v: Check, finalityBlock: uint64, height: uint64, known: set<Nid>)
    requires Judged(tx, v, finalityBlock, height, known)
    ensures var asked, written := QuestionsOf(nid, tx, v), WritesOf(tx, v);
      if tx.txHeight == 0 || (tx.txHeight + finalityBlock) % 0x1_0000_0000_0000_0000 > height then
        asked == [] && written == [] && !Removes(v)
      else
        && asked != [] && asked[0].Receipt? && asked[0].nid == nid && asked[0].tx == tx
        && (asked[0].status == None || (asked[0].status == Some(false) && tx.src !in known) ==> |asked| == 1 && written == [] && !Removes(v))
        && (asked[0].status == Some(true) || (asked[0].status == Some(false) && tx.src in known) ==>
              |written| == 1 && written[0].Delete? && written[0].key == TxDbKey(StoreKey(tx.dst, tx.sn)) && (Removes(v) <==> written[0].ok))
        && (asked[0].status == Some(true) ==> |asked| == 1)
        && (asked[0].status == Some(false) && tx.src in known ==> if Removes(v) then |asked| == 2 && asked[1].Generation? else |asked| == 1)
  {
  }

  /** A record given up is asked for at its source as the message it is of, at that message's own height. */
  lemma AskedAsItself(nid: Nid, tx: TxObject, answer: Option<seq<Message>>, m: Message)
    requires m.src == tx.src && m.dst == tx.dst && m.sn == tx.sn && m.eventType == tx.eventType && m.height == tx.height
    ensures var asked := QuestionsOf(nid, tx, Regenerated(answer));
      && |asked| == 2 && asked[1].Generation? && asked[1].nid == m.src && asked[1].messages == answer
      && asked[1].request.src == m.src && asked[1].request.dst == m.dst && asked[1].request.sn == m.sn
      && asked[1].request.eventType == m.eventType && asked[1].request.height == m.height
  {
  }

  function AllQuestions(nid: Nid, log: CheckLog): seq<Asked> {
    if log == [] then []
    else AllQuestions(nid, log[..|log| - 1]) + QuestionsOf(nid, log[|log| - 1].0, log[|log| - 1].1)
  }

  lemma NoQuestions(nid: Nid)
    ensures AllQuestions(nid, []) == []
  {
  }

  lemma QuestionsAppended(nid: Nid, log: CheckLog, tx: TxObject, v: Check)
    ensures AllQuestions(nid, log + [(tx, v)]) == AllQuestions(nid, log) + QuestionsOf(nid, tx, v)
  {
    assert (log + [(tx, v)])[..|log|] == log;
  }

  /** The entries stand there together and in order. */
  ghost predicate StandsIn<T>(entries: seq<T>, all: seq<T>, since: nat) {
    exists i :: since <= i <= |all| && entries <= all[i..]
  }

  lemma StillStands<T>(entries: seq<T>, all: seq<T>, all': seq<T>, since: nat)
    requires StandsIn(entries, all, since) && all <= all'
    ensures StandsIn(entries, all', since)
  {
    var i :| since <= i <= |all| && entries <= all[i..];
    assert all[i..] <= all'[i..];
    assert entries <= all'[i..];
  }

  lemma StandsLast<T>(entries: seq<T>, all: seq<T>, since: nat)
    requires since <= |all|
    ensures StandsIn(entries, all + entries, since)
  {
    assert (all + entries)[|all|..] == entries;
  }

  /** The questions and the writes of each chain's log stand in the two records. */
  ghost predicate AllAsk(logs: map<Nid, CheckLog>, answers: seq<Asked>, since: nat) {
    forall nid <- logs :: StandsIn(AllQuestions(nid, logs[nid]), answers, since)
  }

  ghost predicate AllWrite(logs: map<Nid, CheckLog>, writes: seq<Lvldb.Write>, since: nat) {
    forall nid <- logs :: StandsIn(AllWrites(logs[nid]), writes, since)
  }

  lemma NoneAsks(answers: seq<Asked>, writes: seq<Lvldb.Write>)
    ensures AllAsk(map[], answers, |answers|) && AllWrite(map[], writes, |writes|)
  {
  }

  lemma AllAskOne(logs: map<Nid, CheckLog>, answers: seq<Asked>, answers': seq<Asked>, since: nat, nid: Nid, log: CheckLog)
    requires AllAsk(logs, answers, since) && since <= |answers| && nid !in logs
    requires answers' == answers + AllQuestions(nid, log)
    ensures AllAsk(logs[nid := log], answers', since)
  {
    forall n | n in logs ensures StandsIn(AllQuestions(n, logs[n]), answers', since) {
      StillStands(AllQuestions(n, logs[n]), answers, answers', since);
    }
    StandsLast(AllQuestions(nid, log), answers, since);
    hide StandsIn;
  }

  lemma AllWriteOne(logs: map<Nid, CheckLog>, writes: seq<Lvldb.Write>, writes': seq<Lvldb.Write>, since: nat, nid: Nid, log: CheckLog)
    requires AllWrite(logs, writes, since) && since <= |writes| && nid !in logs
    requires writes' == writes + AllWrites(log)
    ensures AllWrite(logs[nid := log], writes', since)
  {
    forall n | n in logs ensures StandsIn(AllWrites(logs[n]), writes', since) {
      StillStands(AllWrites(logs[n]), writes, writes', since);
    }
    StandsLast(AllWrites(log), writes, since);
    hide StandsIn;
  }

  function Examined(log: CheckLog): (r: seq<TxObject>)
    ensures |r| == |log| && forall i :: 0 <= i < |r| ==> r[i] == log[i].0
  {
    if log == [] then [] else Examined(log[..|log| - 1]) + [log[|log| - 1].0]
  }

  lemma ExaminedAppended(log: CheckLog, tx: TxObject, v: Check)
    ensures Examined(log + [(tx, v)]) == Examined(log) + [tx]
  {
    assert (log + [(tx, v)])[..|log|] == log;
  }

  lemma NoneExamined()
    ensures Examined([]) == []
  {
  }

  ghost predicate LoggedRemoval(log: CheckLog, key: StoreKey) {
    exists i :: 0 <= i < |log| && TxStoreKey(log[i].0) == key && Removes(log[i].1)
  }

  /** The log explains the pass: each verdict is right; what left the finality store is exactly what
      the log removes; everything else is as it was. */
  ghost predicate Logged(log: CheckLog, finalityBlock: uint64, height: uint64, known: set<Nid>,
                         before: map<StoreKey, TxObject>, after: map<StoreKey, TxObject>) {
    && (forall i :: 0 <= i < |log| ==> log[i].0 in before.Values && Judged(log[i].0, log[i].1, finalityBlock, height, known))
    && (forall key <- after :: key in before && after[key] == before[key])
    && (forall key <- before :: key !in after <==> LoggedRemoval(log, key))
  }

  /** The log of these records, with what was asked for it. */
  ghost predicate LoggedFor(txs: seq<TxObject>, log: CheckLog, nid: Nid, finalityBlock: uint64, height: uint64, known: set<Nid>,
                            before: map<StoreKey, TxObject>, after: map<StoreKey, TxObject>, asked: seq<Asked>, asked': seq<Asked>) {
    && Examined(log) == txs && asked' == asked + AllQuestions(nid, log)
    && Logged(log, finalityBlock, height, known, before, after)
  }

  lemma NothingLogged(nid: Nid, finalityBlock: uint64, height: uint64, known: set<Nid>, txs: map<StoreKey, TxObject>, asked: seq<Asked>)
    ensures LoggedFor([], [], nid, finalityBlock, height, known, txs, txs, asked, asked)
  {
  }

  lemma LogNext(txs: seq<TxObject>, i: nat, log: CheckLog, nid: Nid, finalityBlock: uint64, height: uint64, known: set<Nid>,
                before: map<StoreKey, TxObject>, middle: map<StoreKey, TxObject>, asked: seq<Asked>, asked': seq<Asked>, v: Check)
    requires i < |txs| && LoggedFor(txs[..i], log, nid, finalityBlock, height, known, before, middle, asked, asked')
    requires txs[i] in before.Values && Judged(txs[i], v, finalityBlock, height, known)
    requires forall key <- before :: key == TxStoreKey(before[key])
    ensures LoggedFor(txs[..i + 1], log + [(txs[i], v)], nid, finalityBlock, height, known, before,
                      if Removes(v) then middle - {TxStoreKey(txs[i])} else middle, asked, asked' + QuestionsOf(nid, txs[i], v))
  {
    hide Judged, Logged, Examined, AllQuestions, QuestionsOf, TxStoreKey, Removes;
    LogOne(log, finalityBlock, height, known, before, middle, txs[i], v);
    QuestionsAppended(nid, log, txs[i], v);
    ExaminedAppended(log, txs[i], v);
    assert txs[..i + 1] == txs[..i] + [txs[i]];
  }

  /** The same for the logs of several chains, each with its finality wait and height. */
  ghost predicate LoggedAll(logs: map<Nid, CheckLog>, waits: map<Nid, uint64>, heights: map<Nid, uint64>, known: set<Nid>,
                            before: map<StoreKey, TxObject>, after: map<StoreKey, TxObject>) {
    && logs.Keys <= waits.Keys && logs.Keys <= heights.Keys
    && (forall nid <- logs :: AllJudged(logs[nid], waits[nid], heights[nid], known))
    && (forall key <- after :: key in before && after[key] == before[key])
    && (forall key <- before :: key !in after <==> exists nid :: nid in logs && LoggedRemoval(logs[nid], key))
  }

  ghost predicate AllJudged(log: CheckLog, finalityBlock: uint64, height: uint64, known: set<Nid>) {
    forall i :: 0 <= i < |log| ==> Judged(log[i].0, log[i].1, finalityBlock, height, known)
  }

  lemma LogChain(logs: map<Nid, CheckLog>, waits: map<Nid, uint64>, heights: map<Nid, uint64>, known: set<Nid>,
                 before: map<StoreKey, TxObject>, middle: map<StoreKey, TxObject>, after: map<StoreKey, TxObject>,
                 nid: Nid, log: CheckLog)
    requires LoggedAll(logs, waits, heights, known, before, middle) && nid !in logs && nid in waits && nid in heights
    requires Logged(log, waits[nid], heights[nid], known, middle, after)
    ensures LoggedAll(logs[nid := log], waits, heights, known, before, after)
  {
    hide Judged, LoggedRemoval;
    var logs' := logs[nid := log];
    forall key | key in before
      ensures key !in after <==> exists n :: n in logs' && LoggedRemoval(logs'[n], key)
    {
      if key !in middle {
        var n :| n in logs && LoggedRemoval(logs[n], key);
        assert LoggedRemoval(logs'[n], key);
      } else {
        assert logs'[nid] == log;
        if n :| n in logs' && LoggedRemoval(logs'[n], key) {
          assert n == nid;
        }
      }
    }
  }

  lemma NoLogs(waits: map<Nid, uint64>, heights: map<Nid, uint64>, known: set<Nid>, txs: map<StoreKey, TxObject>)
    ensures LoggedAll(map[], waits, heights, known, txs, txs)
  {
  }

  /** There is a log for every chain that is not still to do. */
  ghost predicate Covers(logs: map<Nid, CheckLog>, chains: set<Nid>, todo: set<Nid>) {
    logs.Keys == chains - todo
  }

  lemma CoversNone(chains: set<Nid>)
    ensures Covers(map[], chains, chains)
  {
  }

  lemma CoversOne(logs: map<Nid, CheckLog>, chains: set<Nid>, todo: set<Nid>, nid: Nid)
    requires Covers(logs, chains, todo) && nid in todo && todo <= chains
    ensures nid !in logs
  {
  }

  lemma CoversAfter(logs: map<Nid, CheckLog>, chains: set<Nid>, todo: set<Nid>, nid: Nid, log: CheckLog)
    requires Covers(logs, chains, todo) && nid in todo && todo <= chains
    ensures Covers(logs[nid := log], chains, todo - {nid})
  {
  }

  lemma EmptyLog(finalityBlock: uint64, height: uint64, known: set<Nid>, txs: map<StoreKey, TxObject>)
    ensures Logged([], finalityBlock, height, known, txs, txs)
  {
  }

  lemma LogOne(log: CheckLog, finalityBlock: uint64, height: uint64, known: set<Nid>,
               before: map<StoreKey, TxObject>, middle: map<StoreKey, TxObject>, tx: TxObject, v: Check)
    requires Logged(log, finalityBlock, height, known, before, middle)
    requires tx in before.Values && Judged(tx, v, finalityBlock, height, known)
    requires forall key <- before :: key == TxStoreKey(before[key])
    ensures Logged(log + [(tx, v)], finalityBlock, height, known, before, if Removes(v) then middle - {TxStoreKey(tx)} else middle)
  {
    hide Judged;
    var log' := log + [(tx, v)];
    forall key
      ensures LoggedRemoval(log', key) <==> LoggedRemoval(log, key) || (TxStoreKey(tx) == key && Removes(v))
    {
      RemovalAppended(log, key, tx, v);
    }
    hide LoggedRemoval;
  }

  lemma RemovalAppended(log: CheckLog, key: StoreKey, tx: TxObject, v: Check)
    ensures LoggedRemoval(log + [(tx, v)], key) <==> LoggedRemoval(log, key) || (TxStoreKey(tx) == key && Removes(v))
  {
    var log' := log + [(tx, v)];
    if LoggedRemoval(log, key) {
      var i :| 0 <= i < |log| && TxStoreKey(log[i].0) == key && Removes(log[i].1);
      assert log'[i] == log[i];
    }
    assert log'[|log|] == (tx, v);
  }

  function Answered(v: Check): seq<Message> {
    if v.Regenerated? && v.answer.Some? then v.answer.value else []
  }

  // ----- What the heap holds

  ghost function RoutesOf(table: seq<RouteMessage>): (r: seq<Route>)
    reads table
    ensures |r| == |table| && forall i :: 0 <= i < |r| ==> r[i] == table[i].Value()
  {
    if table == [] then [] else RoutesOf(table[..|table| - 1]) + [table[|table| - 1].Value()]
  }

  lemma RoutesAppended(table: seq<RouteMessage>, r: RouteMessage)
    ensures RoutesOf(table + [r]) == RoutesOf(table) + [r.Value()]
  {
  }

  ghost function Contents(cache: Cache): (r: map<MessageKey, Route>)
    reads cache.Values
    ensures r.Keys == cache.Keys
  {
    map k | k in cache :: cache[k].Value()
  }

  ghost function ContentsOf(chains: map<Nid, ChainRuntime>): (r: map<Nid, map<MessageKey, Route>>)
    reads *
    ensures r.Keys == chains.Keys
  {
    map nid | nid in chains :: Contents(chains[nid].cache.messages)
  }

  lemma ContentsGrow(cache: Cache, r: RouteMessage)
    ensures Contents(cache[r.Key() := r]) == Contents(cache)[r.Key() := r.Value()]
  {
  }

  twostate lemma ContentsSame(cache: Cache)
    requires forall k <- cache :: cache[k].Value() == old(cache[k].Value())
    ensures Contents(cache) == old(Contents(cache))
  {
  }

  /** The table has grown by one cached object for each message. */
  ghost predicate Merged(before: seq<RouteMessage>, table: seq<RouteMessage>, messages: seq<Message>, cache: Cache)
    reads table
  {
    && before <= table && |table| == |before| + |messages|
    && (forall j :: |before| <= j < |table| ==>
          && table[j].message == messages[j - |before|] && Holds(cache, table[j])
          && table[j].retry == 0 && !table[j].processing && table[j].lastTry.Zero?)
  }

  lemma MergedGrows(first: seq<RouteMessage>, table: seq<RouteMessage>, messages: seq<Message>, i: nat, cache: Cache, rm: RouteMessage)
    requires i < |messages| && Merged(first, table, messages[..i], cache)
    requires rm.Value() == Fresh(messages[i]) && rm.Key() !in cache
    ensures Merged(first, table + [rm], messages[..i + 1], cache[rm.Key() := rm])
    ensures Kept(cache, cache[rm.Key() := rm])
  {
    hide Holds;
    forall j | |first| <= j < |table| ensures Holds(cache[rm.Key() := rm], table[j]) {
      HoldsKept(cache, table[j], rm);
    }
    JustFiled(cache, rm);
  }

  lemma MergedNone(table: seq<RouteMessage>, cache: Cache)
    ensures Merged(table, table, [], cache)
  {
  }

  /** The state is what the run ends in, after the earlier processes. */
  ghost predicate RunsTo(c: Config, born: int, past: seq<Reign>, trace: seq<Label>, s: State) {
    ValidReigns(born, past) && ValidRun(c, Reached(born, past), trace) && s == Final(c, Reached(born, past), trace)
  }

  function CacheObjects(chains: map<Nid, ChainRuntime>): set<MessageCache> {
    set nid | nid in chains :: chains[nid].cache
  }

  function Runtimes(chains: map<Nid, ChainRuntime>): set<ChainRuntime> {
    set nid | nid in chains :: chains[nid]
  }

  ghost function CachesOf(chains: map<Nid, ChainRuntime>): (r: map<Nid, Cache>)
    reads CacheObjects(chains)
    ensures r.Keys == chains.Keys && forall nid <- chains :: r[nid] == chains[nid].cache.messages
  {
    map nid | nid in chains :: chains[nid].cache.messages
  }

  ghost function HeightsOf(chains: map<Nid, ChainRuntime>): (r: map<Nid, uint64>)
    reads Runtimes(chains)
    ensures r.Keys == chains.Keys && forall nid <- chains :: r[nid] == chains[nid].lastBlockHeight
  {
    map nid | nid in chains :: chains[nid].lastBlockHeight
  }

  ghost function WaitsOf(chains: map<Nid, ChainRuntime>): map<Nid, uint64> {
    map nid | nid in chains :: chains[nid].finalityBlock
  }

  class Relayer {
    const db: Lvldb.LVLDB
    const chains: map<Nid, ChainRuntime>
    const messageStore: Stores.MessageStore
    const blockStore: Stores.BlockStore
    const finalityStore: Stores.FinalityStore
    ghost const answers: AnswerLog
    var clock: int
    var goroutines: seq<Goroutine>

    /** Every route message ever created, and the heights the block store holds. */
    ghost var table: seq<RouteMessage>
    ghost var blocks: map<Nid, uint64>
    /** The run of the machine so far, and those of earlier processes that had other chains. */
    ghost const born: int
    ghost const past: seq<Reign>
    ghost var trace: seq<Label>
    ghost var model: State

    constructor (db: Lvldb.LVLDB, chains: map<Nid, ChainRuntime>, clock: int, ghost table: seq<RouteMessage>,
                 ghost blocks: map<Nid, uint64>, ghost born: int, ghost past: seq<Reign>, ghost trace: seq<Label>,
                 ghost model: State, ghost answers: AnswerLog)
      requires forall nid <- chains :: chains[nid].nid == nid && chains[nid].answers == answers
      requires forall a, b :: a in chains && b in chains && a != b ==> chains[a].cache != chains[b].cache
      ensures this.db == db && this.chains == chains && this.clock == clock && goroutines == [] && Wired()
      ensures this.table == table && this.blocks == blocks && this.born == born && this.past == past
      ensures this.trace == trace && this.model == model && this.answers == answers
    {
      this.db := db;
      this.chains := chains;
      this.answers := answers;
      this.clock := clock;
      messageStore := new Stores.MessageStore(db, MESSAGE);
      blockStore := new Stores.BlockStore(db, BLOCK);
      finalityStore := new Stores.FinalityStore(db, FINALITY);
      goroutines := [];
      this.table := table;
      this.blocks := blocks;
      this.born := born;
      this.past := past;
      this.trace := trace;
      this.model := model;
    }

    ghost function Configured(): (c: Config)
      ensures c.finality.Keys == chains.Keys
    {
      Config(map nid | nid in chains :: chains[nid].finalityBlock)
    }

    ghost predicate Wired() {
      && messageStore.db == db && messageStore.prefix == MESSAGE
      && blockStore.db == db && blockStore.prefix == BLOCK
      && finalityStore.db == db && finalityStore.prefix == FINALITY
      && (forall nid <- chains :: chains[nid].nid == nid && chains[nid].answers == answers)
      && (forall a, b :: a in chains && b in chains && a != b ==> chains[a].cache != chains[b].cache)
    }

    predicate Runs(src: ChainRuntime) {
      src.nid in chains && chains[src.nid] == src
    }

    ghost function Holding(): (w: World)
      reads this`table, this`goroutines, this`blocks, this`clock, table, db, CacheObjects(chains), Runtimes(chains)
      ensures w.table == table && w.goroutines == goroutines && w.db == db.db && w.blocks == blocks && w.clock == clock
      ensures w.caches.Keys == w.heights.Keys == chains.Keys
      ensures forall nid <- chains ::
        w.caches[nid] == chains[nid].cache.messages && w.heights[nid] == chains[nid].lastBlockHeight
    {
      World(table, RoutesOf(table), CachesOf(chains), goroutines, db.db, blocks, HeightsOf(chains), clock)
    }

    ghost predicate Valid()
      reads this, table, db, CacheObjects(chains), Runtimes(chains), answers
    {
      && Wired() && RunsTo(Configured(), born, past, trace, model) && Agrees(Configured(), Holding(), model)
      && Vouched(Configured(), model, answers.log, db.writes)
    }

    lemma ModelSound()
      requires RunsTo(Configured(), born, past, trace, model)
      ensures Sound(model)
    {
      hide Enabled, Next, ValidReigns, Reached;
      ReachedLossless(born, past, Configured());
      SoundRun(Configured(), Reached(born, past), trace);
    }

    lemma RuntimeKnown(src: ChainRuntime)
      requires Wired() && Runs(src)
      ensures src.nid in Configured().finality && src.nid in Holding().caches && Holding().caches[src.nid] == src.cache.messages
    {
    }

    ghost method Take(l: Label)
      requires RunsTo(Configured(), born, past, trace, model) && Enabled(Configured(), model, l)
      modifies this`model, this`trace
      ensures RunsTo(Configured(), born, past, trace, model) && model == Next(Configured(), old(model), l) && trace == old(trace) + [l]
      ensures Holding() == old(Holding())
    {
      RunExtend(Configured(), Reached(born, past), trace, l);
      model := Next(Configured(), model, l);
      trace := trace + [l];
      hide RoutesOf;
      NothingChanged();
    }

    /** More has been written since. */
    lemma Grown(writes: seq<Lvldb.Write>)
      requires Vouched(Configured(), model, answers.log, writes) && writes <= db.writes
      ensures Vouched(Configured(), model, answers.log, db.writes)
    {
      LogGrows(Configured(), model, answers.log, answers.log, writes, db.writes);
    }

    /** The heap has changed to stand for s, and the machine follows by step l. */
    ghost method Follow(l: Label, s: State)
      requires Wired() && RunsTo(Configured(), born, past, trace, model) && Agrees(Configured(), Holding(), s)
      requires Takes(Configured(), model, l, s) && Vouched(Configured(), model, answers.log, db.writes) && !Claiming(l)
      modifies this`model, this`trace
      ensures Valid() && model == s && old(trace) <= trace && Holding() == old(Holding())
    {
      hide Agrees, Vouched, Claiming;
      VouchedStep(Configured(), model, l, answers.log, db.writes);
      Take(l);
    }

    ghost method FollowTwo(l: Label, l': Label, s: State)
      requires Wired() && RunsTo(Configured(), born, past, trace, model) && Agrees(Configured(), Holding(), s)
      requires TakesTwo(Configured(), model, l, l', s) && Vouched(Configured(), model, answers.log, db.writes)
      requires !Claiming(l) && !Claiming(l')
      modifies this`model, this`trace
      ensures Valid() && model == s && old(trace) <= trace && Holding() == old(Holding())
    {
      hide Agrees, Vouched, Claiming;
      VouchedStep(Configured(), model, l, answers.log, db.writes);
      VouchedStep(Configured(), Next(Configured(), model, l), l', answers.log, db.writes);
      Take(l);
      Take(l');
    }

    /** The same for a step that claims something, which what is on record backs. */
    ghost method FollowBacked(l: Label, s: State)
      requires Wired() && RunsTo(Configured(), born, past, trace, model) && Agrees(Configured(), Holding(), s)
      requires Takes(Configured(), model, l, s) && Vouched(Configured(), s, answers.log, db.writes)
      modifies this`model, this`trace
      ensures Valid() && model == s && old(trace) <= trace && Holding() == old(Holding())
    {
      hide Agrees, Vouched;
      Take(l);
    }

    ghost method FollowTwoBacked(l: Label, l': Label, s: State)
      requires Wired() && RunsTo(Configured(), born, past, trace, model) && Agrees(Configured(), Holding(), s)
      requires TakesTwo(Configured(), model, l, l', s) && Vouched(Configured(), s, answers.log, db.writes)
      modifies this`model, this`trace
      ensures Valid() && model == s && old(trace) <= trace && Holding() == old(Holding())
    {
      hide Agrees, Vouched;
      Take(l);
      Take(l');
    }

    lemma Parts()
      requires Valid()
      ensures Wired() && RunsTo(Configured(), born, past, trace, model) && KeysOwned(model) && Agrees(Configured(), Holding(), model)
      ensures Holding().table == table && Holding().db == db.db && model.now == clock
      ensures Vouched(Configured(), model, answers.log, db.writes)
    {
      hide Vouched;
      ModelSound();
    }

    // ----- What stays and what changes in the heap

    twostate lemma CachesSame()
      requires forall nid <- chains :: chains[nid].cache.messages == old(chains[nid].cache.messages)
      ensures CachesOf(chains) == old(CachesOf(chains))
    {
    }

    twostate lemma HeightsSame()
      requires forall nid <- chains :: chains[nid].lastBlockHeight == old(chains[nid].lastBlockHeight)
      ensures HeightsOf(chains) == old(HeightsOf(chains))
    {
    }

    twostate lemma NothingChanged()
      requires table == old(table) && goroutines == old(goroutines) && blocks == old(blocks) && clock == old(clock)
      requires db.db == old(db.db) && RoutesOf(table) == old(RoutesOf(table))
      requires forall nid <- chains :: chains[nid].cache.messages == old(chains[nid].cache.messages)
      requires forall nid <- chains :: chains[nid].lastBlockHeight == old(chains[nid].lastBlockHeight)
      ensures Holding() == old(Holding())
    {
      hide RoutesOf, CachesOf, HeightsOf;
      CachesSame();
      HeightsSame();
    }

    twostate lemma TableGrew(r: RouteMessage)
      requires table == old(table) + [r] && RoutesOf(table) == old(RoutesOf(table)) + [r.Value()]
      requires goroutines == old(goroutines) && blocks == old(blocks) && clock == old(clock) && db.db == old(db.db)
      requires forall nid <- chains :: chains[nid].cache.messages == old(chains[nid].cache.messages)
      requires forall nid <- chains :: chains[nid].lastBlockHeight == old(chains[nid].lastBlockHeight)
      ensures Holding() == WithNew(old(Holding()), r, r.Value())
    {
      hide RoutesOf, CachesOf, HeightsOf;
      CachesSame();
      HeightsSame();
    }

    /** Nothing has changed but that more has been asked. */
    twostate lemma Still()
      requires old(Valid()) && trace == old(trace) && model == old(model) && old(answers.log) <= answers.log
      requires db.writes == old(db.writes)
      requires table == old(table) && goroutines == old(goroutines) && blocks == old(blocks) && clock == old(clock)
      requires db.db == old(db.db) && RoutesOf(table) == old(RoutesOf(table))
      requires forall nid <- chains :: chains[nid].cache.messages == old(chains[nid].cache.messages)
      requires forall nid <- chains :: chains[nid].lastBlockHeight == old(chains[nid].lastBlockHeight)
      ensures Valid() && Holding() == old(Holding())
    {
      hide RoutesOf, Holding, Agrees, RunsTo, Vouched;
      NothingChanged();
      LogGrows(Configured(), model, old(answers.log), answers.log, old(db.writes), db.writes);
    }

    /** One cache changed: the map of all caches changed at one place. */
    twostate lemma CacheChanged(src: ChainRuntime)
      requires Wired() && Runs(src)
      requires forall nid <- chains :: chains[nid].cache == src.cache || chains[nid].cache.messages == old(chains[nid].cache.messages)
      ensures CachesOf(chains) == old(CachesOf(chains))[src.nid := src.cache.messages]
    {
    }

    twostate lemma HeightsChanged(src: ChainRuntime)
      requires Wired() && Runs(src)
      requires forall nid <- chains :: chains[nid] == src || chains[nid].lastBlockHeight == old(chains[nid].lastBlockHeight)
      ensures HeightsOf(chains) == old(HeightsOf(chains))[src.nid := src.lastBlockHeight]
    {
    }

    twostate lemma HeightChanged(src: ChainRuntime)
      requires Wired() && Runs(src) && table == old(table) && goroutines == old(goroutines) && blocks == old(blocks)
      requires clock == old(clock) && db.db == old(db.db) && RoutesOf(table) == old(RoutesOf(table))
      requires forall nid <- chains :: chains[nid].cache.messages == old(chains[nid].cache.messages)
      requires forall nid <- chains :: chains[nid] == src || chains[nid].lastBlockHeight == old(chains[nid].lastBlockHeight)
      ensures Holding() == old(Holding()).(heights := old(Holding()).heights[src.nid := src.lastBlockHeight])
    {
      hide RoutesOf, CachesOf, HeightsOf;
      CachesSame();
      HeightsChanged(src);
    }

    twostate lemma CachesKeptAll()
      requires forall nid <- chains :: Kept(old(chains[nid].cache.messages), chains[nid].cache.messages)
      ensures AllKept(old(CachesOf(chains)), CachesOf(chains))
    {
    }

    twostate lemma ClockChanged()
      requires table == old(table) && goroutines == old(goroutines) && blocks == old(blocks)
      requires db.db == old(db.db) && RoutesOf(table) == old(RoutesOf(table))
      requires forall nid <- chains :: chains[nid].cache.messages == old(chains[nid].cache.messages)
      requires forall nid <- chains :: chains[nid].lastBlockHeight == old(chains[nid].lastBlockHeight)
      ensures Holding() == old(Holding()).(clock := clock)
    {
      hide RoutesOf, CachesOf, HeightsOf;
      CachesSame();
      HeightsSame();
    }

    twostate lemma GoroutineAdded()
      requires table == old(table) && blocks == old(blocks) && clock == old(clock)
      requires db.db == old(db.db) && RoutesOf(table) == old(RoutesOf(table))
      requires forall nid <- chains :: chains[nid].cache.messages == old(chains[nid].cache.messages)
      requires forall nid <- chains :: chains[nid].lastBlockHeight == old(chains[nid].lastBlockHeight)
      ensures Holding() == old(Holding()).(goroutines := goroutines)
    {
      hide RoutesOf, CachesOf, HeightsOf;
      CachesSame();
      HeightsSame();
    }

    twostate lemma OneRoute(i: nat)
      requires i < |table| && table == old(table) && goroutines == old(goroutines) && blocks == old(blocks) && clock == old(clock)
      requires db.db == old(db.db)
      requires forall j :: 0 <= j < |table| && j != i ==> table[j].Value() == old(table[j].Value())
      requires forall nid <- chains :: chains[nid].cache.messages == old(chains[nid].cache.messages)
      requires forall nid <- chains :: chains[nid].lastBlockHeight == old(chains[nid].lastBlockHeight)
      ensures i < |old(Holding()).routes| && Holding() == old(Holding()).(routes := old(Holding()).routes[i := table[i].Value()])
    {
      hide RoutesOf, CachesOf, HeightsOf;
      CachesSame();
      HeightsSame();
      RouteChanged(i);
    }

    /** One object changed: the routes changed at one place. */
    twostate lemma RouteChanged(i: nat)
      requires i < |old(table)|
      requires forall j :: 0 <= j < |old(table)| && j != i ==> old(table)[j].Value() == old(table[j].Value())
      ensures RoutesOf(old(table)) == old(RoutesOf(table))[i := old(table)[i].Value()]
    {
    }

    twostate lemma NewFits(new r: RouteMessage)
      requires fresh(r) && fresh(r.sn) && r.sn.value == r.message.sn
      ensures FitsNew(old(Holding()), r, r.Value())
    {
      hide RoutesOf, CachesOf, HeightsOf;
    }

    // ----- Changes of the heap, each stated for all that it holds

    /** A new object enters the table, but no cache. */
    ghost method Enter(rm: RouteMessage)
      modifies this`table
      ensures table == old(table) + [rm] && Holding() == WithNew(old(Holding()), rm, rm.Value())
    {
      hide RoutesOf, CachesOf, HeightsOf;
      table := table + [rm];
      RoutesAppended(old(table), rm);
      TableGrew(rm);
    }

    /** A new object enters the table and a cache. */
    method File(src: ChainRuntime, rm: RouteMessage)
      requires Wired() && Runs(src) && rm !in table
      modifies this`table, src.cache
      ensures table == old(table) + [rm]
      ensures src.nid in old(Holding()).caches
      ensures Holding() == WithCached(old(Holding()), src.nid, rm, rm.Value())
      ensures src.cache.messages == old(src.cache.messages)[rm.Key() := rm]
    {
      hide RoutesOf, CachesOf, HeightsOf;
      src.cache.Add(rm);
      table := table + [rm];
      RoutesAppended(old(table), rm);
      CacheChanged(src);
      HeightsSame();
    }

    method Store(rm: RouteMessage) returns (ok: bool)
      requires Wired()
      modifies db
      ensures Holding() == old(Holding()).(db := PutMessage(old(db.db), rm.Value(), ok))
      ensures db.writes == old(db.writes) + [PutOf(rm.Value(), ok)]
    {
      hide RoutesOf, CachesOf, HeightsOf, ScopedKey;
      ok := messageStore.StoreMessage(Some(rm.Value()));
      CachesSame();
      HeightsSame();
    }

    /** ClearMessages; every caller passes one key. */
    method ClearMessage(key: MessageKey, src: ChainRuntime) returns (ok: bool)
      requires Wired() && Runs(src)
      modifies src.cache, db
      ensures src.nid in old(Holding()).caches
      ensures var w := old(Holding());
        Holding() == w.(caches := w.caches[src.nid := w.caches[src.nid] - {key}],
                        db := DeleteMessage(w.db, StoreKey(key.src, key.sn.value), ok))
      ensures src.cache.messages == old(src.cache.messages) - {key}
      ensures db.writes == old(db.writes) + [DeleteOf(StoreKey(key.src, key.sn.value), ok)]
    {
      hide RoutesOf, CachesOf, HeightsOf, ScopedKey;
      src.cache.Remove(key);
      ok := messageStore.DeleteMessage(key.src, key.sn.value);
      CacheChanged(src);
      HeightsSame();
    }

    method StoreRecord(tx: TxObject) returns (ok: bool)
      requires Wired()
      modifies db
      ensures Holding() == old(Holding()).(db := PutTx(old(db.db), tx, ok))
      ensures db.db == PutTx(old(db.db), tx, ok) && db.writes == old(db.writes) + [PutTxOf(tx, ok)]
    {
      hide RoutesOf, CachesOf, HeightsOf, ScopedKey;
      ok := finalityStore.StoreTxObject(Some(tx));
      CachesSame();
      HeightsSame();
    }

    method DropRecord(tx: TxObject) returns (ok: bool)
      requires Wired()
      modifies db
      ensures Holding() == old(Holding()).(db := DeleteTx(old(db.db), TxStoreKey(tx), ok))
      ensures db.writes == old(db.writes) + [DeleteTxOf(TxStoreKey(tx), ok)]
    {
      hide RoutesOf, CachesOf, HeightsOf, ScopedKey;
      ok := finalityStore.DeleteTxObject(tx.dst, tx.sn);
      CachesSame();
      HeightsSame();
    }

    method RemoveFromCache(m: RouteMessage, src: ChainRuntime)
      requires Wired() && Runs(src)
      modifies src.cache
      ensures src.nid in old(Holding()).caches
      ensures Holding() == old(Holding()).(caches := Drop(old(Holding()).caches, src.nid, m))
      ensures src.cache.messages == old(src.cache.messages) - {m.Key()}
    {
      hide RoutesOf, CachesOf, HeightsOf;
      src.cache.Remove(m.Key());
      CacheChanged(src);
      HeightsSame();
    }

    // ----- Steps the methods below are made of

    /** time.Now(). */
    method Now() returns (now: int)
      requires Valid()
      modifies this`clock, this`model, this`trace
      ensures Valid() && old(trace) <= trace
      ensures now == clock >= old(clock) && model == old(model).(now := now) && Holding() == old(Holding()).(clock := now)
    {
      hide Valid, Agrees, Wired, RunsTo, Holding, RoutesOf, CachesOf, HeightsOf, KeysOwned, Takes, Vouched;
      Parts();
      var elapsed: nat :| true;
      clock := clock + elapsed;
      now := clock;
      ClockChanged();
      StepTick(Configured(), old(Holding()), model, elapsed);
      Follow(In(Tick(elapsed)), model.(now := now));
    }

    /** One observed message: cached and stored. */
    method CacheAndStore(src: ChainRuntime, msg: Message) returns (rm: RouteMessage, ok: bool)
      requires Valid() && Runs(src)
      modifies this`table, this`model, this`trace, src.cache, db
      ensures Valid() && old(trace) <= trace && model == DoObserve(old(model), src.nid, msg, ok)
      ensures fresh(rm) && rm.Value() == Fresh(msg) && table == old(table) + [rm]
      ensures rm.Key() !in old(src.cache.messages)
      ensures src.cache.messages == old(src.cache.messages)[rm.Key() := rm]
      ensures db.db == PutMessage(old(db.db), Fresh(msg), ok) && db.writes == old(db.writes) + [PutOf(Fresh(msg), ok)]
    {
      hide Valid, Agrees, Wired, RunsTo, Holding, RoutesOf, CachesOf, HeightsOf, KeysOwned, FitsNew, Takes, TakesTwo, Vouched, PutOf;
      Parts();
      RuntimeKnown(src);
      rm, ok := FileAndStore(src, msg);
      Grown(old(db.writes));
      StepObserve(Configured(), old(Holding()), model, src.nid, msg, ok, rm);
      VouchObserved(Configured(), model, src.nid, msg, ok, answers.log, db.writes);
      FollowBacked(In(Observe(src.nid, msg, ok)), DoObserve(model, src.nid, msg, ok));
    }

    method FileAndStore(src: ChainRuntime, msg: Message) returns (rm: RouteMessage, ok: bool)
      requires Wired() && Runs(src)
      modifies this`table, src.cache, db
      ensures fresh(rm) && rm.Value() == Fresh(msg) && table == old(table) + [rm] && FitsNew(old(Holding()), rm, Fresh(msg))
      ensures src.nid in old(Holding()).caches
      ensures Holding() == WithCached(old(Holding()), src.nid, rm, Fresh(msg)).(db := PutMessage(old(db.db), Fresh(msg), ok))
      ensures src.cache.messages == old(src.cache.messages)[rm.Key() := rm]
      ensures db.db == PutMessage(old(db.db), Fresh(msg), ok) && db.writes == old(db.writes) + [PutOf(Fresh(msg), ok)]
    {
      hide Holding, RoutesOf, CachesOf, HeightsOf, FitsNew, Wired, PutMessage, PutOf;
      rm := MakeAndFile(src, msg);
      ok := Store(rm);
    }

    /** A stored message is decoded and its copy cached. */
    method CacheCopy(src: ChainRuntime, route: Route, ghost key: StoreKey, ghost purpose: Purpose) returns (copy: RouteMessage)
      requires Valid() && Runs(src) && key in model.messages && model.messages[key] == route
      requires !purpose.ForExpiry? && (purpose.ForFlush? ==> !IsStale(route))
      modifies this`table, this`model, this`trace, src.cache
      ensures Valid() && old(trace) <= trace && model == CopyFiled(old(model), src.nid, key, purpose)
      ensures fresh(copy) && copy.Value() == route && table == old(table) + [copy]
      ensures copy.Key() !in old(src.cache.messages)
      ensures src.cache.messages == old(src.cache.messages)[copy.Key() := copy]
    {
      hide Valid, Agrees, Wired, RunsTo, Holding, RoutesOf, CachesOf, HeightsOf, KeysOwned, FitsNew, Takes, TakesTwo, Vouched, Configured, CopyFiled;
      Parts();
      RuntimeKnown(src);
      copy := DecodeAndFile(src, route);
      StepCopy(Configured(), old(Holding()), model, src.nid, key, purpose, copy);
      FollowTwo(In(Read(src.nid, key, purpose)), In(Merge(|model.objs|)), CopyFiled(model, src.nid, key, purpose));
    }

    method DecodeAndFile(src: ChainRuntime, route: Route) returns (copy: RouteMessage)
      requires Wired() && Runs(src)
      modifies this`table, src.cache
      ensures fresh(copy) && copy.Value() == route && table == old(table) + [copy] && FitsNew(old(Holding()), copy, route)
      ensures src.nid in old(Holding()).caches && Holding() == WithCached(old(Holding()), src.nid, copy, route)
      ensures src.cache.messages == old(src.cache.messages)[copy.Key() := copy]
    {
      hide Holding, RoutesOf, CachesOf, HeightsOf, FitsNew, Wired;
      copy := Decode(route);
      NothingChanged();
      NewFits(copy);
      File(src, copy);
    }

    /** A stored message is decoded and, being expired, cleared. Its copy is in no cache. */
    method ExpireCopy(src: ChainRuntime, route: Route, ghost key: StoreKey) returns (ok: bool)
      requires Valid() && Runs(src) && key in model.messages && model.messages[key] == route
      requires IsElapsed(route, MESSAGE_EXPIRATION, model.now)
      modifies this`table, this`model, this`trace, src.cache, db
      ensures Valid() && old(trace) <= trace && model == CopyExpired(old(model), src.nid, key, ok)
      ensures src.cache.messages == old(src.cache.messages) && old(table) <= table
      ensures db.db == DeleteMessage(old(db.db), key, ok) && db.writes == old(db.writes) + [DeleteOf(key, ok)]
    {
      hide Valid, Agrees, Wired, RunsTo, Holding, RoutesOf, CachesOf, HeightsOf, KeysOwned, FitsNew, Takes, TakesTwo, Vouched, DeleteMessage, DeleteOf, CopyExpired, IsElapsed, Configured;
      Parts();
      RuntimeKnown(src);
      ghost var copy;
      ok, copy := DecodeAndClear(src, route);
      Grown(old(db.writes));
      StepExpire(Configured(), old(Holding()), model, src.nid, key, ok, copy);
      FollowTwo(In(Read(src.nid, key, ForExpiry)), In(Expire(|model.objs|, ok)), CopyExpired(model, src.nid, key, ok));
    }

    method DecodeAndClear(src: ChainRuntime, route: Route) returns (ok: bool, ghost copy: RouteMessage)
      requires Wired() && Runs(src)
      modifies this`table, src.cache, db
      ensures table == old(table) + [copy] && FitsNew(old(Holding()), copy, route)
      ensures var w := WithNew(old(Holding()), copy, route);
        src.nid in w.caches &&
        Holding() == w.(caches := w.caches[src.nid := w.caches[src.nid] - {copy.Key()}],
                        db := DeleteMessage(w.db, MessageStoreKey(route.msg), ok))
      ensures src.cache.messages == old(src.cache.messages) - {copy.Key()}
      ensures db.db == DeleteMessage(old(db.db), MessageStoreKey(route.msg), ok)
      ensures db.writes == old(db.writes) + [DeleteOf(MessageStoreKey(route.msg), ok)]
    {
      hide Holding, RoutesOf, CachesOf, HeightsOf, FitsNew, Wired, DeleteMessage, DeleteOf;
      var rm := Decode(route);
      NothingChanged();
      NewFits(rm);
      Enter(rm);
      ok := ClearMessage(rm.Key(), src);
      copy := rm;
    }

    // ----- Blocks and heights

    /** The height is noted, and each message of the block is cached under a key of its own and
        written to the store, in order; what was cached before stays. `oks` says which writes succeeded. */
    method ProcessBlockInfo(src: ChainRuntime, height: uint64, messages: seq<Message>) returns (ghost oks: seq<bool>)
      requires Valid() && Runs(src)
      modifies this`table, this`model, this`trace, src`lastBlockHeight, src.cache, db
      ensures Valid() && old(trace) <= trace
      ensures src.lastBlockHeight == height
      ensures model.observed == old(model.observed) + (set m <- messages) && model.router == old(model.router)
      ensures Merged(old(table), table, messages, src.cache.messages)
      ensures Kept(old(src.cache.messages), src.cache.messages)
      ensures BlockWritten(messages, oks, old(db.db), db.db, old(db.writes), db.writes)
      ensures old(table) <= table && forall j :: |old(table)| <= j < |table| ==> fresh(table[j])
    {
      hide Valid, Merged, Kept, Mark, Collided, Own, AfterPut, NewEntry, Filed, PutMessage, BlockWritten;
      MergedNone(table, src.cache.messages);
      KeptAtFirst(src.cache.messages);
      NoneWritten(db.db, db.writes);
      NoteHeight(src, height);
      ghost var before := src.cache.messages;
      oks := [];
      for i := 0 to |messages|
        invariant Valid() && old(trace) <= trace && src.lastBlockHeight == height
        invariant model.observed == old(model.observed) + (set m <- messages[..i]) && model.router == old(model.router)
        invariant Merged(old(table), table, messages[..i], src.cache.messages)
        invariant Kept(before, src.cache.messages)
        invariant BlockWritten(messages[..i], oks, old(db.db), db.db, old(db.writes), db.writes)
        invariant old(table) <= table && forall j :: |old(table)| <= j < |table| ==> fresh(table[j])
      {
        ghost var cached := src.cache.messages;
        oks := ObserveNext(src, messages, i, old(table), oks, old(db.db), old(db.writes));
        KeptOn(before, cached, src.cache.messages);
        assert messages[..i + 1] == messages[..i] + [messages[i]];
      }
      assert messages[..|messages|] == messages;
    }

    method ObserveNext(src: ChainRuntime, messages: seq<Message>, i: nat, ghost first: seq<RouteMessage>, ghost oks: seq<bool>,
                       ghost stored: map<string, Lvldb.Value>, ghost writes: seq<Lvldb.Write>) returns (ghost oks': seq<bool>)
      requires Valid() && Runs(src) && i < |messages| && Merged(first, table, messages[..i], src.cache.messages)
      requires BlockWritten(messages[..i], oks, stored, db.db, writes, db.writes)
      modifies this`table, this`model, this`trace, src.cache, db
      ensures Valid() && old(trace) <= trace && model.observed == old(model.observed) + {messages[i]} && model.router == old(model.router)
      ensures Merged(first, table, messages[..i + 1], src.cache.messages)
      ensures Kept(old(src.cache.messages), src.cache.messages)
      ensures BlockWritten(messages[..i + 1], oks', stored, db.db, writes, db.writes)
      ensures |table| == |old(table)| + 1 && old(table) <= table && fresh(table[|old(table)|])
    {
      hide Valid, Merged, Kept, Mark, Collided, Own, AfterPut, NewEntry, Filed, PutMessage, BlockWritten, PutOf;
      var rm, ok := CacheAndStore(src, messages[i]);
      MergedGrows(first, old(table), messages, i, old(src.cache.messages), rm);
      OneWritten(messages, i, oks, stored, old(db.db), writes, old(db.writes), ok);
      oks' := oks + [ok];
    }

    method NoteHeight(src: ChainRuntime, height: uint64)
      requires Valid() && Runs(src)
      modifies this`model, this`trace, src`lastBlockHeight
      ensures Valid() && old(trace) <= trace && src.lastBlockHeight == height
      ensures model == old(model).(heights := old(model.heights)[src.nid := height])
    {
      hide Valid, Agrees, Wired, RunsTo, Holding, RoutesOf, CachesOf, HeightsOf, KeysOwned, FitsNew, Takes, TakesTwo, Vouched;
      Parts();
      src.lastBlockHeight := height;
      HeightChanged(src);
      StepHeight(Configured(), old(Holding()), model, src.nid, height);
      Follow(In(NewHeight(src.nid, height)), model.(heights := model.heights[src.nid := height]));
    }

    // ----- Flushing and expiring

    /** The non-stale ones among the messages the limited scan visits. */
    method GetActiveMessagesFromStore(nid: Nid, maxMessages: nat) returns (active: Option<seq<Route>>)
      requires Valid()
      ensures Valid()
      ensures var scanned := Scanned(db.db, nid, maxMessages);
        active == if Stores.AllMessages(scanned) then Some(NotStale(Stores.Routes(scanned))) else None
    {
      hide Valid, Lvldb.Entries, Stores.Routes, Stores.AllMessages;
      var msgs := ScanMessages(nid, maxMessages);
      if msgs.None? { return None; }
      var found: seq<Route> := [];
      for i := 0 to |msgs.value|
        invariant found == NotStale(msgs.value[..i])
      {
        assert msgs.value[..i + 1][..i] == msgs.value[..i];
        if !IsStale(msgs.value[i]) {
          found := found + [msgs.value[i]];
        }
      }
      assert msgs.value[..|msgs.value|] == msgs.value;
      active := Some(found);
    }

    method FlushMessages()
      requires Valid()
      modifies this`table, this`model, this`trace, CacheObjects(chains)
      ensures Valid() && old(trace) <= trace && old(table) <= table
      ensures model.messages == old(model.messages) && model.txs == old(model.txs) && model.observed == old(model.observed)
      ensures FlushedAll(old(ContentsOf(chains)), ContentsOf(chains), db.db, {})
    {
      hide Valid, FlushedAll, ContentsOf;
      var todo := chains.Keys;
      NoneFlushedYet(ContentsOf(chains), db.db);
      while todo != {}
        invariant Valid() && old(trace) <= trace && old(table) <= table && todo <= chains.Keys
        invariant model.messages == old(model.messages) && model.txs == old(model.txs) && model.observed == old(model.observed)
        invariant FlushedAll(old(ContentsOf(chains)), ContentsOf(chains), db.db, todo)
      {
        var nid :| nid in todo;
        FlushNamed(nid, old(ContentsOf(chains)), todo);
        todo := todo - {nid};
      }
    }

    method FlushNamed(nid: Nid, ghost before: map<Nid, map<MessageKey, Route>>, ghost todo: set<Nid>)
      requires Valid() && nid in chains && nid in todo && FlushedAll(before, ContentsOf(chains), db.db, todo)
      modifies this`table, this`model, this`trace, CacheObjects(chains)
      ensures Valid() && old(trace) <= trace && old(table) <= table
      ensures model.messages == old(model.messages) && model.txs == old(model.txs) && model.observed == old(model.observed)
      ensures FlushedAll(before, ContentsOf(chains), db.db, todo - {nid})
    {
      hide Valid, Flushed, FlushedAll, Contents, ToFlush;
      EachWired();
      FlushChain(chains[nid]);
      forall n | n in chains && n != nid
        ensures Contents(chains[n].cache.messages) == old(Contents(chains[n].cache.messages))
      {
        ContentsSame(chains[n].cache.messages);
      }
      assert ContentsOf(chains) == old(ContentsOf(chains))[nid := Contents(chains[nid].cache.messages)];
      FlushedOne(before, old(ContentsOf(chains)), db.db, todo, nid, Contents(chains[nid].cache.messages));
    }

    lemma RuntimeAt(nid: Nid)
      requires Valid() && nid in chains
      ensures Runs(chains[nid]) && chains[nid].nid == nid
    {
    }

    lemma EachWired()
      requires Valid()
      ensures forall nid <- chains :: Runs(chains[nid])
      ensures forall a, b :: a in chains && b in chains && a != b ==> chains[a].cache != chains[b].cache
    {
    }

    /** The part of FlushMessages for one chain. */
    method FlushChain(src: ChainRuntime)
      requires Valid() && Runs(src)
      modifies this`table, this`model, this`trace, src.cache
      ensures Valid() && old(trace) <= trace && old(table) <= table
      ensures model.messages == old(model.messages) && model.txs == old(model.txs) && model.observed == old(model.observed)
      ensures Flushed(old(Contents(src.cache.messages)), Contents(src.cache.messages), ToFlush(db.db, src.nid))
    {
      hide Valid, Flushed, Contents, NotStale, Stores.Routes, Stores.AllMessages, Lvldb.Entries;
      NoneFlushed(Contents(src.cache.messages));
      StoredToFlush(src.nid);
      var active := GetActiveMessagesFromStore(src.nid, MAX_FLUSH_MESSAGE);
      if active.None? { return; }
      for i := 0 to |active.value|
        invariant Valid() && old(trace) <= trace && old(table) <= table
        invariant model.messages == old(model.messages) && model.txs == old(model.txs) && model.observed == old(model.observed)
        invariant Flushed(old(Contents(src.cache.messages)), Contents(src.cache.messages), active.value[..i])
      {
        assert active.value[i] in active.value;
        FlushNext(src, active.value, i, old(Contents(src.cache.messages)));
      }
      assert active.value[..|active.value|] == active.value;
    }

    method FlushNext(src: ChainRuntime, routes: seq<Route>, i: nat, ghost before: map<MessageKey, Route>)
      requires Valid() && Runs(src) && i < |routes| && FromStore(routes[i], model.messages)
      requires Flushed(before, Contents(src.cache.messages), routes[..i])
      modifies this`table, this`model, this`trace, src.cache
      ensures Valid() && old(trace) <= trace && old(table) <= table
      ensures model.messages == old(model.messages) && model.txs == old(model.txs) && model.observed == old(model.observed)
      ensures Flushed(before, Contents(src.cache.messages), routes[..i + 1])
    {
      hide Valid, Flushed, Contents;
      var copy := CacheCopy(src, routes[i], MessageStoreKey(routes[i].msg), ForFlush);
      ContentsSame(old(src.cache.messages));
      ContentsGrow(old(src.cache.messages), copy);
      FlushedGrows(before, old(Contents(src.cache.messages)), routes, i, copy.Key());
    }

    /** What a flush copies is in the store and not stale, and it is at most ten messages. */
    lemma StoredToFlush(nid: Nid)
      requires Valid()
      ensures |ToFlush(db.db, nid)| <= 10
      ensures forall route <- ToFlush(db.db, nid) :: FromStore(route, model.messages)
    {
      ScanHeld(nid, MAX_FLUSH_MESSAGE);
      hide Valid, NotStale, Held, FromStore, Lvldb.Entries, Stores.Routes, Stores.AllMessages;
      if Stores.AllMessages(Scanned(db.db, nid, MAX_FLUSH_MESSAGE)) {
        ActiveHeld(Stores.Routes(Scanned(db.db, nid, MAX_FLUSH_MESSAGE)), model.messages);
      }
    }

    /** The messages of a chain that a restart has left out wait in the store: no flush takes them. */
    lemma GoneChainWaits(route: Route)
      requires Valid() && route.msg.src !in chains
      requires forall nid <- chains :: Unambiguous(View(model.messages, model.txs, blocks), nid)
      ensures forall nid <- chains :: route !in ToFlush(db.db, nid)
    {
      hide RunsTo, Wired, Distinct, ObjectsAgree, CachesAgree, GoroutinesAgree, HeightsAgree, Vouched, Represents, Unambiguous, ToFlush;
      forall nid | nid in chains ensures route !in ToFlush(db.db, nid) {
        if route in ToFlush(db.db, nid) { OnlyOwnChain(db.db, View(model.messages, model.txs, blocks), nid, route); }
      }
    }

    /** So do the records of deliveries to it: no pass looks at them. */
    lemma GoneRecordWaits(tx: TxObject)
      requires Valid() && tx.dst !in chains
      requires forall nid <- chains :: UnambiguousTxs(View(model.messages, model.txs, blocks), nid)
      ensures forall nid <- chains :: Stores.AllTxs(ScannedTxs(db.db, nid, 10)) ==> tx !in Stores.Txs(ScannedTxs(db.db, nid, 10))
    {
      hide RunsTo, Wired, Distinct, ObjectsAgree, CachesAgree, GoroutinesAgree, HeightsAgree, Vouched, Represents, UnambiguousTxs;
      hide ScannedTxs, Stores.Txs, Stores.AllTxs;
      forall nid | nid in chains && Stores.AllTxs(ScannedTxs(db.db, nid, 10))
        ensures tx !in Stores.Txs(ScannedTxs(db.db, nid, 10))
      {
        if tx in Stores.Txs(ScannedTxs(db.db, nid, 10)) {
          OnlyOwnScanned(db.db, View(model.messages, model.txs, blocks), nid, 10, tx);
        }
      }
    }

    /** Only the message store shrinks, and only by messages whose last try is more than a day ago
        or that were never tried. Each chain has one turn, and the writes made are those of the turns. */
    method CleanExpiredMessages() returns (ghost sweeps: seq<Sweep>)
      requires Valid()
      modifies this`clock, this`table, this`model, this`trace, CacheObjects(chains), db
      ensures Valid() && old(trace) <= trace && old(table) <= table
      ensures model.txs == old(model.txs) && OnlyExpiredLeft(old(model.messages), model.messages, clock)
      ensures forall nid <- chains :: chains[nid].cache.messages == old(chains[nid].cache.messages)
      ensures CleanedUp(sweeps, chains.Keys, clock, old(db.db), db.db, old(db.writes), db.writes)
    {
      hide Valid, OnlyExpiredLeft, Expunged, ScannedRoutes, CleanedUp;
      EachWired();
      NoneLeft(model.messages, clock);
      NoneCleaned(clock, db.db, db.writes);
      sweeps := [];
      var todo := chains.Keys;
      assert chains.Keys - todo == {};
      while todo != {}
        invariant Valid() && old(trace) <= trace && old(table) <= table && todo <= chains.Keys
        invariant model.txs == old(model.txs) && OnlyExpiredLeft(old(model.messages), model.messages, clock)
        invariant forall nid <- chains :: chains[nid].cache.messages == old(chains[nid].cache.messages)
        invariant CleanedUp(sweeps, chains.Keys - todo, clock, old(db.db), db.db, old(db.writes), db.writes)
      {
        var nid :| nid in todo;
        assert chains.Keys - (todo - {nid}) == chains.Keys - todo + {nid};
        sweeps := CleanNext(nid, sweeps, chains.Keys - todo, old(model.messages), old(db.db), old(db.writes));
        todo := todo - {nid};
      }
      assert chains.Keys - {} == chains.Keys;
    }

    method CleanNext(nid: Nid, ghost sweeps: seq<Sweep>, ghost done: set<Nid>, ghost first: map<StoreKey, Route>,
                     ghost stored: map<string, Lvldb.Value>, ghost writes: seq<Lvldb.Write>) returns (ghost sweeps': seq<Sweep>)
      requires Valid() && nid in chains && nid !in done && OnlyExpiredLeft(first, model.messages, clock)
      requires CleanedUp(sweeps, done, clock, stored, db.db, writes, db.writes)
      modifies this`clock, this`table, this`model, this`trace, chains[nid].cache, db
      ensures Valid() && old(trace) <= trace && old(table) <= table
      ensures model.txs == old(model.txs) && OnlyExpiredLeft(first, model.messages, clock)
      ensures chains[nid].cache.messages == old(chains[nid].cache.messages)
      ensures CleanedUp(sweeps', done + {nid}, clock, stored, db.db, writes, db.writes)
    {
      hide Valid, OnlyExpiredLeft, Expunged, ScannedRoutes, CleanedUp;
      RuntimeAt(nid);
      ghost var tries := CleanExpiredChain(chains[nid]);
      ExpiryComposes(first, old(model.messages), model.messages, old(clock), clock);
      OneCleaned(sweeps, done, nid, old(clock), clock, tries, old(model.messages), model.messages, stored, old(db.db), db.db,
                 writes, old(db.writes), db.writes);
      sweeps' := sweeps + [Sweep(nid, old(clock), tries)];
    }

    /** The part of CleanExpiredMessages for one chain. A delete is tried, in order, for those of the first
        ten messages of the scan that have expired when it comes to them, and those it succeeds for are gone,
        nothing else. */
    method CleanExpiredChain(src: ChainRuntime) returns (ghost tries: seq<Option<bool>>)
      requires Valid() && Runs(src)
      modifies this`clock, this`table, this`model, this`trace, src.cache, db
      ensures Valid() && old(trace) <= trace && old(table) <= table && old(clock) <= clock
      ensures model.txs == old(model.txs) && OnlyExpiredLeft(old(model.messages), model.messages, clock)
      ensures src.cache.messages == old(src.cache.messages)
      ensures Expunged(ScannedRoutes(old(db.db), src.nid, 10), old(clock), clock, tries,
                       old(model.messages), model.messages, old(db.db), db.db, old(db.writes), db.writes)
    {
      hide Valid, Stores.Routes, Stores.AllMessages, Lvldb.Entries, Held, OnlyExpiredLeft, Expunged;
      ScanHeld(src.nid, MAX_FLUSH_MESSAGE);
      NoneLeft(model.messages, clock);
      tries := [];
      ExpungedNone(clock, model.messages, db.db, db.writes);
      var messages := ScanMessages(src.nid, MAX_FLUSH_MESSAGE);
      if messages.None? { return; }
      for i := 0 to |messages.value|
        invariant Valid() && old(trace) <= trace && old(table) <= table && old(clock) <= clock
        invariant model.txs == old(model.txs) && OnlyExpiredLeft(old(model.messages), model.messages, clock)
        invariant src.cache.messages == old(src.cache.messages)
        invariant Held(messages.value[i..], model.messages)
        invariant Expunged(messages.value[..i], old(clock), clock, tries, old(model.messages), model.messages,
                           old(db.db), db.db, old(db.writes), db.writes)
      {
        tries := ExpireNext(src, messages.value, i, tries, old(model.messages), old(clock), old(db.db), old(db.writes));
      }
      assert messages.value[..|messages.value|] == messages.value;
    }

    method ExpireNext(src: ChainRuntime, messages: seq<Route>, i: nat, ghost tries: seq<Option<bool>>, ghost first: map<StoreKey, Route>,
                      ghost start: int, ghost stored: map<string, Lvldb.Value>, ghost writes: seq<Lvldb.Write>)
      returns (ghost tries': seq<Option<bool>>)
      requires Valid() && Runs(src) && i < |messages| && Held(messages[i..], model.messages) && OnlyExpiredLeft(first, model.messages, clock)
      requires Expunged(messages[..i], start, clock, tries, first, model.messages, stored, db.db, writes, db.writes)
      modifies this`clock, this`table, this`model, this`trace, src.cache, db
      ensures Valid() && old(trace) <= trace && old(table) <= table && old(clock) <= clock
      ensures model.txs == old(model.txs) && src.cache.messages == old(src.cache.messages)
      ensures Held(messages[i + 1..], model.messages) && OnlyExpiredLeft(first, model.messages, clock)
      ensures Expunged(messages[..i + 1], start, clock, tries', first, model.messages, stored, db.db, writes, db.writes)
    {
      hide Valid, Held, OnlyExpiredLeft, Expunged, WithoutIf, DeleteIf;
      var tried := ExpireIfElapsed(src, messages[i..]);
      assert messages[i..][1..] == messages[i + 1..];
      ExpungedOne(messages, i, start, old(clock), clock, tries, tried, first, old(model.messages), stored, old(db.db), writes, old(db.writes));
      ExpiryComposes(first, old(model.messages), model.messages, old(clock), clock);
      tries' := tries + [tried];
    }

    /** The first of the messages still to look at: whether its delete is tried, and how that goes. */
    method ExpireIfElapsed(src: ChainRuntime, messages: seq<Route>) returns (tried: Option<bool>)
      requires Valid() && Runs(src) && messages != [] && Held(messages, model.messages)
      modifies this`clock, this`table, this`model, this`trace, src.cache, db
      ensures Valid() && old(trace) <= trace && old(table) <= table && old(clock) <= clock
      ensures model.txs == old(model.txs) && OnlyExpiredLeft(old(model.messages), model.messages, clock)
      ensures tried.Some? <==> messages[0].lastTry.Zero? || messages[0].lastTry.ns + 86_400_000_000_000 < clock
      ensures model.messages == WithoutIf(old(model.messages), messages[0], tried)
      ensures db.db == Lvldb.Replay(old(db.db), DeleteIf(messages[0], tried)) && db.writes == old(db.writes) + DeleteIf(messages[0], tried)
      ensures Held(messages[1..], model.messages)
      ensures src.cache.messages == old(src.cache.messages)
    {
      hide Valid, Held, OnlyExpiredLeft, DeleteMessage, DeleteOf, Lvldb.Replay;
      FirstHeld(messages, model.messages);
      var now := Now();
      tried := None;
      if IsElapsed(messages[0], MESSAGE_EXPIRATION, now) {
        var ok := ExpireCopy(src, messages[0], MessageStoreKey(messages[0].msg));
        tried := Some(ok);
      }
      ReplayDelete(old(db.db), messages[0], tried);
      OneExpired(messages, old(model.messages), tried, clock);
    }

    method ScanMessages(nid: Nid, limit: nat) returns (messages: Option<seq<Route>>)
      requires Valid()
      ensures Valid()
      ensures var scanned := Scanned(db.db, nid, limit);
        messages == if Stores.AllMessages(scanned) then Some(Stores.Routes(scanned)) else None
    {
      hide Lvldb.Entries, GetKey, Stores.Routes, Stores.AllMessages, RoutesOf, Holding, Agrees, RunsTo;
      messages := messageStore.GetMessages(nid, limit);
      NothingChanged();
    }

    lemma ScanHeld(nid: Nid, limit: nat)
      requires Valid()
      ensures Stores.AllMessages(Scanned(db.db, nid, limit)) ==> Held(Stores.Routes(Scanned(db.db, nid, limit)), model.messages)
      ensures |Scanned(db.db, nid, limit)| <= limit || limit == 0
    {
      hide Represents, Held, RunsTo, Wired, Distinct, ObjectsAgree, CachesAgree, GoroutinesAgree, HeightsAgree;
      if Stores.AllMessages(Scanned(db.db, nid, limit)) {
        ScannedHeld(db.db, View(model.messages, model.txs, blocks), nid, limit);
      }
    }

    // ----- Routing

    /** What the machine knows of an object is what the object holds. */
    lemma Known(i: nat)
      requires Valid() && i < |table|
      ensures |table| == |model.objs| && table[i].Value() == model.objs[i].route && model.objs[i].home in chains
      ensures table[i].message == model.objs[i].route.msg && table[i].sn.value == table[i].message.sn
      ensures forall j :: 0 <= j < |table| && j != i ==> table[j] != table[i]
    {
      hide RunsTo, Wired, CachesAgree, GoroutinesAgree, Represents, HeightsAgree;
      assert Holding().routes == RoutesOf(table);
      ObjectsCountedIn(Configured(), Holding(), model);
    }

    lemma TableDistinct()
      requires Valid()
      ensures forall i, j :: 0 <= i < j < |table| ==> table[i] != table[j]
    {
      hide RunsTo, Wired, ObjectsAgree, CachesAgree, GoroutinesAgree, Represents, HeightsAgree;
    }

    /** The mark of one object is flipped. */
    method Toggle(m: RouteMessage, ghost i: nat, ghost l: Label, ghost s: State)
      requires Valid() && i < |table| && table[i] == m
      requires Takes(Configured(), model, l, s) && OnlyRoute(model, i, ToggleProcessing(m.Value()), s) && !Claiming(l)
      modifies this`model, this`trace, m`processing
      ensures Valid() && old(trace) <= trace && model == s && m.Value() == ToggleProcessing(old(m.Value()))
    {
      hide Valid, Agrees, Wired, RunsTo, Holding, RoutesOf, CachesOf, HeightsOf, KeysOwned, Takes, TakesTwo, Vouched, OnlyRoute, OnlyCleared;
      Parts();
      Known(i);
      m.ToggleProcessing();
      OneRoute(i);
      StepRoute(Configured(), old(Holding()), model, i, m.Value(), s);
      Follow(l, s);
    }

    /** An object is cleared from its cache and its message from the store, by the router. */
    method ClearRouted(m: RouteMessage, src: ChainRuntime, known: bool, ghost i: nat) returns (ok: bool)
      requires Valid() && Runs(src) && i < |table| && table[i] == m && model.objs[i].home == src.nid
      requires if known then model.router == Querying(i) else CanRouter(Configured(), model, PickUnknown(i))
      requires known ==> Received(m.message.dst, m.Key(), Some(true)) in answers.log
      modifies this`model, this`trace, src.cache, db
      ensures Valid() && old(trace) <= trace && src.cache.messages == old(src.cache.messages) - {m.Key()}
      ensures db.db == DeleteMessage(old(db.db), MessageStoreKey(m.message), ok)
      ensures db.writes == old(db.writes) + [DeleteOf(MessageStoreKey(m.message), ok)]
      ensures model == if known then ReceivedCleared(old(model), i, ok) else UnknownCleared(old(model), i, ok)
    {
      hide Valid, Agrees, Wired, RunsTo, Holding, RoutesOf, CachesOf, HeightsOf, KeysOwned, Takes, TakesTwo, Vouched, OnlyRoute, OnlyCleared, CanRouter, DeleteMessage, DeleteOf, ReceivedCleared, UnknownCleared;
      Parts();
      Known(i);
      ok := ClearMessage(m.Key(), src);
      Grown(old(db.writes));
      if known {
        ReceivedStep(Configured(), model, i, ok);
        StepClear(Configured(), old(Holding()), model, i, ok, ReceivedCleared(model, i, ok));
        VouchReceived(Configured(), model, i, ok, answers.log, db.writes, Received(m.message.dst, m.Key(), Some(true)));
        FollowTwoBacked(Routed(QueryReceived), Routed(RouterDelete(ok)), ReceivedCleared(model, i, ok));
      } else {
        UnknownStep(Configured(), model, i, ok);
        StepClear(Configured(), old(Holding()), model, i, ok, UnknownCleared(model, i, ok));
        FollowTwo(Routed(PickUnknown(i)), Routed(RouterDelete(ok)), UnknownCleared(model, i, ok));
      }
    }

    method Spawn(m: RouteMessage, dst: ChainRuntime, src: ChainRuntime, ghost i: nat)
      requires Valid() && Runs(src) && Runs(dst) && dst.nid == m.message.dst
      requires i < |table| && table[i] == m && model.objs[i].home == src.nid && model.router == Querying(i)
      modifies this`model, this`trace, this`goroutines
      ensures Valid() && old(trace) <= trace && model == DoQueryMissing(old(model), i)
      ensures goroutines == old(goroutines) + [Goroutine(m, dst.nid, src.nid)]
    {
      hide Valid, Agrees, Wired, RunsTo, Holding, RoutesOf, CachesOf, HeightsOf, KeysOwned, Takes, TakesTwo, Vouched, OnlyRoute, OnlyCleared;
      Parts();
      Known(i);
      RuntimeKnown(dst);
      goroutines := goroutines + [Goroutine(m, dst.nid, src.nid)];
      GoroutineAdded();
      MissingStep(Configured(), old(Holding()), model, i);
      Follow(Routed(QueryMissing), DoQueryMissing(model, i));
    }

    /** The runtimes of a relayer share its record of answers. */
    lemma Recorded(c: ChainRuntime)
      requires Valid() && Runs(c)
      ensures c.answers == answers
    {
    }

    /** The destination's answer about a picked message. */
    method AskReceived(m: RouteMessage, dst: ChainRuntime) returns (answer: Option<bool>)
      requires Valid() && Runs(dst)
      modifies answers
      ensures Valid() && answers.log == old(answers.log) + [Received(dst.nid, m.Key(), answer)]
    {
      hide Valid, RoutesOf;
      Recorded(dst);
      answer := dst.MessageReceived(m.Key());
      Still();
    }

    /** shouldSendMessage: not already processing or waiting, and both providers agree. */
    method ShouldSendMessage(m: RouteMessage, dst: ChainRuntime, src: ChainRuntime) returns (yes: bool, ghost asked: seq<Asked>)
      requires Valid() && Runs(dst) && Runs(src) && dst.nid == m.message.dst
      modifies this`clock, this`model, this`trace, answers
      ensures Valid() && old(trace) <= trace && old(clock) <= clock && model == old(model).(now := clock)
      ensures answers.log == old(answers.log) + asked
      ensures if m.processing || (m.lastTry.At? && clock <= m.lastTry.ns) then !yes && asked == []
              else Consulted(asked, m.message, src.nid, yes)
      ensures asked != [] ==>
        && asked[0].ShouldReceive? && asked[0].nid == m.message.dst && asked[0].m == m.message
        && if asked[0].yes then |asked| == 2 && asked[1] == ShouldSend(src.nid, m.message, yes) else |asked| == 1 && !yes
    {
      hide Valid;
      var now := Now();
      yes, asked := false, [];
      if !IsProcessing(m.Value(), now) {
        yes, asked := AskProviders(m, dst, src);
      }
    }

    method AskProviders(m: RouteMessage, dst: ChainRuntime, src: ChainRuntime) returns (yes: bool, ghost asked: seq<Asked>)
      requires Valid() && Runs(dst) && Runs(src) && dst.nid == m.message.dst
      modifies answers
      ensures Valid() && answers.log == old(answers.log) + asked && Consulted(asked, m.message, src.nid, yes)
    {
      hide Valid, RoutesOf;
      Recorded(dst);
      Recorded(src);
      yes := dst.ShouldReceiveMessage(m.message);
      asked := [ShouldReceive(dst.nid, m.message, yes)];
      if yes {
        yes := src.ShouldSendMessage(m.message);
        asked := asked + [ShouldSend(src.nid, m.message, yes)];
      }
      Still();
    }

    /** One message of the snapshot. */
    method ProcessMessage(m: RouteMessage, src: ChainRuntime, ghost i: nat) returns (r: Looked, ghost asked: seq<Asked>)
      requires Valid() && Runs(src) && model.router.Resting?
      requires i < |table| && table[i] == m && i in model.snapshot && model.objs[i].home == src.nid
      modifies this`clock, this`model, this`trace, this`goroutines, m`processing, src.cache, db, answers
      ensures Valid() && old(trace) <= trace && PassedOver(old(model), i, model)
      ensures old(clock) <= clock && (r.UnknownDst? <==> m.message.dst !in chains)
      ensures answers.log == old(answers.log) + asked
      ensures Explains(asked, r, m.message, m.Key(), src.nid, old(m.processing) || (m.lastTry.At? && clock <= m.lastTry.ns))
      ensures goroutines == old(goroutines) + if r.Sent? then [Goroutine(m, m.message.dst, src.nid)] else []
      ensures m.Value() == if r.Sent? || r.AlreadyThere? then old(m.Value()).(processing := true) else old(m.Value())
      ensures src.cache.messages == if Clears(r) then old(src.cache.messages) - {m.Key()} else old(src.cache.messages)
      ensures db.db == DeleteMessage(old(db.db), MessageStoreKey(m.message), Clears(r) && r.deleted)
      ensures db.writes == old(db.writes) + ClearingWrites(r, m.message)
    {
      hide Valid, PassedOver, CanRouter, MessageDbKey, MessageStoreKey, DeleteOf, Configured;
      hide DoPick, DoQueryFailed, DoQueryMissing, ReceivedCleared, UnknownCleared;
      Known(i);
      EachWired();
      if m.message.dst !in chains {
        PickUnknownAllowed(i);
        var ok := ClearRouted(m, src, false, i);
        PassedOtherwise(old(model), i, clock, ok);
        return UnknownDst(ok), [];
      }
      var dst := chains[m.message.dst];
      var yes;
      yes, asked := ShouldSendMessage(m, dst, src);
      PassedOtherwise(old(model), i, clock, true);
      if !yes { return NotNow, asked; }
      r := PickAndLookUp(m, dst, src, i);
      asked := asked + [Received(dst.nid, m.Key(), AnswerOf(r))];
      PassedAfterPick(old(model), i, clock, true);
      PassedAfterPick(old(model), i, clock, false);
    }

    /** A message that is to be sent: marked, asked for at the destination, and sent there or not. */
    method PickAndLookUp(m: RouteMessage, dst: ChainRuntime, src: ChainRuntime, ghost i: nat) returns (r: Looked)
      requires Valid() && Runs(src) && Runs(dst) && dst.nid == m.message.dst && model.router.Resting?
      requires i < |table| && table[i] == m && i in model.snapshot && model.objs[i].home == src.nid
      requires !IsProcessing(m.Value(), clock)
      modifies this`model, this`trace, this`goroutines, m`processing, src.cache, db, answers
      ensures Valid() && old(trace) <= trace
      ensures i < |old(model).objs|
      ensures var picked := DoPick(old(model), i);
        match r
        case LookupFailed => model == DoQueryFailed(picked, i)
        case AlreadyThere(deleted) => model == ReceivedCleared(picked, i, deleted)
        case Sent => model == DoQueryMissing(picked, i)
        case _ => false
      ensures answers.log == old(answers.log) + [Received(dst.nid, m.Key(), AnswerOf(r))]
      ensures goroutines == old(goroutines) + if r.Sent? then [Goroutine(m, dst.nid, src.nid)] else []
      ensures m.Value() == if r.LookupFailed? then old(m.Value()) else old(m.Value()).(processing := true)
      ensures src.cache.messages == if r.AlreadyThere? then old(src.cache.messages) - {m.Key()} else old(src.cache.messages)
      ensures db.db == DeleteMessage(old(db.db), MessageStoreKey(m.message), r.AlreadyThere? && r.deleted)
      ensures db.writes == old(db.writes) + ClearingWrites(r, m.message)
    {
      hide Valid, Takes, TakesTwo, OnlyRoute, CanRouter, MessageDbKey, DeleteMessage, ClearingWrites, DoQueryFailed, DoQueryMissing, ReceivedCleared;
      Known(i);
      PickAllowed(i);
      Toggle(m, i, Routed(Pick(i)), DoPick(model, i));
      r := LookUp(m, dst, src, i);
    }

    /** A picked message: asked for at the destination, and sent there or not. */
    method LookUp(m: RouteMessage, dst: ChainRuntime, src: ChainRuntime, ghost i: nat) returns (r: Looked)
      requires Valid() && Runs(src) && Runs(dst) && dst.nid == m.message.dst
      requires i < |table| && table[i] == m && model.objs[i].home == src.nid && model.router == Querying(i)
      modifies this`model, this`trace, this`goroutines, m`processing, src.cache, db, answers
      ensures Valid() && old(trace) <= trace
      ensures match r
        case LookupFailed => model == DoQueryFailed(old(model), i)
        case AlreadyThere(deleted) => model == ReceivedCleared(old(model), i, deleted)
        case Sent => model == DoQueryMissing(old(model), i)
        case _ => false
      ensures answers.log == old(answers.log) + [Received(dst.nid, m.Key(), AnswerOf(r))]
      ensures goroutines == old(goroutines) + if r.Sent? then [Goroutine(m, dst.nid, src.nid)] else []
      ensures m.Value() == if r.LookupFailed? then ToggleProcessing(old(m.Value())) else old(m.Value())
      ensures src.cache.messages == if r.AlreadyThere? then old(src.cache.messages) - {m.Key()} else old(src.cache.messages)
      ensures db.db == DeleteMessage(old(db.db), MessageStoreKey(m.message), r.AlreadyThere? && r.deleted)
      ensures db.writes == old(db.writes) + ClearingWrites(r, m.message)
    {
      hide Valid, Takes, TakesTwo, OnlyRoute, CanRouter, MessageDbKey, DeleteOf, DoQueryFailed, DoQueryMissing, ReceivedCleared, UnknownCleared;
      Known(i);
      var answer := AskReceived(m, dst);
      if answer.None? {
        QueryFailedStep(Configured(), model, i);
        Toggle(m, i, Routed(QueryFailed), DoQueryFailed(model, i));
        return LookupFailed;
      }
      if answer.value {
        var ok := ClearRouted(m, src, true, i);
        return AlreadyThere(ok);
      }
      Spawn(m, dst, src, i);
      r := Sent;
    }

    lemma PickAllowed(i: nat)
      requires Valid() && model.router.Resting? && i < |model.objs| && i in model.snapshot
      requires model.objs[i].route.msg.dst in chains && !IsProcessing(model.objs[i].route, clock)
      ensures Takes(Configured(), model, Routed(Pick(i)), DoPick(model, i))
      ensures OnlyRoute(model, i, ToggleProcessing(model.objs[i].route), DoPick(model, i))
    {
      hide RunsTo, Wired, Takes, OnlyRoute, ObjectsAgree, CachesAgree, GoroutinesAgree, Represents, HeightsAgree;
      PickStep(Configured(), model, i);
    }

    lemma PickUnknownAllowed(i: nat)
      requires model.router.Resting? && i < |model.objs| && i in model.snapshot && model.objs[i].route.msg.dst !in chains
      ensures CanRouter(Configured(), model, PickUnknown(i))
    {
    }

    /** The snapshot of one cache is taken. */
    ghost method TakeSnapshot(src: ChainRuntime)
      requires Valid() && Runs(src) && model.router.Resting?
      modifies this`model, this`trace
      ensures Valid() && old(trace) <= trace && model.router.Resting?
      ensures Listed(table, model, src.nid, src.cache.messages.Values)
    {
      hide Valid, Agrees, Wired, RunsTo, Holding, KeysOwned, Takes, Vouched, DoScan, Listed;
      Parts();
      RuntimeKnown(src);
      ScanStep(Configured(), Holding(), model, src.nid);
      ScanLists(Configured(), Holding(), model, src.nid);
      ScanKeeps(model, src.nid);
      Follow(Routed(Scan(src.nid)), DoScan(model, src.nid));
    }

    /** The cached messages with a known destination that neither are processing nor wait. */
    ghost function IdleIn(src: ChainRuntime): set<RouteMessage>
      reads *
    {
      set m | m in src.cache.messages.Values && m.message.dst in chains
        && !m.processing && (m.lastTry.Zero? || m.lastTry.ns < clock)
    }

    /** Those among the messages still to look at neither are processing nor wait. */
    ghost predicate StillIdle(idle: set<RouteMessage>, rest: set<RouteMessage>)
      reads this`clock, idle
    {
      forall m <- idle :: m.message.dst in chains && (m in rest ==> !IsProcessing(m.Value(), clock))
    }

    /** The part of processMessages for one source chain. Each message that neither is processing nor
        waits is put to its destination's provider. */
    method RouteChain(src: ChainRuntime)
      requires Valid() && Runs(src) && model.router.Resting?
      modifies this`clock, this`model, this`trace, this`goroutines, table, src.cache, db, answers
      ensures Valid() && old(trace) <= trace && model.router.Resting? && old(answers.log) <= answers.log
      ensures Started(table, old(RoutesOf(table)), RoutesOf(table), old(goroutines), goroutines)
      ensures WentOver(old(src.cache.messages), src.cache.messages, chains.Keys, answers.log, |old(answers.log)|)
      ensures StartedForCause(old(goroutines), goroutines, answers.log, |old(answers.log)|)
      ensures forall m <- old(IdleIn(src)) :: Considered(answers.log, |old(answers.log)|, m)
      ensures old(clock) <= clock && OnlyTouched(table, old(RoutesOf(table)), RoutesOf(table), old(src.cache.messages.Values))
      ensures old(db.writes) <= db.writes && Deleted(old(src.cache.messages), src.cache.messages, db.writes[|old(db.writes)|..])
    {
      hide Deleted, Valid, Listed, Started, RoutesOf, GoneOver, StillIdle, StartedForCause, IdleIn, Sifted, Considered, WentOver, OnlyTouched;
      var rest := src.cache.messages.Values;
      NoneTouched(table, RoutesOf(table), rest);
      NoneDeleted(src.cache.messages);
      assert db.writes[|db.writes|..] == [];
      AllSifted(src);
      SiftedKeys(src.cache.messages, rest, chains.Keys);
      TakeSnapshot(src);
      NoneStarted(table, RoutesOf(table), goroutines);
      NoneStartedYet(goroutines, answers.log);
      AllToGo(src);
      NoneGoneOver(src.cache.messages, old(IdleIn(src)), chains.Keys, answers.log);
      while rest != {}
        invariant Valid() && old(trace) <= trace && model.router.Resting? && old(answers.log) <= answers.log
        invariant Listed(table, model, src.nid, rest)
        invariant Started(table, old(RoutesOf(table)), RoutesOf(table), old(goroutines), goroutines)
        invariant GoneOver(src.cache.messages, rest, old(src.cache.messages), old(IdleIn(src)), chains.Keys, answers.log, |old(answers.log)|)
        invariant StillIdle(old(IdleIn(src)), rest)
        invariant StartedForCause(old(goroutines), goroutines, answers.log, |old(answers.log)|)
        invariant old(clock) <= clock && rest <= old(src.cache.messages.Values)
        invariant OnlyTouched(table, old(RoutesOf(table)), RoutesOf(table), old(src.cache.messages.Values))
        invariant old(db.writes) <= db.writes && Deleted(old(src.cache.messages), src.cache.messages, db.writes[|old(db.writes)|..])
      {
        var m :| m in rest;
        ListedInTable(table, model, src.nid, rest, m);
        RouteOne(src, m, rest, old(RoutesOf(table)), old(goroutines), old(src.cache.messages), old(IdleIn(src)), |old(answers.log)|,
                 old(src.cache.messages.Values), old(db.writes));
        rest := rest - {m};
      }
      AllGoneOver(src.cache.messages, old(src.cache.messages), old(IdleIn(src)), chains.Keys, answers.log, |old(answers.log)|);
    }

    twostate lemma AllToGo(src: ChainRuntime)
      requires src.cache.messages == old(src.cache.messages) && clock == old(clock)
      requires forall m <- src.cache.messages.Values :: m.Value() == old(m.Value())
      ensures StillIdle(old(IdleIn(src)), src.cache.messages.Values) && old(IdleIn(src)) <= src.cache.messages.Values
    {
    }

    lemma AllSifted(src: ChainRuntime)
      requires Valid() && Runs(src)
      ensures Sifted(src.cache.messages, src.cache.messages.Values, chains.Keys)
    {
      hide Sifted, Agrees, RunsTo, Vouched;
      SiftedAtFirst(Configured(), Holding(), model, src.nid, chains.Keys);
    }

    method RouteOne(src: ChainRuntime, m: RouteMessage, ghost rest: set<RouteMessage>, ghost first: seq<Route>,
                    ghost started: seq<Goroutine>, ghost before: Cache, ghost idle: set<RouteMessage>, ghost since: nat,
                    ghost touched: set<RouteMessage>, ghost writes: seq<Lvldb.Write>)
      requires Valid() && Runs(src) && model.router.Resting? && m in rest && Listed(table, model, src.nid, rest)
      requires Started(table, first, RoutesOf(table), started, goroutines) && StartedForCause(started, goroutines, answers.log, since)
      requires GoneOver(src.cache.messages, rest, before, idle, chains.Keys, answers.log, since) && StillIdle(idle, rest)
      requires m in touched && OnlyTouched(table, first, RoutesOf(table), touched) && m.Key() in before
      requires writes <= db.writes && Deleted(before, src.cache.messages, db.writes[|writes|..])
      modifies this`clock, this`model, this`trace, this`goroutines, m`processing, src.cache, db, answers
      ensures Valid() && old(trace) <= trace && model.router.Resting? && old(answers.log) <= answers.log
      ensures Listed(table, model, src.nid, rest - {m})
      ensures Started(table, first, RoutesOf(table), started, goroutines) && StartedForCause(started, goroutines, answers.log, since)
      ensures GoneOver(src.cache.messages, rest - {m}, before, idle, chains.Keys, answers.log, since) && StillIdle(idle, rest - {m})
      ensures old(clock) <= clock && OnlyTouched(table, first, RoutesOf(table), touched)
      ensures writes <= db.writes && Deleted(before, src.cache.messages, db.writes[|writes|..])
    {
      hide Deleted, Valid, Started, DeleteMessage, RoutesOf, GoneOver, StartedForCause, Explains, OnlyTouched, ClearingWrites, Configured, Clears, Runs;
      ghost var i :| 0 <= i < |table| && table[i] == m && i in model.snapshot && model.objs[i].home == src.nid;
      Known(i);
      StartedBehind(table, first, RoutesOf(table), started, goroutines);
      GoneOverSince(src.cache.messages, rest, before, idle, chains.Keys, answers.log, since);
      var r;
      ghost var asked;
      r, asked := ProcessMessage(m, src, i);
      StaysIdle(old(m.Value()), old(clock), clock);
      ExplainsIdle(asked, r, m.message, m.Key(), src.nid, IsProcessing(old(m.Value()), clock));
      ListedAfter(table, old(model), src.nid, rest, i, model);
      RouteChanged(i);
      TouchedOne(table, first, old(RoutesOf(table)), touched, i, m.Value());
      DeletedOne(before, old(src.cache.messages), old(db.writes)[|writes|..], m, r);
      assert db.writes[|writes|..] == old(db.writes)[|writes|..] + ClearingWrites(r, m.message);
      StartedOn(table, first, old(RoutesOf(table)), started, old(goroutines), i, m.message.dst, src.nid, r.Sent?, m.Value());
      StartedOne(started, old(goroutines), old(answers.log), since, asked, m, r, src.nid, IsProcessing(old(m.Value()), clock));
      GoesOn(old(src.cache.messages), rest, before, idle, chains.Keys, old(answers.log), since, asked, m, r, src.nid,
             IsProcessing(old(m.Value()), clock));
      forall x | x in idle && x in rest - {m} ensures !IsProcessing(x.Value(), clock) {
        StaysIdle(x.Value(), old(clock), clock);
      }
    }

    /** The idle messages of every cache. */
    ghost function IdleOf(): map<Nid, set<RouteMessage>>
      reads *
    {
      map nid | nid in chains :: IdleIn(chains[nid])
    }

    /** Every cached message is looked at, and every idle one with a known destination is put to its
        destination's provider: objects change only by being marked as processing; the
        deliveries started are for objects that were idle, one for each, whose destination said that it
        does not have the message; caches only lose entries, those with an unknown destination and those
        whose destination said that it has the message. */
    method ProcessMessages()
      requires Valid() && model.router.Resting?
      modifies this`clock, this`model, this`trace, this`goroutines, table, CacheObjects(chains), db, answers
      ensures Valid() && old(trace) <= trace && model.router.Resting? && old(answers.log) <= answers.log
      ensures Started(table, old(RoutesOf(table)), RoutesOf(table), old(goroutines), goroutines)
      ensures StartedForCause(old(goroutines), goroutines, answers.log, |old(answers.log)|)
      ensures WentOverAll(old(CachesOf(chains)), CachesOf(chains), chains.Keys, {}, answers.log, |old(answers.log)|)
      ensures forall nid <- chains :: forall m <- old(IdleIn(chains[nid])) :: Considered(answers.log, |old(answers.log)|, m)
      ensures old(db.writes) <= db.writes && DeletedAll(old(CachesOf(chains)), CachesOf(chains), db.writes[|old(db.writes)|..])
    {
      hide Valid, RoutesOf, CachesOf, RoutedOver;
      ghost var idle, since := IdleOf(), |answers.log|;
      NoneRoutedOver();
      var todo := chains.Keys;
      while todo != {}
        invariant Valid() && old(trace) <= trace && model.router.Resting? && todo <= chains.Keys && old(answers.log) <= answers.log
        invariant RoutedOver(old(RoutesOf(table)), old(goroutines), old(CachesOf(chains)), todo, since, idle, old(db.writes))
      {
        var nid :| nid in todo;
        RouteNamed(nid, old(RoutesOf(table)), old(goroutines), old(CachesOf(chains)), todo, since, idle, old(db.writes));
        todo := todo - {nid};
      }
      AllRoutedOver(old(RoutesOf(table)), old(goroutines), old(CachesOf(chains)), since, idle, old(db.writes));
    }

    /** What holds when the chains that are not still to do have been gone over since the objects had routes
        `first`, the goroutines were `started`, the caches were `before`, and the messages in `idle` were. */
    ghost predicate RoutedOver(first: seq<Route>, started: seq<Goroutine>, before: map<Nid, Cache>, todo: set<Nid>, since: nat,
                               idle: map<Nid, set<RouteMessage>>, writes: seq<Lvldb.Write>)
      reads *
    {
      && since <= |answers.log| && idle.Keys == chains.Keys
      && Started(table, first, RoutesOf(table), started, goroutines) && StartedForCause(started, goroutines, answers.log, since)
      && WentOverAll(before, CachesOf(chains), chains.Keys, todo, answers.log, since)
      && AllIdle(idle, todo, CachesOf(chains), table, RoutesOf(table), clock, chains.Keys)
      && AllConsidered(idle, todo, answers.log, since)
      && writes <= db.writes && DeletedAll(before, CachesOf(chains), db.writes[|writes|..])
    }

    lemma NoneRoutedOver()
      requires Valid()
      ensures RoutedOver(RoutesOf(table), goroutines, CachesOf(chains), chains.Keys, |answers.log|, IdleOf(), db.writes)
    {
      hide Valid, Started, RoutesOf, WentOverAll, CachesOf, StartedForCause, IdleIn, AllIdle, AllConsidered, DeletedAll;
      NoneStarted(table, RoutesOf(table), goroutines);
      NoneStartedYet(goroutines, answers.log);
      WentOverNone(CachesOf(chains), chains.Keys, answers.log);
      AllIdleYet();
      NoneConsidered(IdleOf(), answers.log);
      NoneDeletedYet(CachesOf(chains));
      assert db.writes[|db.writes|..] == [];
    }

    lemma AllRoutedOver(first: seq<Route>, started: seq<Goroutine>, before: map<Nid, Cache>, since: nat,
                        idle: map<Nid, set<RouteMessage>>, writes: seq<Lvldb.Write>)
      requires RoutedOver(first, started, before, {}, since, idle, writes)
      ensures Started(table, first, RoutesOf(table), started, goroutines) && StartedForCause(started, goroutines, answers.log, since)
      ensures WentOverAll(before, CachesOf(chains), chains.Keys, {}, answers.log, since)
      ensures idle.Keys == chains.Keys && forall nid <- idle :: forall m <- idle[nid] :: Considered(answers.log, since, m)
      ensures writes <= db.writes && DeletedAll(before, CachesOf(chains), db.writes[|writes|..])
    {
      hide Started, RoutesOf, WentOverAll, CachesOf, StartedForCause, AllIdle, AllConsidered, DeletedAll, Considered;
      EachConsidered(idle, answers.log, since);
    }

    lemma AllIdleYet()
      ensures AllIdle(IdleOf(), chains.Keys, CachesOf(chains), table, RoutesOf(table), clock, chains.Keys)
      ensures IdleOf().Keys == chains.Keys
    {
    }

    lemma IdleNow(idle: map<Nid, set<RouteMessage>>, todo: set<Nid>, nid: Nid)
      requires Valid() && AllIdle(idle, todo, CachesOf(chains), table, RoutesOf(table), clock, chains.Keys)
      requires nid in idle && nid in todo && nid in chains
      ensures idle[nid] <= IdleIn(chains[nid])
    {
      hide RunsTo, Wired, ObjectsAgree, GoroutinesAgree, Represents, HeightsAgree, Vouched, Cached;
      ApartIn(Configured(), Holding(), model, nid, nid);
      forall m | m in idle[nid] ensures m in IdleIn(chains[nid]) {
        var i :| 0 <= i < |table| && table[i] == m;
        assert !IsProcessing(RoutesOf(table)[i], clock) && RoutesOf(table)[i] == m.Value();
      }
    }

    /** No object is in the caches of two chains. */
    lemma Apart(nid: Nid)
      requires Valid() && nid in chains
      ensures ApartFrom(table, CachesOf(chains), nid)
    {
      hide RunsTo, Wired, ObjectsAgree, GoroutinesAgree, Represents, HeightsAgree, Vouched, Cached, CachesAgree;
      forall n | n in chains ensures forall m <- chains[n].cache.messages.Values :: m in table && (n == nid || m !in chains[nid].cache.messages.Values) {
        ApartIn(Configured(), Holding(), model, nid, n);
      }
    }

    method RouteNamed(nid: Nid, ghost first: seq<Route>, ghost started: seq<Goroutine>, ghost before: map<Nid, Cache>,
                      ghost todo: set<Nid>, ghost since: nat, ghost idle: map<Nid, set<RouteMessage>>, ghost writes: seq<Lvldb.Write>)
      requires Valid() && model.router.Resting? && nid in chains && nid in todo
      requires RoutedOver(first, started, before, todo, since, idle, writes)
      modifies this`clock, this`model, this`trace, this`goroutines, table, CacheObjects(chains), db, answers
      ensures Valid() && old(trace) <= trace && model.router.Resting? && old(answers.log) <= answers.log
      ensures RoutedOver(first, started, before, todo - {nid}, since, idle, writes)
    {
      hide Deleted, DeletedAll, Valid, Started, RoutesOf, WentOverAll, WentOver, CachesOf, StartedForCause, IdleIn, Considered, AllConsidered, AllIdle, ApartFrom, OnlyTouched, Configured, Kept, Runs;
      RuntimeAt(nid);
      TableDistinct();
      OwnCache(nid);
      Apart(nid);
      IdleNow(idle, todo, nid);
      RouteChain(chains[nid]);
      CacheChanged(chains[nid]);
      IdleElsewhere(idle, todo, old(CachesOf(chains)), chains[nid].cache.messages, table, old(RoutesOf(table)), RoutesOf(table),
                    old(clock), clock, chains.Keys, nid);
      ConsideredNext(idle, todo, old(answers.log), answers.log, since, nid);
      StartedComposes(table, first, old(RoutesOf(table)), RoutesOf(table), started, old(goroutines), goroutines);
      StartedBehind(table, old(RoutesOf(table)), RoutesOf(table), old(goroutines), goroutines);
      CausesCompose(started, old(goroutines), goroutines, old(answers.log), answers.log, since);
      NotYetOver(before, old(CachesOf(chains)), chains.Keys, todo, old(answers.log), since, nid);
      DeletedNext(before, old(CachesOf(chains)), old(db.writes)[|writes|..], nid, chains[nid].cache.messages, db.writes[|old(db.writes)|..]);
      assert db.writes[|writes|..] == old(db.writes)[|writes|..] + db.writes[|old(db.writes)|..];
      WentOverOne(before, old(CachesOf(chains)), chains.Keys, todo, nid, chains[nid].cache.messages, old(answers.log), answers.log, since);
    }

    lemma OwnCache(nid: Nid)
      requires Valid() && nid in chains
      ensures Wired() && chains[nid].nid == nid
    {
    }

    /** The objects of new messages with a known destination are idle, whatever the time. */
    lemma NewAreIdle(src: ChainRuntime, before: seq<RouteMessage>, messages: seq<Message>)
      requires Merged(before, table, messages, src.cache.messages)
      ensures forall j :: |before| <= j < |table| && table[j].message.dst in chains ==> table[j] in IdleIn(src)
    {
    }

    /** A block and, at any time after it, the router's next round: the destination of each new message is
        asked about it, if it is known. */
    method ObserveAndRoute(src: ChainRuntime, height: uint64, messages: seq<Message>)
      requires Valid() && Runs(src) && model.router.Resting?
      modifies this`clock, this`table, this`model, this`trace, this`goroutines, table, src`lastBlockHeight, CacheObjects(chains), db, answers
      ensures Valid() && old(trace) <= trace && old(answers.log) <= answers.log
      ensures forall m <- messages :: m.dst in chains ==>
        exists yes :: Since(answers.log, |old(answers.log)|, ShouldReceive(m.dst, m, yes))
    {
      hide Valid, RoutesOf, IdleIn, Started, StartedForCause, WentOverAll, DeletedAll, Considered, Since, CachesOf, Configured;
      ghost var first := ObserveAndWait(src, height, messages);
      ProcessMessages();
      forall m | m in messages && m.dst in chains
        ensures exists yes :: Since(answers.log, |old(answers.log)|, ShouldReceive(m.dst, m, yes))
      {
        var i :| 0 <= i < |messages| && messages[i] == m;
        ConsideredIs(answers.log, |old(answers.log)|, table[first + i]);
      }
    }

    method ObserveAndWait(src: ChainRuntime, height: uint64, messages: seq<Message>) returns (ghost first: nat)
      requires Valid() && Runs(src)
      modifies this`clock, this`table, this`model, this`trace, src`lastBlockHeight, src.cache, db
      ensures Valid() && old(trace) <= trace && model.router == old(model.router)
      ensures old(table) <= table && forall j :: |old(table)| <= j < |table| ==> fresh(table[j])
      ensures |table| == first + |messages| && forall i :: 0 <= i < |messages| ==>
        table[first + i].message == messages[i] && (messages[i].dst in chains ==> table[first + i] in IdleIn(src))
    {
      hide Valid, RoutesOf, IdleIn, BlockWritten, Kept, CachesOf, CacheObjects, Configured;
      ghost var before := table;
      first := |before|;
      ghost var oks := ProcessBlockInfo(src, height, messages);
      var now := Now();
      NewAreIdle(src, before, messages);
      MergedMessages(before, messages, src.cache.messages);
    }

    lemma MergedMessages(before: seq<RouteMessage>, messages: seq<Message>, cache: Cache)
      requires Merged(before, table, messages, cache)
      ensures |table| == |before| + |messages| && forall i :: 0 <= i < |messages| ==> table[|before| + i].message == messages[i]
    {
    }

    // ----- Deliveries

    /** Goroutine t handles object m, which lives in runtime src, and is in this phase. */
    ghost predicate Handles(t: nat, m: RouteMessage, src: ChainRuntime, phase: Phase)
      reads this`model, this`table
    {
      && t < |model.tasks| && model.tasks[t].phase == phase
      && model.tasks[t].ref < |table| && |table| == |model.objs| && table[model.tasks[t].ref] == m
      && Runs(src) && model.objs[model.tasks[t].ref].home == src.nid && m.message.dst in chains
    }

    lemma GoroutineHandles(t: nat)
      requires Valid() && t < |goroutines|
      ensures t < |model.tasks| && goroutines[t].src in chains && goroutines[t].dst in chains
      ensures Handles(t, goroutines[t].message, chains[goroutines[t].src], model.tasks[t].phase)
      ensures goroutines[t].dst == goroutines[t].message.message.dst
      ensures Runs(chains[goroutines[t].src]) && Runs(chains[goroutines[t].dst])
    {
      hide RunsTo, ObjectsAgree, CachesAgree, Represents, HeightsAgree;
    }

    method StartDelivery(m: RouteMessage, src: ChainRuntime, ghost t: nat)
      requires Valid() && Handles(t, m, src, Spawned)
      modifies this`clock, this`model, this`trace, m
      ensures Valid() && old(trace) <= trace && Handles(t, m, src, Routing)
      ensures old(clock) <= clock && m.Value() == IncrementRetry(old(m.Value()), clock)
      ensures model.txs == old(model.txs) && model.messages == old(model.messages)
    {
      hide Valid, Agrees, Wired, RunsTo, Holding, RoutesOf, CachesOf, HeightsOf, KeysOwned, Takes, TakesTwo, Vouched, OnlyRoute, OnlyCleared;
      ghost var i := model.tasks[t].ref;
      Known(i);
      var now := Now();
      Increment(m, t, i);
    }

    method Increment(m: RouteMessage, ghost t: nat, ghost i: nat)
      requires Valid() && i < |table| && table[i] == m && i < |model.objs| && TaskIn(model, t, Spawned) && model.tasks[t].ref == i
      modifies this`model, this`trace, m
      ensures Valid() && old(trace) <= trace && TaskIn(old(model), t, Spawned) && model == DoStart(old(model), t)
      ensures m.Value() == IncrementRetry(old(m.Value()), clock)
    {
      hide Valid, Agrees, Wired, RunsTo, Holding, RoutesOf, CachesOf, HeightsOf, KeysOwned, Takes, TakesTwo, Vouched, OnlyRoute, OnlyCleared;
      Parts();
      Known(i);
      m.IncrementRetry(clock);
      OneRoute(i);
      StartStep(Configured(), model, t);
      StepRoute(Configured(), old(Holding()), model, i, m.Value(), DoStart(model, t));
      Follow(Deliver(t, Start), DoStart(model, t));
    }

    /** The mark is taken off; after the fifth try the message is also stored and then, if that
        succeeded, evicted. */
    method HandleMessageFailed(m: RouteMessage, src: ChainRuntime, ghost t: nat) returns (stored: bool)
      requires Valid() && Handles(t, m, src, Routing)
      modifies this`model, this`trace, m`processing, src.cache, db
      ensures Valid() && old(trace) <= trace && m.processing == !old(m.processing)
      ensures m.retry < 5 ==> !stored && src.cache.messages == old(src.cache.messages) && db.db == old(db.db)
      ensures m.retry >= 5 ==> db.db == PutMessage(old(db.db), m.Value(), stored)
      ensures db.writes == old(db.writes) + if m.retry >= 5 then [PutOf(m.Value(), stored)] else []
      ensures m.retry >= 5 ==>
        src.cache.messages == if stored then old(src.cache.messages) - {m.Key()} else old(src.cache.messages)
    {
      hide Valid, Takes, OnlyRoute, PutMessage, PutOf;
      ghost var i := model.tasks[t].ref;
      Known(i);
      FailStep(Configured(), model, t);
      Toggle(m, i, Deliver(t, Fail), DoFail(model, t));
      stored := false;
      if m.retry >= MAX_TX_RETRY {
        stored := PersistRoute(m, src, t);
        if stored { EvictRoute(m, src, t); }
      } else {
        RetireRoute(m, src, t);
      }
    }

    /** A failure and the next flush: a message just stored with five to fourteen tries, if the first ten of
        its chain's scan decode and it is one of them, is cached again. */
    method FailAndFlush(m: RouteMessage, src: ChainRuntime, ghost t: nat) returns (stored: bool)
      requires Valid() && Handles(t, m, src, Routing)
      modifies this`table, this`model, this`trace, m`processing, CacheObjects(chains), db
      ensures Valid() && old(trace) <= trace
      ensures stored ==> m.retry >= 5 && MessageDbKey(MessageStoreKey(m.message)) in db.db
      ensures var scanned := Scanned(db.db, src.nid, 10);
        stored && 5 <= m.retry < 15 && Stores.AllMessages(scanned) && m.Value() in Stores.Routes(scanned) ==>
          exists k :: k in src.cache.messages && src.cache.messages[k].Value() == m.Value()
    {
      hide Valid, FlushedAll, ContentsOf, Contents, ToFlush, Scanned, Stores.AllMessages, Stores.Routes, MessageDbKey;
      stored := HandleMessageFailed(m, src, t);
      ghost var before := ContentsOf(chains);
      FlushMessages();
      FlushTakes(db.db, src.nid, m.Value());
      if m.Value() in ToFlush(db.db, src.nid) { FlushedCopy(before, src, m.Value()); }
    }

    lemma FlushedCopy(before: map<Nid, map<MessageKey, Route>>, src: ChainRuntime, route: Route)
      requires FlushedAll(before, ContentsOf(chains), db.db, {}) && Runs(src) && route in ToFlush(db.db, src.nid)
      ensures exists k :: k in src.cache.messages && src.cache.messages[k].Value() == route
    {
      hide ToFlush;
      assert ContentsOf(chains)[src.nid] == Contents(src.cache.messages);
      var k :| k in Contents(src.cache.messages) && Contents(src.cache.messages)[k] == route;
      assert src.cache.messages[k].Value() == route;
    }

    ghost method RetireRoute(m: RouteMessage, src: ChainRuntime, t: nat)
      requires Valid() && Handles(t, m, src, Toggled) && m.retry < MAX_TX_RETRY
      modifies this`model, this`trace
      ensures Valid() && old(trace) <= trace
    {
      hide Valid, Agrees, Wired, RunsTo, Holding, RoutesOf, CachesOf, HeightsOf, KeysOwned, Takes, TakesTwo, Vouched, OnlyRoute, OnlyCleared, DoRetire;
      Parts();
      Known(model.tasks[t].ref);
      RetireStep(Configured(), Holding(), model, t);
      Follow(Deliver(t, Retire), DoRetire(model, t));
    }

    method PersistRoute(m: RouteMessage, src: ChainRuntime, ghost t: nat) returns (ok: bool)
      requires Valid() && Handles(t, m, src, Toggled) && m.retry >= MAX_TX_RETRY
      modifies this`model, this`trace, db
      ensures Valid() && old(trace) <= trace && (ok ==> Handles(t, m, src, Persisted))
      ensures db.db == PutMessage(old(db.db), m.Value(), ok) && db.writes == old(db.writes) + [PutOf(m.Value(), ok)]
    {
      hide Valid, Agrees, Wired, RunsTo, Holding, RoutesOf, CachesOf, HeightsOf, KeysOwned, Takes, TakesTwo, Vouched, OnlyRoute, OnlyCleared, DoPersist, PutMessage, PutOf;
      Parts();
      Known(model.tasks[t].ref);
      ok := Store(m);
      Grown(old(db.writes));
      PersistStep(Configured(), old(Holding()), model, t, ok);
      Follow(Deliver(t, Persist(ok)), DoPersist(model, t, ok));
    }

    method EvictRoute(m: RouteMessage, src: ChainRuntime, ghost t: nat)
      requires Valid() && Handles(t, m, src, Persisted)
      modifies this`model, this`trace, src.cache
      ensures Valid() && old(trace) <= trace && src.cache.messages == old(src.cache.messages) - {m.Key()}
    {
      hide Valid, Agrees, Wired, RunsTo, Holding, RoutesOf, CachesOf, HeightsOf, KeysOwned, Takes, TakesTwo, Vouched, OnlyRoute, OnlyCleared, DoEvict;
      Parts();
      Known(model.tasks[t].ref);
      RemoveFromCache(m, src);
      EvictStep(Configured(), old(Holding()), model, t);
      Follow(Deliver(t, Evict), DoEvict(model, t));
    }

    /** The success callback. The record is written before the message is deleted, and a message
        whose record could not be written stays cached and stored. */
    method Callback(key: MessageKey, src: ChainRuntime, dst: ChainRuntime, txHash: string, txHeight: uint64,
                    ghost m: RouteMessage, ghost t: nat) returns (written: bool, deleted: bool)
      requires Valid() && Handles(t, m, src, Routing) && key == m.Key() && Runs(dst) && dst.nid == m.message.dst
      requires Sending(dst.nid, dst.finalityBlock, m.message, Relayed(txHash, txHeight)) in answers.log
      modifies this`model, this`trace, src.cache, db
      ensures Valid() && old(trace) <= trace
      ensures key !in old(src.cache.messages) ==> src.cache.messages == old(src.cache.messages) && db.db == old(db.db)
      ensures key in old(src.cache.messages) ==> old(src.cache.messages)[key] == m
      ensures key in old(src.cache.messages) ==>
        db.db == AfterCallback(old(db.db), m.message, dst.finalityBlock > 0, txHash, txHeight, written, deleted)
      ensures key in old(src.cache.messages) ==>
        src.cache.messages == if dst.finalityBlock > 0 && !written then old(src.cache.messages) else old(src.cache.messages) - {key}
      ensures db.writes == old(db.writes) +
        CallbackWrites(m.message, key in old(src.cache.messages), dst.finalityBlock > 0, txHash, txHeight, written, deleted)
    {
      hide Valid, RoutesOf, AfterCallback, DeleteOf, PutTxOf, TxFor;
      OwnEntry(m, src, t);
      var routeMessage := src.cache.Get(key);
      Still();
      written, deleted := false, false;
      if routeMessage.None? {
        SucceedUnfound(m, src, t, txHash, txHeight);
        return;
      }
      written, deleted := Finish(routeMessage.value, key, src, dst, txHash, txHeight, t);
    }

    /** The callback for a message found in the cache. */
    method Finish(m: RouteMessage, key: MessageKey, src: ChainRuntime, dst: ChainRuntime, txHash: string, txHeight: uint64,
                  ghost t: nat) returns (written: bool, deleted: bool)
      requires Valid() && Handles(t, m, src, Routing) && key == m.Key() && key in src.cache.messages
      requires Runs(dst) && dst.nid == m.message.dst
      requires Sending(dst.nid, dst.finalityBlock, m.message, Relayed(txHash, txHeight)) in answers.log
      modifies this`model, this`trace, src.cache, db
      ensures Valid() && old(trace) <= trace
      ensures db.db == AfterCallback(old(db.db), m.message, dst.finalityBlock > 0, txHash, txHeight, written, deleted)
      ensures src.cache.messages == if dst.finalityBlock > 0 && !written then old(src.cache.messages) else old(src.cache.messages) - {key}
      ensures db.writes == old(db.writes) + CallbackWrites(m.message, true, dst.finalityBlock > 0, txHash, txHeight, written, deleted)
    {
      hide Valid, RoutesOf, TxDbKey, DeleteMessage, DeleteOf, PutTxOf;
      deleted := false;
      written := WatchDelivery(m, key, src, dst, t, txHash, txHeight);
      if dst.finalityBlock > 0 && !written { return; }
      deleted := ClearDelivered(m, src, t);
    }

    /** The object under the key of what a goroutine handles is that very object. */
    lemma OwnEntry(m: RouteMessage, src: ChainRuntime, t: nat)
      requires Valid() && t < |model.tasks| && Handles(t, m, src, model.tasks[t].phase)
      ensures m.Key() in src.cache.messages <==> Cached(model, model.tasks[t].ref)
      ensures m.Key() in src.cache.messages ==> src.cache.messages[m.Key()] == m
    {
      hide RunsTo, Agrees, Wired, Cached;
      KeyFindsOwn(Configured(), Holding(), model, model.tasks[t].ref);
    }

    lemma WaitOf(dst: ChainRuntime)
      requires Runs(dst)
      ensures dst.nid in Configured().finality && Configured().finality[dst.nid] == dst.finalityBlock
    {
    }

    ghost method SucceedUnfound(m: RouteMessage, src: ChainRuntime, t: nat, txHash: string, txHeight: uint64)
      requires Valid() && Handles(t, m, src, Routing) && m.Key() !in src.cache.messages
      requires Sending(m.message.dst, Configured().finality[m.message.dst], m.message, Relayed(txHash, txHeight)) in answers.log
      modifies this`model, this`trace
      ensures Valid() && old(trace) <= trace
    {
      hide Valid, Agrees, Wired, RunsTo, Holding, RoutesOf, CachesOf, HeightsOf, KeysOwned, Takes, TakesTwo, Vouched, OnlyRoute, OnlyCleared, DoSucceed, Cached;
      Parts();
      Known(model.tasks[t].ref);
      OwnEntry(m, src, t);
      SucceedStep(Configured(), Holding(), model, t, txHash, txHeight, true);
      VouchSucceeded(Configured(), model, t, txHash, txHeight, true, answers.log, db.writes);
      FollowBacked(Deliver(t, Succeed(txHash, txHeight, true)), DoSucceed(Configured(), model, t, txHash, txHeight, true));
    }

    /** The record is written if the destination has a finality wait. */
    method WatchDelivery(m: RouteMessage, key: MessageKey, src: ChainRuntime, dst: ChainRuntime, ghost t: nat,
                         txHash: string, txHeight: uint64) returns (ok: bool)
      requires Valid() && Handles(t, m, src, Routing) && key == m.Key() && key in src.cache.messages
      requires Runs(dst) && dst.nid == m.message.dst
      requires Sending(dst.nid, dst.finalityBlock, m.message, Relayed(txHash, txHeight)) in answers.log
      modifies this`model, this`trace, db
      ensures Valid() && old(trace) <= trace && (dst.finalityBlock == 0 || ok ==> Handles(t, m, src, Delivered))
      ensures db.db == PutTx(old(db.db), TxFor(m.message, m.message, txHash, txHeight), dst.finalityBlock > 0 && ok)
      ensures db.writes == old(db.writes) + if dst.finalityBlock > 0 then [PutTxOf(TxFor(m.message, m.message, txHash, txHeight), ok)] else []
    {
      hide Valid, Agrees, Wired, RunsTo, Holding, RoutesOf, CachesOf, HeightsOf, KeysOwned, Takes, TakesTwo, Vouched, OnlyRoute, OnlyCleared, DoSucceed, Cached, Found, Mark, CollidedTx, TxDbKey, PutTxOf;
      Parts();
      Known(model.tasks[t].ref);
      OwnEntry(m, src, t);
      WaitOf(dst);
      ok := WriteRecord(m, key, dst, txHash, txHeight);
      Grown(old(db.writes));
      Written(t, txHash, txHeight, ok, old(Holding()));
    }

    method WriteRecord(m: RouteMessage, key: MessageKey, dst: ChainRuntime, txHash: string, txHeight: uint64) returns (ok: bool)
      requires Wired() && key == m.Key() && key.sn.value == m.message.sn
      modifies db
      ensures db.db == PutTx(old(db.db), TxFor(m.message, m.message, txHash, txHeight), dst.finalityBlock > 0 && ok)
      ensures db.writes == old(db.writes) + if dst.finalityBlock > 0 then [PutTxOf(TxFor(m.message, m.message, txHash, txHeight), ok)] else []
      ensures Holding() == old(Holding()).(db := db.db)
    {
      hide Holding, RoutesOf, Wired, PutTxOf;
      ok := false;
      if dst.finalityBlock > 0 {
        ok := StoreRecord(TxObject(key.src, key.dst, key.sn.value, key.eventType, m.message.height, txHash, txHeight));
      }
      if !ok { NothingChanged(); }
    }

    ghost method Written(t: nat, txHash: string, txHeight: uint64, ok: bool, w: World)
      requires Wired() && RunsTo(Configured(), born, past, trace, model) && KeysOwned(model) && Agrees(Configured(), w, model)
      requires TaskIn(model, t, Routing) && model.objs[model.tasks[t].ref].route.msg.dst in Configured().finality
      requires Holding() == w.(db := PutTx(w.db, RecordOf(model, t, txHash, txHeight), Writes(Configured(), model, t, ok)))
      requires Vouched(Configured(), model, answers.log, db.writes)
      requires var m := model.objs[model.tasks[t].ref].route.msg;
        Sending(m.dst, Configured().finality[m.dst], m, Relayed(txHash, txHeight)) in answers.log
      modifies this`model, this`trace
      ensures Valid() && old(trace) <= trace && model.objs == old(model.objs)
      ensures model.tasks == WithPhase(old(model), t,
        if Cached(old(model), old(model).tasks[t].ref) && (ok || Configured().finality[old(model).objs[old(model).tasks[t].ref].route.msg.dst] == 0)
        then Delivered else Done)
    {
      SucceedEffect(Configured(), model, t, txHash, txHeight, ok);
      hide Valid, Agrees, Wired, RunsTo, Holding, RoutesOf, CachesOf, HeightsOf, KeysOwned, Takes, TakesTwo, Vouched, DoSucceed, Writes, RecordOf, PutTx;
      SucceedStep(Configured(), w, model, t, txHash, txHeight, ok);
      VouchSucceeded(Configured(), model, t, txHash, txHeight, ok, answers.log, db.writes);
      FollowBacked(Deliver(t, Succeed(txHash, txHeight, ok)), DoSucceed(Configured(), model, t, txHash, txHeight, ok));
    }

    method ClearDelivered(m: RouteMessage, src: ChainRuntime, ghost t: nat) returns (ok: bool)
      requires Valid() && Handles(t, m, src, Delivered)
      modifies this`model, this`trace, src.cache, db
      ensures Valid() && old(trace) <= trace && src.cache.messages == old(src.cache.messages) - {m.Key()}
      ensures db.db == DeleteMessage(old(db.db), MessageStoreKey(m.message), ok)
      ensures db.writes == old(db.writes) + [DeleteOf(MessageStoreKey(m.message), ok)]
    {
      hide Valid, Agrees, Wired, RunsTo, Holding, RoutesOf, CachesOf, HeightsOf, KeysOwned, Takes, TakesTwo, Vouched, OnlyRoute, OnlyCleared, DeleteMessage, DeleteOf, DeliveredCleared;
      Parts();
      Known(model.tasks[t].ref);
      ok := ClearMessage(m.Key(), src);
      Grown(old(db.writes));
      DeliveredStep(Configured(), model, t, ok);
      StepClear(Configured(), old(Holding()), model, model.tasks[t].ref, ok, DeliveredCleared(model, t, ok));
      FollowTwo(Deliver(t, ClearCache), Deliver(t, ClearStore(ok)), DeliveredCleared(model, t, ok));
    }

    /** One delivery: the retry count goes up and the next try is put off, then the provider's answer
        decides. Without a successful callback the object stays as it is, in its cache and marked. */
    method RouteMessage(m: RouteMessage, dst: ChainRuntime, src: ChainRuntime, ghost t: nat)
      returns (answer: RouteAnswer, ok: bool, deleted: bool)
      requires Valid() && Handles(t, m, src, Spawned) && Runs(dst) && dst.nid == m.message.dst
      modifies this`clock, this`model, this`trace, m, src.cache, db, answers
      ensures Valid() && old(trace) <= trace && old(clock) <= clock
      ensures answers.log == old(answers.log) + [Sending(dst.nid, dst.finalityBlock, m.message, answer)]
      ensures m.retry == (old(m.retry) + 1) % 256 && m.lastTry == Instant.At(clock + BackoffDelay(m.retry))
      ensures 1 <= m.retry <= 30 ==> m.lastTry == Instant.At(clock + 6_000_000_000 * Pow2(m.retry))
      ensures m.processing == if answer.RouteError? then !old(m.processing) else old(m.processing)
      ensures answer.NoSuccess? || (answer.RouteError? && m.retry < 5) ==>
        src.cache.messages == old(src.cache.messages) && db.db == old(db.db)
      ensures answer.RouteError? && m.retry >= 5 ==>
        db.db == PutMessage(old(db.db), m.Value(), ok) &&
        src.cache.messages == (if ok then old(src.cache.messages) - {m.Key()} else old(src.cache.messages))
      ensures answer.Relayed? && m.Key() in old(src.cache.messages) ==>
        db.db == AfterCallback(old(db.db), m.message, dst.finalityBlock > 0, answer.txHash, answer.txHeight, ok, deleted)
      ensures answer.Relayed? && m.Key() in old(src.cache.messages) ==>
        src.cache.messages ==
          if dst.finalityBlock > 0 && !ok then old(src.cache.messages) else old(src.cache.messages) - {m.Key()}
      ensures answer.Relayed? && m.Key() !in old(src.cache.messages) ==>
        src.cache.messages == old(src.cache.messages) && db.db == old(db.db)
      ensures db.writes == old(db.writes) +
        match answer
        case NoSuccess => []
        case RouteError => if m.retry >= 5 then [PutOf(m.Value(), ok)] else []
        case Relayed(txHash, txHeight) =>
          CallbackWrites(m.message, m.Key() in old(src.cache.messages), dst.finalityBlock > 0, txHash, txHeight, ok, deleted)
    {
      hide Valid, Handles, RoutesOf, PutMessage, AfterCallback, PutOf, CallbackWrites;
      StartDelivery(m, src, t);
      BackoffFitsInt64(m.retry);
      ok, deleted := false, false;
      answer := AskRoute(m, dst);
      match answer
      case RouteError => ok := HandleMessageFailed(m, src, t);
      case Relayed(txHash, txHeight) => ok, deleted := Callback(m.Key(), src, dst, txHash, txHeight, m, t);
      case NoSuccess =>
    }

    method AskRoute(m: RouteMessage, dst: ChainRuntime) returns (answer: RouteAnswer)
      requires Valid() && Runs(dst)
      modifies answers
      ensures Valid() && answers.log == old(answers.log) + [Sending(dst.nid, dst.finalityBlock, m.message, answer)]
    {
      hide Valid, RoutesOf;
      Recorded(dst);
      answer := dst.Route(m.message);
      Still();
    }

    // ----- Messages generated anew

    /** One generated message, cached only: for the finality pass or for a request. */
    method MergeOne(src: ChainRuntime, msg: Message, ghost byPass: bool) returns (rm: RouteMessage)
      requires Valid() && Runs(src)
      requires byPass ==> model.pass.Merging? && model.pass.msgs != [] && msg == model.pass.msgs[0] && model.pass.src == src.nid
      modifies this`table, this`model, this`trace, src.cache
      ensures Valid() && old(trace) <= trace
      ensures byPass ==> old(model).pass.Merging? && old(model).pass.msgs != [] && model == DoPassMerge(old(model))
      ensures !byPass ==> model == DoGenerate(old(model), src.nid, msg)
      ensures fresh(rm) && rm.Value() == Fresh(msg) && table == old(table) + [rm]
      ensures rm.Key() !in old(src.cache.messages) && src.cache.messages == old(src.cache.messages)[rm.Key() := rm]
    {
      hide Valid, Agrees, Wired, RunsTo, Holding, RoutesOf, CachesOf, HeightsOf, KeysOwned, Takes, TakesTwo, Vouched, FitsNew, DoGenerate, DoPassMerge;
      Parts();
      RuntimeKnown(src);
      rm := MakeAndFile(src, msg);
      ghost var s := if byPass then DoPassMerge(model) else DoGenerate(model, src.nid, msg);
      StepGenerate(Configured(), old(Holding()), model, src.nid, msg, rm, s);
      Follow(if byPass then Finality(PassMerge) else In(Generate(src.nid, msg)), s);
    }

    method MakeAndFile(src: ChainRuntime, msg: Message) returns (rm: RouteMessage)
      requires Wired() && Runs(src)
      modifies this`table, src.cache
      ensures fresh(rm) && rm.Value() == Fresh(msg) && table == old(table) + [rm] && FitsNew(old(Holding()), rm, Fresh(msg))
      ensures src.nid in old(Holding()).caches && Holding() == WithCached(old(Holding()), src.nid, rm, Fresh(msg))
      ensures src.cache.messages == old(src.cache.messages)[rm.Key() := rm]
    {
      hide Holding, RoutesOf, CachesOf, HeightsOf, FitsNew, Wired;
      var sn := new SnObject(msg.sn);
      rm := new RouteMessage(msg, sn);
      NothingChanged();
      NewFits(rm);
      File(src, rm);
    }

    method MergeNext(src: ChainRuntime, messages: seq<Message>, i: nat, ghost first: seq<RouteMessage>, ghost byPass: bool)
      requires Valid() && Runs(src) && i < |messages| && Merged(first, table, messages[..i], src.cache.messages)
      requires byPass ==> model.pass.Merging? && model.pass.msgs == messages[i..] && model.pass.src == src.nid
      modifies this`table, this`model, this`trace, src.cache
      ensures Valid() && old(trace) <= trace
      ensures model.pass == if byPass then old(model.pass).(msgs := messages[i + 1..]) else old(model.pass)
      ensures model.txs == old(model.txs) && model.messages == old(model.messages) && model.heights == old(model.heights)
      ensures Merged(first, table, messages[..i + 1], src.cache.messages)
      ensures Kept(old(src.cache.messages), src.cache.messages)
    {
      hide Valid, Merged, Kept, NewEntry, Filed;
      var rm := MergeOne(src, messages[i], byPass);
      MergedGrows(first, old(table), messages, i, old(src.cache.messages), rm);
    }

    /** mergeMessages in the finality pass: an object of its own for each message, nothing displaced. */
    method MergeMessages(src: ChainRuntime, messages: seq<Message>)
      requires Valid() && Runs(src)
      requires model.pass.Merging? && model.pass.msgs == messages && model.pass.src == src.nid
      modifies this`table, this`model, this`trace, src.cache
      ensures Valid() && old(trace) <= trace
      ensures model.pass == old(model.pass).(msgs := [])
      ensures model.txs == old(model.txs) && model.messages == old(model.messages) && model.heights == old(model.heights)
      ensures Merged(old(table), table, messages, src.cache.messages)
      ensures Kept(old(src.cache.messages), src.cache.messages)
    {
      hide Valid, Merged, Kept, NewEntry, Filed;
      MergedNone(table, src.cache.messages);
      KeptAtFirst(src.cache.messages);
      ghost var before := src.cache.messages;
      for i := 0 to |messages|
        invariant Valid() && old(trace) <= trace
        invariant model.pass == old(model.pass).(msgs := messages[i..])
        invariant model.txs == old(model.txs) && model.messages == old(model.messages) && model.heights == old(model.heights)
        invariant Merged(old(table), table, messages[..i], src.cache.messages)
        invariant Kept(before, src.cache.messages)
      {
        ghost var cached := src.cache.messages;
        MergeNext(src, messages, i, old(table), true);
        KeptOn(before, cached, src.cache.messages);
      }
      assert messages[..|messages|] == messages;
    }

    // ----- The finality pass

    /** The pass is at this record of this chain. */
    ghost predicate At(c: ChainRuntime, tx: TxObject)
      reads this`model
    {
      AtRecord(model) && model.pass.nid == c.nid && model.pass.rest[0] == tx && Runs(c)
    }

    ghost method Skip(c: ChainRuntime, tx: TxObject)
      requires Valid() && At(c, tx)
      modifies this`model, this`trace
      ensures Valid() && old(trace) <= trace
      ensures model == old(model).(pass := Scanning(c.nid, old(model.pass.height), old(model.pass.rest)[1..]))
    {
      hide Valid, Agrees, Wired, RunsTo, Holding, RoutesOf, CachesOf, HeightsOf, KeysOwned, Takes, TakesTwo, Vouched;
      Parts();
      PassSkipStep(Configured(), Holding(), model);
      Follow(Finality(PassSkip), model.(pass := Scanning(model.pass.nid, model.pass.height, model.pass.rest[1..])));
    }

    lemma WaitedOut(c: ChainRuntime, tx: TxObject)
      requires At(c, tx)
      ensures AtMature(Configured(), model) <==>
        c.finalityBlock > 0 && tx.txHeight != 0 && (tx.txHeight + c.finalityBlock) % UINT64_SIZE <= model.pass.height
    {
      WaitOf(c);
    }

    method Confirm(c: ChainRuntime, tx: TxObject) returns (ok: bool)
      requires Valid() && At(c, tx) && AtMature(Configured(), model)
      requires Receipt(c.nid, tx, Some(true)) in answers.log
      modifies this`model, this`trace, db
      ensures Valid() && old(trace) <= trace && model.pass == Scanning(c.nid, old(model.pass.height), old(model.pass.rest)[1..])
      ensures model.txs == if ok then old(model.txs) - {TxStoreKey(tx)} else old(model.txs)
      ensures model.messages == old(model.messages) && model.heights == old(model.heights)
      ensures db.writes == old(db.writes) + [DeleteTxOf(TxStoreKey(tx), ok)]
    {
      hide Valid, Agrees, Wired, RunsTo, Holding, RoutesOf, CachesOf, HeightsOf, KeysOwned, Takes, TakesTwo, Vouched, AtMature, DeleteTx, DeleteTxOf, Mark, CollidedTx, TxStoreKey;
      Parts();
      ok := DropRecord(tx);
      Grown(old(db.writes));
      PassConfirmStep(Configured(), old(Holding()), model, ok);
      VouchConfirmed(Configured(), model, ok, answers.log, db.writes, c.nid);
      FollowBacked(Finality(PassConfirm(ok)), DoPassConfirm(model, ok));
    }

    /** The record is deleted, and if it was, the pass turns to generating its message. */
    method GiveUp(c: ChainRuntime, tx: TxObject) returns (ok: bool)
      requires Valid() && At(c, tx) && AtMature(Configured(), model) && tx.src in chains
      requires Receipt(c.nid, tx, Some(false)) in answers.log
      modifies this`model, this`trace, db
      ensures Valid() && old(trace) <= trace
      ensures model.pass == if ok then Generating(c.nid, old(model.pass.height), old(model.pass.rest)[1..], tx) else Scanning(c.nid, old(model.pass.height), old(model.pass.rest)[1..])
      ensures model.txs == if ok then old(model.txs) - {TxStoreKey(tx)} else old(model.txs)
      ensures model.messages == old(model.messages) && model.heights == old(model.heights)
      ensures db.writes == old(db.writes) + [DeleteTxOf(TxStoreKey(tx), ok)]
    {
      hide Valid, Agrees, Wired, RunsTo, Holding, RoutesOf, CachesOf, HeightsOf, KeysOwned, Takes, TakesTwo, Vouched, AtMature, DeleteTx, DeleteTxOf, Mark, CollidedTx, TxStoreKey, DoPassRegenerate;
      Parts();
      ok := DropRecord(tx);
      Grown(old(db.writes));
      if ok {
        PassRegenerateStep(Configured(), old(Holding()), model);
        RegenerateEffect(model);
        VouchGivenUp(Configured(), model, answers.log, db.writes, c.nid);
        FollowBacked(Finality(PassRegenerate), DoPassRegenerate(model));
      } else {
        NotDeletedTx(old(Holding()), TxStoreKey(tx));
        PassSkipStep(Configured(), old(Holding()), model);
        Follow(Finality(PassSkip), model.(pass := Scanning(model.pass.nid, model.pass.height, model.pass.rest[1..])));
      }
    }

    /** The source is asked for the message again, and what it gives is cached there. */
    method Regenerate(c: ChainRuntime, src: ChainRuntime, tx: TxObject) returns (answer: Option<seq<Message>>)
      requires Valid() && model.pass.Generating? && model.pass.tx == tx && Runs(src) && src.nid == tx.src
      modifies this`table, this`model, this`trace, src.cache, answers
      ensures Valid() && old(trace) <= trace && model.pass == Scanning(old(model.pass.nid), old(model.pass.height), old(model.pass.rest))
      ensures model.txs == old(model.txs) && model.messages == old(model.messages) && model.heights == old(model.heights)
      ensures Merged(old(table), table, if answer.Some? then answer.value else [], src.cache.messages)
      ensures Kept(old(src.cache.messages), src.cache.messages)
      ensures answers.log == old(answers.log) + [Generation(tx.src, Request(tx.src, tx.dst, tx.sn, tx.eventType, tx.height), answer)]
    {
      hide Valid, Merged, Kept;
      answer := AskGenerated(src, Request(tx.src, tx.dst, tx.sn, tx.eventType, tx.height));
      Generated(answer);
      MergeMessages(src, if answer.Some? then answer.value else []);
      FinishMerge();
    }

    method AskGenerated(src: ChainRuntime, request: Request) returns (answer: Option<seq<Message>>)
      requires Valid() && Runs(src)
      modifies answers
      ensures Valid() && answers.log == old(answers.log) + [Generation(src.nid, request, answer)]
    {
      hide Valid, RoutesOf;
      Recorded(src);
      answer := src.GenerateMessages(request);
      Still();
    }

    ghost method Generated(answer: Option<seq<Message>>)
      requires Valid() && model.pass.Generating?
      requires var tx := model.pass.tx; Generation(tx.src, Request(tx.src, tx.dst, tx.sn, tx.eventType, tx.height), answer) in answers.log
      modifies this`model, this`trace
      ensures Valid() && old(trace) <= trace
      ensures model.pass == Merging(old(model.pass.nid), old(model.pass.height), old(model.pass.rest), old(model.pass.tx.src), if answer.Some? then answer.value else [])
      ensures model.txs == old(model.txs) && model.messages == old(model.messages) && model.heights == old(model.heights)
    {
      hide Valid, Agrees, Wired, RunsTo, Holding, RoutesOf, CachesOf, HeightsOf, KeysOwned, Takes, TakesTwo, Vouched, Mark;
      Parts();
      PassGeneratedStep(Configured(), Holding(), model, answer);
      VouchGenerated(Configured(), model, answer, answers.log, db.writes);
      FollowBacked(Finality(PassGenerated(answer)), DoPassGenerated(model, answer));
    }

    ghost method FinishMerge()
      requires Valid() && model.pass.Merging? && model.pass.msgs == []
      modifies this`model, this`trace
      ensures Valid() && old(trace) <= trace && model == old(model).(pass := Scanning(old(model.pass.nid), old(model.pass.height), old(model.pass.rest)))
    {
      hide Valid, Agrees, Wired, RunsTo, Holding, RoutesOf, CachesOf, HeightsOf, KeysOwned, Takes, TakesTwo, Vouched;
      Parts();
      PassMergedStep(Configured(), Holding(), model);
      Follow(Finality(PassMerged), model.(pass := Scanning(model.pass.nid, model.pass.height, model.pass.rest)));
    }

    /** One record, with every branch of the pass. */
    method CheckRecord(c: ChainRuntime, tx: TxObject, latestHeight: uint64) returns (v: Check)
      requires Valid() && At(c, tx) && c.finalityBlock > 0 && latestHeight == model.pass.height
      modifies this`table, this`model, this`trace, CacheObjects(chains), db, answers
      ensures Valid() && old(trace) <= trace && old(table) <= table
      ensures model.pass == Scanning(c.nid, old(model.pass.height), old(model.pass.rest)[1..])
      ensures model.messages == old(model.messages) && model.heights == old(model.heights)
      ensures model.txs == if Removes(v) then old(model.txs) - {TxStoreKey(tx)} else old(model.txs)
      ensures Judged(tx, v, c.finalityBlock, latestHeight, chains.Keys)
      ensures answers.log == old(answers.log) + QuestionsOf(c.nid, tx, v) && db.writes == old(db.writes) + WritesOf(tx, v)
      ensures forall nid <- chains :: Kept(old(chains[nid].cache.messages), chains[nid].cache.messages)
      ensures v.Regenerated? ==> Merged(old(table), table, Answered(v), chains[tx.src].cache.messages)
      ensures !v.Regenerated? ==> table == old(table)
    {
      hide Valid, Merged, RoutesOf, AtMature, TxStoreKey, DeleteTxOf;
      WaitedOut(c, tx);
      if tx.txHeight == 0 {
        Skip(c, tx);
        return ZeroHeight;
      }
      if (tx.txHeight + c.finalityBlock) % UINT64_SIZE > latestHeight {
        Skip(c, tx);
        return Young;
      }
      v := CheckReceipt(c, tx);
    }

    /** A record that has waited out its finality. */
    method CheckReceipt(c: ChainRuntime, tx: TxObject) returns (v: Check)
      requires Valid() && At(c, tx) && AtMature(Configured(), model)
      modifies this`table, this`model, this`trace, CacheObjects(chains), db, answers
      ensures Valid() && old(trace) <= trace && old(table) <= table
      ensures model.pass == Scanning(c.nid, old(model.pass.height), old(model.pass.rest)[1..])
      ensures model.messages == old(model.messages) && model.heights == old(model.heights)
      ensures model.txs == if Removes(v) then old(model.txs) - {TxStoreKey(tx)} else old(model.txs)
      ensures !v.ZeroHeight? && !v.Young? && (v.UnknownSource? ==> tx.src !in chains) && (v.NotDeleted? || v.Regenerated? ==> tx.src in chains)
      ensures answers.log == old(answers.log) + QuestionsOf(c.nid, tx, v) && db.writes == old(db.writes) + WritesOf(tx, v)
      ensures forall nid <- chains :: Kept(old(chains[nid].cache.messages), chains[nid].cache.messages)
      ensures v.Regenerated? ==> Merged(old(table), table, Answered(v), chains[tx.src].cache.messages)
      ensures !v.Regenerated? ==> table == old(table)
    {
      hide Valid, Merged, RoutesOf, AtMature, TxStoreKey, DeleteTxOf, Answered, Configured, CacheObjects, Runs;
      var receipt := AskReceipt(c, tx);
      if receipt.None? {
        Skip(c, tx);
        return ReceiptError;
      }
      v := JudgeReceipt(c, tx, receipt.value);
    }

    /** The receipt is there: the record is confirmed or given up. */
    method JudgeReceipt(c: ChainRuntime, tx: TxObject, good: bool) returns (v: Check)
      requires Valid() && At(c, tx) && AtMature(Configured(), model)
      requires Receipt(c.nid, tx, Some(good)) in answers.log
      modifies this`table, this`model, this`trace, CacheObjects(chains), db, answers
      ensures Valid() && old(trace) <= trace && old(table) <= table
      ensures model.pass == Scanning(c.nid, old(model.pass.height), old(model.pass.rest)[1..])
      ensures model.messages == old(model.messages) && model.heights == old(model.heights)
      ensures model.txs == if Removes(v) then old(model.txs) - {TxStoreKey(tx)} else old(model.txs)
      ensures if good then v.Confirmed? else v.UnknownSource? || v.NotDeleted? || v.Regenerated?
      ensures !good ==> (v.UnknownSource? <==> tx.src !in chains)
      ensures answers.log == old(answers.log) + if v.Regenerated? then [Generation(tx.src, Request(tx.src, tx.dst, tx.sn, tx.eventType, tx.height), v.answer)] else []
      ensures db.writes == old(db.writes) + WritesOf(tx, v)
      ensures forall nid <- chains :: Kept(old(chains[nid].cache.messages), chains[nid].cache.messages)
      ensures v.Regenerated? ==> Merged(old(table), table, Answered(v), chains[tx.src].cache.messages)
      ensures !v.Regenerated? ==> table == old(table)
    {
      hide Valid, Merged, RoutesOf, AtMature, TxStoreKey, DeleteTxOf, Answered, Configured, CacheObjects, Runs;
      if good {
        var deleted := Confirm(c, tx);
        return Confirmed(deleted);
      }
      v := ReplaceRecord(c, tx);
    }

    method AskReceipt(c: ChainRuntime, tx: TxObject) returns (receipt: Option<bool>)
      requires Valid() && Runs(c)
      modifies answers
      ensures Valid() && answers.log == old(answers.log) + [Receipt(c.nid, tx, receipt)]
    {
      hide Valid, RoutesOf;
      Recorded(c);
      receipt := c.QueryTransactionReceipt(tx.txHash, tx);
      Still();
    }

    /** A record whose transaction is gone: deleted and generated anew, if its source is known. */
    method ReplaceRecord(c: ChainRuntime, tx: TxObject) returns (v: Check)
      requires Valid() && At(c, tx) && AtMature(Configured(), model)
      requires Receipt(c.nid, tx, Some(false)) in answers.log
      modifies this`table, this`model, this`trace, CacheObjects(chains), db, answers
      ensures Valid() && old(trace) <= trace && old(table) <= table
      ensures model.pass == Scanning(c.nid, old(model.pass.height), old(model.pass.rest)[1..])
      ensures model.messages == old(model.messages) && model.heights == old(model.heights)
      ensures model.txs == if Removes(v) then old(model.txs) - {TxStoreKey(tx)} else old(model.txs)
      ensures v.UnknownSource? || v.NotDeleted? || v.Regenerated?
      ensures v.UnknownSource? <==> tx.src !in chains
      ensures answers.log == old(answers.log) + if v.Regenerated? then [Generation(tx.src, Request(tx.src, tx.dst, tx.sn, tx.eventType, tx.height), v.answer)] else []
      ensures db.writes == old(db.writes) + WritesOf(tx, v)
      ensures forall nid <- chains :: Kept(old(chains[nid].cache.messages), chains[nid].cache.messages)
      ensures v.Regenerated? ==> Merged(old(table), table, Answered(v), chains[tx.src].cache.messages)
      ensures !v.Regenerated? ==> table == old(table)
    {
      hide Valid, RoutesOf, AtMature, TxStoreKey, Holds, DeleteTxOf;
      EachWired();
      if tx.src !in chains {
        Skip(c, tx);
        return UnknownSource;
      }
      var deleted := GiveUp(c, tx);
      if !deleted { return NotDeleted; }
      var answer := Regenerate(c, chains[tx.src], tx);
      v := Regenerated(answer);
    }

    /** The pass over one chain's records. The height is read once, before anything else. The log has a
        verdict for each of the first ten records that the scan visits, in its order. */
    method CheckChain(c: ChainRuntime) returns (log: CheckLog)
      requires Valid() && Runs(c) && BetweenChains(model.pass)
      modifies this`table, this`model, this`trace, CacheObjects(chains), db, answers
      ensures Valid() && old(trace) <= trace && old(table) <= table
      ensures BetweenChains(model.pass)
      ensures model.messages == old(model.messages) && model.heights == old(model.heights)
      ensures var scanned := ScannedTxs(old(db.db), c.nid, 10);
        Examined(log) == if c.finalityBlock > 0 && Stores.AllTxs(scanned) then Stores.Txs(scanned) else []
      ensures answers.log == old(answers.log) + AllQuestions(c.nid, log) && db.writes == old(db.writes) + AllWrites(log)
      ensures Logged(log, c.finalityBlock, c.lastBlockHeight, chains.Keys, old(model.txs), model.txs)
      ensures AllKept(old(CachesOf(chains)), CachesOf(chains))
    {
      hide Valid, Logged, Examined, AllQuestions, AllWrites, Stores.Txs, Stores.AllTxs, ScannedTxs, AllKept, CachesOf, TxStoreKey;
      var latestHeight := c.lastBlockHeight;
      Latch(c);
      CachesSame();
      log := CheckLatched(c, latestHeight);
    }

    method CheckLatched(c: ChainRuntime, latestHeight: uint64) returns (log: CheckLog)
      requires Valid() && Runs(c) && model.pass == Latched(c.nid, latestHeight)
      modifies this`table, this`model, this`trace, CacheObjects(chains), db, answers
      ensures Valid() && old(trace) <= trace && old(table) <= table
      ensures BetweenChains(model.pass)
      ensures model.messages == old(model.messages) && model.heights == old(model.heights)
      ensures var scanned := ScannedTxs(old(db.db), c.nid, 10);
        Examined(log) == if c.finalityBlock > 0 && Stores.AllTxs(scanned) then Stores.Txs(scanned) else []
      ensures answers.log == old(answers.log) + AllQuestions(c.nid, log) && db.writes == old(db.writes) + AllWrites(log)
      ensures Logged(log, c.finalityBlock, latestHeight, chains.Keys, old(model.txs), model.txs)
      ensures AllKept(old(CachesOf(chains)), CachesOf(chains))
    {
      hide Valid, Merged, Logged, Examined, AllQuestions, AllWrites, Stores.Txs, Stores.AllTxs, ScannedTxs, Lvldb.Entries, AllKept, CachesOf, TxStoreKey, Configured, Kept, Runs;
      log := [];
      NoneExamined();
      NoQuestions(c.nid);
      NoWrites();
      EmptyLog(c.finalityBlock, latestHeight, chains.Keys, model.txs);
      AllKeptFirst(CachesOf(chains));
      if c.finalityBlock == 0 { return; }
      TxScanHeld(c.nid);
      var txObjects := ScanTxs(c.nid);
      CachesSame();
      if txObjects.Some? {
        StartPass(c, txObjects.value);
        CachesSame();
        log := CheckRecords(c, txObjects.value, latestHeight);
      }
    }

    ghost method Latch(c: ChainRuntime)
      requires Valid() && Runs(c) && BetweenChains(model.pass)
      modifies this`model, this`trace
      ensures Valid() && old(trace) <= trace && model == old(model).(pass := Latched(c.nid, c.lastBlockHeight))
    {
      hide Valid, Agrees, Wired, RunsTo, Holding, RoutesOf, CachesOf, HeightsOf, KeysOwned, Takes, TakesTwo, Vouched, HeightOf;
      Parts();
      WaitOf(c);
      PassLatchStep(Configured(), Holding(), model, c.nid);
      Follow(Finality(PassLatch(c.nid)), model.(pass := Latched(c.nid, HeightOf(model, c.nid))));
    }

    /** The loop over the records the scan gave. */
    method CheckRecords(c: ChainRuntime, txs: seq<TxObject>, latestHeight: uint64) returns (log: CheckLog)
      requires Valid() && Runs(c) && c.finalityBlock > 0 && model.pass == Scanning(c.nid, latestHeight, txs)
      requires (forall tx <- txs :: tx in model.txs.Values) && (forall key <- model.txs :: key == TxStoreKey(model.txs[key]))
      modifies this`table, this`model, this`trace, CacheObjects(chains), db, answers
      ensures Valid() && old(trace) <= trace && old(table) <= table && model.pass == Scanning(c.nid, latestHeight, [])
      ensures model.messages == old(model.messages) && model.heights == old(model.heights)
      ensures LoggedFor(txs, log, c.nid, c.finalityBlock, latestHeight, chains.Keys, old(model.txs), model.txs, old(answers.log), answers.log)
      ensures db.writes == old(db.writes) + AllWrites(log)
      ensures AllKept(old(CachesOf(chains)), CachesOf(chains))
    {
      hide Valid, LoggedFor, AllWrites, AllKept, CachesOf, TxStoreKey, Runs;
      log := [];
      NothingLogged(c.nid, c.finalityBlock, latestHeight, chains.Keys, model.txs, answers.log);
      NoWrites();
      AllKeptFirst(CachesOf(chains));
      for i := 0 to |txs|
        invariant Valid() && old(trace) <= trace && old(table) <= table && model.pass == Scanning(c.nid, latestHeight, txs[i..])
        invariant model.messages == old(model.messages) && model.heights == old(model.heights)
        invariant LoggedFor(txs[..i], log, c.nid, c.finalityBlock, latestHeight, chains.Keys, old(model.txs), model.txs, old(answers.log), answers.log)
        invariant db.writes == old(db.writes) + AllWrites(log)
        invariant AllKept(old(CachesOf(chains)), CachesOf(chains))
      {
        log := CheckEach(c, txs, i, latestHeight, log, old(model.txs), old(CachesOf(chains)), old(answers.log), old(db.writes));
      }
      assert txs[..|txs|] == txs;
    }

    method CheckEach(c: ChainRuntime, txs: seq<TxObject>, i: nat, latestHeight: uint64, log: CheckLog, ghost first: map<StoreKey, TxObject>,
                     ghost caches: map<Nid, Cache>, ghost asked: seq<Asked>, ghost writes: seq<Lvldb.Write>) returns (log': CheckLog)
      requires Valid() && Runs(c) && c.finalityBlock > 0 && i < |txs| && model.pass == Scanning(c.nid, latestHeight, txs[i..])
      requires LoggedFor(txs[..i], log, c.nid, c.finalityBlock, latestHeight, chains.Keys, first, model.txs, asked, answers.log)
      requires txs[i] in first.Values && (forall key <- first :: key == TxStoreKey(first[key]))
      requires AllKept(caches, CachesOf(chains)) && db.writes == writes + AllWrites(log)
      modifies this`table, this`model, this`trace, CacheObjects(chains), db, answers
      ensures Valid() && old(trace) <= trace && old(table) <= table && model.pass == Scanning(c.nid, latestHeight, txs[i + 1..])
      ensures model.messages == old(model.messages) && model.heights == old(model.heights)
      ensures LoggedFor(txs[..i + 1], log', c.nid, c.finalityBlock, latestHeight, chains.Keys, first, model.txs, asked, answers.log)
      ensures AllKept(caches, CachesOf(chains)) && db.writes == writes + AllWrites(log')
    {
      hide Valid, LoggedFor, Judged, QuestionsOf, AllWrites, AllKept, CachesOf, TxStoreKey;
      var v := CheckKeeping(c, txs[i], latestHeight, log, writes);
      LogNext(txs, i, log, c.nid, c.finalityBlock, latestHeight, chains.Keys, first, old(model.txs), asked, old(answers.log), v);
      AllKeptComposes(caches, old(CachesOf(chains)), CachesOf(chains));
      log' := log + [(txs[i], v)];
    }

    method CheckKeeping(c: ChainRuntime, tx: TxObject, latestHeight: uint64, ghost log: CheckLog, ghost writes: seq<Lvldb.Write>)
      returns (v: Check)
      requires Valid() && At(c, tx) && c.finalityBlock > 0 && latestHeight == model.pass.height && db.writes == writes + AllWrites(log)
      modifies this`table, this`model, this`trace, CacheObjects(chains), db, answers
      ensures Valid() && old(trace) <= trace && old(table) <= table
      ensures model.pass == Scanning(c.nid, old(model.pass.height), old(model.pass.rest)[1..])
      ensures model.messages == old(model.messages) && model.heights == old(model.heights)
      ensures model.txs == if Removes(v) then old(model.txs) - {TxStoreKey(tx)} else old(model.txs)
      ensures Judged(tx, v, c.finalityBlock, latestHeight, chains.Keys)
      ensures answers.log == old(answers.log) + QuestionsOf(c.nid, tx, v) && db.writes == writes + AllWrites(log + [(tx, v)])
      ensures AllKept(old(CachesOf(chains)), CachesOf(chains))
    {
      hide Valid, Merged, Judged, QuestionsOf, WritesOf, AllWrites, AllKept, Kept, CachesOf, TxStoreKey, Removes, Runs;
      v := CheckRecord(c, tx, latestHeight);
      WritesAppended(log, tx, v);
      CachesKeptAll();
    }

    method ScanTxs(nid: Nid) returns (txs: Option<seq<TxObject>>)
      requires Valid()
      ensures Valid()
      ensures var scanned := ScannedTxs(db.db, nid, 10);
        txs == if Stores.AllTxs(scanned) then Some(Stores.Txs(scanned)) else None
    {
      hide Lvldb.Entries, GetKey, Stores.Txs, Stores.AllTxs, RoutesOf, Holding, Agrees, RunsTo;
      txs := finalityStore.GetTxObjects(nid, false, 10);
      NothingChanged();
    }

    lemma TxScanHeld(nid: Nid)
      requires Valid()
      ensures Stores.AllTxs(ScannedTxs(db.db, nid, 10)) ==>
        |ScannedTxs(db.db, nid, 10)| <= 10 && forall tx <- Stores.Txs(ScannedTxs(db.db, nid, 10)) :: tx in model.txs.Values
      ensures forall key <- model.txs :: key == TxStoreKey(model.txs[key])
    {
      ModelSound();
      hide Represents, RunsTo, Wired, Distinct, ObjectsAgree, CachesAgree, GoroutinesAgree, HeightsAgree, HeldAlone, Exclusive;
      if Stores.AllTxs(ScannedTxs(db.db, nid, 10)) {
        ScannedTxsHeld(db.db, View(model.messages, model.txs, blocks), nid, 10);
      }
    }

    ghost method StartPass(c: ChainRuntime, txs: seq<TxObject>)
      requires Valid() && Runs(c) && c.finalityBlock > 0 && model.pass.Latched? && model.pass.nid == c.nid
      requires |txs| <= 10 && forall tx <- txs :: tx in model.txs.Values
      modifies this`model, this`trace
      ensures Valid() && old(trace) <= trace && model == old(model).(pass := Scanning(c.nid, old(model.pass.height), txs))
    {
      hide Valid, Agrees, Wired, RunsTo, Holding, RoutesOf, CachesOf, HeightsOf, KeysOwned, Takes, TakesTwo, Vouched;
      Parts();
      WaitOf(c);
      PassReadStep(Configured(), Holding(), model, txs);
      Follow(Finality(PassRead(txs)), model.(pass := Scanning(c.nid, model.pass.height, txs)));
    }

    /** The whole pass. A record leaves the finality store exactly when some chain's log has it
        confirmed or given up, which takes a record that has waited out its finality there. */
    method CheckFinality() returns (logs: map<Nid, CheckLog>)
      requires Valid() && BetweenChains(model.pass)
      modifies this`table, this`model, this`trace, CacheObjects(chains), db, answers
      ensures Valid() && old(trace) <= trace && old(table) <= table
      ensures BetweenChains(model.pass) && model.messages == old(model.messages)
      ensures Covers(logs, chains.Keys, {})
      ensures LoggedAll(logs, WaitsOf(chains), HeightsOf(chains), chains.Keys, old(model.txs), model.txs)
      ensures AllKept(old(CachesOf(chains)), CachesOf(chains))
      ensures old(answers.log) <= answers.log && AllAsk(logs, answers.log, |old(answers.log)|)
      ensures old(db.writes) <= db.writes && AllWrite(logs, db.writes, |old(db.writes)|)
    {
      hide Valid, Logged, LoggedAll, HeightsOf, CachesOf, AllKept, Kept, Covers, AllAsk, AllWrite;
      logs := map[];
      CoversNone(chains.Keys);
      NoneAsks(answers.log, db.writes);
      AllKeptFirst(CachesOf(chains));
      NoLogs(WaitsOf(chains), HeightsOf(chains), chains.Keys, model.txs);
      var todo := chains.Keys;
      while todo != {}
        invariant Valid() && old(trace) <= trace && old(table) <= table && todo <= chains.Keys
        invariant BetweenChains(model.pass) && model.messages == old(model.messages)
        invariant Covers(logs, chains.Keys, todo)
        invariant LoggedAll(logs, WaitsOf(chains), HeightsOf(chains), chains.Keys, old(model.txs), model.txs)
        invariant AllKept(old(CachesOf(chains)), CachesOf(chains))
        invariant old(answers.log) <= answers.log && AllAsk(logs, answers.log, |old(answers.log)|)
        invariant old(db.writes) <= db.writes && AllWrite(logs, db.writes, |old(db.writes)|)
      {
        var nid :| nid in todo;
        CoversOne(logs, chains.Keys, todo, nid);
        var log := CheckNext(nid, logs, old(model.txs), old(CachesOf(chains)), |old(answers.log)|, |old(db.writes)|);
        CoversAfter(logs, chains.Keys, todo, nid, log);
        todo := todo - {nid};
        logs := logs[nid := log];
      }
    }

    method CheckNext(nid: Nid, logs: map<Nid, CheckLog>, ghost first: map<StoreKey, TxObject>, ghost caches: map<Nid, Cache>,
                     ghost since: nat, ghost from: nat) returns (log: CheckLog)
      requires Valid() && BetweenChains(model.pass) && nid in chains && nid !in logs
      requires LoggedAll(logs, WaitsOf(chains), HeightsOf(chains), chains.Keys, first, model.txs)
      requires AllKept(caches, CachesOf(chains)) && since <= |answers.log| && AllAsk(logs, answers.log, since)
      requires from <= |db.writes| && AllWrite(logs, db.writes, from)
      modifies this`table, this`model, this`trace, CacheObjects(chains), db, answers
      ensures Valid() && old(trace) <= trace && old(table) <= table
      ensures BetweenChains(model.pass) && model.messages == old(model.messages)
      ensures LoggedAll(logs[nid := log], WaitsOf(chains), HeightsOf(chains), chains.Keys, first, model.txs)
      ensures old(answers.log) <= answers.log && AllAsk(logs[nid := log], answers.log, since)
      ensures old(db.writes) <= db.writes && AllWrite(logs[nid := log], db.writes, from)
      ensures AllKept(caches, CachesOf(chains)) && HeightsOf(chains) == old(HeightsOf(chains))
    {
      hide Valid, Logged, LoggedAll, HeightsOf, CachesOf, AllKept, WaitsOf, AllAsk, AllWrite, AllQuestions, AllWrites;
      log := CheckNamed(nid);
      AllAskOne(logs, old(answers.log), answers.log, since, nid, log);
      AllWriteOne(logs, old(db.writes), db.writes, from, nid, log);
      AllKeptComposes(caches, old(CachesOf(chains)), CachesOf(chains));
      LogChain(logs, WaitsOf(chains), HeightsOf(chains), chains.Keys, first, old(model.txs), model.txs, nid, log);
    }

    method CheckNamed(nid: Nid) returns (log: CheckLog)
      requires Valid() && BetweenChains(model.pass) && nid in chains
      modifies this`table, this`model, this`trace, CacheObjects(chains), db, answers
      ensures Valid() && old(trace) <= trace && old(table) <= table
      ensures BetweenChains(model.pass) && model.messages == old(model.messages)
      ensures answers.log == old(answers.log) + AllQuestions(nid, log) && db.writes == old(db.writes) + AllWrites(log)
      ensures nid in WaitsOf(chains) && nid in HeightsOf(chains)
      ensures Logged(log, WaitsOf(chains)[nid], HeightsOf(chains)[nid], chains.Keys, old(model.txs), model.txs)
      ensures AllKept(old(CachesOf(chains)), CachesOf(chains)) && HeightsOf(chains) == old(HeightsOf(chains))
    {
      hide Valid, Logged, HeightsOf, CachesOf, AllKept, Kept, AllQuestions, AllWrites, Configured, Examined, Stores.AllTxs, Stores.Txs, ScannedTxs;
      RuntimeAt(nid);
      log := CheckChain(chains[nid]);
      HeightsSame();
    }

    // ----- Heights and requests

    method SaveBlockHeight(src: ChainRuntime, height: uint64) returns (ok: bool)
      requires Valid() && Runs(src)
      modifies this`blocks, this`model, this`trace, src, db
      ensures Valid() && old(trace) <= trace && src.lastSavedHeight == height && src.lastBlockHeight == height
      ensures blocks == if ok then old(blocks)[src.nid := height] else old(blocks)
      ensures model == old(model).(heights := old(model.heights)[src.nid := height])
      ensures db.writes == old(db.writes) + [PutBlockOf(src.nid, height, ok)]
    {
      hide Valid, Agrees, Wired, RunsTo, Holding, RoutesOf, CachesOf, HeightsOf, KeysOwned, Takes, TakesTwo, Vouched, PutBlock, PutBlockOf;
      Parts();
      ok := WriteHeight(src, height);
      Grown(old(db.writes));
      StepSave(Configured(), old(Holding()), model, src.nid, height, ok);
      Follow(In(NewHeight(src.nid, height)), model.(heights := model.heights[src.nid := height]));
    }

    method WriteHeight(src: ChainRuntime, height: uint64) returns (ok: bool)
      requires Wired() && Runs(src)
      modifies this`blocks, src, db
      ensures src.lastSavedHeight == height && src.lastBlockHeight == height
      ensures blocks == if ok then old(blocks)[src.nid := height] else old(blocks)
      ensures var w := old(Holding());
        Holding() == w.(heights := w.heights[src.nid := height], db := PutBlock(w.db, src.nid, height, ok), blocks := blocks)
      ensures db.writes == old(db.writes) + [PutBlockOf(src.nid, height, ok)]
    {
      hide RoutesOf, CachesOf, HeightsOf, GetKey;
      src.lastSavedHeight := height;
      src.lastBlockHeight := height;
      ok := blockStore.StoreBlock(height, src.nid);
      if ok { blocks := blocks[src.nid := height]; }
      CachesSame();
      HeightsChanged(src);
    }

    /** The key a request names. A negative number reads like the name of another chain. */
    function RequestKey(chain: Nid, sn: int): StoreKey {
      var (n, k) := Normalized(chain, sn); StoreKey(n, k)
    }

    /** GetMessage for a request: what the typed store holds under the key it comes to. */
    method GetRequested(chain: Nid, sn: int) returns (message: Option<Route>)
      requires Valid()
      ensures Valid()
      ensures var key := RequestKey(chain, sn);
        message == if key in model.messages then Some(model.messages[key]) else None
    {
      hide Valid, RoutesOf, ScopedKey, RequestKey, Represents;
      RequestKeyIs(chain, sn);
      Requested(RequestKey(chain, sn));
      message := messageStore.GetMessage(chain, sn);
      Still();
    }

    lemma Requested(key: StoreKey)
      requires Valid()
      ensures Wired()
      ensures MessageDbKey(key) in db.db <==> key in model.messages
      ensures key in model.messages ==> db.db[MessageDbKey(key)] == Lvldb.MessageValue(model.messages[key])
    {
      hide RunsTo, Represents, Distinct, ObjectsAgree, CachesAgree, GoroutinesAgree, HeightsAgree, MessageDbKey, Vouched;
      GetRefines(db.db, View(model.messages, model.txs, blocks), key, "");
    }

    lemma RequestKeyIs(chain: Nid, sn: int)
      ensures MessageDbKey(RequestKey(chain, sn)) == ScopedKey(MESSAGE, chain, sn)
    {
      var key := RequestKey(chain, sn);
      ScopedKeyEqual(MESSAGE, chain, sn, key.nid, key.sn);
    }

    /** EventMessageRemove. The cache is left alone. */
    method RemoveMessage(chain: Nid, sn: int) returns (message: Option<Route>, ok: bool)
      requires Valid()
      modifies this`model, this`trace, db
      ensures Valid() && old(trace) <= trace
      ensures message == if RequestKey(chain, sn) in old(model.messages) then Some(old(model.messages)[RequestKey(chain, sn)]) else None
      ensures ok ==> message.Some? && RequestKey(chain, sn) in old(model.messages) && model == DoRemoveByHand(old(model), RequestKey(chain, sn))
      ensures !ok ==> model == old(model)
      ensures db.writes == old(db.writes) + if message.Some? then [DeleteOf(RequestKey(chain, sn), ok)] else []
    {
      hide Valid, RequestKey, DeleteOf;
      message := GetRequested(chain, sn);
      ok := false;
      if message.Some? { ok := DeleteRequested(chain, sn); }
    }

    method DeleteRequested(chain: Nid, sn: int) returns (ok: bool)
      requires Valid() && RequestKey(chain, sn) in model.messages
      modifies this`model, this`trace, db
      ensures Valid() && old(trace) <= trace && RequestKey(chain, sn) in old(model.messages)
      ensures model == if ok then DoRemoveByHand(old(model), RequestKey(chain, sn)) else old(model)
      ensures db.writes == old(db.writes) + [DeleteOf(RequestKey(chain, sn), ok)]
    {
      hide Valid, Agrees, Wired, RunsTo, Holding, RoutesOf, CachesOf, HeightsOf, KeysOwned, Takes, TakesTwo, Vouched, DeleteMessage, DeleteOf, RequestKey, DoRemoveByHand;
      Parts();
      ok := DropRequested(chain, sn);
      Grown(old(db.writes));
      if ok {
        RemoveStep(Configured(), old(Holding()), model, RequestKey(chain, sn));
        Follow(In(RemoveByHand(RequestKey(chain, sn))), DoRemoveByHand(model, RequestKey(chain, sn)));
      } else {
        NotDeletedMessage(old(Holding()), RequestKey(chain, sn));
        Together();
      }
    }

    lemma Together()
      requires Wired() && RunsTo(Configured(), born, past, trace, model) && Agrees(Configured(), Holding(), model)
      requires Vouched(Configured(), model, answers.log, db.writes)
      ensures Valid()
    {
    }

    method DropRequested(chain: Nid, sn: int) returns (ok: bool)
      requires Wired()
      modifies db
      ensures Holding() == old(Holding()).(db := DeleteMessage(old(db.db), RequestKey(chain, sn), ok))
      ensures db.writes == old(db.writes) + [DeleteOf(RequestKey(chain, sn), ok)]
    {
      hide RoutesOf, CachesOf, HeightsOf, ScopedKey, RequestKey;
      RequestKeyIs(chain, sn);
      ok := messageStore.DeleteMessage(chain, sn);
      CachesSame();
      HeightsSame();
    }

    /** EventPruneDB. */
    method PruneDB() returns (ok: bool)
      requires Valid()
      modifies this`blocks, this`model, this`trace, db
      ensures Valid() && old(trace) <= trace
      ensures ok ==> db.db == map[] && blocks == map[] && model == DoPrune(old(model))
      ensures !ok ==> model == old(model) && blocks == old(blocks)
      ensures db.writes == old(db.writes) + [Lvldb.Empty(ok)]
    {
      hide Valid, Agrees, Wired, RunsTo, Holding, RoutesOf, CachesOf, HeightsOf, KeysOwned, Takes, TakesTwo, Vouched, DoPrune;
      Parts();
      ok := Clear();
      Grown(old(db.writes));
      if ok {
        PruneStep(Configured(), old(Holding()), model);
        Follow(In(Prune), DoPrune(model));
      } else {
        Together();
      }
    }

    method Clear() returns (ok: bool)
      requires Wired()
      modifies this`blocks, db
      ensures ok ==> db.db == map[] && blocks == map[]
      ensures Holding() == if ok then old(Holding()).(db := map[], blocks := map[]) else old(Holding())
      ensures db.writes == old(db.writes) + [Lvldb.Empty(ok)]
    {
      hide RoutesOf, CachesOf, HeightsOf;
      ok := db.ClearStore();
      if ok { blocks := map[]; }
      CachesSame();
      HeightsSame();
    }

    /** EventRelayMessage for a known chain: with a height, what the provider generates is cached;
        without, a copy of the stored message, stale or not. */
    method RelayMessage(src: ChainRuntime, sn: int, height: uint64) returns (added: Option<seq<Message>>)
      requires Valid() && Runs(src)
      modifies this`table, this`model, this`trace, src.cache, answers
      ensures Valid() && old(trace) <= trace && Kept(old(src.cache.messages), src.cache.messages)
      ensures model.messages == old(model.messages) && model.txs == old(model.txs)
      ensures answers.log == old(answers.log) +
        if height != 0 then [Generation(src.nid, Request(src.nid, "", sn, "", height), added)] else []
      ensures height == 0 ==> (added.Some? <==> RequestKey(src.nid, sn) in model.messages)
      ensures height == 0 && added.Some? ==>
        |table| == |old(table)| + 1 && Holds(src.cache.messages, table[|old(table)|]) &&
        table[|old(table)|].Value() == model.messages[RequestKey(src.nid, sn)]
      ensures height != 0 && added.Some? ==> Merged(old(table), table, added.value, src.cache.messages)
    {
      hide Valid, RequestKey, Holds, Merged, RoutesOf;
      if height != 0 {
        added := AskGenerated(src, Request(src.nid, "", sn, "", height));
        if added.None? { return; }
        AddGenerated(src, added.value);
        return;
      }
      var message := GetRequested(src.nid, sn);
      if message.None? { return None; }
      ghost var cached := src.cache.messages;
      var copy := CacheCopy(src, message.value, RequestKey(src.nid, sn), ForRelay);
      JustFiled(cached, copy);
      added := Some([message.value.msg]);
    }

    method AddGenerated(src: ChainRuntime, messages: seq<Message>)
      requires Valid() && Runs(src)
      modifies this`table, this`model, this`trace, src.cache
      ensures Valid() && old(trace) <= trace && Kept(old(src.cache.messages), src.cache.messages)
      ensures model.messages == old(model.messages) && model.txs == old(model.txs)
      ensures Merged(old(table), table, messages, src.cache.messages)
    {
      hide Valid, Merged, Kept, NewEntry, Filed;
      MergedNone(table, src.cache.messages);
      KeptAtFirst(src.cache.messages);
      ghost var before := src.cache.messages;
      for i := 0 to |messages|
        invariant Valid() && old(trace) <= trace && Kept(before, src.cache.messages)
        invariant model.messages == old(model.messages) && model.txs == old(model.txs)
        invariant Merged(old(table), table, messages[..i], src.cache.messages)
      {
        ghost var cached := src.cache.messages;
        MergeNext(src, messages, i, old(table), false);
        KeptOn(before, cached, src.cache.messages);
      }
      assert messages[..|messages|] == messages;
    }

    // ----- Starting

    /** The saved heights are read back; a chain without one keeps zero. */
    method LoadHeights()
      requires Valid() && forall nid <- chains :: chains[nid].lastSavedHeight == 0
      modifies Runtimes(chains)
      ensures Valid()
      ensures forall nid <- chains :: chains[nid].lastSavedHeight == if nid in blocks then blocks[nid] else 0
    {
      hide Valid, RoutesOf;
      EachWired();
      var todo := chains.Keys;
      while todo != {}
        invariant Valid() && todo <= chains.Keys
        invariant forall nid <- todo :: chains[nid].lastSavedHeight == 0
        invariant forall nid <- chains - todo :: chains[nid].lastSavedHeight == if nid in blocks then blocks[nid] else 0
      {
        var nid :| nid in todo;
        todo := todo - {nid};
        LoadHeight(chains[nid]);
      }
    }

    method LoadHeight(src: ChainRuntime)
      requires Valid() && Runs(src)
      modifies src`lastSavedHeight
      ensures Valid() && src.lastSavedHeight == if src.nid in blocks then blocks[src.nid] else old(src.lastSavedHeight)
    {
      hide Valid, RoutesOf;
      BlockKept(src.nid);
      var height := blockStore.GetLastStoredBlock(src.nid);
      if height.Some? { src.lastSavedHeight := height.value; }
      Still();
    }

    lemma BlockKept(nid: Nid)
      requires Valid()
      ensures Wired()
      ensures BlockDbKey(nid) in db.db <==> nid in blocks
      ensures nid in blocks ==> db.db[BlockDbKey(nid)] == Lvldb.HeightValue(blocks[nid])
    {
      hide RunsTo, Represents, Distinct, ObjectsAgree, CachesAgree, GoroutinesAgree, HeightsAgree, BlockDbKey;
      GetRefines(db.db, View(model.messages, model.txs, blocks), StoreKey(nid, 0), nid);
    }

    // ----- What holds of the objects after any number of calls

    ghost predicate StoredInDb(m: Message)
      reads db
    {
      var key := MessageDbKey(MessageStoreKey(m)); key in db.db && db.db[key].MessageValue? && db.db[key].route.msg == m
    }

    ghost predicate WatchedInDb(m: Message)
      reads db
    {
      var key := TxDbKey(StoreKey(m.dst, m.sn)); key in db.db && db.db[key].TxValue? && Matches(m, db.db[key].tx)
    }

    ghost predicate InSomeCache(m: Message)
      reads CacheObjects(chains)
    {
      exists nid, k :: nid in chains && k in chains[nid].cache.messages && chains[nid].cache.messages[k].message == m
    }

    lemma InDb(m: Message)
      requires Valid()
      ensures StoredInDb(m) <==> Stored(model, m)
      ensures WatchedInDb(m) <==> Watched(model, m)
    {
      hide RunsTo, Represents, Distinct, ObjectsAgree, CachesAgree, GoroutinesAgree, HeightsAgree, MessageDbKey, TxDbKey;
      GetRefines(db.db, View(model.messages, model.txs, blocks), MessageStoreKey(m), "");
      GetRefines(db.db, View(model.messages, model.txs, blocks), StoreKey(m.dst, m.sn), "");
    }

    lemma InCache(m: Message)
      requires Valid() && FirmlyCached(model, m)
      ensures InSomeCache(m)
    {
      var i :| 0 <= i < |model.objs| && model.objs[i].route.msg == m && Firm(model, i);
      hide RunsTo, Represents, GoroutinesAgree, HeightsAgree, Distinct, RoutesOf;
      ObjectsCountedIn(Configured(), Holding(), model);
      KeyFindsOwn(Configured(), Holding(), model, i);
      var nid := model.objs[i].home;
      assert nid in chains && table[i].Key() in chains[nid].cache.messages;
      assert chains[nid].cache.messages[table[i].Key()].message == m;
    }

    /** Dropped for an unknown destination, after a day, by a request, a prune, a failed generation or a
        message under the same key: not by losing what was in memory, nor by a late clear. */
    ghost predicate DroppedOnPurpose(m: Message)
      reads this`model
    {
      m in model.dropped && !model.dropped[m].LostInCrash? && !model.dropped[m].LateClear?
    }

    /** Whatever has been called so far, each observed message is in the database, in some cache, settled
        by an answer, dropped for a named cause, or in the hands of the finality pass; and unless a receipt
        said that its delivery is gone or a write of it is on record as refused, it does not need a cache,
        and the cause is neither a crash nor a late clear. */
    lemma NothingLost(m: Message)
      requires Valid() && m in model.observed
      ensures StoredInDb(m) || WatchedInDb(m) || SomeSettles(answers.log, m) || m in model.dropped ||
              Regenerating(model, m) || InSomeCache(m)
      ensures !SomeRevokes(answers.log, m) && !SomeRefuses(db.writes, m) ==>
        StoredInDb(m) || WatchedInDb(m) || SomeSettles(answers.log, m) || DroppedOnPurpose(m)
    {
      Backing(m);
      hide Agrees, StoredInDb, WatchedInDb, InSomeCache, Stored, Watched, Enabled, Next, FirmlyCached, Vouched;
      hide SomeSettles, SomeRevokes, SomeRefuses;
      ConservedHere(m);
      InDb(m);
      if FirmlyCached(model, m) { InCache(m); }
    }

    /** So if no write has ever failed, only messages whose delivery a receipt called gone need a cache. */
    lemma NoWriteFailed(m: Message)
      requires Valid() && m in model.observed && (forall w <- db.writes :: w.ok) && !SomeRevokes(answers.log, m)
      ensures StoredInDb(m) || WatchedInDb(m) || SomeSettles(answers.log, m) || DroppedOnPurpose(m)
    {
      NoneRefused(db.writes, m);
      hide Valid, StoredInDb, WatchedInDb, SomeSettles, SomeRevokes, SomeRefuses;
      NothingLost(m);
    }

    /** Every claim about a message rests on what a provider answered or on a write: that it is settled,
        that a delivery of it succeeded, that its record was given up, that regeneration failed, and that
        the database would not take it; and what was dropped for an unknown destination was so by a relayer
        made without that chain. */
    lemma Backing(m: Message)
      requires Valid()
      ensures m in model.settled ==> SomeSettles(answers.log, m)
      ensures WatchedInDb(m) ==> SomeRecords(answers.log, db.db[TxDbKey(StoreKey(m.dst, m.sn))].tx)
      ensures m in model.handed ==> SomeRevokes(answers.log, m)
      ensures m in model.dropped && model.dropped[m].RegenerationFailed? ==> SomeWithholds(answers.log, m)
      ensures m in model.dropped && model.dropped[m].UnknownDestination? ==> SomeLacks(answers.log, m)
      ensures m in model.unwritten ==> SomeRefuses(db.writes, m)
    {
      hide RunsTo, Represents, Distinct, ObjectsAgree, CachesAgree, GoroutinesAgree, HeightsAgree, MessageDbKey, TxDbKey;
      hide SomeSettles, SomeRecords, SomeRevokes, SomeWithholds, SomeLacks, SomeRefuses;
      GetRefines(db.db, View(model.messages, model.txs, blocks), StoreKey(m.dst, m.sn), "");
    }

    /** A message observed at some point of the run and now neither in the database nor in a cache nor with
        the finality pass has been ended since by a named event for it, whatever came before. */
    lemma GoneForCause(m: Message, before: seq<Label>, nid: Nid, ok: bool, after: seq<Label>)
      requires Valid() && trace == before + [In(Observe(nid, m, ok))] + after
      requires !StoredInDb(m) && !WatchedInDb(m) && !InSomeCache(m) && !Regenerating(model, m)
      ensures ValidReigns(born, past)
      ensures ValidRun(Configured(), Reached(born, past), before + [In(Observe(nid, m, ok))])
      ensures var s := Final(Configured(), Reached(born, past), before + [In(Observe(nid, m, ok))]);
        ValidRun(Configured(), s, after) && LeftAlong(Configured(), s, after, m)
    {
      InDb(m);
      if FirmlyCached(model, m) { InCache(m); }
      ReachedLossless(born, past, Configured());
      hide Agrees, StoredInDb, WatchedInDb, InSomeCache, Stored, Watched, Enabled, Next, FirmlyCached, Vouched, Regenerating;
      hide ValidReigns, Reached, Lossless, Orderly;
      ObservedSplit(Configured(), Reached(born, past), before, nid, m, ok, after);
    }

    /** A message whose observation the database accepted, and that is now not in it, has been ended since
        by an event that takes messages from the database: no crash, no eviction does. */
    lemma DeletedForCause(m: Message, before: seq<Label>, nid: Nid, after: seq<Label>)
      requires Valid() && trace == before + [In(Observe(nid, m, true))] + after && !StoredInDb(m) && !WatchedInDb(m)
      ensures ValidReigns(born, past)
      ensures ValidRun(Configured(), Reached(born, past), before + [In(Observe(nid, m, true))])
      ensures var s := Final(Configured(), Reached(born, past), before + [In(Observe(nid, m, true))]);
        ValidRun(Configured(), s, after) && EndsAlong(Configured(), s, after, m)
    {
      InDb(m);
      ReachedLossless(born, past, Configured());
      hide Agrees, StoredInDb, WatchedInDb, Stored, Watched, Enabled, Next, Vouched, ValidReigns, Reached, Lossless, Orderly;
      AcceptedSplit(Configured(), Reached(born, past), before, nid, m, after);
    }

    lemma ConservedHere(m: Message)
      requires RunsTo(Configured(), born, past, trace, model) && m in model.observed
      ensures Stored(model, m) || Watched(model, m) || m in model.settled || m in model.dropped || Regenerating(model, m) || FirmlyCached(model, m)
      ensures m !in model.handed && m !in model.unwritten ==>
        (Stored(model, m) || Watched(model, m) || m in model.settled || m in model.dropped) &&
        (m in model.dropped ==> DroppedOnPurpose(m))
    {
      hide Enabled, Next, FirmlyCached, Regenerating, ValidReigns, Reached;
      ConservedAcross(born, past, Configured(), trace, m);
    }

    /** Goroutines that are routing or calling back have different objects, all marked as processing. */
    lemma OneGoroutineEach(t: nat, u: nat)
      requires Valid() && t < |goroutines| && u < |goroutines| && t != u
      requires Active(model.tasks[t].phase) && Active(model.tasks[u].phase)
      ensures goroutines[t].message != goroutines[u].message
      ensures goroutines[t].message.processing && goroutines[u].message.processing
    {
      ModelSound();
      GoroutineHandles(t);
      GoroutineHandles(u);
      Known(model.tasks[t].ref);
      Known(model.tasks[u].ref);
      hide Agrees, RunsTo, KeysOwned, HeldAlone;
    }
  }

  // ----- Starting and restarting

  method MakeRuntimes(waits: map<Nid, uint64>, ghost answers: AnswerLog) returns (chains: map<Nid, ChainRuntime>)
    ensures WaitsOf(chains) == waits && chains.Keys == waits.Keys && forall nid <- chains :: chains[nid].nid == nid && chains[nid].answers == answers
    ensures forall nid <- chains :: fresh(chains[nid]) && fresh(chains[nid].cache) && chains[nid].cache.messages == map[]
    ensures forall nid <- chains :: chains[nid].lastBlockHeight == 0 && chains[nid].lastSavedHeight == 0
    ensures forall a, b :: a in chains && b in chains && a != b ==> chains[a].cache != chains[b].cache
  {
    chains := map[];
    var todo := waits.Keys;
    while todo != {}
      invariant todo <= waits.Keys && chains.Keys == waits.Keys - todo
      invariant forall nid <- chains :: chains[nid].nid == nid && chains[nid].finalityBlock == waits[nid] && chains[nid].answers == answers
      invariant forall nid <- chains :: fresh(chains[nid]) && fresh(chains[nid].cache) && chains[nid].cache.messages == map[]
      invariant forall nid <- chains :: chains[nid].lastBlockHeight == 0 && chains[nid].lastSavedHeight == 0
      invariant forall a, b :: a in chains && b in chains && a != b ==> chains[a].cache != chains[b].cache
    {
      var nid :| nid in todo;
      var runtime := new ChainRuntime(nid, waits[nid], answers);
      chains := chains[nid := runtime];
      todo := todo - {nid};
    }
  }

  /** NewRelayer for the first time, on an empty database. */
  method Start(db: Lvldb.LVLDB, waits: map<Nid, uint64>, now: int) returns (r: Relayer)
    requires db.db == map[]
    ensures fresh(r) && r.Valid() && r.past == [] && r.trace == [] && r.model == Init(now) && r.db == db && WaitsOf(r.chains) == waits
    ensures fresh(r.answers) && r.answers.log == [Began(waits.Keys)]
  {
    hide RoutesOf, CachesOf, HeightsOf, RunsTo, Agrees, Relayer.Wired, Vouched;
    var answers := new AnswerLog();
    answers.log := [Began(waits.Keys)];
    var chains := MakeRuntimes(waits, answers);
    r := new Relayer(db, chains, now, [], map[], now, [], [], Init(now), answers);
    EmptyRun(r.Configured(), now, db.writes);
    EmptyTable();
    InitAgrees(r.Configured(), r.Holding());
  }

  /** What a process knows that starts over what another left: nothing of what was in memory, and with
      other chains than before not even that there were objects. */
  function Resumed(s: State, same: bool, pause: nat): State {
    if same then DoCrash(s).(now := s.now + pause) else Carried(s, pause)
  }

  /** NewRelayer on the database an earlier relayer left when it died, some time later: what was in
      memory is gone, with `clean` what was in the database too, and nothing else. With the same chains and
      finality waits the run goes on; with others, and they can be any, another begins where it ended. */
  method Restart(db: Lvldb.LVLDB, waits: map<Nid, uint64>, now: int, clean: bool, ghost before: Relayer)
    returns (r: Relayer, ok: bool)
    requires before.Valid() && db == before.db && now >= before.clock
    modifies db, before.answers
    ensures fresh(r) && r.Valid() && r.born == before.born && (!clean ==> ok)
    ensures r.db == db && WaitsOf(r.chains) == waits && r.answers == before.answers
    ensures r.answers.log == old(before.answers.log) + [Began(waits.Keys)]
    ensures db.writes == old(db.writes) + if clean then [Lvldb.Empty(ok)] else []
    ensures if waits == WaitsOf(before.chains) then r.past == before.past && old(before.trace) < r.trace
            else r.past == before.past + [Reign(before.Configured(), old(before.trace), now - old(before.clock))]
    ensures old(before.model.now) == old(before.clock)
    ensures var s := Resumed(old(before.model), waits == WaitsOf(before.chains), now - old(before.clock));
      ok ==> r.model == if clean then DoPrune(s) else s
    ensures ok ==> r.blocks == if clean then map[] else old(before.blocks)
    ensures !clean ==> db.db == old(db.db)
    ensures forall nid <- r.chains :: fresh(r.chains[nid].cache) && r.chains[nid].cache.messages == map[]
    ensures forall nid <- r.chains :: r.chains[nid].lastSavedHeight == if nid in r.blocks then r.blocks[nid] else 0
  {
    hide Relayer.Valid, RoutesOf, DoPrune, WaitsOf, Resumed;
    r := Remake(db, waits, now, before);
    ok := Prepare(r, clean);
  }

  method Remake(db: Lvldb.LVLDB, waits: map<Nid, uint64>, now: int, ghost before: Relayer) returns (r: Relayer)
    requires before.Valid() && db == before.db && now >= before.clock
    modifies before.answers
    ensures fresh(r) && r.Valid() && r.born == before.born && r.db == db && WaitsOf(r.chains) == waits && r.answers == before.answers
    ensures r.answers.log == old(before.answers.log) + [Began(waits.Keys)]
    ensures if waits == WaitsOf(before.chains) then r.past == before.past && before.trace < r.trace
            else r.past == before.past + [Reign(before.Configured(), before.trace, now - before.clock)]
    ensures before.model.now == before.clock
    ensures r.model == Resumed(before.model, waits == WaitsOf(before.chains), now - before.clock) && r.blocks == before.blocks
    ensures forall nid <- r.chains :: fresh(r.chains[nid]) && fresh(r.chains[nid].cache)
    ensures forall nid <- r.chains :: r.chains[nid].cache.messages == map[] && r.chains[nid].lastSavedHeight == 0
  {
    hide Relayer.Valid, RoutesOf, WaitsOf, Resumed;
    NowIsClock(before);
    before.answers.log := before.answers.log + [Began(waits.Keys)];
    var chains := MakeRuntimes(waits, before.answers);
    before.Still();
    r := Revive(db, chains, now, before);
  }

  lemma NowIsClock(r: Relayer)
    requires r.Valid()
    ensures r.model.now == r.clock
  {
    hide Relayer.Wired, RunsTo, Vouched;
  }

  /** A restart and the first flush. A cached message is then a copy of one that the flush takes from the
      database, and of all those there is one: what lies beyond the first ten of its chain's scan, or is
      stale, is in no cache. */
  method Recover(db: Lvldb.LVLDB, waits: map<Nid, uint64>, now: int, ghost before: Relayer) returns (r: Relayer)
    requires before.Valid() && db == before.db && now >= before.clock
    modifies db, before.answers
    ensures fresh(r) && r.Valid() && r.db == db && db.db == old(db.db) && db.writes == old(db.writes) && WaitsOf(r.chains) == waits
    ensures forall nid, route :: nid in r.chains ==>
      (InContents(Contents(r.chains[nid].cache.messages), route) <==> route in ToFlush(db.db, nid))
  {
    hide Relayer.Valid, ToFlush, WaitsOf, Resumed, Contents, FlushedAll;
    var ok;
    r, ok := Restart(db, waits, now, false, before);
    ghost var empty := ContentsOf(r.chains);
    NothingCached(r.chains);
    r.FlushMessages();
    AfterFlush(r.chains, empty, db.db);
  }

  lemma NothingCached(chains: map<Nid, ChainRuntime>)
    requires forall nid <- chains :: chains[nid].cache.messages == map[]
    ensures forall nid <- chains :: ContentsOf(chains)[nid] == map[]
  {
  }

  lemma AfterFlush(chains: map<Nid, ChainRuntime>, empty: map<Nid, map<MessageKey, Route>>, db: map<string, Lvldb.Value>)
    requires FlushedAll(empty, ContentsOf(chains), db, {}) && (forall nid <- empty :: empty[nid] == map[])
    ensures forall nid, route :: nid in chains ==>
      (InContents(Contents(chains[nid].cache.messages), route) <==> route in ToFlush(db, nid))
  {
    hide ToFlush, Flushed;
    forall nid, route | nid in chains
      ensures InContents(Contents(chains[nid].cache.messages), route) <==> route in ToFlush(db, nid)
    {
      assert ContentsOf(chains)[nid] == Contents(chains[nid].cache.messages);
      FlushedFromEmpty(ContentsOf(chains)[nid], ToFlush(db, nid), route);
    }
  }

  method Prepare(r: Relayer, clean: bool) returns (ok: bool)
    requires r.Valid() && forall nid <- r.chains :: r.chains[nid].lastSavedHeight == 0
    modifies r`blocks, r`model, r`trace, r.db, Runtimes(r.chains)
    ensures r.Valid() && old(r.trace) <= r.trace && (!clean ==> ok)
    ensures ok ==> r.model == if clean then DoPrune(old(r.model)) else old(r.model)
    ensures ok ==> r.blocks == if clean then map[] else old(r.blocks)
    ensures !clean ==> r.db.db == old(r.db.db)
    ensures r.db.writes == old(r.db.writes) + if clean then [Lvldb.Empty(ok)] else []
    ensures forall nid <- r.chains :: r.chains[nid].lastSavedHeight == if nid in r.blocks then r.blocks[nid] else 0
  {
    hide Relayer.Valid, DoPrune;
    ok := true;
    if clean { ok := r.PruneDB(); }
    r.LoadHeights();
  }

  method Revive(db: Lvldb.LVLDB, chains: map<Nid, ChainRuntime>, now: int, ghost before: Relayer) returns (r: Relayer)
    requires before.Valid() && db == before.db && now >= before.clock && Began(chains.Keys) in before.answers.log
    requires forall nid <- chains :: chains[nid].nid == nid && chains[nid].answers == before.answers
    requires forall nid <- chains :: chains[nid].cache.messages == map[] && chains[nid].lastBlockHeight == 0
    requires forall a, b :: a in chains && b in chains && a != b ==> chains[a].cache != chains[b].cache
    ensures fresh(r) && r.Valid() && r.born == before.born && r.answers == before.answers
    ensures if WaitsOf(chains) == WaitsOf(before.chains) then r.past == before.past && before.trace < r.trace
            else r.past == before.past + [Reign(before.Configured(), before.trace, now - before.clock)]
    ensures r.model == Resumed(before.model, WaitsOf(chains) == WaitsOf(before.chains), now - before.clock)
    ensures r.blocks == before.blocks && r.chains == chains && r.db == db
  {
    hide Agrees, RoutesOf, CachesOf, HeightsOf, RunsTo, DoCrash, WaitsOf, Vouched, Takes, Carried;
    hide Relayer.Configured, Relayer.Wired, Relayer.Holding;
    before.Parts();
    ghost var same := WaitsOf(chains) == WaitsOf(before.chains);
    ghost var c, s, pause, w := before.Configured(), before.model, now - before.clock, before.Holding();
    r := Bare(db, chains, now, same, before);
    if same {
      SameConfig(before, r);
      CrashLater(c, r.born, r.past, before.trace, s, pause, r.answers.log, db.writes);
      ghost var w' := r.Holding().(clock := before.clock);
      StepCrash(c, w, s, w');
      StepTick(c, w', DoCrash(s), pause);
      assert w'.(clock := w'.clock + pause) == r.Holding();
    } else {
      OtherReign(c, r.Configured(), r.born, before.past, before.trace, s, pause);
      OtherVouched(c, r.Configured(), s, pause, r.answers.log, db.writes);
      CarriedAgrees(c, w, s, r.Configured(), r.Holding(), pause);
    }
  }

  /** A relayer with nothing in memory, over what another one left. */
  method Bare(db: Lvldb.LVLDB, chains: map<Nid, ChainRuntime>, now: int, ghost same: bool, ghost before: Relayer) returns (r: Relayer)
    requires db == before.db && now >= before.clock == before.model.now
    requires forall nid <- chains :: chains[nid].nid == nid && chains[nid].answers == before.answers
    requires forall nid <- chains :: chains[nid].cache.messages == map[] && chains[nid].lastBlockHeight == 0
    requires forall a, b :: a in chains && b in chains && a != b ==> chains[a].cache != chains[b].cache
    ensures fresh(r) && r.born == before.born && r.answers == before.answers && r.Wired()
    ensures r.trace == if same then before.trace + [In(Crash)] + [In(Tick(now - before.clock))] else []
    ensures r.past == if same then before.past else before.past + [Reign(before.Configured(), before.trace, now - before.clock)]
    ensures r.model == Resumed(before.model, same, now - before.clock)
    ensures r.blocks == before.blocks && r.chains == chains && r.db == db && r.Configured().finality.Keys == chains.Keys
    ensures JustStarted(r.Holding()) && r.Holding().caches.Keys == r.Holding().heights.Keys == chains.Keys
    ensures var w := old(before.Holding()).(goroutines := [], caches := r.Holding().caches, heights := r.Holding().heights, clock := now);
      r.Holding() == if same then w else w.(table := [], routes := [])
  {
    hide RoutesOf, CachesOf, HeightsOf, Resumed, Relayer.Wired;
    ghost var pause := now - before.clock;
    EmptyTable();
    r := new Relayer(db, chains, now, if same then before.table else [], before.blocks, before.born,
                     if same then before.past else before.past + [Reign(before.Configured(), before.trace, pause)],
                     if same then before.trace + [In(Crash)] + [In(Tick(pause))] else [],
                     Resumed(before.model, same, pause), before.answers);
  }

  lemma SameConfig(a: Relayer, b: Relayer)
    requires WaitsOf(a.chains) == WaitsOf(b.chains)
    ensures a.Configured() == b.Configured()
  {
    assert a.Configured() == Config(WaitsOf(a.chains));
    assert b.Configured() == Config(WaitsOf(b.chains));
  }

  lemma EmptyTable()
    ensures RoutesOf([]) == []
  {
  }

  lemma EmptyRun(c: Config, now: int, writes: seq<Lvldb.Write>)
    ensures RunsTo(c, now, [], [], Init(now)) && Vouched(c, Init(now), [Began(c.finality.Keys)], writes)
  {
  }

  lemma CrashLater(c: Config, born: int, past: seq<Reign>, trace: seq<Label>, s: State, pause: nat, log: seq<Asked>, writes: seq<Lvldb.Write>)
    requires RunsTo(c, born, past, trace, s) && Vouched(c, s, log, writes)
    ensures RunsTo(c, born, past, trace + [In(Crash)] + [In(Tick(pause))], Resumed(s, true, pause))
    ensures Vouched(c, Resumed(s, true, pause), log, writes)
  {
    hide ValidReigns, Reached;
    RunExtend(c, Reached(born, past), trace, In(Crash));
    RunExtend(c, Reached(born, past), trace + [In(Crash)], In(Tick(pause)));
    VouchedStep(c, s, In(Crash), log, writes);
    VouchedStep(c, DoCrash(s), In(Tick(pause)), log, writes);
    hide Vouched, ValidRun, Final, RunsTo;
  }

  /** The next process has other chains. */
  lemma OtherReign(c: Config, c': Config, born: int, past: seq<Reign>, trace: seq<Label>, s: State, pause: nat)
    requires RunsTo(c, born, past, trace, s)
    ensures RunsTo(c', born, past + [Reign(c, trace, pause)], [], Resumed(s, false, pause))
  {
    OneMore(born, past, Reign(c, trace, pause));
    hide ValidReigns, Reached;
  }

  lemma OtherVouched(c: Config, c': Config, s: State, pause: nat, log: seq<Asked>, writes: seq<Lvldb.Write>)
    requires Vouched(c, s, log, writes) && Began(c'.finality.Keys) in log
    ensures Vouched(c', Resumed(s, false, pause), log, writes)
  {
    hide SomeSettles, SomeRecords, SomeRevokes, SomeWithholds, SomeLacks, SomeRefuses;
  }
}
