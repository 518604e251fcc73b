/** Height ranges and paging of the EVM and wasm listeners (relayer/chains/evm/listener.go,
    relayer/chains/wasm/provider.go). Heights are uint64. */
module Heights {
  import opened RelayTypes

  datatype Range = Range(start: nat, end: nat)

  /** uint64 addition. */
  function Plus(a: nat, b: nat): (r: uint64)
    ensures a + b < UINT64_SIZE ==> r == a + b
    ensures UINT64_SIZE <= a + b < 2 * UINT64_SIZE ==> r == a + b - UINT64_SIZE
  {
    (a + b) % UINT64_SIZE
  }

  const DEFAULT_BATCH: uint64 := 50

  /** sanitize: a batch size of zero becomes the default. */
  function Sanitized(batch: uint64): (b: uint64)
    ensures b == batch || (batch == 0 && b == 50)
    ensures b > 0
  {
    if batch == 0 then DEFAULT_BATCH else batch
  }

  // ----- Start heights

  /** startFromHeight of the EVM listener; the subtraction wraps. */
  function StartFromHeight(latest: uint64, finality: uint64, configured: uint64, saved: uint64): uint64 {
    var query := (latest - finality) % UINT64_SIZE;
    if configured != 0 && configured < query then configured
    else if saved != 0 && saved < query then saved
    else query
  }

  /** The start lies at or below the newest final height exactly when the chain is at least as high
      as its finality wait. */
  lemma StartIsFinal(latest: uint64, finality: uint64, configured: uint64, saved: uint64)
    ensures StartFromHeight(latest, finality, configured, saved) <= latest - finality <==> finality <= latest
    ensures latest < finality && configured == 0 && saved == 0 ==>
      StartFromHeight(latest, finality, configured, saved) > latest
  {
    if finality <= latest {
      assert (latest - finality) % UINT64_SIZE == latest - finality;
    } else {
      assert (latest - finality) % UINT64_SIZE == latest - finality + UINT64_SIZE;
    }
  }

  /** On a chain at least as high as its finality wait, the configured start is used if it lies below the newest
      final height, else the saved one if that does, else that height itself. */
  lemma StartUses(latest: uint64, finality: uint64, configured: uint64, saved: uint64)
    requires finality <= latest
    ensures var r := StartFromHeight(latest, finality, configured, saved);
      && (0 < configured < latest - finality ==> r == configured)
      && (!(0 < configured < latest - finality) && 0 < saved < latest - finality ==> r == saved)
      && (!(0 < configured < latest - finality) && !(0 < saved < latest - finality) ==> r == latest - finality)
  {
    assert (latest - finality) % UINT64_SIZE == latest - finality;
  }

  /** getStartHeight of the wasm listener. */
  function GetStartHeight(latest: uint64, saved: uint64, configured: uint64): Option<uint64> {
    if configured > 0 && configured < latest then Some(configured)
    else if saved > latest then None
    else if saved != 0 && saved < latest then Some(saved)
    else Some(latest)
  }

  /** It never starts above the chain, never skips past the saved height unless the configuration
      asks for it, and fails exactly when the saved height is ahead and no configured start applies. */
  lemma StartHeightSafe(latest: uint64, saved: uint64, configured: uint64)
    ensures var r := GetStartHeight(latest, saved, configured);
      && (r.None? <==> saved > latest && !(0 < configured < latest))
      && (r.Some? ==> r.value <= latest)
      && (r.Some? && saved != 0 && r.value > saved ==> r.value == configured)
      && (0 < configured < latest ==> r == Some(configured))
      && (!(0 < configured < latest) && 0 < saved < latest ==> r == Some(saved))
      && (!(0 < configured < latest) && (saved == 0 || saved == latest) ==> r == Some(latest))
  {
  }

  // ----- Tilings

  /** The ranges follow each other without gap or overlap, from `low`, each of 1 to `batch` heights. */
  ghost predicate Chained(rs: seq<Range>, low: nat, batch: nat) {
    && (forall i :: 0 <= i < |rs| ==> rs[i].start <= rs[i].end < rs[i].start + batch)
    && (forall i :: 0 <= i < |rs| - 1 ==> rs[i + 1].start == rs[i].end + 1)
    && (rs != [] ==> rs[0].start == low)
  }

  function UpTo(rs: seq<Range>, low: nat): nat {
    if rs == [] then low else rs[|rs| - 1].end + 1
  }

  lemma NoRanges(low: nat, batch: nat)
    ensures Chained([], low, batch)
  {
  }

  lemma ChainAppend(rs: seq<Range>, low: nat, batch: nat, r: Range)
    requires Chained(rs, low, batch) && r.start == UpTo(rs, low) && r.start <= r.end < r.start + batch
    ensures Chained(rs + [r], low, batch) && UpTo(rs + [r], low) == r.end + 1
  {
  }

  /** The last start of the loops below that is not above `last`. */
  function LastStart(low: nat, last: nat, batch: nat): (r: nat)
    requires batch > 0 && low <= last
    ensures low <= r <= last < r + batch
    decreases last - low
  {
    if low + batch > last then low else LastStart(low + batch, last, batch)
  }

  /** The start after it is still a uint64. */
  predicate Ends(low: nat, last: nat, batch: nat)
    requires batch > 0
  {
    low <= last ==> LastStart(low, last, batch) + batch < UINT64_SIZE
  }

  /** The loops end after their last range if and only if `Ends` holds; otherwise the next start wraps to a
      height below the last range, and they go on from there. */
  lemma LoopEnds(low: uint64, last: uint64, batch: uint64)
    requires batch > 0 && low <= last
    ensures var start := LastStart(low, last, batch);
      && (Plus(start, batch) > last <==> Ends(low, last, batch))
      && (!Ends(low, last, batch) ==> Plus(start, batch) < start && Plus(start, batch) < batch)
  {
    var start := LastStart(low, last, batch);
    if start + batch >= UINT64_SIZE {
      assert Plus(start, batch) == start + batch - UINT64_SIZE;
    }
  }

  /** The block-range loop of the EVM Listener. */
  method BlockRequests(startHeight: uint64, latest: uint64, batch: uint64) returns (reqs: seq<Range>)
    requires batch > 0 && Ends(if startHeight == 0 then latest else startHeight, latest, batch)
    ensures var low: nat := if startHeight == 0 then latest else startHeight;
      && Chained(reqs, low, batch) && UpTo(reqs, low) == (if low <= latest then latest + 1 else low)
      && (low <= latest ==> reqs != [] && reqs[|reqs| - 1].start == LastStart(low, latest, batch))
  {
    var low: uint64 := if startHeight == 0 then latest else startHeight;
    hide Chained, Plus;
    reqs := [];
    var start: uint64 := low;
    NoRanges(low, batch);
    while start <= latest
      invariant Chained(reqs, low, batch)
      invariant low <= start && (reqs == [] <==> start == low)
      invariant low > latest ==> start == low
      invariant UpTo(reqs, low) == if start <= latest || reqs == [] then start else latest + 1
      invariant start <= latest ==> LastStart(start, latest, batch) == LastStart(low, latest, batch)
      invariant low <= latest < start ==> reqs != [] && reqs[|reqs| - 1].start == LastStart(low, latest, batch)
      decreases if start <= latest then latest - start + 1 else 0
    {
      var end := Plus(start, batch - 1);
      if latest < end { end := latest; }
      ChainAppend(reqs, low, batch, Range(start, end));
      reqs := reqs + [Range(start, end)];
      start := Plus(start, batch);
    }
  }

  /** getHeightStream of the wasm provider: the last range is not cut at `last`. */
  method HeightStream(from: uint64, last: uint64, batch: uint64) returns (ranges: seq<Range>)
    requires batch > 0 && Ends(from, last, batch)
    ensures Chained(ranges, from, batch)
    ensures if from <= last then last < UpTo(ranges, from) <= last + batch else ranges == []
    ensures forall i :: 0 <= i < |ranges| ==> ranges[i].start <= last && ranges[i].end == ranges[i].start + batch - 1
  {
    hide Chained, Plus;
    ranges := [];
    var next: uint64 := from;
    NoRanges(from, batch);
    while next <= last
      invariant Chained(ranges, from, batch) && UpTo(ranges, from) == next
      invariant from <= next && (from <= last ==> next <= last + batch) && (last < from ==> ranges == [])
      invariant next <= last ==> LastStart(next, last, batch) == LastStart(from, last, batch)
      invariant forall i :: 0 <= i < |ranges| ==> ranges[i].start <= last && ranges[i].end == ranges[i].start + batch - 1
      decreases if next <= last then last - next + 1 else 0
    {
      ChainAppend(ranges, from, batch, Range(next, next + batch - 1));
      ranges := ranges + [Range(next, Plus(next, batch - 1))];
      next := Plus(next, batch);
    }
  }

  // ----- Scanning by ranges

  /** A log, and the message in it if it parses. */
  datatype Log = Log(height: nat, message: Option<Message>)

  /** The messages of the logs that parse. */
  function Parsed(logs: seq<Log>): seq<Message> {
    if logs == [] then []
    else Parsed(logs[..|logs| - 1]) + if logs[|logs| - 1].message.Some? then [logs[|logs| - 1].message.value] else []
  }

  lemma {:induction false} ParsedAppend(a: seq<Log>, b: seq<Log>)
    ensures Parsed(a + b) == Parsed(a) + Parsed(b)
    decreases |b|
  {
    if b == [] {
      assert a + b == a;
    } else {
      var n := |b| - 1;
      assert (a + b)[..|a + b| - 1] == a + b[..n];
      ParsedAppend(a, b[..n]);
    }
  }

  /** Each log gives its message once, in its place. */
  lemma ParsedInPlace(before: seq<Log>, g: Log, after: seq<Log>)
    ensures Parsed([]) == []
    ensures Parsed(before + [g] + after) == Parsed(before) + (if g.message.Some? then [g.message.value] else []) + Parsed(after)
  {
    ParsedAppend(before + [g], after);
    assert (before + [g])[..|before|] == before;
  }

  lemma {:induction false} ParsedMember(logs: seq<Log>, m: Message)
    ensures m in Parsed(logs) <==> exists g <- logs :: g.message == Some(m)
    decreases |logs|
  {
    if logs != [] {
      var n := |logs| - 1;
      ParsedMember(logs[..n], m);
      assert logs == logs[..n] + [logs[n]];
      assert logs[n] in logs;
    }
  }

  predicate InRange(h: nat, r: Range) {
    r.start <= h <= r.end
  }

  function LogsIn(logs: seq<Log>, r: Range): seq<Log> {
    if logs == [] then []
    else (if InRange(logs[0].height, r) then [logs[0]] else []) + LogsIn(logs[1..], r)
  }

  lemma {:induction false} LogsInPlace(before: seq<Log>, g: Log, after: seq<Log>, r: Range)
    ensures LogsIn([], r) == []
    ensures LogsIn(before + [g] + after, r) == LogsIn(before, r) + (if r.start <= g.height <= r.end then [g] else []) + LogsIn(after, r)
    decreases |before|
  {
    if before == [] {
      assert [] + [g] + after == [g] + after;
    } else {
      assert (before + [g] + after)[1..] == before[1..] + [g] + after;
      LogsInPlace(before[1..], g, after, r);
    }
  }

  predicate ByHeight(logs: seq<Log>) {
    forall i, j :: 0 <= i < j < |logs| ==> logs[i].height <= logs[j].height
  }

  function ScanRanges(logs: seq<Log>, rs: seq<Range>): seq<Log> {
    if rs == [] then [] else ScanRanges(logs, rs[..|rs| - 1]) + LogsIn(logs, rs[|rs| - 1])
  }

  /** Syncing: the messages of the logs of each range in turn. A range that keeps failing (after five
      tries) is skipped, and so is a log that does not parse. */
  method Sync(logs: seq<Log>, reqs: seq<Range>, failing: set<Range>) returns (found: seq<Message>)
    ensures found == Parsed(ScanRanges(logs, Succeeding(reqs, failing)))
  {
    found := [];
    for i := 0 to |reqs|
      invariant found == Parsed(ScanRanges(logs, Succeeding(reqs[..i], failing)))
    {
      assert reqs[..i + 1][..i] == reqs[..i];
      ScanAppend(logs, Succeeding(reqs[..i], failing), reqs[i]);
      if reqs[i] !in failing {
        var got := SyncRange(LogsIn(logs, reqs[i]));
        ParsedAppend(ScanRanges(logs, Succeeding(reqs[..i], failing)), LogsIn(logs, reqs[i]));
        found := found + got;
      }
    }
    assert reqs[..|reqs|] == reqs;
  }

  method SyncRange(logs: seq<Log>) returns (found: seq<Message>)
    ensures found == Parsed(logs)
  {
    found := [];
    for i := 0 to |logs|
      invariant found == Parsed(logs[..i])
    {
      assert logs[..i + 1][..i] == logs[..i];
      if logs[i].message.Some? {
        found := found + [logs[i].message.value];
      }
    }
    assert logs[..|logs|] == logs;
  }

  lemma ScanAppend(logs: seq<Log>, rs: seq<Range>, r: Range)
    ensures ScanRanges(logs, rs + [r]) == ScanRanges(logs, rs) + LogsIn(logs, r)
    ensures rs + [] == rs
  {
    assert (rs + [r])[..|rs|] == rs;
  }

  function Succeeding(reqs: seq<Range>, failing: set<Range>): seq<Range> {
    if reqs == [] then []
    else Succeeding(reqs[..|reqs| - 1], failing) + (if reqs[|reqs| - 1] in failing then [] else [reqs[|reqs| - 1]])
  }

  lemma {:induction false} SucceedingAppend(a: seq<Range>, b: seq<Range>, failing: set<Range>)
    ensures Succeeding(a + b, failing) == Succeeding(a, failing) + Succeeding(b, failing)
    decreases |b|
  {
    if b == [] {
      assert a + b == a;
    } else {
      var n := |b| - 1;
      assert (a + b)[..|a + b| - 1] == a + b[..n];
      SucceedingAppend(a, b[..n], failing);
    }
  }

  /** Each range that does not fail is scanned once, in its place. */
  lemma SucceedingInPlace(before: seq<Range>, r: Range, after: seq<Range>, failing: set<Range>)
    ensures Succeeding([], failing) == []
    ensures Succeeding(before + [r] + after, failing) ==
      Succeeding(before, failing) + (if r in failing then [] else [r]) + Succeeding(after, failing)
  {
    SucceedingAppend(before + [r], after, failing);
    SucceedingAppend(before, [r], failing);
    assert [r][..0] == [];
  }

  lemma {:induction false} LogsInSplit(logs: seq<Log>, low: nat, mid: nat, high: nat)
    requires ByHeight(logs) && low <= mid <= high
    ensures mid > 0 ==> LogsIn(logs, Range(low, high)) == LogsIn(logs, Range(low, mid - 1)) + LogsIn(logs, Range(mid, high))
  {
    if logs != [] && mid > 0 {
      LogsInSplit(logs[1..], low, mid, high);
      if logs[0].height >= mid {
        NoneBelow(logs[1..], low, mid);
      }
    }
  }

  lemma {:induction false} NoneBelow(logs: seq<Log>, low: nat, mid: nat)
    requires mid > 0 && forall i :: 0 <= i < |logs| ==> logs[i].height >= mid
    ensures LogsIn(logs, Range(low, mid - 1)) == []
  {
    if logs != [] {
      NoneBelow(logs[1..], low, mid);
    }
  }

  /** Scanning range by range gives what one scan of the whole interval gives, in the same order. */
  lemma {:induction false} ScanTiled(logs: seq<Log>, rs: seq<Range>, low: nat, batch: nat)
    requires ByHeight(logs) && Chained(rs, low, batch) && rs != []
    ensures ScanRanges(logs, rs) == LogsIn(logs, Range(low, UpTo(rs, low) - 1))
    ensures low < UpTo(rs, low)
    decreases |rs|
  {
    hide LogsIn, InRange, ByHeight;
    var n := |rs| - 1;
    if n == 0 {
      assert ScanRanges(logs, rs[..n]) == [];
    } else {
      ScanTiled(logs, rs[..n], low, batch);
      assert rs[n].start == UpTo(rs[..n], low);
      LogsInSplit(logs, low, rs[n].start, rs[n].end);
    }
  }

  /** When no range fails, the listener delivers every log from its start to the latest height, once. */
  lemma SyncComplete(logs: seq<Log>, reqs: seq<Range>, low: nat, latest: nat, batch: nat)
    requires ByHeight(logs) && Chained(reqs, low, batch) && UpTo(reqs, low) == latest + 1 && low <= latest
    ensures ScanRanges(logs, Succeeding(reqs, {})) == LogsIn(logs, Range(low, latest))
  {
    NoneFail(reqs);
    ScanTiled(logs, reqs, low, batch);
  }

  lemma {:induction false} NoneFail(reqs: seq<Range>)
    ensures Succeeding(reqs, {}) == reqs
    decreases |reqs|
  {
    if reqs != [] {
      NoneFail(reqs[..|reqs| - 1]);
    }
  }

  lemma {:induction false} LogsInMember(logs: seq<Log>, r: Range, g: Log)
    ensures g in LogsIn(logs, r) <==> g in logs && InRange(g.height, r)
  {
    if logs != [] {
      LogsInMember(logs[1..], r, g);
    }
  }

  /** A log is delivered exactly when some range that did not fail holds its height: the logs of a
      failed range are lost to this sync. */
  lemma {:induction false} SyncDelivers(logs: seq<Log>, reqs: seq<Range>, failing: set<Range>, g: Log)
    ensures g in ScanRanges(logs, Succeeding(reqs, failing)) <==>
            g in logs && exists r <- reqs :: r !in failing && InRange(g.height, r)
    decreases |reqs|
  {
    hide InRange, LogsIn;
    if reqs != [] {
      var last := reqs[|reqs| - 1];
      var rest := reqs[..|reqs| - 1];
      SyncDelivers(logs, rest, failing, g);
      LogsInMember(logs, last, g);
      ScanAppend(logs, Succeeding(rest, failing), last);
      OneRange(rest, last, failing, g.height);
      assert reqs == rest + [last];
    }
  }

  lemma OneRange(rest: seq<Range>, last: Range, failing: set<Range>, h: nat)
    ensures (exists r <- rest + [last] :: r !in failing && InRange(h, r)) <==>
            (exists r <- rest :: r !in failing && InRange(h, r)) || (last !in failing && InRange(h, last))
  {
    hide InRange;
    assert forall r :: r in rest + [last] <==> r in rest || r == last;
  }

  /** And a message is delivered exactly when such a log parses to it. */
  lemma MessageDelivered(logs: seq<Log>, reqs: seq<Range>, failing: set<Range>, m: Message)
    ensures m in Parsed(ScanRanges(logs, Succeeding(reqs, failing))) <==>
            exists g <- logs :: g.message == Some(m) && exists r <- reqs :: r !in failing && InRange(g.height, r)
  {
    var scanned := ScanRanges(logs, Succeeding(reqs, failing));
    ParsedMember(scanned, m);
    forall g | g in logs || g in scanned
      ensures g in scanned <==> g in logs && exists r <- reqs :: r !in failing && InRange(g.height, r)
    {
      SyncDelivers(logs, reqs, failing, g);
    }
  }

  ghost predicate Covers(rs: seq<Range>, h: nat) {
    exists i :: 0 <= i < |rs| && InRange(h, rs[i])
  }

  /** The wasm stream covers every height of its interval, and resuming at last + 1 scans fewer
      than one batch of heights twice. */
  lemma ResumeOverlap(ranges: seq<Range>, from: nat, last: nat, batch: nat)
    requires Chained(ranges, from, batch) && last < UpTo(ranges, from) <= last + batch && from <= last
    ensures forall h: nat :: from <= h <= last ==> Covers(ranges, h)
    ensures UpTo(ranges, from) - (last + 1) < batch
  {
    forall h: nat | from <= h <= last
      ensures Covers(ranges, h)
    {
      Covered(ranges, from, batch, h);
    }
  }

  lemma {:induction false} Covered(rs: seq<Range>, low: nat, batch: nat, h: nat)
    requires Chained(rs, low, batch) && low <= h < UpTo(rs, low)
    ensures Covers(rs, h)
    decreases |rs|
  {
    var n := |rs| - 1;
    if h >= rs[n].start {
      assert InRange(h, rs[n]);
    } else {
      Covered(rs[..n], low, batch, h);
      var i :| 0 <= i < n && InRange(h, rs[..n][i]);
      assert InRange(h, rs[i]);
    }
  }

  // ----- Paging

  const PER_PAGE := 25

  /** A search with its results; the pages in `down` cannot be had. */
  datatype Search<T> = Search(results: seq<T>, down: set<nat>)

  /** One page of a search, counted from 1. A page past the end is empty, or an error when the node
      is strict about it. */
  function Page<T>(search: Search<T>, page: nat, strict: bool): Option<seq<T>>
    requires page > 0
  {
    var low := PER_PAGE * (page - 1);
    if page in search.down then None
    else if page > 1 && low >= |search.results| then (if strict then None else Some([]))
    else Some(search.results[low..if low + PER_PAGE < |search.results| then low + PER_PAGE else |search.results|])
  }

  /** The last page asked for. */
  function LastPage(total: nat): nat {
    if total > PER_PAGE then total / PER_PAGE + 1 else 1
  }

  predicate Served<T>(search: Search<T>, strict: bool) {
    forall p :: 1 <= p <= LastPage(|search.results|) ==> Page(search, p, strict).Some?
  }

  /** Which searches those are. The loop asks for one page too many when the total is a multiple of the
      page size, which a strict node refuses. */
  lemma ServedExactly<T>(search: Search<T>, strict: bool)
    ensures var total := |search.results|;
      Served(search, strict) <==>
        (forall p :: 1 <= p <= LastPage(total) ==> p !in search.down) && !(strict && total > 25 && total % 25 == 0)
  {
    var total := |search.results|;
    var last := LastPage(total);
    assert PER_PAGE * (total / PER_PAGE) + total % PER_PAGE == total;
    assert Page(search, last, strict).Some? ==> last !in search.down;
    if Served(search, strict) {
      forall p | 1 <= p <= last ensures p !in search.down { assert Page(search, p, strict).Some?; }
    }
  }

  /** The page loop of fetchBlockMessages for one event: each result once and in order, or nothing as soon
      as one page cannot be had. */
  method FetchPages<T>(search: Search<T>, strict: bool) returns (txs: Option<seq<T>>)
    ensures txs == if Served(search, strict) then Some(search.results) else None
  {
    var results := search.results;
    var page := Page(search, 1, strict);
    if page.None? { return None; }
    var first := page.value;
    var total := |results|;
    assert PER_PAGE * (total / PER_PAGE) + total % PER_PAGE == total;
    if total > PER_PAGE {
      var i := 2;
      while i <= total / PER_PAGE + 1
        invariant 2 <= i <= total / PER_PAGE + 2
        invariant first == results[..if PER_PAGE * (i - 1) < total then PER_PAGE * (i - 1) else total]
        invariant forall p :: 1 <= p < i ==> Page(search, p, strict).Some?
      {
        var next := Page(search, i, strict);
        assert PER_PAGE * (i - 1) <= PER_PAGE * (total / PER_PAGE);
        if next.None? { return None; }
        first := first + next.value;
        i := i + 1;
      }
      assert PER_PAGE * (i - 1) == PER_PAGE * (total / PER_PAGE) + PER_PAGE;
    }
    assert results[..total] == results;
    txs := Some(first);
  }

  /** A transaction found, and its messages if its events parse. */
  datatype Tx = Tx(height: nat, messages: Option<seq<Message>>)

  predicate AllParse(txs: seq<Tx>) {
    forall x <- txs :: x.messages.Some?
  }

  function MessagesOf(txs: seq<Tx>): seq<Message>
    requires AllParse(txs)
  {
    if txs == [] then [] else MessagesOf(txs[..|txs| - 1]) + txs[|txs| - 1].messages.value
  }

  lemma ParsesBoth(a: seq<Tx>, b: seq<Tx>)
    ensures AllParse(a + b) <==> AllParse(a) && AllParse(b)
  {
    assert forall x :: x in a + b <==> x in a || x in b;
  }

  lemma {:induction false} MessagesAppend(a: seq<Tx>, b: seq<Tx>)
    requires AllParse(a + b)
    ensures AllParse(a) && AllParse(b) && MessagesOf(a + b) == MessagesOf(a) + MessagesOf(b)
    decreases |b|
  {
    ParsesBoth(a, b);
    if b == [] {
      assert a + b == a;
    } else {
      var n := |b| - 1;
      assert b == b[..n] + [b[n]] && (a + b)[..|a + b| - 1] == a + b[..n];
      ParsesBoth(b[..n], [b[n]]);
      ParsesBoth(a, b[..n]);
      MessagesAppend(a, b[..n]);
    }
  }

  /** Each transaction gives its messages once, together and in its place. */
  lemma MessagesInPlace(before: seq<Tx>, x: Tx, after: seq<Tx>)
    requires AllParse(before + [x] + after)
    ensures AllParse(before) && x.messages.Some? && AllParse(after) && MessagesOf([]) == []
    ensures MessagesOf(before + [x] + after) == MessagesOf(before) + x.messages.value + MessagesOf(after)
  {
    MessagesAppend(before + [x], after);
    MessagesAppend(before, [x]);
    assert x in [x];
    assert [x][..0] == [];
  }

  lemma {:induction false} InMessages(txs: seq<Tx>, m: Message)
    requires AllParse(txs)
    ensures m in MessagesOf(txs) <==> exists x <- txs :: m in x.messages.value
    decreases |txs|
  {
    if txs != [] {
      var rest := txs[..|txs| - 1];
      InMessages(rest, m);
      assert txs == rest + [txs[|txs| - 1]];
      assert forall x :: x in txs <==> x in rest || x == txs[|txs| - 1];
    }
  }

  /** getMessagesFromTxList: the messages of all transactions, or an error when one does not parse. */
  method GetMessagesFromTxList(txs: seq<Tx>) returns (messages: Option<seq<Message>>)
    ensures messages == if AllParse(txs) then Some(MessagesOf(txs)) else None
  {
    var found: seq<Message> := [];
    for i := 0 to |txs|
      invariant AllParse(txs[..i]) && found == MessagesOf(txs[..i])
    {
      assert txs[..i + 1] == txs[..i] + [txs[i]];
      if txs[i].messages.None? {
        assert txs[i] in txs;
        return None;
      }
      assert txs[..i + 1][..i] == txs[..i];
      found := found + txs[i].messages.value;
    }
    assert txs[..|txs|] == txs;
    messages := Some(found);
  }

  /** The results of the events that were served. */
  function ServedResults<T>(searches: seq<Search<T>>, strict: bool): seq<T> {
    if searches == [] then []
    else
      var last := searches[|searches| - 1];
      ServedResults(searches[..|searches| - 1], strict) + if Served(last, strict) then last.results else []
  }

  lemma {:induction false} ServedAppend<T>(a: seq<Search<T>>, b: seq<Search<T>>, strict: bool)
    ensures ServedResults(a + b, strict) == ServedResults(a, strict) + ServedResults(b, strict)
    decreases |b|
  {
    if b == [] {
      assert a + b == a;
    } else {
      var n := |b| - 1;
      assert (a + b)[..|a + b| - 1] == a + b[..n];
      ServedAppend(a, b[..n], strict);
    }
  }

  /** Each event gives its results once, together and in its place, if all its pages were served. */
  lemma ServedInPlace<T>(before: seq<Search<T>>, x: Search<T>, after: seq<Search<T>>, strict: bool)
    ensures ServedResults<T>([], strict) == []
    ensures ServedResults(before + [x] + after, strict) ==
      ServedResults(before, strict) + (if Served(x, strict) then x.results else []) + ServedResults(after, strict)
  {
    ServedAppend(before + [x], after, strict);
    ServedAppend(before, [x], strict);
    assert [x][..0] == [];
  }

  lemma {:induction false} InServed<T>(searches: seq<Search<T>>, strict: bool, x: T)
    ensures x in ServedResults(searches, strict) <==> exists i :: 0 <= i < |searches| && Served(searches[i], strict) && x in searches[i].results
    decreases |searches|
  {
    if searches != [] {
      var n := |searches| - 1;
      InServed(searches[..n], strict, x);
      if i :| 0 <= i < n && Served(searches[..n][i], strict) && x in searches[..n][i].results {
        assert Served(searches[i], strict) && x in searches[i].results;
      }
      if i :| 0 <= i < |searches| && Served(searches[i], strict) && x in searches[i].results {
        assert i < n ==> Served(searches[..n][i], strict) && x in searches[..n][i].results;
      }
    }
  }

  /** What a range comes to. */
  function Fetched(searches: seq<Search<Tx>>, strict: bool): Option<seq<Message>> {
    var txs := ServedResults(searches, strict); if AllParse(txs) then Some(MessagesOf(txs)) else None
  }

  /** One search for each event, one after the other. A failed one is logged and its results are dropped;
      one result that does not parse fails the whole range. */
  method FetchBlockMessages(searches: seq<Search<Tx>>, strict: bool) returns (messages: Option<seq<Message>>)
    ensures messages == Fetched(searches, strict)
  {
    var txs: seq<Tx> := [];
    for i := 0 to |searches|
      invariant txs == ServedResults(searches[..i], strict)
    {
      assert searches[..i + 1][..i] == searches[..i];
      var found := FetchPages(searches[i], strict);
      if found.Some? { txs := txs + found.value; }
    }
    assert searches[..|searches|] == searches;
    messages := GetMessagesFromTxList(txs);
  }

  /** So a range delivers a message if and only if every result of an event all of whose pages were served
      parses, and one of them holds the message. */
  lemma RangeDelivers(searches: seq<Search<Tx>>, strict: bool, m: Message)
    ensures (Fetched(searches, strict).Some? && m in Fetched(searches, strict).value) <==>
            (forall i, x :: 0 <= i < |searches| && Served(searches[i], strict) && x in searches[i].results ==> x.messages.Some?) &&
            (exists i, x :: 0 <= i < |searches| && Served(searches[i], strict) && x in searches[i].results && x.messages.Some? && m in x.messages.value)
  {
    hide Served;
    var txs := ServedResults(searches, strict);
    forall x
      ensures x in txs <==> exists i :: 0 <= i < |searches| && Served(searches[i], strict) && x in searches[i].results
    {
      InServed(searches, strict, x);
    }
    if AllParse(txs) { InMessages(txs, m); }
  }

  // ----- Ranges of the wasm listener

  /** What the listener hands on for a range: its end and its messages. */
  datatype Block = Block(height: nat, messages: seq<Message>)

  function Blocks(ranges: seq<Range>, searches: Range -> seq<Search<Tx>>, strict: bool): seq<Block> {
    if ranges == [] then []
    else
      var last := ranges[|ranges| - 1];
      var fetched := Fetched(searches(last), strict);
      Blocks(ranges[..|ranges| - 1], searches, strict) + if fetched.Some? then [Block(last.end, fetched.value)] else []
  }

  /** The loop of runBlockQuery: a range that fails is logged and skipped, and not tried again. */
  method RunBlockQuery(ranges: seq<Range>, searches: Range -> seq<Search<Tx>>, strict: bool) returns (blocks: seq<Block>)
    ensures blocks == Blocks(ranges, searches, strict)
  {
    blocks := [];
    for i := 0 to |ranges|
      invariant blocks == Blocks(ranges[..i], searches, strict)
    {
      assert ranges[..i + 1][..i] == ranges[..i];
      var messages := FetchBlockMessages(searches(ranges[i]), strict);
      if messages.None? { continue; }
      blocks := blocks + [Block(ranges[i].end, messages.value)];
    }
    assert ranges[..|ranges|] == ranges;
  }

  lemma {:induction false} BlocksAppend(a: seq<Range>, b: seq<Range>, searches: Range -> seq<Search<Tx>>, strict: bool)
    ensures Blocks(a + b, searches, strict) == Blocks(a, searches, strict) + Blocks(b, searches, strict)
    decreases |b|
  {
    hide Fetched;
    if b == [] {
      assert a + b == a;
    } else {
      var n := |b| - 1;
      assert (a + b)[..|a + b| - 1] == a + b[..n];
      BlocksAppend(a, b[..n], searches, strict);
    }
  }

  /** Each range that did not fail gives one block, in its place. */
  lemma BlocksInPlace(before: seq<Range>, r: Range, after: seq<Range>, searches: Range -> seq<Search<Tx>>, strict: bool)
    ensures Blocks([], searches, strict) == []
    ensures var fetched := Fetched(searches(r), strict);
      Blocks(before + [r] + after, searches, strict) ==
      Blocks(before, searches, strict) + (if fetched.Some? then [Block(r.end, fetched.value)] else []) + Blocks(after, searches, strict)
  {
    hide Fetched;
    BlocksAppend(before + [r], after, searches, strict);
    BlocksAppend(before, [r], searches, strict);
    assert [r][..0] == [];
  }

  /** A block is handed on exactly for each range that did not fail, with that range's messages. */
  lemma {:induction false} QueryDelivers(ranges: seq<Range>, searches: Range -> seq<Search<Tx>>, strict: bool, b: Block)
    ensures b in Blocks(ranges, searches, strict) <==>
            exists r <- ranges :: r.end == b.height && Fetched(searches(r), strict) == Some(b.messages)
    decreases |ranges|
  {
    if ranges != [] {
      hide Fetched;
      var rest := ranges[..|ranges| - 1];
      QueryDelivers(rest, searches, strict, b);
      assert ranges == rest + [ranges[|ranges| - 1]];
      assert forall r :: r in ranges <==> r in rest || r == ranges[|ranges| - 1];
    }
  }
}
