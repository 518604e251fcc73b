/** How the EVM provider uses its nonces (relayer/chains/evm/route.go). Route holds the router
    mutex from asking for a nonce until the transaction is sent, so each Route is one step here;
    waiting for the receipt happens after the mutex is released and touches no nonce. */
module EvmRoute {
  import opened BigInts
  import opened RelayTypes
  import opened EvmNonce

  const ERROR_LESS_GAS := "transaction underpriced"
  const ERROR_LIMIT_LESS_THAN_GAS := "max fee per gas less than block base fee"
  const ERR_NONCE_TOO_LOW := "nonce too low"
  const ERR_NONCE_TOO_HIGH := "nonce too high"
  const ERR_UNKNOWN := "unknown"

  predicate OccursAt(s: string, sub: string, i: nat) {
    i + |sub| <= |s| && s[i..i + |sub|] == sub
  }

  predicate Contains(s: string, sub: string) {
    exists i :: 0 <= i <= |s| && OccursAt(s, sub, i)
  }

  function ParseErr(msg: string): string {
    if Contains(msg, ERROR_LIMIT_LESS_THAN_GAS) then ERROR_LIMIT_LESS_THAN_GAS
    else if Contains(msg, ERROR_LESS_GAS) then ERROR_LESS_GAS
    else if Contains(msg, ERR_NONCE_TOO_LOW) then ERR_NONCE_TOO_LOW
    else if Contains(msg, ERR_NONCE_TOO_HIGH) then ERR_NONCE_TOO_HIGH
    else ERR_UNKNOWN
  }

  /** The errors after which the tracker is set back to the chain's pending nonce. */
  predicate IsNonceError(msg: string) {
    ParseErr(msg) in {ERR_NONCE_TOO_LOW, ERR_NONCE_TOO_HIGH, ERROR_LESS_GAS}
  }

  /** strings.Contains. */
  lemma ContainsIs(s: string, sub: string)
    ensures Contains(s, sub) <==> exists before, after :: s == before + sub + after
  {
    if Contains(s, sub) {
      var i :| 0 <= i <= |s| && OccursAt(s, sub, i);
      assert s == s[..i] + sub + s[i + |sub|..];
    }
    if before, after :| s == before + sub + after {
      assert OccursAt(s, sub, |before|);
    }
  }

  /** A text is such an error if and only if it holds one of three texts and not, which would be looked for
      first, a fourth one. */
  lemma NonceErrors(msg: string)
    ensures IsNonceError(msg) <==>
      !(exists before, after :: msg == before + "max fee per gas less than block base fee" + after) &&
      ((exists before, after :: msg == before + "transaction underpriced" + after) ||
       (exists before, after :: msg == before + "nonce too low" + after) ||
       (exists before, after :: msg == before + "nonce too high" + after))
  {
    ContainsIs(msg, ERROR_LIMIT_LESS_THAN_GAS);
    ContainsIs(msg, ERROR_LESS_GAS);
    ContainsIs(msg, ERR_NONCE_TOO_LOW);
    ContainsIs(msg, ERR_NONCE_TOO_HIGH);
    assert ERR_UNKNOWN[0] == 'u' && ERROR_LESS_GAS[0] == 't' && ERR_NONCE_TOO_LOW[0] == 'n' && ERR_NONCE_TOO_HIGH[0] == 'n';
    assert ERROR_LIMIT_LESS_THAN_GAS[0] == 'm';
    hide Contains;
  }

  /** What the chain and the key store answer during one Route, if asked. */
  datatype Answers = Answers(
    keystore: bool, walletNonce: Option<nat>, now: int, refresh: Option<nat>, gasPrice: bool,
    estimate: Option<nat>, knownEvent: bool, rejection: Option<string>, pending: Option<nat>, later: int)

  datatype Outcome = Accepted | Failed | Panicked

  /** `nonce` is the tracker's entry for the wallet, `sent` the nonces of all transactions sent. */
  datatype Account = Account(wallet: bool, nonce: Option<Nonce>, sent: seq<int>)

  datatype Limits = Limits(gasMin: nat, gasLimit: nat)

  predicate GasAllowed(l: Limits, estimate: Option<nat>) {
    estimate.Some? && l.gasMin <= estimate.value <= l.gasLimit
  }

  /** Wallet: the key is restored and its nonce fetched on first use. */
  function AfterWallet(a: Account, e: Answers): Account {
    if a.wallet || !e.keystore then a
    else if e.walletNonce.None? then a.(wallet := true)
    else a.(wallet := true, nonce := Some(AfterSet(e.walletNonce.value, e.now)))
  }

  predicate WalletOk(a: Account, e: Answers) {
    a.wallet || (e.keystore && e.walletNonce.Some?)
  }

  /** The transaction reaches the chain. */
  predicate Sends(a: Account, l: Limits, e: Answers) {
    WalletOk(a, e) && AfterWallet(a, e).nonce.Some? && e.gasPrice && GasAllowed(l, e.estimate) && e.knownEvent
  }

  predicate Resets(a: Account, l: Limits, e: Answers) {
    Sends(a, l, e) && e.rejection.Some? && IsNonceError(e.rejection.value) && e.pending.Some?
  }

  function AfterRoute(a: Account, l: Limits, e: Answers): Account {
    var w := AfterWallet(a, e);
    if !WalletOk(a, e) || w.nonce.None? then w
    else
      var n := AfterGet(w.nonce.value, e.now, e.refresh);
      Account(w.wallet,
              Some(if Resets(a, l, e) then AfterSet(e.pending.value, e.later) else n),
              if Sends(a, l, e) then w.sent + [n.last] else w.sent)
  }

  function OutcomeOf(a: Account, l: Limits, e: Answers): Outcome {
    if !WalletOk(a, e) then Failed
    else if AfterWallet(a, e).nonce.None? then Panicked
    else if Sends(a, l, e) && e.rejection.None? then Accepted
    else Failed
  }

  class Provider {
    const addr: Address
    const limits: Limits
    const tracker: NonceTracker
    var wallet: bool
    var sent: seq<int>

    constructor (addr: Address, limits: Limits)
      ensures Valid() && this.addr == addr && this.limits == limits
      ensures fresh(tracker) && View() == Account(false, None, [])
    {
      this.addr := addr;
      this.limits := limits;
      tracker := new NonceTracker();
      wallet := false;
      sent := [];
    }

    ghost predicate Valid()
      reads this, tracker, tracker.address.Values, set a | a in tracker.address :: tracker.address[a].current
    {
      tracker.Valid()
    }

    ghost function View(): Account
      reads this, tracker, tracker.address.Values, set a | a in tracker.address :: tracker.address[a].current
    {
      Account(wallet, if addr in tracker.address then Some(tracker.At(addr)) else None, sent)
    }

    method Wallet(e: Answers) returns (ok: bool)
      requires Valid()
      modifies this, tracker
      ensures Valid() && View() == AfterWallet(old(View()), e) && ok == WalletOk(old(View()), e)
      ensures ok <==> old(wallet) || (e.keystore && e.walletNonce.Some?)
      ensures wallet == (old(wallet) || e.keystore) && sent == old(sent)
      ensures View().nonce == if !old(wallet) && e.keystore && e.walletNonce.Some?
              then Some(Nonce(e.walletNonce.value - 1, e.now)) else old(View()).nonce
      ensures forall a <- tracker.address ::
        (fresh(tracker.address[a]) && fresh(tracker.address[a].current)) ||
        (a in old(tracker.address) && tracker.address[a] == old(tracker.address)[a]
         && tracker.address[a].current == old(tracker.address[a].current))
    {
      if !wallet {
        if !e.keystore { return false; }
        wallet := true;
        if e.walletNonce.None? { return false; }
        var nonce := new BigInt(e.walletNonce.value);
        tracker.Set(addr, nonce, e.now);
      }
      ok := true;
    }

    /** A wallet whose first nonce query failed has no tracker entry: the next Get dereferences nil. */
    method Route(e: Answers) returns (o: Outcome)
      requires Valid()
      modifies this, tracker, tracker.address.Values, set a | a in tracker.address :: tracker.address[a].current
      ensures Valid() && View() == AfterRoute(old(View()), limits, e) && o == OutcomeOf(old(View()), limits, e)
      // A transaction is sent, with the nonce after the last one or the one a refresh gives.
      ensures |sent| == |old(sent)| + 1 <==>
        && (old(wallet) || (e.keystore && e.walletNonce.Some?)) && (addr in old(tracker.address) || !old(wallet))
        && e.gasPrice && e.estimate.Some? && limits.gasMin <= e.estimate.value <= limits.gasLimit && e.knownEvent
      ensures sent == old(sent) || sent[..|sent| - 1] == old(sent)
      ensures |sent| == |old(sent)| + 1 ==>
        sent[|old(sent)|] == AfterGet(AfterWallet(old(View()), e).nonce.value, e.now, e.refresh).last
      // After a nonce error the tracker is set to one below the pending nonce.
      ensures |sent| == |old(sent)| + 1 && e.rejection.Some? && IsNonceError(e.rejection.value) && e.pending.Some? ==>
        View().nonce == Some(Nonce(e.pending.value - 1, e.later))
      // What comes of it.
      ensures o == Accepted <==> |sent| == |old(sent)| + 1 && e.rejection == None
      ensures o == Panicked <==> (old(wallet) && addr !in old(tracker.address))
    {
      hide IsNonceError;
      var ok := Wallet(e);
      if !ok { return Failed; }
      if addr !in tracker.address { return Panicked; }
      var nonce := tracker.Get(addr, e.now, e.refresh);
      if !e.gasPrice { return Failed; }
      if e.estimate.None? || e.estimate.value > limits.gasLimit || e.estimate.value < limits.gasMin { return Failed; }
      if !e.knownEvent { return Failed; }
      sent := sent + [nonce.value];
      if e.rejection.Some? {
        if IsNonceError(e.rejection.value) {
          if e.pending.None? { return Failed; }
          var pending := new BigInt(e.pending.value);
          tracker.Set(addr, pending, e.later);
        }
        return Failed;
      }
      o := Accepted;
    }
  }

  // ----- Runs of Route calls

  function AfterRoutes(a: Account, l: Limits, run: seq<Answers>): Account
    decreases |run|
  {
    if run == [] then a else AfterRoutes(AfterRoute(a, l, run[0]), l, run[1..])
  }

  /** A tracked wallet, asked again within the window, with no error that resets the nonce. */
  ghost predicate Steady(a: Account, l: Limits, run: seq<Answers>) {
    a.wallet && a.nonce.Some? && forall e <- run :: InWindow(a.nonce.value, e.now) && !Resets(a, l, e)
  }

  predicate Climbs(s: seq<int>, low: int, high: int) {
    && (forall i :: 0 <= i < |s| ==> low < s[i] <= high)
    && (forall i, j :: 0 <= i < j < |s| ==> s[i] < s[j])
  }

  lemma RouteTakesOne(a: Account, l: Limits, e: Answers)
    requires a.wallet && a.nonce.Some? && InWindow(a.nonce.value, e.now) && !Resets(a, l, e)
    ensures var n := a.nonce.value.last + 1;
      AfterRoute(a, l, e) == Account(true, Some(Nonce(n, a.nonce.value.updated)), if Sends(a, l, e) then a.sent + [n] else a.sent)
    ensures forall e' :: (Sends(AfterRoute(a, l, e), l, e') <==> Sends(a, l, e')) && (Resets(AfterRoute(a, l, e), l, e') <==> Resets(a, l, e'))
  {
  }

  /** Each Route takes exactly one nonce whether or not it gets as far as sending, and the nonces
      sent never repeat. */
  lemma {:induction false} RoutesTakeOneEach(a: Account, l: Limits, run: seq<Answers>)
    requires Steady(a, l, run)
    ensures var a' := AfterRoutes(a, l, run);
      && a'.wallet && a'.nonce == Some(Nonce(a.nonce.value.last + |run|, a.nonce.value.updated))
      && |a'.sent| >= |a.sent| && a'.sent[..|a.sent|] == a.sent
      && Climbs(a'.sent[|a.sent|..], a.nonce.value.last, a.nonce.value.last + |run|)
    decreases |run|
  {
    if run != [] {
      hide AfterRoute, Sends, Resets;
      var b := AfterRoute(a, l, run[0]);
      assert run[0] in run;
      assert forall e <- run[1..] :: e in run;
      RouteTakesOne(a, l, run[0]);
      RoutesTakeOneEach(b, l, run[1..]);
      var a' := AfterRoutes(a, l, run);
      var more := a'.sent[|b.sent|..];
      if Sends(a, l, run[0]) {
        assert a'.sent[|a.sent|..] == [a.nonce.value.last + 1] + more;
      } else {
        assert a'.sent[|a.sent|..] == more;
      }
    }
  }

  /** When every Route of the run sends, the nonces sent are consecutive. */
  lemma {:induction false} RoutesSendConsecutive(a: Account, l: Limits, run: seq<Answers>, i: nat)
    requires Steady(a, l, run) && (forall e <- run :: Sends(a, l, e)) && i < |run|
    ensures var sent := AfterRoutes(a, l, run).sent;
      |sent| == |a.sent| + |run| && sent[|a.sent| + i] == a.nonce.value.last + 1 + i
    decreases |run|
  {
    hide AfterRoute, Sends, Resets;
    var b := AfterRoute(a, l, run[0]);
    assert run[0] in run;
    assert forall e <- run[1..] :: e in run;
    RouteTakesOne(a, l, run[0]);
    RoutesTakeOneEach(b, l, run[1..]);
    if |run| == 1 {
      assert run[1..] == [];
    } else {
      RoutesSendConsecutive(b, l, run[1..], if i > 0 then i - 1 else 0);
    }
    var sent := AfterRoutes(a, l, run).sent;
    assert sent[..|b.sent|] == b.sent;
    assert sent[|a.sent|] == b.sent[|a.sent|];
  }

  /** After a too-low, too-high or underpriced error, the next Route in the window that sends uses
      exactly the pending nonce the chain gave. */
  lemma RecoveryUsesPending(a: Account, l: Limits, e: Answers, e': Answers)
    requires Resets(a, l, e) && InWindow(AfterSet(e.pending.value, e.later), e'.now)
    requires Sends(AfterRoute(a, l, e), l, e')
    ensures AfterRoutes(a, l, [e, e']).sent == AfterRoute(a, l, e).sent + [e.pending.value]
  {
    var b := AfterRoute(a, l, e);
    assert [e, e'][1..] == [e'];
    assert [e'][1..] == [];
    assert AfterRoutes(b, l, [e']) == AfterRoutes(AfterRoute(b, l, e'), l, []);
  }
}
