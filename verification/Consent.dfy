/** What a user's one signature lets others do later, over any run: no more than its terms, to nobody else. */
module Consent {
  import opened Types
  import opened Metering
  import opened Program
  import opened Invariant
  import opened Steps
  import opened Runs
  import opened Plans
  import opened Allowance
  import opened Cancellation
  import opened Conservation
  import opened Outcomes

  lemma OnlyWalletsSign(s: State, tx: Tx)
    requires Step(s, tx).Ok?
    ensures OnlyWallets(tx.signers)
  {
  }

  // --- Delegations keep their terms -------------------------------------------------------------------

  /** A fixed or recurring delegation and a later state of it. */
  predicate SameGrant(x: Account, y: Account) {
    match (x, y)
    case (Fixed(header, authority, mint, _, expiry), Fixed(header', authority', mint', _, expiry')) =>
      header' == header && authority' == authority && mint' == mint && expiry' == expiry
    case (Recurring(header, authority, mint, start, length, expiry, cap, _),
          Recurring(header', authority', mint', start', length', expiry', cap', _)) =>
      header' == header && authority' == authority && mint' == mint && length' == length && expiry' == expiry &&
      cap' == cap && start <= start'
    case _ => false
  }

  lemma GrantStep(s: State, tx: Tx, a: Address)
    requires Inv(s) && a in s.accounts && (s.accounts[a].Fixed? || s.accounts[a].Recurring?)
    requires a in Exec(s, tx).accounts
    ensures SameGrant(s.accounts[a], Exec(s, tx).accounts[a])
  {
    hide Step, Charge;
    Observe(s, tx, a);
    var x := s.accounts[a];
    assert AccountOk(s, a, x);
    var amount := PulledBy(s, tx, a);
    if x.Recurring? && amount > 0 {
      ChargeBounds(amount, x.cap, x.periodLength, MeterOf(x), x.expiryTs, s.now);
    }
  }

  lemma {:induction false} GrantKept(s: State, txs: seq<Tx>, a: Address)
    requires Inv(s) && StaysOpen(s, txs, a) && (s.accounts[a].Fixed? || s.accounts[a].Recurring?)
    ensures a in Run(s, txs).accounts && SameGrant(s.accounts[a], Run(s, txs).accounts[a])
    decreases |txs|
  {
    hide Step;
    if |txs| > 0 {
      GrantStep(s, txs[0], a);
      NextInv(s, txs[0]);
      GrantKept(Exec(s, txs[0]), txs[1..], a);
    }
  }

  /** What every successful pull through a fixed or recurring delegation has been checked against. */
  lemma DelegationPullFacts(s: State, tx: Tx, a: Address)
    requires Inv(s) && a in s.accounts && (s.accounts[a].Fixed? || s.accounts[a].Recurring?) && PulledBy(s, tx, a) > 0
    ensures Asked(tx.ix).Some?
    ensures var p, acc := Asked(tx.ix).value, s.accounts[a];
            p.amount == PulledBy(s, tx, a) && p.caller == acc.header.delegatee && p.caller in tx.signers &&
            p.delegator == acc.header.delegator && p.mint == acc.mint && p.fromAta == Ata(p.delegator, p.mint) &&
            (acc.expiryTs == 0 || s.now <= acc.expiryTs) &&
            (acc.Fixed? ==> p.amount <= acc.amount) &&
            (acc.Recurring? ==> acc.periodStart <= s.now && p.amount <= acc.cap)
  {
    hide Step, Charge;
    Observe(s, tx, a);
    var acc := s.accounts[a];
    assert AccountOk(s, a, acc);
    if acc.Recurring? {
      ChargeExactly(PulledBy(s, tx, a), acc.cap, acc.periodLength, MeterOf(acc), acc.expiryTs, s.now);
      ChargeBounds(PulledBy(s, tx, a), acc.cap, acc.periodLength, MeterOf(acc), acc.expiryTs, s.now);
    }
  }

  // --- Fixed delegations --------------------------------------------------------------------------------

  /**
   * After a create and any run in which the delegation stays open, a pull is signed by the consented
   * delegatee, takes the consented mint from the delegator, comes no later than the consented expiry,
   * and together with all earlier ones stays within the consented amount.
   */
  lemma FixedPullsAsConsented(s: State, create: Tx, txs: seq<Tx>, pull: Tx)
    requires Inv(s) && create.ix.CreateFixed? && Step(s, create).Ok?
    requires StaysOpen(Exec(s, create), txs, create.ix.delegation)
    requires PulledBy(Run(Exec(s, create), txs), pull, create.ix.delegation) > 0
    ensures Asked(pull.ix).Some? && create.ix.authority in s.accounts && s.accounts[create.ix.authority].Authority?
    ensures var ix, p, s' := create.ix, Asked(pull.ix).value, Exec(s, create);
            var t := Run(s', txs);
            p.caller == ix.delegatee && ix.delegatee in pull.signers && p.delegator == ix.delegator &&
            p.mint == s.accounts[ix.authority].mint && p.fromAta == Ata(ix.delegator, p.mint) &&
            (ix.expiryTs == 0 || t.now <= ix.expiryTs) &&
            PullTotal(s', txs, ix.delegation) + PulledBy(t, pull, ix.delegation) <= ix.amount
  {
    hide Step;
    var s', a := Exec(s, create), create.ix.delegation;
    OnlyWalletsSign(s, create);
    CreateFixedExactly(s, create);
    NextInv(s, create);
    GrantKept(s', txs, a);
    RunKeepsInv(s', txs);
    FixedRemainingPlusSpent(s', txs, a);
    DelegationPullFacts(Run(s', txs), pull, a);
  }

  // --- Recurring delegations ------------------------------------------------------------------------------

  /**
   * After a create and any run in which the delegation stays open, a pull is signed by the consented
   * delegatee, takes the consented mint from the delegator, is at most the consented amount, and falls
   * neither before the consented start nor after the consented expiry.
   */
  lemma RecurringPullsAsConsented(s: State, create: Tx, txs: seq<Tx>, pull: Tx)
    requires Inv(s) && create.ix.CreateRecurring? && Step(s, create).Ok?
    requires StaysOpen(Exec(s, create), txs, create.ix.delegation)
    requires PulledBy(Run(Exec(s, create), txs), pull, create.ix.delegation) > 0
    ensures Asked(pull.ix).Some? && create.ix.authority in s.accounts && s.accounts[create.ix.authority].Authority?
    ensures var ix, p := create.ix, Asked(pull.ix).value;
            var t := Run(Exec(s, create), txs);
            p.caller == ix.delegatee && ix.delegatee in pull.signers && p.delegator == ix.delegator &&
            p.mint == s.accounts[ix.authority].mint && p.fromAta == Ata(ix.delegator, p.mint) &&
            PulledBy(t, pull, ix.delegation) <= ix.amount &&
            (if ix.startTs == 0 then s.now else ix.startTs) <= t.now && (ix.expiryTs == 0 || t.now <= ix.expiryTs)
  {
    hide Step;
    var s', a := Exec(s, create), create.ix.delegation;
    OnlyWalletsSign(s, create);
    CreateRecurringExactly(s, create);
    NextInv(s, create);
    GrantKept(s', txs, a);
    RunKeepsInv(s', txs);
    DelegationPullFacts(Run(s', txs), pull, a);
  }

  /** With a finite expiry everything ever pulled is at most the consented amount per billable period. */
  lemma RecurringTotalAsConsented(s: State, create: Tx, txs: seq<Tx>)
    requires Inv(s) && create.ix.CreateRecurring? && Step(s, create).Ok? && create.ix.expiryTs != 0
    ensures var ix := create.ix;
            ix.periodLength > 0 &&
            PullTotal(Exec(s, create), txs, ix.delegation)
            <= ix.amount * BillablePeriods(if ix.startTs == 0 then s.now else ix.startTs, ix.periodLength, ix.expiryTs)
  {
    hide Step;
    OnlyWalletsSign(s, create);
    CreateRecurringExactly(s, create);
    NextInv(s, create);
    DelegationHorizon(Exec(s, create), txs, create.ix.delegation);
  }

  // --- Subscriptions pay only listed receivers --------------------------------------------------------------

  /** A pull under a plan that lists any receiver credits an account of a listed one. */
  lemma PullPaysAListedReceiver(s: State, tx: Tx, d: Address)
    requires Inv(s) && tx.ix.TransferSubscription? && Step(s, tx).Ok?
    requires tx.ix.plan in s.accounts && s.accounts[tx.ix.plan].Plan?
    requires d in s.accounts[tx.ix.plan].destinations && d != Key(0)
    ensures tx.ix.pull.toAta in s.tokens
    ensures var receiver := s.tokens[tx.ix.pull.toAta].owner;
            receiver != Key(0) && receiver in s.accounts[tx.ix.plan].destinations
  {
    TransferSubscriptionExactly(s, tx);
    assert Restricted(s.accounts[tx.ix.plan].destinations);
  }

  /**
   * After a subscribe to a plan that listed any receiver, and any run, every pull through that
   * subscription credits a token account of a receiver listed at subscribe time.
   */
  lemma ReceiversAsConsented(s: State, subscribe: Tx, txs: seq<Tx>, pull: Tx, d: Address)
    requires Inv(s) && subscribe.ix.Subscribe? && Step(s, subscribe).Ok?
    requires StaysOpen(Exec(s, subscribe), txs, subscribe.ix.subscription)
    requires PulledBy(Run(Exec(s, subscribe), txs), pull, subscribe.ix.subscription) > 0
    requires subscribe.ix.plan in s.accounts && s.accounts[subscribe.ix.plan].Plan?
    requires d in s.accounts[subscribe.ix.plan].destinations && d != Key(0)
    ensures Asked(pull.ix).Some? && Asked(pull.ix).value.toAta in Run(Exec(s, subscribe), txs).tokens
    ensures var receiver := Run(Exec(s, subscribe), txs).tokens[Asked(pull.ix).value.toAta].owner;
            receiver != Key(0) && receiver in s.accounts[subscribe.ix.plan].destinations
  {
    hide Step;
    var a, s' := subscribe.ix.subscription, Exec(s, subscribe);
    var t := Run(s', txs);
    NextInv(s, subscribe);
    RunKeepsInv(s', txs);
    SubscribeFacts(s, subscribe);
    MatchedThroughout(s', txs, a);
    PullFacts(t, pull, a);
    PullNamesThePlan(t, pull, a);
    PullPaysAListedReceiver(t, pull, d);
  }

  lemma PullNamesThePlan(s: State, tx: Tx, a: Address)
    requires Inv(s) && a in s.accounts && s.accounts[a].Subscription? && PulledBy(s, tx, a) > 0
    ensures tx.ix.TransferSubscription? && tx.ix.plan == s.accounts[a].header.delegatee && Step(s, tx).Ok?
  {
  }

  // --- A delegator can always leave -----------------------------------------------------------------------

  /** The delegator's own close, naming the payer for the rent. */
  ghost function Withdrawal(s: State, a: Address): Tx
    requires a in s.accounts && IsPermission(s.accounts[a])
  {
    var h := s.accounts[a].header;
    Tx({h.delegator}, RevokeDelegation(h.delegator, a, [h.payer]))
  }

  /** In every reachable state the delegator's signature alone closes a fixed or recurring delegation at once. */
  lemma DelegatorCanAlwaysRevoke(s: State, a: Address)
    requires Inv(s) && a in s.accounts && (s.accounts[a].Fixed? || s.accounts[a].Recurring?)
    ensures Step(s, Withdrawal(s, a)).Ok? && a !in Exec(s, Withdrawal(s, a)).accounts
  {
    assert AccountOk(s, a, s.accounts[a]);
    RevokeDelegationExactly(s, Withdrawal(s, a));
  }

  /** Everything a run pulls through the address, whatever is opened there. */
  ghost function EverPulled(s: State, txs: seq<Tx>, a: Address): nat
    decreases |txs|
  {
    if |txs| == 0 then 0 else PulledBy(s, txs[0], a) + EverPulled(Exec(s, txs[0]), txs[1..], a)
  }

  /** Nothing is pulled through an address with no delegation, and only the delegator can open one there. */
  lemma {:induction false} ClosedStaysClosed(s: State, txs: seq<Tx>, a: Address)
    requires Inv(s) && a.DelegationPda? && a !in s.accounts && Unsigned(txs, a.delegator)
    ensures EverPulled(s, txs, a) == 0 && a !in Run(s, txs).accounts
    decreases |txs|
  {
    hide Step;
    if |txs| > 0 {
      var s' := Exec(s, txs[0]);
      NothingToPull(s, txs[0], a);
      NextInv(s, txs[0]);
      assert a != Target(txs[0].ix) && s' != s ==> At(s', a) == At(s, a);
      assert a in s'.accounts ==> AccountOk(s', a, s'.accounts[a]);
      ClosedStaysClosed(s', txs[1..], a);
    }
  }

  lemma NothingToPull(s: State, tx: Tx, a: Address)
    requires Inv(s) && a !in s.accounts
    ensures PulledBy(s, tx, a) == 0
  {
    hide Step;
    if Step(s, tx).Ok? { StepSound(s, tx); }
  }

  /**
   * Exit for delegators: after that one close, whatever everyone else does, nothing is ever pulled
   * through the delegation again and it is never reopened.
   */
  lemma RevokedMeansOver(s: State, a: Address, txs: seq<Tx>)
    requires Inv(s) && a in s.accounts && (s.accounts[a].Fixed? || s.accounts[a].Recurring?)
    requires Unsigned(txs, s.accounts[a].header.delegator)
    ensures var s' := Exec(s, Withdrawal(s, a)); EverPulled(s', txs, a) == 0 && a !in Run(s', txs).accounts
  {
    hide Step;
    assert AccountOk(s, a, s.accounts[a]);
    DelegatorCanAlwaysRevoke(s, a);
    NextInv(s, Withdrawal(s, a));
    ClosedStaysClosed(Exec(s, Withdrawal(s, a)), txs, a);
  }
}
