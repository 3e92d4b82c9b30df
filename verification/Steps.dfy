/** Every successful instruction is one of the transitions `Invariant` allows, and keeps the invariant. */
module Steps {
  import opened Types
  import opened Metering
  import opened Program
  import opened Invariant

  // --- Lamports are conserved ---------------------------------------------------------------------

  lemma TotalRemove(m: map<Address, nat>, a: Address)
    requires a in m
    ensures Total(m) == m[a] + Total(m - {a})
    decreases |m|
  {
    var b :| b in m && Total(m) == m[b] + Total(m - {b});
    if a != b {
      assert m - {b} - {a} == m - {a} - {b};
      TotalRemove(m - {b}, a);
      TotalRemove(m - {a}, b);
    }
  }

  lemma TotalUpdate(m: map<Address, nat>, a: Address, v: nat)
    ensures Total(m[a := v]) == Total(m) - AmountAt(m, a) + v
  {
    TotalRemove(m[a := v], a);
    assert m[a := v] - {a} == m - {a};
    if a in m {
      TotalRemove(m, a);
    } else {
      assert m - {a} == m;
    }
  }

  lemma MoveConserves(m: map<Address, nat>, source: Address, dest: Address, amount: nat)
    requires amount <= AmountAt(m, source)
    ensures Total(Move(m, source, dest, amount)) == Total(m)
  {
    var debited := m[source := AmountAt(m, source) - amount];
    TotalUpdate(m, source, AmountAt(m, source) - amount);
    TotalUpdate(debited, dest, AmountAt(debited, dest) + amount);
  }

  lemma HeldWithinTotal(m: map<Address, nat>, a: Address, b: Address)
    requires a != b
    ensures AmountAt(m, a) + AmountAt(m, b) <= Total(m)
  {
    if a in m {
      TotalRemove(m, a);
      if b in m { TotalRemove(m - {a}, b); }
    } else if b in m {
      TotalRemove(m, b);
    }
  }

  lemma OpenEffect(s: State, payer: Address, account: Address, rent: nat, content: Account)
    requires Open(s, payer, account, rent, content).Ok?
    ensures var s' := Open(s, payer, account, rent, content).value;
            Total(s'.lamports) == Total(s.lamports)
  {
    var held := AmountAt(s.lamports, account);
    MoveConserves(s.lamports, payer, account, if rent > held then rent - held else 0);
  }

  lemma CloseEffect(s: State, account: Address, dest: Address)
    requires Close(s, account, dest).Ok?
    ensures Total(Close(s, account, dest).value.lamports) == Total(s.lamports)
  {
    MoveConserves(s.lamports, account, dest, AmountAt(s.lamports, account));
  }

  function Payer(primary: Address, sponsor: Option<Address>): Address {
    if sponsor.Some? then sponsor.value else primary
  }

  /** Each ground on which a sponsor may close is a way of being dead. */
  lemma SponsorGroundIsDead(s: State, a: Address, acc: Account)
    requires AccountOk(s, a, acc) && IsPermission(acc) && SponsorMayClose(s, acc) == Ok(true)
    ensures Dead(s, acc)
  {
  }

  lemma RevokeDelegationCloses(s: State, tx: Tx)
    requires Inv(s) && tx.ix.RevokeDelegation? && AfterRevokeDelegation(s, tx.signers, tx.ix).Ok?
    ensures tx.ix.delegation in s.accounts
    ensures var acc := s.accounts[tx.ix.delegation];
            IsPermission(acc) && Closes(s, tx, acc) &&
            AfterRevokeDelegation(s, tx.signers, tx.ix) == Close(s, tx.ix.delegation, acc.header.payer)
  {
    var acc := s.accounts[tx.ix.delegation];
    if acc.header.delegator != tx.ix.caller {
      SponsorGroundIsDead(s, tx.ix.delegation, acc);
    }
  }

  lemma RevokeAbandonedDelegationCloses(s: State, tx: Tx)
    requires Inv(s) && tx.ix.RevokeAbandonedDelegation?
    requires AfterRevokeAbandonedDelegation(s, tx.signers, tx.ix).Ok?
    ensures tx.ix.delegation in s.accounts
    ensures var acc := s.accounts[tx.ix.delegation];
            IsPermission(acc) && Closes(s, tx, acc) &&
            AfterRevokeAbandonedDelegation(s, tx.signers, tx.ix) == Close(s, tx.ix.delegation, acc.header.payer)
  {
    hide Close;
  }

  lemma RevokeAbandonedSubscriptionCloses(s: State, tx: Tx)
    requires Inv(s) && tx.ix.RevokeAbandonedSubscription?
    requires AfterRevokeAbandonedSubscription(s, tx.signers, tx.ix).Ok?
    ensures tx.ix.subscription in s.accounts
    ensures var acc := s.accounts[tx.ix.subscription];
            IsPermission(acc) && Closes(s, tx, acc) &&
            AfterRevokeAbandonedSubscription(s, tx.signers, tx.ix) == Close(s, tx.ix.subscription, acc.header.payer)
  {
    hide Close;
    assert AccountOk(s, tx.ix.subscription, s.accounts[tx.ix.subscription]);
  }

  /** Everything a successful subscription pull has been checked against, and the state it leaves. */
  lemma SubscriptionPullShape(s: State, signers: set<Address>, p: Pull, plan: Address)
    requires AfterTransferSubscription(s, signers, p, plan).Ok?
    ensures p.permission in s.accounts && plan in s.accounts && p.authority in s.accounts && p.caller in signers
    ensures s.accounts[p.permission].Subscription? && s.accounts[plan].Plan? && s.accounts[p.authority].Authority?
    ensures var sub, pl := s.accounts[p.permission], s.accounts[plan];
            sub.header.delegatee == plan && sub.header.delegator == p.delegator && sub.terms == pl.terms &&
            pl.mint == p.mint && !IsExpired(pl.endTs, s.now) && CanPull(pl, p.caller) &&
            (sub.expiresAt == 0 || s.now < sub.expiresAt) && PeriodSecs(sub.terms).Ok?
    ensures s.accounts[p.authority].initId == s.accounts[p.permission].header.initId
    ensures p.authority == AuthorityPda(p.delegator, p.mint) && p.fromAta == Ata(p.delegator, p.mint)
    ensures var sub, s' := s.accounts[p.permission], AfterTransferSubscription(s, signers, p, plan).value;
            var r := Charge(p.amount, sub.terms.amount, PeriodSecs(sub.terms).value, MeterOf(sub),
                            s.accounts[plan].endTs, s.now);
            r.Ok? && s' == s.(accounts := s.accounts[p.permission := WithMeter(sub, r.value)], tokens := s'.tokens)
  {
  }

  /** Everything a successful subscribe has been checked against, and the account it opens. */
  lemma SubscribeShape(s: State, signers: set<Address>, ix: Instruction)
    requires ix.Subscribe? && AfterSubscribe(s, signers, ix).Ok?
    ensures ix.plan in s.accounts && s.accounts[ix.plan].Plan? && ix.plan == PlanPda(ix.merchant, ix.planId)
    ensures ix.authority in s.accounts && s.accounts[ix.authority].Authority?
    ensures var p, authority := s.accounts[ix.plan], s.accounts[ix.authority];
            p.status == Active && !IsExpired(p.endTs, s.now) &&
            authority.user == ix.subscriber && authority.mint == p.mint
    ensures ix.subscriber in signers && Payer(ix.subscriber, ix.sponsor) in signers
    ensures ix.subscription == SubscriptionPda(ix.plan, ix.subscriber) && ix.subscription !in s.accounts
    ensures var payer := Payer(ix.subscriber, ix.sponsor);
            var header := Header(ix.subscriber, ix.plan, payer, s.accounts[ix.authority].initId);
            AfterSubscribe(s, signers, ix) ==
            Open(s, payer, ix.subscription, ix.rent, Subscription(header, s.accounts[ix.plan].terms, 0, s.now, 0))
  {
    hide Open;
  }

  /** Revoking an authority clears the approval at most, and then closes it if it is open. */
  lemma RevokeAuthorityShape(s: State, signers: set<Address>, ix: Instruction)
    requires ix.RevokeAuthority? && AfterRevokeAuthority(s, signers, ix).Ok?
    ensures ix.user in signers
    ensures var s' := AfterRevokeAuthority(s, signers, ix).value;
            if ix.authority in s.accounts then
              s.accounts[ix.authority].Authority? && s.accounts[ix.authority].user == ix.user &&
              Close(s.(tokens := s'.tokens), ix.authority, s.accounts[ix.authority].payer) == Ok(s')
            else s' == s.(tokens := s'.tokens)
  {
  }

  // --- One lemma per instruction ------------------------------------------------------------------

  ghost predicate Sound(s: State, tx: Tx, r: Result<State>) {
    r.Ok? ==> Follows(s, tx, r.value) && Total(r.value.lamports) == Total(s.lamports)
  }

  lemma InitAuthoritySound(s: State, tx: Tx)
    requires Inv(s) && OnlyWallets(tx.signers) && tx.ix.InitAuthority?
    ensures Sound(s, tx, AfterInitAuthority(s, tx.signers, tx.ix))
  {
    var ix := tx.ix;
    var r := AfterInitAuthority(s, tx.signers, tx.ix);
    if r.Ok? {
      if ix.authority !in s.accounts {
        OpenEffect(s, Payer(ix.user, ix.sponsor), ix.authority, ix.rent, r.value.accounts[ix.authority]);
      }
    }
  }

  lemma CloseAuthoritySound(s: State, tx: Tx)
    requires Inv(s) && OnlyWallets(tx.signers) && tx.ix.CloseAuthority?
    ensures Sound(s, tx, AfterCloseAuthority(s, tx.signers, tx.ix))
  {
    var ix := tx.ix;
    var r := AfterCloseAuthority(s, tx.signers, tx.ix);
    if r.Ok? {
      CloseEffect(s, ix.authority, s.accounts[ix.authority].payer);
    }
  }

  lemma RevokeAuthoritySound(s: State, tx: Tx)
    requires Inv(s) && OnlyWallets(tx.signers) && tx.ix.RevokeAuthority?
    ensures Sound(s, tx, AfterRevokeAuthority(s, tx.signers, tx.ix))
  {
    hide AfterRevokeAuthority;
    var ix := tx.ix;
    var r := AfterRevokeAuthority(s, tx.signers, tx.ix);
    if r.Ok? {
      RevokeAuthorityShape(s, tx.signers, ix);
      if ix.authority in s.accounts {
        CloseEffect(s.(tokens := r.value.tokens), ix.authority, s.accounts[ix.authority].payer);
      }
    }
  }

  lemma CreateFixedSound(s: State, tx: Tx)
    requires Inv(s) && OnlyWallets(tx.signers) && tx.ix.CreateFixed?
    ensures Sound(s, tx, AfterCreateFixed(s, tx.signers, tx.ix))
  {
    var ix := tx.ix;
    var r := AfterCreateFixed(s, tx.signers, tx.ix);
    if r.Ok? {
      OpenEffect(s, Payer(ix.delegator, ix.sponsor), ix.delegation, ix.rent, r.value.accounts[ix.delegation]);
    }
  }

  lemma CreateRecurringSound(s: State, tx: Tx)
    requires Inv(s) && OnlyWallets(tx.signers) && tx.ix.CreateRecurring?
    ensures Sound(s, tx, AfterCreateRecurring(s, tx.signers, tx.ix))
  {
    var ix := tx.ix;
    var r := AfterCreateRecurring(s, tx.signers, tx.ix);
    if r.Ok? {
      OpenEffect(s, Payer(ix.delegator, ix.sponsor), ix.delegation, ix.rent, r.value.accounts[ix.delegation]);
    }
  }

  /** What every debit has been checked against. */
  lemma DebitShape(s: State, p: Pull, initId: I64)
    requires p.fromAta in s.tokens && p.toAta in s.tokens
    requires p.authority in s.accounts && s.accounts[p.authority].Authority?
    requires TransferWithDelegate(s, p, initId).Ok?
    ensures p.authority == AuthorityPda(p.delegator, p.mint) && p.fromAta == Ata(p.delegator, p.mint)
    ensures s.accounts[p.authority].initId == initId
  {
  }

  lemma TransferFixedSound(s: State, tx: Tx)
    requires Inv(s) && OnlyWallets(tx.signers) && tx.ix.TransferFixed?
    ensures Sound(s, tx, AfterTransferFixed(s, tx.signers, tx.ix.pull))
  {
    hide TransferWithDelegate;
    var p := tx.ix.pull;
    if AfterTransferFixed(s, tx.signers, p).Ok? { DebitShape(s, p, s.accounts[p.permission].header.initId); }
  }

  lemma TransferRecurringSound(s: State, tx: Tx)
    requires Inv(s) && OnlyWallets(tx.signers) && tx.ix.TransferRecurring?
    ensures Sound(s, tx, AfterTransferRecurring(s, tx.signers, tx.ix.pull))
  {
    hide TransferWithDelegate;
    var p := tx.ix.pull;
    if AfterTransferRecurring(s, tx.signers, p).Ok? {
      DebitShape(s, p, s.accounts[p.permission].header.initId);
      assert AccountOk(s, p.permission, s.accounts[p.permission]);
    }
  }

  lemma TransferSubscriptionSound(s: State, tx: Tx)
    requires Inv(s) && OnlyWallets(tx.signers) && tx.ix.TransferSubscription?
    ensures Sound(s, tx, AfterTransferSubscription(s, tx.signers, tx.ix.pull, tx.ix.plan))
  {
    hide AfterTransferSubscription;
    if AfterTransferSubscription(s, tx.signers, tx.ix.pull, tx.ix.plan).Ok? {
      SubscriptionPullShape(s, tx.signers, tx.ix.pull, tx.ix.plan);
    }
  }

  lemma CreatePlanSound(s: State, tx: Tx)
    requires Inv(s) && OnlyWallets(tx.signers) && tx.ix.CreatePlan?
    ensures Sound(s, tx, AfterCreatePlan(s, tx.signers, tx.ix))
  {
    var ix := tx.ix;
    var r := AfterCreatePlan(s, tx.signers, tx.ix);
    if r.Ok? {
      OpenEffect(s, Payer(ix.merchant, ix.sponsor), ix.plan, ix.rent, r.value.accounts[ix.plan]);
    }
  }

  lemma UpdatePlanSound(s: State, tx: Tx)
    requires Inv(s) && OnlyWallets(tx.signers) && tx.ix.UpdatePlan?
    ensures Sound(s, tx, AfterUpdatePlan(s, tx.signers, tx.ix))
  {
  }

  lemma DeletePlanSound(s: State, tx: Tx)
    requires Inv(s) && OnlyWallets(tx.signers) && tx.ix.DeletePlan?
    ensures Sound(s, tx, AfterDeletePlan(s, tx.signers, tx.ix))
  {
    var ix := tx.ix;
    var r := AfterDeletePlan(s, tx.signers, tx.ix);
    if r.Ok? {
      CloseEffect(s, ix.plan, ix.owner);
    }
  }

  lemma SubscribeSound(s: State, tx: Tx)
    requires Inv(s) && OnlyWallets(tx.signers) && tx.ix.Subscribe?
    ensures Sound(s, tx, AfterSubscribe(s, tx.signers, tx.ix))
  {
    hide AfterSubscribe;
    var ix := tx.ix;
    var r := AfterSubscribe(s, tx.signers, tx.ix);
    if r.Ok? {
      SubscribeShape(s, tx.signers, ix);
      assert AccountOk(s, ix.authority, s.accounts[ix.authority]);
      OpenEffect(s, Payer(ix.subscriber, ix.sponsor), ix.subscription, ix.rent, r.value.accounts[ix.subscription]);
    }
  }

  lemma CancelSubscriptionSound(s: State, tx: Tx)
    requires Inv(s) && OnlyWallets(tx.signers) && tx.ix.CancelSubscription?
    ensures Sound(s, tx, AfterCancelSubscription(s, tx.signers, tx.ix))
  {
  }

  lemma ResumeSubscriptionSound(s: State, tx: Tx)
    requires Inv(s) && OnlyWallets(tx.signers) && tx.ix.ResumeSubscription?
    ensures Sound(s, tx, AfterResumeSubscription(s, tx.signers, tx.ix))
  {
  }

  lemma CancelSubscriptionNowSound(s: State, tx: Tx)
    requires Inv(s) && OnlyWallets(tx.signers) && tx.ix.CancelSubscriptionNow?
    ensures Sound(s, tx, AfterCancelSubscriptionNow(s, tx.signers, tx.ix))
  {
  }

  lemma RevokeDelegationSound(s: State, tx: Tx)
    requires Inv(s) && OnlyWallets(tx.signers) && tx.ix.RevokeDelegation?
    ensures Sound(s, tx, AfterRevokeDelegation(s, tx.signers, tx.ix))
  {
    hide AfterRevokeDelegation;
    hide Closes;
    var ix := tx.ix;
    var r := AfterRevokeDelegation(s, tx.signers, tx.ix);
    if r.Ok? {
      RevokeDelegationCloses(s, tx);
      CloseEffect(s, ix.delegation, s.accounts[ix.delegation].header.payer);
    }
  }

  lemma RevokeAbandonedDelegationSound(s: State, tx: Tx)
    requires Inv(s) && OnlyWallets(tx.signers) && tx.ix.RevokeAbandonedDelegation?
    ensures Sound(s, tx, AfterRevokeAbandonedDelegation(s, tx.signers, tx.ix))
  {
    hide AfterRevokeAbandonedDelegation;
    hide Closes;
    var ix := tx.ix;
    var r := AfterRevokeAbandonedDelegation(s, tx.signers, tx.ix);
    if r.Ok? {
      RevokeAbandonedDelegationCloses(s, tx);
      CloseEffect(s, ix.delegation, s.accounts[ix.delegation].header.payer);
    }
  }

  lemma RevokeAbandonedSubscriptionSound(s: State, tx: Tx)
    requires Inv(s) && OnlyWallets(tx.signers) && tx.ix.RevokeAbandonedSubscription?
    ensures Sound(s, tx, AfterRevokeAbandonedSubscription(s, tx.signers, tx.ix))
  {
    hide AfterRevokeAbandonedSubscription;
    hide Closes;
    var ix := tx.ix;
    var r := AfterRevokeAbandonedSubscription(s, tx.signers, tx.ix);
    if r.Ok? {
      RevokeAbandonedSubscriptionCloses(s, tx);
      CloseEffect(s, ix.subscription, s.accounts[ix.subscription].header.payer);
    }
  }

  /** Every successful step is a transition of `Invariant`; no program instruction creates or burns lamports. */
  lemma StepSound(s: State, tx: Tx)
    requires Inv(s) && Step(s, tx).Ok?
    ensures Follows(s, tx, Step(s, tx).value)
    ensures !tx.ix.External? ==> Total(Step(s, tx).value.lamports) == Total(s.lamports)
  {
    hide AfterInitAuthority, AfterCloseAuthority, AfterRevokeAuthority, AfterCreateFixed,
         AfterCreateRecurring, AfterTransferFixed, AfterTransferRecurring, AfterTransferSubscription,
         AfterCreatePlan, AfterUpdatePlan, AfterDeletePlan, AfterSubscribe, AfterCancelSubscription,
         AfterResumeSubscription, AfterCancelSubscriptionNow, AfterRevokeDelegation,
         AfterRevokeAbandonedDelegation, AfterRevokeAbandonedSubscription;
    match tx.ix {
      case InitAuthority(_, _, _, _, _, _) => InitAuthoritySound(s, tx);
      case CloseAuthority(_, _, _) => CloseAuthoritySound(s, tx);
      case RevokeAuthority(_, _, _, _, _) => RevokeAuthoritySound(s, tx);
      case CreateFixed(_, _, _, _, _, _, _, _, _, _) => CreateFixedSound(s, tx);
      case CreateRecurring(_, _, _, _, _, _, _, _, _, _, _, _) => CreateRecurringSound(s, tx);
      case TransferFixed(_) => TransferFixedSound(s, tx);
      case TransferRecurring(_) => TransferRecurringSound(s, tx);
      case TransferSubscription(_, _) => TransferSubscriptionSound(s, tx);
      case CreatePlan(_, _, _, _, _, _, _, _, _, _, _, _, _) => CreatePlanSound(s, tx);
      case UpdatePlan(_, _, _, _, _, _, _, _, _, _) => UpdatePlanSound(s, tx);
      case DeletePlan(_, _) => DeletePlanSound(s, tx);
      case Subscribe(_, _, _, _, _, _, _, _, _, _, _, _, _) => SubscribeSound(s, tx);
      case CancelSubscription(_, _, _) => CancelSubscriptionSound(s, tx);
      case ResumeSubscription(_, _, _, _, _) => ResumeSubscriptionSound(s, tx);
      case CancelSubscriptionNow(_, _, _, _, _) => CancelSubscriptionNowSound(s, tx);
      case RevokeDelegation(_, _, _) => RevokeDelegationSound(s, tx);
      case RevokeAbandonedDelegation(_, _, _) => RevokeAbandonedDelegationSound(s, tx);
      case RevokeAbandonedSubscription(_, _, _, _) => RevokeAbandonedSubscriptionSound(s, tx);
      case Tick(_, _) =>
      case External(_, _) =>
    }
  }

  // --- The invariant is kept ------------------------------------------------------------------------

  lemma OpenedOk(s: State, tx: Tx, s': State, acc: Account)
    requires Inv(s) && Follows(s, tx, s') && At(s, Target(tx.ix)) == None && At(s', Target(tx.ix)) == Some(acc)
    ensures AccountOk(s', Target(tx.ix), acc)
  {
    if acc.Subscription? {
      assert At(s', acc.header.delegatee) == At(s, acc.header.delegatee);
      assert At(s', BillingAuthority(s, acc)) == At(s, BillingAuthority(s, acc));
    } else if acc.Fixed? || acc.Recurring? {
      assert At(s', acc.authority) == At(s, acc.authority);
    }
  }

  lemma NotOlderKept(s: State, tx: Tx, s': State, authority: Address, initId: I64)
    requires Inv(s) && Follows(s, tx, s') && NotOlder(s, authority, initId) && initId <= s.slot
    requires authority.AuthorityPda?
    ensures NotOlder(s', authority, initId)
  {
    assert authority != Target(tx.ix) ==> At(s', authority) == At(s, authority);
  }

  lemma PlanLinkKept(s: State, tx: Tx, s': State, sub: Account)
    requires Inv(s) && Follows(s, tx, s') && sub.Subscription? && PlanLink(s, sub)
    requires sub.header.delegatee.PlanPda? && sub.header.initId <= s.slot
    ensures PlanLink(s', sub)
  {
    var plan := sub.header.delegatee;
    assert plan != Target(tx.ix) ==> At(s', plan) == At(s, plan);
    if plan in s.accounts && plan in s'.accounts && PlanMatches(s, sub) {
      NotOlderKept(s, tx, s', BillingAuthority(s, sub), sub.header.initId);
    }
  }

  /** The links of an account to its authority and plan survive any step. */
  lemma LinksKept(s: State, tx: Tx, s': State, a: Address, x: Account)
    requires Inv(s) && Follows(s, tx, s') && AccountOk(s, a, x)
    ensures AccountOk(s', a, x)
  {
    if x.Fixed? || x.Recurring? {
      NotOlderKept(s, tx, s', x.authority, x.header.initId);
    } else if x.Subscription? {
      PlanLinkKept(s, tx, s', x);
    }
  }

  /** A pull moves the counters within their bounds. */
  lemma ChargeBounds(amount: U64, cap: U64, period: U64, m: Meter, expiry: I64, now: UnixTime)
    requires period > 0 && m.pulled <= cap && Charge(amount, cap, period, m, expiry, now).Ok?
    ensures var m' := Charge(amount, cap, period, m, expiry, now).value;
            amount <= m'.pulled <= cap && m.start <= m'.start <= now &&
            (m'.start == m.start || expiry == 0 || m'.start < expiry)
  {
  }

  /** The written account itself is well formed against the state it was written from. */
  lemma WrittenOk(s: State, tx: Tx, a: Address, x: Account, y: Account)
    requires Inv(s) && a in s.accounts && s.accounts[a] == x && Writes(s, tx, a, x, y)
    ensures AccountOk(s, a, y)
  {
    if Asked(tx.ix).Some? {
      if !x.Fixed? {
        ChargeBounds(Asked(tx.ix).value.amount, Cap(x), Length(x), MeterOf(x), Horizon(s, x), s.now);
      }
    } else if x.Subscription? {
      if tx.ix.CancelSubscription? { CancelExpiryNonNegative(s, x); }
    }
  }

  lemma CancelExpiryNonNegative(s: State, x: Account)
    requires x.Subscription? && 0 <= x.periodStart <= s.now && TermsOk(x.terms)
    ensures PlanMatches(s, x) && 0 <= PlanOf(s, x).endTs && CancelExpiry(x, PlanOf(s, x).endTs, s.now).Ok? ==>
              CancelExpiry(x, PlanOf(s, x).endTs, s.now).value >= 0
  {
    DivBounds(s.now - x.periodStart, Secs(x.terms));
    var q := (s.now - x.periodStart) / Secs(x.terms);
    assert (q + 1) * Secs(x.terms) == q * Secs(x.terms) + Secs(x.terms);
  }

  lemma InvKept(s: State, tx: Tx)
    requires Inv(s)
    ensures Inv(Exec(s, tx))
  {
    if Step(s, tx).Ok? {
      var s' := Step(s, tx).value;
      StepSound(s, tx);
      forall a | a in s'.accounts
        ensures AccountOk(s', a, s'.accounts[a])
      {
        assert a != Target(tx.ix) ==> At(s', a) == At(s, a);
        if a !in s.accounts {
          OpenedOk(s, tx, s', s'.accounts[a]);
        } else {
          if s.accounts[a] != s'.accounts[a] { WrittenOk(s, tx, a, s.accounts[a], s'.accounts[a]); }
          LinksKept(s, tx, s', a, s'.accounts[a]);
        }
      }
    }
  }

  /** Any state before the program's first instruction. */
  ghost predicate Genesis(s: State) {
    s.accounts == map[] && Total(s.lamports) <= U64_MAX
  }

  lemma {:induction false} RunKeepsInv(s: State, txs: seq<Tx>)
    requires Inv(s)
    ensures Inv(Run(s, txs))
    decreases |txs|
  {
    if |txs| > 0 {
      InvKept(s, txs[0]);
      RunKeepsInv(Exec(s, txs[0]), txs[1..]);
    }
  }

  /** Every reachable state satisfies the invariant. */
  lemma ReachableInv(s: State, txs: seq<Tx>)
    requires Genesis(s)
    ensures Inv(Run(s, txs))
  {
    RunKeepsInv(s, txs);
  }
}
