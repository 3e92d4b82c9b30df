/** No instruction, on any input in any reachable state, ever meets an arithmetic failure. */
module Arithmetic {
  import opened Types
  import opened Metering
  import opened Program
  import opened Invariant
  import opened Steps

  /** A failed checked operation, an overflowing unchecked one, or lamports that do not balance. */
  predicate IsArithmetic(e: Error) {
    e.ArithmeticOverflow? || e.ArithmeticUnderflow? || e.Panic? || e.UnbalancedInstruction?
  }

  predicate Safe<T>(r: Result<T>) {
    r.Err? ==> !IsArithmetic(r.error)
  }

  lemma CloseSafe(s: State, a: Address, dest: Address)
    requires Inv(s) && a in s.accounts && dest.Key?
    ensures Safe(Close(s, a, dest))
  {
    assert AccountOk(s, a, s.accounts[a]);
    HeldWithinTotal(s.lamports, dest, a);
  }

  /** The meter never exceeds its cap, and a period end computed after a charge fits. */
  lemma ChargeSafe(amount: U64, cap: U64, period: U64, m: Meter, expiry: I64, now: UnixTime)
    requires 0 < period <= MAX_DELEGATION_PERIOD_SECS && m.pulled <= cap
    ensures Safe(Charge(amount, cap, period, m, expiry, now))
    ensures Charge(amount, cap, period, m, expiry, now).Ok? ==>
              FitsI64(Charge(amount, cap, period, m, expiry, now).value.start + period)
  {
  }

  lemma DebitSafe(s: State, p: Pull, initId: I64)
    requires p.fromAta in s.tokens && p.toAta in s.tokens
    requires p.authority in s.accounts && s.accounts[p.authority].Authority?
    ensures Safe(TransferWithDelegate(s, p, initId))
  {
  }

  lemma PullAccountSafe(s: State, signers: set<Address>, p: Pull)
    ensures Safe(PullAccount(s, signers, p))
  {
  }

  lemma TransferFixedSafe(s: State, tx: Tx)
    requires Inv(s) && tx.ix.TransferFixed?
    ensures Safe(AfterTransferFixed(s, tx.signers, tx.ix.pull))
  {
    hide TransferWithDelegate;
    hide PullAccount;
    var p := tx.ix.pull;
    PullAccountSafe(s, tx.signers, p);
    if PullAccount(s, tx.signers, p).Ok? {
      var d := s.accounts[p.permission];
      if d.Fixed? { DebitSafe(s, p, d.header.initId); }
    }
  }

  lemma TransferRecurringSafe(s: State, tx: Tx)
    requires Inv(s) && tx.ix.TransferRecurring?
    ensures Safe(AfterTransferRecurring(s, tx.signers, tx.ix.pull))
  {
    hide TransferWithDelegate;
    hide PullAccount;
    hide Charge;
    var p := tx.ix.pull;
    PullAccountSafe(s, tx.signers, p);
    if PullAccount(s, tx.signers, p).Ok? {
      var d := s.accounts[p.permission];
      if d.Recurring? {
        assert AccountOk(s, p.permission, d);
        DebitSafe(s, p, d.header.initId);
        ChargeSafe(p.amount, d.cap, d.periodLength, MeterOf(d), d.expiryTs, s.now);
      }
    }
  }

  lemma TransferSubscriptionSafe(s: State, tx: Tx)
    requires Inv(s) && tx.ix.TransferSubscription?
    ensures Safe(AfterTransferSubscription(s, tx.signers, tx.ix.pull, tx.ix.plan))
  {
    hide TransferWithDelegate;
    hide Charge;
    hide CanPull;
    hide AllowsDestination;
    var p, plan := tx.ix.pull, tx.ix.plan;
    if p.permission in s.accounts && plan in s.accounts {
      var sub, pl := s.accounts[p.permission], s.accounts[plan];
      if sub.Subscription? && pl.Plan? {
        assert AccountOk(s, p.permission, sub);
        ChargeSafe(p.amount, sub.terms.amount, Secs(sub.terms), MeterOf(sub), pl.endTs, s.now);
        if p.fromAta in s.tokens && p.toAta in s.tokens &&
           p.authority in s.accounts && s.accounts[p.authority].Authority? {
          DebitSafe(s, p, sub.header.initId);
        }
      }
    }
  }

  lemma CancelSafe(s: State, tx: Tx)
    requires Inv(s) && tx.ix.CancelSubscription?
    ensures Safe(AfterCancelSubscription(s, tx.signers, tx.ix))
  {
    if tx.ix.subscription in s.accounts && s.accounts[tx.ix.subscription].Subscription? {
      var x := s.accounts[tx.ix.subscription];
      assert AccountOk(s, tx.ix.subscription, x);
      DivBounds(s.now - x.periodStart, Secs(x.terms));
      var q := (s.now - x.periodStart) / Secs(x.terms);
      assert (q + 1) * Secs(x.terms) == q * Secs(x.terms) + Secs(x.terms);
    }
  }

  lemma TargetCloseSafe(s: State, tx: Tx)
    requires Inv(s)
    ensures var a := Target(tx.ix);
            a in s.accounts ==> RentOwner(s.accounts[a]).Key? && Safe(Close(s, a, RentOwner(s.accounts[a])))
  {
    var a := Target(tx.ix);
    if a in s.accounts {
      assert AccountOk(s, a, s.accounts[a]);
      CloseSafe(s, a, RentOwner(s.accounts[a]));
    }
  }

  lemma CloseAuthoritySafe(s: State, tx: Tx)
    requires Inv(s) && OnlyWallets(tx.signers) && tx.ix.CloseAuthority?
    ensures Safe(AfterCloseAuthority(s, tx.signers, tx.ix))
  {
    hide Close;
    TargetCloseSafe(s, tx);
  }

  lemma DeletePlanSafe(s: State, tx: Tx)
    requires Inv(s) && OnlyWallets(tx.signers) && tx.ix.DeletePlan?
    ensures Safe(AfterDeletePlan(s, tx.signers, tx.ix))
  {
    hide Close;
    TargetCloseSafe(s, tx);
  }

  lemma RevokeDelegationSafe(s: State, tx: Tx)
    requires Inv(s) && OnlyWallets(tx.signers) && tx.ix.RevokeDelegation?
    ensures Safe(AfterRevokeDelegation(s, tx.signers, tx.ix))
  {
    hide Close;
    TargetCloseSafe(s, tx);
  }

  lemma RevokeAbandonedDelegationSafe(s: State, tx: Tx)
    requires Inv(s) && OnlyWallets(tx.signers) && tx.ix.RevokeAbandonedDelegation?
    ensures Safe(AfterRevokeAbandonedDelegation(s, tx.signers, tx.ix))
  {
    hide Close;
    TargetCloseSafe(s, tx);
  }

  lemma RevokeAbandonedSubscriptionSafe(s: State, tx: Tx)
    requires Inv(s) && OnlyWallets(tx.signers) && tx.ix.RevokeAbandonedSubscription?
    ensures Safe(AfterRevokeAbandonedSubscription(s, tx.signers, tx.ix))
  {
    hide Close;
    TargetCloseSafe(s, tx);
  }

  lemma RevokeAuthoritySafe(s: State, tx: Tx)
    requires Inv(s) && tx.ix.RevokeAuthority?
    ensures Safe(AfterRevokeAuthority(s, tx.signers, tx.ix))
  {
    var a := tx.ix.authority;
    if a in s.accounts && tx.ix.userAta in s.tokens {
      assert AccountOk(s, a, s.accounts[a]);
      var token := s.tokens[tx.ix.userAta];
      var revoked := s.(tokens := s.tokens[tx.ix.userAta := token.(delegate := None, delegated := 0)]);
      assert Inv(revoked) by {
        forall x | x in revoked.accounts ensures AccountOk(revoked, x, revoked.accounts[x]) {
          assert AccountOk(s, x, s.accounts[x]);
        }
      }
      CloseSafe(s, a, RentOwner(s.accounts[a]));
      CloseSafe(revoked, a, RentOwner(s.accounts[a]));
    }
  }

  lemma UpdateSafe(s: State, tx: Tx)
    requires Inv(s) && tx.ix.UpdatePlan?
    ensures Safe(AfterUpdatePlan(s, tx.signers, tx.ix))
  {
    assert tx.ix.plan in s.accounts ==> AccountOk(s, tx.ix.plan, s.accounts[tx.ix.plan]);
  }

  /** Instructions that open accounts or only move an expiry. */
  lemma OpeningsSafe(s: State, tx: Tx)
    ensures tx.ix.InitAuthority? ==> Safe(AfterInitAuthority(s, tx.signers, tx.ix))
    ensures tx.ix.CreateFixed? ==> Safe(AfterCreateFixed(s, tx.signers, tx.ix))
    ensures tx.ix.CreateRecurring? ==> Safe(AfterCreateRecurring(s, tx.signers, tx.ix))
    ensures tx.ix.CreatePlan? ==> Safe(AfterCreatePlan(s, tx.signers, tx.ix))
  {
  }

  lemma SubscriberStepsSafe(s: State, tx: Tx)
    ensures tx.ix.Subscribe? ==> Safe(AfterSubscribe(s, tx.signers, tx.ix))
    ensures tx.ix.ResumeSubscription? ==> Safe(AfterResumeSubscription(s, tx.signers, tx.ix))
    ensures tx.ix.CancelSubscriptionNow? ==> Safe(AfterCancelSubscriptionNow(s, tx.signers, tx.ix))
  {
  }

  /**
   * In every reachable state, whatever the instruction and its data, no checked operation fails, no
   * unchecked addition overflows, and every rent transfer balances.
   */
  lemma NeverArithmetic(s: State, tx: Tx)
    requires Inv(s)
    ensures Safe(Step(s, tx))
  {
    hide AfterTransferFixed;
    hide AfterTransferRecurring;
    hide AfterTransferSubscription;
    hide AfterCancelSubscription;
    hide AfterUpdatePlan;
    hide AfterRevokeAuthority;
    hide AfterCloseAuthority;
    hide AfterDeletePlan;
    hide AfterRevokeDelegation;
    hide AfterRevokeAbandonedDelegation;
    hide AfterRevokeAbandonedSubscription;
    hide AfterInitAuthority;
    hide AfterCreateFixed;
    hide AfterCreateRecurring;
    hide AfterCreatePlan;
    hide AfterSubscribe;
    hide AfterResumeSubscription;
    hide AfterCancelSubscriptionNow;
    if OnlyWallets(tx.signers) {
      OpeningsSafe(s, tx);
      SubscriberStepsSafe(s, tx);
      match tx.ix {
        case TransferFixed(_) => TransferFixedSafe(s, tx);
        case TransferRecurring(_) => TransferRecurringSafe(s, tx);
        case TransferSubscription(_, _) => TransferSubscriptionSafe(s, tx);
        case CancelSubscription(_, _, _) => CancelSafe(s, tx);
        case UpdatePlan(_, _, _, _, _, _, _, _, _, _) => UpdateSafe(s, tx);
        case RevokeAuthority(_, _, _, _, _) => RevokeAuthoritySafe(s, tx);
        case CloseAuthority(_, _, _) => CloseAuthoritySafe(s, tx);
        case DeletePlan(_, _) => DeletePlanSafe(s, tx);
        case RevokeDelegation(_, _, _) => RevokeDelegationSafe(s, tx);
        case RevokeAbandonedDelegation(_, _, _) => RevokeAbandonedDelegationSafe(s, tx);
        case RevokeAbandonedSubscription(_, _, _, _) => RevokeAbandonedSubscriptionSafe(s, tx);
        case _ =>
      }
    }
  }

  /** In every reachable state the counter of an open metered permission is within its cap. */
  lemma PulledWithinCap(s: State, txs: seq<Tx>, a: Address)
    requires Genesis(s) && a in Run(s, txs).accounts
    requires Run(s, txs).accounts[a].Recurring? || Run(s, txs).accounts[a].Subscription?
    ensures Run(s, txs).accounts[a].pulled <= Cap(Run(s, txs).accounts[a])
  {
    hide Step;
    ReachableInv(s, txs);
    assert AccountOk(Run(s, txs), a, Run(s, txs).accounts[a]);
  }
}
