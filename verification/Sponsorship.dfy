/** A sponsor can close exactly the permissions that are dead, and the dead never pull again. */
module Sponsorship {
  import opened Types
  import opened Program
  import opened Invariant
  import opened Steps
  import opened Runs

  lemma DeadCannotPull(s: State, acc: Account)
    requires Dead(s, acc)
    ensures !MayPull(s, acc)
  {
  }

  lemma DeadAfterReschedule(s: State, tx: Tx, x: Account, y: Account)
    requires x.Subscription? && Dead(s, x) && Reschedules(s, tx, x, y)
    ensures Dead(s, y)
  {
  }

  /** Seen from a fixed account, dead in `s` is dead in the next state. */
  lemma DeadKept(s: State, tx: Tx, s': State, a: Address, acc: Account)
    requires Inv(s) && Next(s, tx, s') && AccountOk(s, a, acc) && Dead(s, acc)
    ensures Dead(s', acc)
  {
    match acc {
      case Fixed(header, authority, _, _, _) =>
        if GenerationGone(s, authority, header.initId) { GenerationStaysGone(s, tx, s', authority, header.initId); }
      case Recurring(header, authority, _, _, _, _, _, _) =>
        if GenerationGone(s, authority, header.initId) { GenerationStaysGone(s, tx, s', authority, header.initId); }
      case Subscription(header, _, _, _, _) =>
        if PlanMatches(s', acc) {
          PlanSeen(s, tx, s', acc);
          var authority := BillingAuthority(s, acc);
          if GenerationGone(s, authority, header.initId) { GenerationStaysGone(s, tx, s', authority, header.initId); }
        }
    }
  }

  lemma DeadStays(s: State, tx: Tx, a: Address)
    requires Inv(s) && a in s.accounts && Dead(s, s.accounts[a])
    ensures PulledBy(s, tx, a) == 0
    ensures var s' := Exec(s, tx); a in s'.accounts ==> Dead(s', s'.accounts[a])
  {
    hide Step;
    Observe(s, tx, a);
    var s' := Exec(s, tx);
    var x := s.accounts[a];
    DeadCannotPull(s, x);
    if a in s'.accounts && IsPermission(x) {
      var y := s'.accounts[a];
      if x != y { DeadAfterReschedule(s, tx, x, y); }
      DeadWellFormed(s, tx, a, y);
      DeadKept(s, tx, s', a, y);
    }
  }

  /** A rescheduled subscription is still well formed against the state before the step. */
  lemma DeadWellFormed(s: State, tx: Tx, a: Address, y: Account)
    requires Inv(s) && a in s.accounts
    requires y == s.accounts[a] || (s.accounts[a].Subscription? && Reschedules(s, tx, s.accounts[a], y))
    ensures AccountOk(s, a, y)
  {
    if y != s.accounts[a] && tx.ix.CancelSubscription? { CancelExpiryNonNegative(s, s.accounts[a]); }
  }

  /** No continuation ever pulls through a dead permission while it stays open. */
  lemma {:induction false} DeadNeverPulls(s: State, txs: seq<Tx>, a: Address)
    requires Inv(s) && a in s.accounts && Dead(s, s.accounts[a])
    ensures PullTotal(s, txs, a) == 0
    decreases |txs|
  {
    hide Step;
    if |txs| > 0 {
      DeadStays(s, txs[0], a);
      NextInv(s, txs[0]);
      if a in Exec(s, txs[0]).accounts { DeadNeverPulls(Exec(s, txs[0]), txs[1..], a); }
    }
  }

  /**
   * Sponsor safety: if a step that the delegator did not sign closes a permission, then no run from
   * the state before the close could have pulled anything through it.
   */
  lemma SponsorSafety(s: State, tx: Tx, txs: seq<Tx>, a: Address)
    requires Inv(s) && a in s.accounts && IsPermission(s.accounts[a])
    requires s.accounts[a].header.delegator !in tx.signers && a !in Exec(s, tx).accounts
    ensures s.accounts[a].header.payer in tx.signers
    ensures PullTotal(s, txs, a) == 0
  {
    hide Step;
    Observe(s, tx, a);
    DeadNeverPulls(s, txs, a);
  }

  /** The transaction with which the payer reclaims the rent of a dead permission. */
  ghost function SponsorClose(s: State, a: Address): Tx
    requires a in s.accounts && IsPermission(s.accounts[a])
  {
    var acc := s.accounts[a];
    var payer := acc.header.payer;
    if acc.Subscription? then
      if PlanMatches(s, acc) && GenerationGone(s, BillingAuthority(s, acc), acc.header.initId) then
        Tx({payer}, RevokeAbandonedSubscription(payer, a, BillingAuthority(s, acc), acc.header.delegatee))
      else Tx({payer}, RevokeDelegation(payer, a, [acc.header.delegatee]))
    else if GenerationGone(s, acc.authority, acc.header.initId) then
      Tx({payer}, RevokeAbandonedDelegation(payer, a, acc.authority))
    else Tx({payer}, RevokeDelegation(payer, a, []))
  }

  lemma DeadCanBeClosed(s: State, a: Address)
    requires Inv(s) && a in s.accounts && Dead(s, s.accounts[a])
    requires s.accounts[a].header.payer != s.accounts[a].header.delegator
    ensures a !in Exec(s, SponsorClose(s, a)).accounts
  {
    hide AfterInitAuthority, AfterCloseAuthority, AfterRevokeAuthority, AfterCreateFixed,
         AfterCreateRecurring, AfterTransferFixed, AfterTransferRecurring, AfterTransferSubscription,
         AfterCreatePlan, AfterUpdatePlan, AfterDeletePlan, AfterSubscribe, AfterCancelSubscription,
         AfterResumeSubscription, AfterCancelSubscriptionNow;
    var acc := s.accounts[a];
    HeldWithinTotal(s.lamports, acc.header.payer, a);
    if acc.Subscription? && PlanMatches(s, acc) { assert PlanLink(s, acc); }
  }

  /** A sponsor, acting alone, can close a permission if and only if it is dead. */
  lemma SponsorClosesExactlyTheDead(s: State, a: Address)
    requires Inv(s) && a in s.accounts && IsPermission(s.accounts[a])
    requires s.accounts[a].header.payer != s.accounts[a].header.delegator
    ensures Dead(s, s.accounts[a]) <==>
            exists tx: Tx :: tx.signers == {s.accounts[a].header.payer} && a !in Exec(s, tx).accounts
  {
    if Dead(s, s.accounts[a]) {
      DeadCanBeClosed(s, a);
      assert SponsorClose(s, a).signers == {s.accounts[a].header.payer};
    }
    forall tx: Tx | tx.signers == {s.accounts[a].header.payer} && a !in Exec(s, tx).accounts
      ensures Dead(s, s.accounts[a])
    {
      Observe(s, tx, a);
    }
  }
}
