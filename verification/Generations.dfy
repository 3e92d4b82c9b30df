/** Authority generations: what rotating a user's authority does, and does not, revoke. */
module Generations {
  import opened Types
  import opened Program
  import opened Invariant
  import opened Steps
  import opened Runs
  import opened Sponsorship

  /** The authority a permission's debits go through, while that is defined. */
  function Through(s: State, acc: Account): Option<Address>
    requires IsPermission(acc)
  {
    match acc
    case Fixed(_, authority, _, _, _) => Some(authority)
    case Recurring(_, authority, _, _, _, _, _, _) => Some(authority)
    case Subscription(_, _, _, _, _) => if PlanMatches(s, acc) then Some(BillingAuthority(s, acc)) else None
  }

  /** In every reachable state a live authority is at least as new as each permission that uses it. */
  lemma LiveAuthorityNotOlder(s: State, txs: seq<Tx>, a: Address)
    requires Genesis(s) && a in Run(s, txs).accounts && IsPermission(Run(s, txs).accounts[a])
    ensures var t := Run(s, txs);
            var acc := t.accounts[a];
            Through(t, acc).Some? ==> NotOlder(t, Through(t, acc).value, acc.header.initId)
  {
    hide Step;
    ReachableInv(s, txs);
    assert AccountOk(Run(s, txs), a, Run(s, txs).accounts[a]);
  }

  /** A permission whose generation is gone pulls nothing, in any continuation. */
  lemma GoneGenerationNeverPulls(s: State, txs: seq<Tx>, a: Address)
    requires Inv(s) && a in s.accounts && IsPermission(s.accounts[a])
    requires Through(s, s.accounts[a]).Some?
    requires GenerationGone(s, Through(s, s.accounts[a]).value, s.accounts[a].header.initId)
    ensures PullTotal(s, txs, a) == 0
  {
    hide Step;
    DeadNeverPulls(s, txs, a);
  }

  lemma CloseRemoves(s: State, tx: Tx)
    requires Inv(s) && Step(s, tx).Ok?
    requires tx.ix.CloseAuthority? || (tx.ix.RevokeAuthority? && tx.ix.authority in s.accounts)
    ensures Target(tx.ix) !in Exec(s, tx).accounts && Exec(s, tx).slot == s.slot
  {
    hide AfterInitAuthority, AfterCreateFixed, AfterCreateRecurring, AfterTransferFixed,
         AfterTransferRecurring, AfterTransferSubscription, AfterCreatePlan, AfterUpdatePlan, AfterDeletePlan,
         AfterSubscribe, AfterCancelSubscription, AfterResumeSubscription, AfterCancelSubscriptionNow,
         AfterRevokeDelegation, AfterRevokeAbandonedDelegation, AfterRevokeAbandonedSubscription;
  }

  lemma InitCreates(s: State, init: Tx)
    requires Inv(s) && init.ix.InitAuthority? && Step(s, init).Ok? && init.ix.authority !in s.accounts
    ensures var s' := Exec(s, init);
            init.ix.authority in s'.accounts && s'.accounts[init.ix.authority].Authority? &&
            s'.accounts[init.ix.authority].initId == s.slot && s'.slot == s.slot
  {
  }

  /** Re-initializing an open authority refreshes the approval but keeps generation and payer. */
  lemma ReinitKeepsGeneration(s: State, init: Tx)
    requires Inv(s) && init.ix.InitAuthority? && Step(s, init).Ok? && init.ix.authority in s.accounts
    ensures Exec(s, init).accounts == s.accounts
    ensures init.ix.userAta in Exec(s, init).tokens
    ensures Exec(s, init).tokens[init.ix.userAta].delegate == Some(init.ix.authority)
    ensures Exec(s, init).tokens[init.ix.userAta].delegated == U64_MAX
  {
  }

  /**
   * Closing an authority and creating it again ends the old generation if and only if the creation
   * lands in another slot than the one that numbered it; in that slot the new authority is
   * indistinguishable from the old.
   */
  lemma RotationRevokesIffSlotMoved(s: State, close: Tx, txs: seq<Tx>, init: Tx, initId: I64)
    requires Inv(s) && Step(s, close).Ok? && (close.ix.CloseAuthority? || close.ix.RevokeAuthority?)
    requires LiveGeneration(s, Target(close.ix), initId)
    requires var t := Run(Exec(s, close), txs);
             init.ix.InitAuthority? && init.ix.authority == Target(close.ix) && init.ix.authority !in t.accounts &&
             Step(t, init).Ok?
    ensures var t := Run(Exec(s, close), txs);
            initId <= s.slot <= t.slot &&
            (GenerationGone(Exec(t, init), init.ix.authority, initId) <==> t.slot != initId) &&
            (LiveGeneration(Exec(t, init), init.ix.authority, initId) <==> t.slot == initId)
  {
    hide Step;
    NextInv(s, close);
    RunKeepsInv(Exec(s, close), txs);
    RunClock(Exec(s, close), txs);
    CloseRemoves(s, close);
    assert AccountOk(s, Target(close.ix), s.accounts[Target(close.ix)]);
    InitCreates(Run(Exec(s, close), txs), init);
  }
}
