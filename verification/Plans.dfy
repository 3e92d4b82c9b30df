/** Plans over time: one incarnation only ever narrows, and an old subscriber never meets the next one. */
module Plans {
  import opened Types
  import opened Program
  import opened Invariant
  import opened Steps
  import opened Runs

  // --- The life of one incarnation ----------------------------------------------------------------

  /** What may differ between two moments of the same plan incarnation. */
  ghost predicate Evolves(p: Account, q: Account) {
    p.Plan? && q.Plan? &&
    q == p.(status := q.status, endTs := q.endTs, pullers := q.pullers, metadata := q.metadata) &&
    (p.endTs != 0 ==> q.endTs != 0 && q.endTs <= p.endTs) &&
    (p.status == Sunset ==>
       q.status == Sunset && q.endTs == p.endTs && q.endTs != 0 && q.metadata == p.metadata &&
       forall c :: CanPull(q, c) ==> CanPull(p, c))
  }

  lemma PlanWritesEvolve(s: State, a: Address, p: Account, q: Account)
    requires AccountOk(s, a, p) && p.Plan? && PlanWrites(s, p, q)
    ensures Evolves(p, q)
  {
  }

  /** While a plan stays open its terms, mint, owner and destinations are fixed and the rest only narrows. */
  lemma {:induction false} PlanOnlyNarrows(s: State, txs: seq<Tx>, a: Address)
    requires Inv(s) && StaysOpen(s, txs, a) && s.accounts[a].Plan?
    ensures a in Run(s, txs).accounts && Evolves(s.accounts[a], Run(s, txs).accounts[a])
    decreases |txs|
  {
    hide Step;
    if |txs| > 0 {
      Observe(s, txs[0], a);
      var s' := Exec(s, txs[0]);
      if s.accounts[a] != s'.accounts[a] { PlanWritesEvolve(s, a, s.accounts[a], s'.accounts[a]); }
      PlanOnlyNarrows(s', txs[1..], a);
    }
  }

  // --- Subscriptions meet only the incarnation they consented to --------------------------------------

  /** The parts of a subscription no instruction changes. */
  predicate SameConsent(x: Account, y: Account) {
    x.Subscription? && y.Subscription? && x.header == y.header && x.terms == y.terms
  }

  lemma ConsentKept(s: State, tx: Tx, a: Address)
    requires Inv(s) && a in s.accounts && s.accounts[a].Subscription? && a in Exec(s, tx).accounts
    ensures SameConsent(s.accounts[a], Exec(s, tx).accounts[a])
  {
    hide Step;
    Observe(s, tx, a);
  }

  /** If the plan matches at the end of a run, it has been open, and the same incarnation, all along. */
  lemma {:induction false} MatchedThroughout(s: State, txs: seq<Tx>, a: Address)
    requires Inv(s) && StaysOpen(s, txs, a) && s.accounts[a].Subscription?
    ensures a in Run(s, txs).accounts && SameConsent(s.accounts[a], Run(s, txs).accounts[a])
    ensures PlanMatches(Run(s, txs), s.accounts[a]) ==>
              PlanMatches(s, s.accounts[a]) && StaysOpen(s, txs, s.accounts[a].header.delegatee) &&
              Evolves(PlanOf(s, s.accounts[a]), PlanOf(Run(s, txs), s.accounts[a]))
    decreases |txs|
  {
    hide Step;
    if |txs| > 0 {
      var s' := Exec(s, txs[0]);
      var sub := s.accounts[a];
      ConsentKept(s, txs[0], a);
      NextInv(s, txs[0]);
      MatchedThroughout(s', txs[1..], a);
      if PlanMatches(Run(s, txs), sub) {
        PlanSeen(s, txs[0], s', sub);
        if PlanOf(s, sub) != PlanOf(s', sub) {
          PlanWritesEvolve(s, sub.header.delegatee, PlanOf(s, sub), PlanOf(s', sub));
        }
      }
    }
  }

  /** A successful pull through a subscription, and what it was checked against. */
  lemma PullFacts(s: State, tx: Tx, a: Address)
    requires Inv(s) && a in s.accounts && s.accounts[a].Subscription? && PulledBy(s, tx, a) > 0
    ensures PlanMatches(s, s.accounts[a]) && PlanOf(s, s.accounts[a]).terms == s.accounts[a].terms
    ensures Asked(tx.ix).Some? && Asked(tx.ix).value.mint == PlanOf(s, s.accounts[a]).mint
    ensures Asked(tx.ix).value.delegator == s.accounts[a].header.delegator
    ensures PulledBy(s, tx, a) <= s.accounts[a].terms.amount
  {
    hide Step;
    Observe(s, tx, a);
  }

  /**
   * Consent: whatever happens after a successful subscribe, a pull through that subscription moves
   * the consented mint, at most the consented amount, from the subscriber, under the very plan
   * incarnation that was live at subscribe time and has been open ever since.
   */
  lemma PullsOnlyAsConsented(s: State, subscribe: Tx, txs: seq<Tx>, pull: Tx)
    requires Inv(s) && subscribe.ix.Subscribe? && Step(s, subscribe).Ok?
    requires StaysOpen(Exec(s, subscribe), txs, subscribe.ix.subscription)
    requires PulledBy(Run(Exec(s, subscribe), txs), pull, subscribe.ix.subscription) > 0
    ensures Asked(pull.ix).Some? && Asked(pull.ix).value.mint == subscribe.ix.expectedMint
    ensures Asked(pull.ix).value.delegator == subscribe.ix.subscriber
    ensures PulledBy(Run(Exec(s, subscribe), txs), pull, subscribe.ix.subscription) <= subscribe.ix.expectedAmount
    ensures StaysOpen(Exec(s, subscribe), txs, subscribe.ix.plan)
    ensures At(Exec(s, subscribe), subscribe.ix.plan) == At(s, subscribe.ix.plan)
  {
    hide Step;
    var a := subscribe.ix.subscription;
    var s' := Exec(s, subscribe);
    NextInv(s, subscribe);
    RunKeepsInv(s', txs);
    SubscribeFacts(s, subscribe);
    MatchedThroughout(s', txs, a);
    PullFacts(Run(s', txs), pull, a);
  }

  lemma SubscribeFacts(s: State, tx: Tx)
    requires Inv(s) && tx.ix.Subscribe? && Step(s, tx).Ok?
    ensures var s' := Exec(s, tx);
            At(s, tx.ix.subscription) == None && At(s', tx.ix.subscription).Some? &&
            s'.accounts[tx.ix.subscription].Subscription? &&
            s'.accounts[tx.ix.subscription].header.delegator == tx.ix.subscriber &&
            s'.accounts[tx.ix.subscription].header.delegatee == tx.ix.plan &&
            s'.accounts[tx.ix.subscription].terms ==
              Terms(tx.ix.expectedAmount, tx.ix.expectedPeriodHours, tx.ix.expectedCreatedAt) &&
            s'.accounts[tx.ix.subscription].periodStart == s.now && s'.now == s.now &&
            s'.accounts[tx.ix.subscription].pulled == 0 && s'.accounts[tx.ix.subscription].expiresAt == 0 &&
            At(s', tx.ix.plan) == At(s, tx.ix.plan) && PlanMatches(s', s'.accounts[tx.ix.subscription]) &&
            PlanOf(s', s'.accounts[tx.ix.subscription]).mint == tx.ix.expectedMint
  {
  }

  /** Once its plan is deleted a subscription never pulls again, whatever is created at the plan's address. */
  lemma DeletedPlanNeverBills(s: State, delete: Tx, txs: seq<Tx>, a: Address)
    requires Inv(s) && delete.ix.DeletePlan? && Step(s, delete).Ok?
    requires a in s.accounts && s.accounts[a].Subscription? && s.accounts[a].header.delegatee == delete.ix.plan
    ensures a in Exec(s, delete).accounts && PullTotal(Exec(s, delete), txs, a) == 0
  {
    NextInv(s, delete);
    assert At(Exec(s, delete), a) == At(s, a);
    GoneNeverBills(Exec(s, delete), txs, a);
  }

  lemma {:induction false} GoneNeverBills(s: State, txs: seq<Tx>, a: Address)
    requires Inv(s) && a in s.accounts && s.accounts[a].Subscription? && !PlanMatches(s, s.accounts[a])
    ensures PullTotal(s, txs, a) == 0
    decreases |txs|
  {
    hide Step;
    if |txs| > 0 {
      var s' := Exec(s, txs[0]);
      Observe(s, txs[0], a);
      PlanStaysGone(s, txs[0], s', s.accounts[a]);
      if a in s'.accounts {
        ConsentKept(s, txs[0], a);
        GoneNeverBills(s', txs[1..], a);
      }
    }
  }

  /** The plan address is free with the clock past `created`, or holds a plan created after it. */
  predicate OnlyNewer(s: State, plan: Address, created: I64) {
    if plan in s.accounts then s.accounts[plan].Plan? && s.accounts[plan].terms.createdAt > created else s.now > created
  }

  lemma {:induction false} NewerStays(s: State, txs: seq<Tx>, plan: Address, created: I64)
    requires Inv(s) && plan.PlanPda? && OnlyNewer(s, plan, created)
    ensures OnlyNewer(Run(s, txs), plan, created)
    decreases |txs|
  {
    hide Step;
    if |txs| > 0 {
      var s' := Exec(s, txs[0]);
      NextInv(s, txs[0]);
      assert s' != s && plan != Target(txs[0].ix) ==> At(s', plan) == At(s, plan);
      NewerStays(s', txs[1..], plan, created);
    }
  }

  /** No plan ever created at a deleted plan's address has that plan's creation time: all are newer. */
  lemma RecreatedPlanIsNewer(s: State, delete: Tx, txs: seq<Tx>)
    requires Inv(s) && delete.ix.DeletePlan? && Step(s, delete).Ok?
    requires delete.ix.plan in Run(Exec(s, delete), txs).accounts
    ensures delete.ix.plan in s.accounts && s.accounts[delete.ix.plan].Plan?
    ensures Run(Exec(s, delete), txs).accounts[delete.ix.plan].Plan?
    ensures Run(Exec(s, delete), txs).accounts[delete.ix.plan].terms.createdAt
          > s.accounts[delete.ix.plan].terms.createdAt
  {
    var plan := delete.ix.plan;
    assert AccountOk(s, plan, s.accounts[plan]);
    NextInv(s, delete);
    NewerStays(Exec(s, delete), txs, plan, s.accounts[plan].terms.createdAt);
  }

  // --- A removed puller stays removed -----------------------------------------------------------------

  /** The part of `PullTotal` that `caller` signed for. */
  ghost function PullTotalBy(s: State, txs: seq<Tx>, a: Address, caller: Address): nat
    decreases |txs|
  {
    if |txs| == 0 || a !in s.accounts then 0
    else
      (if Asked(txs[0].ix).Some? && Asked(txs[0].ix).value.caller == caller then PulledBy(s, txs[0], a) else 0) +
      PullTotalBy(Exec(s, txs[0]), txs[1..], a, caller)
  }

  /** After Sunset, whoever cannot pull a subscription never pulls it in any continuation. */
  lemma {:induction false} RemovedPullerNeverPulls(s: State, txs: seq<Tx>, a: Address, caller: Address)
    requires Inv(s) && a in s.accounts && s.accounts[a].Subscription?
    requires PlanMatches(s, s.accounts[a]) ==>
               PlanOf(s, s.accounts[a]).status == Sunset && !CanPull(PlanOf(s, s.accounts[a]), caller)
    ensures PullTotalBy(s, txs, a, caller) == 0
    decreases |txs|
  {
    hide Step;
    if |txs| > 0 {
      var s' := Exec(s, txs[0]);
      var sub := s.accounts[a];
      Observe(s, txs[0], a);
      if a in s'.accounts {
        ConsentKept(s, txs[0], a);
        if PlanMatches(s', sub) {
          PlanSeen(s, txs[0], s', sub);
          if PlanOf(s, sub) != PlanOf(s', sub) {
            PlanWritesEvolve(s, sub.header.delegatee, PlanOf(s, sub), PlanOf(s', sub));
          }
        }
        RemovedPullerNeverPulls(s', txs[1..], a, caller);
      }
    }
  }
}
