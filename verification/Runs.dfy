/** How one instruction looks from a single account, and from the authority and plan it depends on. */
module Runs {
  import opened Types
  import opened Program
  import opened Invariant
  import opened Steps

  /** `s'` is `s` after one instruction, failed or not. */
  ghost predicate Next(s: State, tx: Tx, s': State) {
    s' == s || Follows(s, tx, s')
  }

  /** What happens to the account at `a`, which is open in `s`, when the step pulls `pulled` through it. */
  ghost predicate Seen(s: State, tx: Tx, s': State, a: Address, pulled: nat)
    requires a in s.accounts
  {
    var x := s.accounts[a];
    if a !in s'.accounts then pulled == 0 && Closes(s, tx, x)
    else
      var y := s'.accounts[a];
      if pulled > 0 then
        pulled <= U64_MAX && Pulls(s, x, y, pulled) && s'.now == s.now && Asked(tx.ix).Some? &&
        Debits(s, x, Asked(tx.ix).value) && Asked(tx.ix).value.amount == pulled &&
        MayCall(s, x, Asked(tx.ix).value.caller) && Asked(tx.ix).value.caller in tx.signers
      else
        x == y ||
        (a == Target(tx.ix) && ((x.Plan? && PlanWrites(s, x, y)) || (x.Subscription? && Reschedules(s, tx, x, y))))
  }

  lemma Observe(s: State, tx: Tx, a: Address)
    requires Inv(s) && a in s.accounts
    ensures Inv(Exec(s, tx)) && Next(s, tx, Exec(s, tx)) && Seen(s, tx, Exec(s, tx), a, PulledBy(s, tx, a))
  {
    InvKept(s, tx);
    if Step(s, tx).Ok? {
      StepSound(s, tx);
      assert a != Target(tx.ix) ==> At(Exec(s, tx), a) == At(s, a);
    }
  }

  lemma NextInv(s: State, tx: Tx)
    requires Inv(s)
    ensures Inv(Exec(s, tx)) && Next(s, tx, Exec(s, tx))
  {
    InvKept(s, tx);
    if Step(s, tx).Ok? { StepSound(s, tx); }
  }

  /** A generation that is gone stays gone: new authorities carry a later slot. */
  lemma GenerationStaysGone(s: State, tx: Tx, s': State, authority: Address, initId: I64)
    requires Inv(s) && Next(s, tx, s') && authority.AuthorityPda? && initId <= s.slot
    requires NotOlder(s, authority, initId) && GenerationGone(s, authority, initId)
    ensures NotOlder(s', authority, initId) && GenerationGone(s', authority, initId)
  {
    if s' != s {
      NotOlderKept(s, tx, s', authority, initId);
      assert authority != Target(tx.ix) ==> At(s', authority) == At(s, authority);
    }
  }

  /** A plan incarnation that is gone never returns to its address. */
  lemma PlanStaysGone(s: State, tx: Tx, s': State, sub: Account)
    requires Inv(s) && Next(s, tx, s') && sub.Subscription? && sub.header.delegatee.PlanPda?
    requires PlanLink(s, sub) && !PlanMatches(s, sub)
    ensures !PlanMatches(s', sub)
  {
    var plan := sub.header.delegatee;
    assert s' != s && plan != Target(tx.ix) ==> At(s', plan) == At(s, plan);
  }

  /** While a plan matches it is the same incarnation, evolving only as `PlanWrites` allows. */
  lemma PlanSeen(s: State, tx: Tx, s': State, sub: Account)
    requires Inv(s) && Next(s, tx, s') && sub.Subscription? && sub.header.delegatee.PlanPda?
    requires PlanLink(s, sub) && PlanMatches(s', sub)
    ensures PlanMatches(s, sub)
    ensures PlanOf(s', sub) == PlanOf(s, sub) || PlanWrites(s, PlanOf(s, sub), PlanOf(s', sub))
  {
    var plan := sub.header.delegatee;
    if !PlanMatches(s, sub) { PlanStaysGone(s, tx, s', sub); }
    assert s' != s && plan != Target(tx.ix) ==> At(s', plan) == At(s, plan);
  }

  /** Neither clock ever runs backwards. */
  lemma {:induction false} RunClock(s: State, txs: seq<Tx>)
    requires Inv(s)
    ensures s.now <= Run(s, txs).now && s.slot <= Run(s, txs).slot
    decreases |txs|
  {
    hide Step;
    if |txs| > 0 {
      NextInv(s, txs[0]);
      RunClock(Exec(s, txs[0]), txs[1..]);
    }
  }
}
