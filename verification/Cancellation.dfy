/** Leaving a subscription: when it ends, what it can still cost, and that nobody can stop it. */
module Cancellation {
  import opened Types
  import opened Metering
  import opened Ledger
  import opened Program
  import opened Invariant
  import opened Steps
  import opened Runs
  import opened Plans
  import opened Sponsorship
  import opened Allowance

  // --- The expiry a cancel computes -----------------------------------------------------------------

  /** The end of the calendar period containing `now`, counted from the subscribe time. */
  function PeriodEnd(first: int, period: int, now: int): int
    requires period > 0 && first <= now
  {
    first + Elapsed(first, period, now) * period + period
  }

  /** The expiry in terms of subscribe time, period, plan end and cancel time only. */
  function CanonicalExpiry(first: int, period: int, end: int, now: int): int
    requires period > 0 && first <= now
  {
    var boundary := PeriodEnd(first, period, now);
    if end != 0 && end < boundary then end + 1 else boundary
  }

  lemma PeriodEndShift(first: int, period: int, now: int, j: nat)
    requires period > 0 && first + j * period <= now
    ensures first <= now && PeriodEnd(first + j * period, period, now) == PeriodEnd(first, period, now)
  {
    MulMonotone(0, j, period);
    DivShift(now - first, period, j);
    var q := Elapsed(first, period, now);
    assert (q - j) * period == q * period - j * period;
  }

  /** Pulls move the stored start by whole periods, so the computed expiry does not depend on them. */
  lemma CancelExpiryIsCanonical(sub: Account, end: I64, now: UnixTime, first: Time, j: nat)
    requires sub.Subscription? && TermsOk(sub.terms) && sub.periodStart <= now && end >= 0
    requires sub.periodStart == first + j * Secs(sub.terms)
    ensures first <= now
    ensures CancelExpiry(sub, end, now).Ok?
    ensures CancelExpiry(sub, end, now).value == CanonicalExpiry(first, Secs(sub.terms), end, now)
    ensures now < PeriodEnd(first, Secs(sub.terms), now) <= now + Secs(sub.terms)
  {
    var period := Secs(sub.terms);
    PeriodEndShift(first, period, now, j);
    var q := Elapsed(sub.periodStart, period, now);
    assert (q + 1) * period == q * period + period;
  }

  /** In different periods, not past the end, a later cancel gets a strictly later expiry. */
  lemma LaterPeriodLaterExpiry(first: int, period: int, e1: int, t1: int, e2: int, t2: int)
    requires period > 0 && first <= t1 && first <= t2
    requires Elapsed(first, period, t1) < Elapsed(first, period, t2) && (e2 == 0 || t2 <= e2)
    ensures CanonicalExpiry(first, period, e1, t1) <= t2 < CanonicalExpiry(first, period, e2, t2)
  {
    var q1, q2 := Elapsed(first, period, t1), Elapsed(first, period, t2);
    MulMonotone(q1 + 1, q2, period);
    assert (q1 + 1) * period == q1 * period + period;
  }

  /** With the end unchanged and not passed, two cancels share an expiry exactly when they share a period. */
  lemma SameExpiryIffSamePeriod(first: int, period: int, end: int, t1: int, t2: int)
    requires period > 0 && first <= t1 <= t2 && (end == 0 || t2 <= end)
    ensures CanonicalExpiry(first, period, end, t1) == CanonicalExpiry(first, period, end, t2) <==>
            Elapsed(first, period, t1) == Elapsed(first, period, t2)
  {
    DivMonotone(t1 - first, t2 - first, period);
    if Elapsed(first, period, t1) < Elapsed(first, period, t2) {
      LaterPeriodLaterExpiry(first, period, end, t1, end, t2);
    }
  }

  lemma ChargeOnGrid(amount: U64, cap: U64, period: U64, m: Meter, expiry: I64, now: UnixTime, first: Time, j: nat)
    returns (i: nat)
    requires 0 < period <= I64_MAX && m.pulled <= cap && Charge(amount, cap, period, m, expiry, now).Ok?
    requires m.start == first + j * period
    ensures Charge(amount, cap, period, m, expiry, now).value.start == first + i * period
  {
    var k := PeriodIndex(m.start, period, expiry, now);
    ChargeMoves(amount, cap, period, m, expiry, now);
    MulSum(j, k, period);
    i := j + k;
  }

  /** The stored start stays on the grid laid down at subscribe time. */
  lemma {:induction false} StaysOnGrid(s: State, txs: seq<Tx>, a: Address, first: Time, j: nat) returns (n: nat)
    requires Inv(s) && StaysOpen(s, txs, a) && s.accounts[a].Subscription?
    requires s.accounts[a].periodStart == first + j * Length(s.accounts[a])
    ensures a in Run(s, txs).accounts && SameConsent(s.accounts[a], Run(s, txs).accounts[a])
    ensures Run(s, txs).accounts[a].periodStart == first + n * Length(s.accounts[a])
    decreases |txs|
  {
    hide Step;
    hide Charge;
    n := j;
    if |txs| > 0 {
      var x := s.accounts[a];
      MeterStep(s, txs[0], a);
      ConsentKept(s, txs[0], a);
      assert AccountOk(s, a, x);
      var amount := PulledBy(s, txs[0], a);
      var i := j;
      if amount > 0 {
        i := ChargeOnGrid(amount, Cap(x), Length(x), MeterOf(x), Horizon(s, x), s.now, first, j);
      }
      n := StaysOnGrid(Exec(s, txs[0]), txs[1..], a, first, i);
    }
  }

  /** A successful cancel under a matching plan sets the canonical expiry. */
  lemma CancelSets(s: State, cancel: Tx, a: Address, first: Time, j: nat)
    requires Inv(s) && cancel.ix.CancelSubscription? && cancel.ix.subscription == a && Step(s, cancel).Ok?
    requires a in s.accounts && s.accounts[a].Subscription? && PlanMatches(s, s.accounts[a])
    requires s.accounts[a].periodStart == first + j * Length(s.accounts[a])
    ensures first <= s.now && Length(s.accounts[a]) > 0 && a in Exec(s, cancel).accounts
    ensures Exec(s, cancel).accounts[a] ==
            s.accounts[a].(expiresAt :=
              CanonicalExpiry(first, Length(s.accounts[a]), PlanOf(s, s.accounts[a]).endTs, s.now))
  {
    var sub := s.accounts[a];
    assert PlanLink(s, sub);
    assert AccountOk(s, sub.header.delegatee, PlanOf(s, sub));
    CancelExpiryIsCanonical(sub, PlanOf(s, sub).endTs, s.now, first, j);
  }

  /**
   * Whatever was pulled since subscribing, a cancel under the matching plan sets an expiry that
   * depends only on subscribe time, period length, cancel time and the plan's end.
   */
  lemma CancelIsCanonical(s: State, subscribe: Tx, txs: seq<Tx>, cancel: Tx)
    requires Inv(s) && subscribe.ix.Subscribe? && Step(s, subscribe).Ok?
    requires StaysOpen(Exec(s, subscribe), txs, subscribe.ix.subscription)
    requires var t := Run(Exec(s, subscribe), txs);
             cancel.ix.CancelSubscription? && cancel.ix.subscription == subscribe.ix.subscription &&
             Step(t, cancel).Ok? && At(t, subscribe.ix.subscription).Some? &&
             t.accounts[subscribe.ix.subscription].Subscription? &&
             PlanMatches(t, t.accounts[subscribe.ix.subscription])
    ensures var t := Run(Exec(s, subscribe), txs);
            var a := subscribe.ix.subscription;
            var period := subscribe.ix.expectedPeriodHours * SECS_PER_HOUR;
            s.now <= t.now && period > 0 && At(Exec(t, cancel), a).Some? && Exec(t, cancel).accounts[a].Subscription? &&
            Exec(t, cancel).accounts[a].expiresAt ==
              CanonicalExpiry(s.now, period, PlanOf(t, t.accounts[a]).endTs, t.now)
  {
    var s', a := Exec(s, subscribe), subscribe.ix.subscription;
    NextInv(s, subscribe);
    SubscribeFacts(s, subscribe);
    var n := StaysOnGrid(s', txs, a, s.now, 0);
    RunKeepsInv(s', txs);
    CancelSets(Run(s', txs), cancel, a, s.now, n);
  }

  ghost predicate CancelsUnderPlan(s: State, cancel: Tx, a: Address) {
    cancel.ix.CancelSubscription? && cancel.ix.subscription == a && Step(s, cancel).Ok? &&
    a in s.accounts && s.accounts[a].Subscription? && PlanMatches(s, s.accounts[a])
  }

  /**
   * Two cancels of one subscription, the second in a later period and not past the plan's end: the
   * second expiry is later, so a resume signed for the first cannot clear the second.
   */
  lemma StaleResumeIsRejected(s: State, cancel: Tx, txs: seq<Tx>, again: Tx, resume: Tx, a: Address)
    requires Inv(s) && CancelsUnderPlan(s, cancel, a)
    requires StaysOpen(Exec(s, cancel), txs, a) && CancelsUnderPlan(Run(Exec(s, cancel), txs), again, a)
    requires var x, t := s.accounts[a], Run(Exec(s, cancel), txs);
             Length(x) > 0 && x.periodStart <= s.now && x.periodStart <= t.now &&
             Elapsed(x.periodStart, Length(x), s.now) < Elapsed(x.periodStart, Length(x), t.now) &&
             !IsExpired(PlanOf(t, t.accounts[a]).endTs, t.now)
    requires resume.ix.ResumeSubscription? && resume.ix.subscription == a
    requires Exec(s, cancel).accounts[a].Subscription?
    requires resume.ix.expectedExpiresAt == Exec(s, cancel).accounts[a].expiresAt
    ensures Step(Exec(Run(Exec(s, cancel), txs), again), resume).Err?
  {
    var x, s' := s.accounts[a], Exec(s, cancel);
    NextInv(s, cancel);
    CancelSets(s, cancel, a, x.periodStart, 0);
    var n := StaysOnGrid(s', txs, a, x.periodStart, 0);
    RunKeepsInv(s', txs);
    SecondCancel(s, cancel, a, Run(s', txs), again, n);
    ResumeNeedsTheLiveExpiry(Exec(Run(s', txs), again), resume, a);
  }

  lemma SecondCancel(s: State, cancel: Tx, a: Address, t: State, again: Tx, n: nat)
    requires Inv(s) && CancelsUnderPlan(s, cancel, a) && Inv(t) && CancelsUnderPlan(t, again, a)
    requires SameConsent(s.accounts[a], t.accounts[a])
    requires var x := s.accounts[a];
             Length(x) > 0 && t.accounts[a].periodStart == x.periodStart + n * Length(x) &&
             x.periodStart <= s.now && x.periodStart <= t.now &&
             Elapsed(x.periodStart, Length(x), s.now) < Elapsed(x.periodStart, Length(x), t.now) &&
             !IsExpired(PlanOf(t, t.accounts[a]).endTs, t.now)
    ensures a in Exec(s, cancel).accounts && Exec(s, cancel).accounts[a].Subscription?
    ensures a in Exec(t, again).accounts && Exec(t, again).accounts[a].Subscription?
    ensures Exec(s, cancel).accounts[a].expiresAt < Exec(t, again).accounts[a].expiresAt
  {
    hide Step;
    var x := s.accounts[a];
    CancelSets(s, cancel, a, x.periodStart, 0);
    CancelSets(t, again, a, x.periodStart, n);
    LaterPeriodLaterExpiry(x.periodStart, Length(x), PlanOf(s, x).endTs, s.now,
                           PlanOf(t, t.accounts[a]).endTs, t.now);
  }

  lemma ResumeNeedsTheLiveExpiry(s: State, resume: Tx, a: Address)
    requires resume.ix.ResumeSubscription? && resume.ix.subscription == a
    requires a in s.accounts && s.accounts[a].Subscription?
    requires resume.ix.expectedExpiresAt != s.accounts[a].expiresAt
    ensures Step(s, resume).Err?
  {
  }

  // --- What a cancelled subscription can still cost ---------------------------------------------------

  /** What the current period has left; nothing once the plan incarnation is gone. */
  ghost function Left(s: State, a: Address): int
    requires Inv(s) && a in s.accounts && s.accounts[a].Subscription?
  {
    var x := s.accounts[a];
    assert AccountOk(s, a, x);
    if PlanMatches(s, x) then Cap(x) - Advance(MeterOf(x), Length(x), Horizon(s, x), s.now).pulled else 0
  }

  /** A cancelled subscription ends no later than the period it is in. */
  ghost predicate EndsThisPeriod(s: State, a: Address)
    requires Inv(s) && a in s.accounts && s.accounts[a].Subscription?
  {
    var x := s.accounts[a];
    assert AccountOk(s, a, x);
    x.expiresAt != 0 && (x.expiresAt <= s.now || x.expiresAt <= PeriodEnd(x.periodStart, Length(x), s.now))
  }

  /** Within one period the index a pull is charged to does not move, even if the end does. */
  lemma IndexSteady(start: int, period: int, e: int, now: int, e': int, now': int)
    requires period > 0 && start <= now <= now' < PeriodEnd(start, period, now) && e >= 0
    requires e' == e || (e' != 0 && now + period <= e' && (e != 0 ==> e' < e))
    ensures PeriodIndex(start, period, e', now') == PeriodIndex(start, period, e, now)
    ensures PeriodEnd(start, period, now') == PeriodEnd(start, period, now)
  {
    var q := Elapsed(start, period, now);
    DivUnique(now' - start, period, q);
    if e' != e {
      DivMonotone(now - start, e' - 1 - start, period);
      if e != 0 { DivMonotone(e' - 1 - start, e - 1 - start, period); }
    }
  }

  /** After a charge the rest of the period's allowance is exactly what the charge left. */
  lemma ChargeLeaves(amount: U64, cap: U64, period: U64, m: Meter, e: I64, now: UnixTime)
    requires 0 < period <= I64_MAX && m.pulled <= cap && Charge(amount, cap, period, m, e, now).Ok?
    ensures var m' := Charge(amount, cap, period, m, e, now).value;
            m'.start <= now && Advance(m', period, e, now) == m' &&
            m'.pulled == Advance(m, period, e, now).pulled + amount &&
            PeriodEnd(m'.start, period, now) == PeriodEnd(m.start, period, now)
  {
    var k := PeriodIndex(m.start, period, e, now);
    PeriodEndShift(m.start, period, now, k);
    IndexShift(m.start, period, e, now, k);
  }

  ghost predicate Resumes(s: State, tx: Tx, a: Address) {
    tx.ix.ResumeSubscription? && tx.ix.subscription == a && Step(s, tx).Ok?
  }

  /** No resume succeeds while the subscription stays open; refused ones, and later incarnations, do not matter. */
  ghost predicate NotResumed(s: State, txs: seq<Tx>, a: Address)
    decreases |txs|
  {
    |txs| > 0 && a in s.accounts ==> !Resumes(s, txs[0], a) && NotResumed(Exec(s, txs[0]), txs[1..], a)
  }

  /** A step that is not a resume leaves the subscription ending this period, with no more left than it pulled. */
  lemma CancelledStep(s: State, tx: Tx, a: Address)
    requires Inv(s) && a in s.accounts && s.accounts[a].Subscription? && EndsThisPeriod(s, a)
    requires s.accounts[a].expiresAt > s.now && PlanMatches(s, s.accounts[a])
    requires !Resumes(s, tx, a)
    requires a in Exec(s, tx).accounts && PlanMatches(Exec(s, tx), s.accounts[a])
    requires Exec(s, tx).now < s.accounts[a].expiresAt
    ensures Inv(Exec(s, tx)) && Exec(s, tx).accounts[a].Subscription? && EndsThisPeriod(Exec(s, tx), a)
    ensures Left(Exec(s, tx), a) + PulledBy(s, tx, a) == Left(s, a)
  {
    hide Step;
    Observe(s, tx, a);
    ConsentKept(s, tx, a);
    MeterStep(s, tx, a);
    HorizonSeen(s, tx, a);
    HorizonMoves(s, tx, a);
    var x, y := s.accounts[a], Exec(s, tx).accounts[a];
    assert AccountOk(s, a, x);
    assert AccountOk(s, x.header.delegatee, PlanOf(s, x));
    var amount := PulledBy(s, tx, a);
    if amount > 0 {
      ChargeLeaves(amount, Cap(x), Length(x), MeterOf(x), Horizon(s, x), s.now);
    } else {
      IndexSteady(x.periodStart, Length(x), Horizon(s, x), s.now, Horizon(Exec(s, tx), y), Exec(s, tx).now);
    }
  }

  /** A subscription past its expiry is dead, and one ending this period costs at most what is left of it. */
  lemma {:induction false} CancelledExposure(s: State, txs: seq<Tx>, a: Address)
    requires Inv(s) && a in s.accounts && s.accounts[a].Subscription? && EndsThisPeriod(s, a) && NotResumed(s, txs, a)
    ensures 0 <= Left(s, a) && PullTotal(s, txs, a) <= Left(s, a)
    decreases |txs|
  {
    hide Step;
    var x := s.accounts[a];
    assert AccountOk(s, a, x);
    if x.expiresAt <= s.now || !PlanMatches(s, x) {
      DeadNeverPulls(s, txs, a);
    } else if |txs| > 0 {
      CancelledOnce(s, txs, a);
    }
  }

  lemma CancelledOnce(s: State, txs: seq<Tx>, a: Address)
    requires Inv(s) && a in s.accounts && s.accounts[a].Subscription? && EndsThisPeriod(s, a) && NotResumed(s, txs, a)
    requires |txs| > 0 && s.accounts[a].expiresAt > s.now && PlanMatches(s, s.accounts[a])
    ensures 0 <= Left(s, a) && PullTotal(s, txs, a) <= Left(s, a)
    decreases |txs|, 0
  {
    hide Step;
    var s' := Exec(s, txs[0]);
    var x := s.accounts[a];
    Observe(s, txs[0], a);
    if a in s'.accounts {
      ConsentKept(s, txs[0], a);
      if PlanMatches(s', x) && s'.now < x.expiresAt {
        CancelledStep(s, txs[0], a);
        CancelledExposure(s', txs[1..], a);
      } else {
        CancelledEnds(s, txs[0], a);
        DeadNeverPulls(s', txs[1..], a);
      }
    }
  }

  /** The step that passes the expiry, or takes the plan away, pulls nothing and leaves the subscription dead. */
  lemma CancelledEnds(s: State, tx: Tx, a: Address)
    requires Inv(s) && a in s.accounts && s.accounts[a].Subscription? && PlanMatches(s, s.accounts[a])
    requires s.accounts[a].expiresAt > s.now && !Resumes(s, tx, a)
    requires a in Exec(s, tx).accounts
    requires !PlanMatches(Exec(s, tx), s.accounts[a]) || s.accounts[a].expiresAt <= Exec(s, tx).now
    ensures PulledBy(s, tx, a) == 0 && Dead(Exec(s, tx), Exec(s, tx).accounts[a])
  {
    hide Step;
    Observe(s, tx, a);
    ConsentKept(s, tx, a);
    if !PlanMatches(Exec(s, tx), s.accounts[a]) { LostPlanNoPull(s, tx, a); }
  }

  /**
   * After a cancel that is not resumed, everything pulled later fits in what was left, at the cancel,
   * of the period containing it; nothing at all if the plan incarnation was already gone.
   */
  lemma CancelBoundsExposure(s: State, cancel: Tx, txs: seq<Tx>, a: Address)
    requires Inv(s) && cancel.ix.CancelSubscription? && cancel.ix.subscription == a && Step(s, cancel).Ok?
    requires NotResumed(Exec(s, cancel), txs, a)
    ensures a in s.accounts && s.accounts[a].Subscription? && a in Exec(s, cancel).accounts
    ensures PullTotal(Exec(s, cancel), txs, a) <= Left(s, a)
  {
    var s' := Exec(s, cancel);
    CancelLeaves(s, cancel, a);
    CancelledExposure(s', txs, a);
  }

  predicate Unsigned(txs: seq<Tx>, who: Address) {
    forall i | 0 <= i < |txs| :: who !in txs[i].signers
  }

  /** Only the subscriber's signature lets a resume succeed. */
  lemma {:induction false} UnsignedIsNotResumed(s: State, txs: seq<Tx>, a: Address)
    requires Inv(s) && a.SubscriptionPda? && Unsigned(txs, a.subscriber)
    ensures NotResumed(s, txs, a)
    decreases |txs|
  {
    if |txs| > 0 && a in s.accounts {
      if Resumes(s, txs[0], a) { ResumeIsSigned(s, txs[0], a); }
      NextInv(s, txs[0]);
      UnsignedIsNotResumed(Exec(s, txs[0]), txs[1..], a);
    }
  }

  lemma ResumeIsSigned(s: State, tx: Tx, a: Address)
    requires Inv(s) && a.SubscriptionPda? && Resumes(s, tx, a)
    ensures a.subscriber in tx.signers
  {
    assert AccountOk(s, a, s.accounts[a]);
  }

  /** After a cancel, whatever is done without the subscriber's signature costs at most what the period had left. */
  lemma CancelBoundsUnsignedExposure(s: State, cancel: Tx, txs: seq<Tx>, a: Address)
    requires Inv(s) && cancel.ix.CancelSubscription? && cancel.ix.subscription == a && Step(s, cancel).Ok?
    requires Unsigned(txs, cancel.ix.subscriber)
    ensures a in s.accounts && s.accounts[a].Subscription? && s.accounts[a].header.delegator == cancel.ix.subscriber
    ensures PullTotal(Exec(s, cancel), txs, a) <= Left(s, a)
  {
    NextInv(s, cancel);
    CancelLeaves(s, cancel, a);
    assert AccountOk(s, a, s.accounts[a]);
    UnsignedIsNotResumed(Exec(s, cancel), txs, a);
    CancelBoundsExposure(s, cancel, txs, a);
  }

  lemma CancelLeaves(s: State, cancel: Tx, a: Address)
    requires Inv(s) && cancel.ix.CancelSubscription? && cancel.ix.subscription == a && Step(s, cancel).Ok?
    ensures a in s.accounts && s.accounts[a].Subscription? && Inv(Exec(s, cancel)) && a in Exec(s, cancel).accounts
    ensures Exec(s, cancel).accounts[a].Subscription? && EndsThisPeriod(Exec(s, cancel), a)
    ensures Left(Exec(s, cancel), a) == Left(s, a)
  {
    NextInv(s, cancel);
    var x := s.accounts[a];
    assert AccountOk(s, a, x);
    if PlanMatches(s, x) {
      CancelSets(s, cancel, a, x.periodStart, 0);
      assert AccountOk(s, x.header.delegatee, PlanOf(s, x));
    }
    assert At(Exec(s, cancel), x.header.delegatee) == At(s, x.header.delegatee);
  }

  // --- An expired subscription is final -----------------------------------------------------------------

  /** The instructions that use or change a subscription without closing it. */
  predicate Uses(tx: Tx, a: Address) {
    IsPullOf(tx, a) || (Target(tx.ix) == a &&
                        (tx.ix.CancelSubscription? || tx.ix.ResumeSubscription? || tx.ix.CancelSubscriptionNow?))
  }

  ghost predicate Expired(s: State, a: Address) {
    a in s.accounts && s.accounts[a].Subscription? && s.accounts[a].expiresAt != 0 && s.accounts[a].expiresAt <= s.now
  }

  lemma ExpiredRefuses(s: State, tx: Tx, a: Address)
    requires Inv(s) && Expired(s, a) && Uses(tx, a)
    ensures Step(s, tx).Err?
  {
  }

  /** Once its expiry has passed, no pull, cancel, resume or immediate cancel ever succeeds on it again. */
  lemma {:induction false} ExpiryIsFinal(s: State, txs: seq<Tx>, tx: Tx, a: Address)
    requires Inv(s) && Expired(s, a) && StaysOpen(s, txs, a) && Uses(tx, a)
    ensures Expired(Run(s, txs), a) && Run(s, txs).accounts[a] == s.accounts[a]
    ensures Step(Run(s, txs), tx).Err?
    decreases |txs|
  {
    hide Step;
    if |txs| == 0 {
      ExpiredRefuses(s, tx, a);
    } else {
      Observe(s, txs[0], a);
      DeadStays(s, txs[0], a);
      ExpiryIsFinal(Exec(s, txs[0]), txs[1..], tx, a);
    }
  }

  // --- The subscriber can always leave --------------------------------------------------------------------

  ghost function CancelTx(s: State, a: Address): Tx
    requires a in s.accounts && s.accounts[a].Subscription?
  {
    var h := s.accounts[a].header;
    Tx({h.delegator}, CancelSubscription(h.delegator, h.delegatee, a))
  }

  ghost function CloseTx(s: State, a: Address): Tx
    requires a in s.accounts && s.accounts[a].Subscription?
  {
    var h := s.accounts[a].header;
    Tx({h.delegator}, RevokeDelegation(h.delegator, a, [h.delegatee, h.payer]))
  }

  /** The subscriber's own signature always suffices to cancel, with an expiry at most one period away. */
  lemma CancelSucceeds(s: State, a: Address)
    requires Inv(s) && a in s.accounts && s.accounts[a].Subscription? && s.accounts[a].expiresAt == 0
    ensures Step(s, CancelTx(s, a)).Ok? && a in Exec(s, CancelTx(s, a)).accounts
    ensures SameConsent(s.accounts[a], Exec(s, CancelTx(s, a)).accounts[a])
    ensures 0 < Exec(s, CancelTx(s, a)).accounts[a].expiresAt <= s.now + Length(s.accounts[a])
  {
    var x := s.accounts[a];
    assert PlanLink(s, x);
    if PlanMatches(s, x) {
      assert AccountOk(s, x.header.delegatee, PlanOf(s, x));
      CancelExpiryIsCanonical(x, PlanOf(s, x).endTs, s.now, x.periodStart, 0);
    }
  }

  lemma CloseSucceeds(s: State, a: Address)
    requires Inv(s) && Expired(s, a)
    ensures Step(s, CloseTx(s, a)).Ok? && a !in Exec(s, CloseTx(s, a)).accounts
  {
    HeldWithinTotal(s.lamports, s.accounts[a].header.payer, a);
  }

  /** Without the subscriber's signature the expiry does not move, and a closed subscription is not reopened. */
  lemma {:induction false} ExpiryStands(s: State, txs: seq<Tx>, a: Address, who: Address)
    requires Inv(s) && a.SubscriptionPda? && a.subscriber == who && Unsigned(txs, who)
    requires a in s.accounts ==> s.accounts[a].Subscription? && s.accounts[a].header.delegator == who
    ensures a !in s.accounts ==> a !in Run(s, txs).accounts
    ensures a in Run(s, txs).accounts ==>
              a in s.accounts && Run(s, txs).accounts[a].Subscription? &&
              SameConsent(s.accounts[a], Run(s, txs).accounts[a]) &&
              Run(s, txs).accounts[a].expiresAt == s.accounts[a].expiresAt
    decreases |txs|
  {
    hide Step;
    if |txs| > 0 {
      var s' := Exec(s, txs[0]);
      NextInv(s, txs[0]);
      if a in s.accounts {
        Observe(s, txs[0], a);
        if a in s'.accounts { ConsentKept(s, txs[0], a); }
      } else {
        assert a != Target(txs[0].ix) && s' != s ==> At(s', a) == At(s, a);
        assert a in s'.accounts ==> AccountOk(s', a, s'.accounts[a]);
      }
      ExpiryStands(s', txs[1..], a, who);
    }
  }

  /** While a cancelled subscription stays open and no resume succeeds, its expiry never moves to a later time. */
  lemma {:induction false} ExpiryNeverLater(s: State, txs: seq<Tx>, a: Address)
    requires Inv(s) && StaysOpen(s, txs, a) && NotResumed(s, txs, a)
    requires s.accounts[a].Subscription? && s.accounts[a].expiresAt != 0
    ensures a in Run(s, txs).accounts && Run(s, txs).accounts[a].Subscription?
    ensures 0 < Run(s, txs).accounts[a].expiresAt <= s.accounts[a].expiresAt
    decreases |txs|
  {
    hide Step;
    assert AccountOk(s, a, s.accounts[a]);
    if |txs| > 0 {
      Observe(s, txs[0], a);
      ConsentKept(s, txs[0], a);
      ExpiryNeverLater(Exec(s, txs[0]), txs[1..], a);
    }
  }

  /**
   * Exit guarantee: in any reachable state the subscriber alone can cancel an active subscription;
   * whatever anyone then does, short of a successful resume, one period later that subscription has
   * been closed or the subscriber alone can close it.
   */
  lemma SubscriberCanLeave(s: State, a: Address, txs: seq<Tx>)
    requires Inv(s) && a in s.accounts && s.accounts[a].Subscription? && s.accounts[a].expiresAt == 0
    requires NotResumed(Exec(s, CancelTx(s, a)), txs, a)
    requires Run(Exec(s, CancelTx(s, a)), txs).now >= s.now + Length(s.accounts[a])
    ensures Step(s, CancelTx(s, a)).Ok?
    ensures var s' := Exec(s, CancelTx(s, a));
            var t := Run(s', txs);
            StaysOpen(s', txs, a) ==> Expired(t, a) && a !in Exec(t, CloseTx(t, a)).accounts
  {
    hide Step;
    var s' := Exec(s, CancelTx(s, a));
    CancelSucceeds(s, a);
    NextInv(s, CancelTx(s, a));
    if StaysOpen(s', txs, a) {
      ExpiryNeverLater(s', txs, a);
      RunKeepsInv(s', txs);
      CloseSucceeds(Run(s', txs), a);
    }
  }

  /** If the subscriber signs nothing in between, it is also not reopened: closed at the end, or closable. */
  lemma SilentSubscriberCanLeave(s: State, a: Address, txs: seq<Tx>)
    requires Inv(s) && a in s.accounts && s.accounts[a].Subscription? && s.accounts[a].expiresAt == 0
    requires Unsigned(txs, s.accounts[a].header.delegator)
    requires Run(Exec(s, CancelTx(s, a)), txs).now >= s.now + Length(s.accounts[a])
    ensures Step(s, CancelTx(s, a)).Ok?
    ensures var t := Run(Exec(s, CancelTx(s, a)), txs);
            a !in t.accounts || (t.accounts[a].Subscription? && a !in Exec(t, CloseTx(t, a)).accounts)
  {
    var s' := Exec(s, CancelTx(s, a));
    CancelSucceeds(s, a);
    NextInv(s, CancelTx(s, a));
    assert AccountOk(s, a, s.accounts[a]);
    ExpiryStands(s', txs, a, s.accounts[a].header.delegator);
    RunKeepsInv(s', txs);
    if a in Run(s', txs).accounts { CloseSucceeds(Run(s', txs), a); }
  }

  // --- A signed immediate cancel does not outlive its incarnation -------------------------------------------

  /** Whatever is subscribed at `a` started after `observed`, and so will everything after it. */
  ghost predicate StartsAfter(s: State, a: Address, observed: int) {
    s.now > observed &&
    (a in s.accounts ==> s.accounts[a].Subscription? && s.accounts[a].periodStart > observed)
  }

  lemma {:induction false} StartsStayAfter(s: State, txs: seq<Tx>, a: Address, observed: int)
    requires Inv(s) && a.SubscriptionPda? && StartsAfter(s, a, observed)
    ensures StartsAfter(Run(s, txs), a, observed)
    decreases |txs|
  {
    hide Step;
    hide Charge;
    if |txs| > 0 {
      StartStaysAfter(s, txs[0], a, observed);
      NextInv(s, txs[0]);
      StartsStayAfter(Exec(s, txs[0]), txs[1..], a, observed);
    }
  }

  lemma StartStaysAfter(s: State, tx: Tx, a: Address, observed: int)
    requires Inv(s) && a.SubscriptionPda? && StartsAfter(s, a, observed)
    ensures StartsAfter(Exec(s, tx), a, observed)
  {
    hide Step;
    hide Charge;
    var s' := Exec(s, tx);
    NextInv(s, tx);
    if a in s.accounts && a in s'.accounts {
      var x := s.accounts[a];
      ConsentKept(s, tx, a);
      MeterStep(s, tx, a);
      assert AccountOk(s, a, x);
      var amount := PulledBy(s, tx, a);
      if amount > 0 {
        var k := PeriodIndex(x.periodStart, Length(x), Horizon(s, x), s.now);
        ChargeMoves(amount, Cap(x), Length(x), MeterOf(x), Horizon(s, x), s.now);
        MulMonotone(0, k, Length(x));
      }
    } else if a in s'.accounts {
      assert a != Target(tx.ix) ==> At(s', a) == At(s, a);
    }
  }

  lemma ImmediateCancelNeedsTheLiveStart(s: State, cancel: Tx, a: Address)
    requires cancel.ix.CancelSubscriptionNow? && cancel.ix.subscription == a
    requires a in s.accounts ==>
               s.accounts[a].Subscription? && s.accounts[a].periodStart != cancel.ix.expectedPeriodStart
    ensures Step(s, cancel).Err?
  {
  }

  /**
   * A dual-signed immediate cancel names the period start it was signed for. Once a subscribe has
   * opened the address again in a later second than that start, it fails in every continuation.
   */
  lemma StaleImmediateCancelIsRejected(s: State, subscribe: Tx, txs: seq<Tx>, cancel: Tx)
    requires Inv(s) && subscribe.ix.Subscribe? && Step(s, subscribe).Ok?
    requires cancel.ix.CancelSubscriptionNow? && cancel.ix.subscription == subscribe.ix.subscription
    requires cancel.ix.expectedPeriodStart < s.now
    ensures Step(Run(Exec(s, subscribe), txs), cancel).Err?
  {
    hide Step;
    var a, s' := subscribe.ix.subscription, Exec(s, subscribe);
    NextInv(s, subscribe);
    SubscribeFacts(s, subscribe);
    assert AccountOk(s', a, s'.accounts[a]);
    StartsStayAfter(s', txs, a, cancel.ix.expectedPeriodStart);
    ImmediateCancelNeedsTheLiveStart(Run(s', txs), cancel, a);
  }

  /** Right after a subscribe, an immediate cancel both parties signed works exactly if it names that second. */
  lemma ImmediateCancelIffSameSecond(s: State, subscribe: Tx, cancel: Tx)
    requires Inv(s) && subscribe.ix.Subscribe? && Step(s, subscribe).Ok?
    requires cancel.ix.CancelSubscriptionNow? && OnlyWallets(cancel.signers)
    requires cancel.ix.subscriber == subscribe.ix.subscriber && cancel.ix.subscription == subscribe.ix.subscription
    requires cancel.ix.merchant == subscribe.ix.merchant && cancel.ix.plan == subscribe.ix.plan
    requires {cancel.ix.subscriber, cancel.ix.merchant} <= cancel.signers
    ensures Step(Exec(s, subscribe), cancel).Ok? <==> cancel.ix.expectedPeriodStart == s.now
  {
    hide AfterInitAuthority, AfterCloseAuthority, AfterRevokeAuthority, AfterCreateFixed,
         AfterCreateRecurring, AfterTransferFixed, AfterTransferRecurring, AfterTransferSubscription,
         AfterCreatePlan, AfterUpdatePlan, AfterDeletePlan, AfterCancelSubscription, AfterResumeSubscription,
         AfterRevokeDelegation, AfterRevokeAbandonedDelegation, AfterRevokeAbandonedSubscription;
    var p := s.accounts[subscribe.ix.plan];
    assert AccountOk(s, subscribe.ix.plan, p);
  }
}
