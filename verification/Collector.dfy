/** What the collector offers to collect, against what the program would let it pull. */
module Collector {
  import Arithmetic
  import Outcomes
  import opened Types
  import opened Metering
  import opened Program
  import opened Invariant
  import opened Steps

  /** A subscription as the client reads it from the chain. */
  datatype Subscriber = Subscriber(subscriptionAddress: Address, delegator: Address, terms: Terms, pulled: U64,
                                   periodStart: Time, expiresAt: I64)

  datatype Eligible = Eligible(subscriptionAddress: Address, delegator: Address, collectAmount: U64)

  /** The amount offered for one subscription; 0 when it is left out of the list. */
  function Offer(sub: Subscriber, planTerms: Terms, now: int): (r: U64)
    ensures r <= planTerms.amount
  {
    if planTerms.amount == 0 || planTerms.periodHours == 0 then 0
    else if sub.expiresAt != 0 && now >= sub.expiresAt then 0
    else if sub.terms != planTerms then 0
    else if now >= sub.periodStart + planTerms.periodHours * SECS_PER_HOUR then planTerms.amount
    else if sub.pulled <= planTerms.amount then planTerms.amount - sub.pulled
    else 0
  }

  function EligibleOf(subs: seq<Subscriber>, planTerms: Terms, now: int): seq<Eligible> {
    if |subs| == 0 then []
    else
      var last := subs[|subs| - 1];
      var offer := Offer(last, planTerms, now);
      EligibleOf(subs[..|subs| - 1], planTerms, now)
      + if offer > 0 then [Eligible(last.subscriptionAddress, last.delegator, offer)] else []
  }

  /** The collector's loop lists, in order, exactly the subscriptions with a positive offer. */
  method ComputeEligibleSubscribers(subs: seq<Subscriber>, planTerms: Terms, now: int) returns (eligible: seq<Eligible>)
    ensures eligible == EligibleOf(subs, planTerms, now)
  {
    eligible := [];
    if planTerms.amount <= 0 || planTerms.periodHours <= 0 {
      NoTermsNoOffers(subs, planTerms, now);
      return;
    }
    for i := 0 to |subs|
      invariant eligible == EligibleOf(subs[..i], planTerms, now)
    {
      var sub := subs[i];
      assert subs[..i + 1][..i] == subs[..i];
      if sub.expiresAt != 0 && now >= sub.expiresAt { continue; }
      if sub.terms != planTerms { continue; }
      var periodEnd := sub.periodStart + planTerms.periodHours * 3600;
      var collectAmount := if now >= periodEnd then planTerms.amount else planTerms.amount - sub.pulled;
      if collectAmount <= 0 { continue; }
      eligible := eligible + [Eligible(sub.subscriptionAddress, sub.delegator, collectAmount)];
    }
    assert subs[..|subs|] == subs;
  }

  lemma {:induction false} NoTermsNoOffers(subs: seq<Subscriber>, planTerms: Terms, now: int)
    requires planTerms.amount == 0 || planTerms.periodHours == 0
    ensures EligibleOf(subs, planTerms, now) == []
  {
    if |subs| > 0 {
      NoTermsNoOffers(subs[..|subs| - 1], planTerms, now);
    }
  }

  /** Being listed means having a positive offer, and the listed amount is that offer. */
  lemma {:induction false} ListedExactlyWithOffer(subs: seq<Subscriber>, planTerms: Terms, now: int, e: Eligible)
    ensures e in EligibleOf(subs, planTerms, now)
       <==> exists i | 0 <= i < |subs| ::
              Offer(subs[i], planTerms, now) > 0 &&
              e == Eligible(subs[i].subscriptionAddress, subs[i].delegator, Offer(subs[i], planTerms, now))
  {
    if |subs| > 0 {
      var n := |subs| - 1;
      ListedExactlyWithOffer(subs[..n], planTerms, now, e);
      assert forall i | 0 <= i < n :: subs[..n][i] == subs[i];
    }
  }

  /** Each subscription is decided on its own: listing two lists is listing one after the other. */
  lemma {:induction false} ListingDistributes(a: seq<Subscriber>, b: seq<Subscriber>, planTerms: Terms, now: int)
    ensures EligibleOf(a + b, planTerms, now) == EligibleOf(a, planTerms, now) + EligibleOf(b, planTerms, now)
  {
    if |b| == 0 {
      assert a + b == a;
    } else {
      var n := |b| - 1;
      ListingDistributes(a, b[..n], planTerms, now);
      assert (a + b)[..|a + b| - 1] == a + b[..n];
    }
  }

  // --- The largest pull the program accepts -------------------------------------------------------

  /** At this one instant a full period has passed and yet no new period may start. */
  predicate AtFinalBoundary(start: Time, period: U64, expiry: I64, now: int) {
    expiry != 0 && now == expiry == start + period
  }

  /** What the period check leaves to pull. */
  function Allowance(cap: U64, period: U64, m: Meter, expiry: I64, now: int): U64
    requires m.pulled <= cap
  {
    if now >= m.start + period && !AtFinalBoundary(m.start, period, expiry, now) then cap else cap - m.pulled
  }

  lemma SamePeriodExactlyWhen(start: Time, period: U64, expiry: I64, now: UnixTime)
    requires period > 0 && start <= now && !IsExpired(expiry, now)
    ensures PeriodIndex(start, period, expiry, now) == 0
       <==> now < start + period || AtFinalBoundary(start, period, expiry, now)
  {
    DivBounds(now - start, period);
    if now < start + period {
      DivUnique(now - start, period, 0);
    } else {
      DivMonotone(period, now - start, period);
      DivUnique(period, period, 1);
      if expiry != 0 {
        if expiry - 1 < start + period {
          DivUnique(expiry - 1 - start, period, 0);
        } else {
          DivMonotone(period, expiry - 1 - start, period);
        }
      }
    }
  }

  /** The period check accepts an amount exactly when it is positive and within the allowance. */
  lemma ChargeAcceptsExactly(a: U64, cap: U64, period: U64, m: Meter, expiry: I64, now: UnixTime)
    requires 0 < period <= I64_MAX && m.pulled <= cap && m.start <= now && !IsExpired(expiry, now)
    ensures Charge(a, cap, period, m, expiry, now).Ok? <==> 0 < a <= Allowance(cap, period, m, expiry, now)
  {
    SamePeriodExactlyWhen(m.start, period, expiry, now);
  }

  // --- Subscriptions ------------------------------------------------------------------------------------

  /** The checks of a subscription transfer that depend on the subscription, its plan's terms and end. */
  predicate Accepts(sub: Subscriber, planTerms: Terms, endTs: I64, now: UnixTime, a: U64) {
    sub.terms == planTerms && (sub.expiresAt == 0 || now < sub.expiresAt) &&
    planTerms.periodHours * SECS_PER_HOUR <= U64_MAX &&
    Charge(a, planTerms.amount, planTerms.periodHours * SECS_PER_HOUR, Meter(sub.periodStart, sub.pulled), endTs,
           now).Ok?
  }

  predicate ClientAgrees(sub: Subscriber, planTerms: Terms, endTs: I64, now: UnixTime) {
    forall a: U64 :: Accepts(sub, planTerms, endTs, now, a) <==> 0 < a <= Offer(sub, planTerms, now)
  }

  /** Without terms, cancelled and past the expiry, bound to other terms, or used up inside its period. */
  predicate NothingToCollect(sub: Subscriber, planTerms: Terms, now: int) {
    planTerms.amount == 0 || planTerms.periodHours == 0 || sub.terms != planTerms ||
    (sub.expiresAt != 0 && now >= sub.expiresAt) ||
    (now < sub.periodStart + planTerms.periodHours * SECS_PER_HOUR && sub.pulled == planTerms.amount)
  }

  /**
   * The offer is the largest accepted pull at every instant from the period start to the plan's end,
   * except where the last period has just closed with something pulled: the client ignores the end.
   */
  lemma ClientAgreesExactlyWhen(sub: Subscriber, planTerms: Terms, endTs: I64, now: UnixTime)
    requires planTerms.periodHours <= MAX_PLAN_PERIOD_HOURS && sub.pulled <= sub.terms.amount
    ensures ClientAgrees(sub, planTerms, endTs, now)
       <==> NothingToCollect(sub, planTerms, now) ||
            (sub.periodStart <= now && !IsExpired(endTs, now) &&
             !(AtFinalBoundary(sub.periodStart, planTerms.periodHours * SECS_PER_HOUR, endTs, now) && sub.pulled > 0))
  {
    var period := planTerms.periodHours * SECS_PER_HOUR;
    var m := Meter(sub.periodStart, sub.pulled);
    var offer := Offer(sub, planTerms, now);
    if sub.terms == planTerms && sub.periodStart <= now && !IsExpired(endTs, now) && period > 0 {
      forall a: U64
        ensures Charge(a, planTerms.amount, period, m, endTs, now).Ok?
           <==> 0 < a <= Allowance(planTerms.amount, period, m, endTs, now)
      {
        ChargeAcceptsExactly(a, planTerms.amount, period, m, endTs, now);
      }
      if offer > 0 && AtFinalBoundary(sub.periodStart, period, endTs, now) && sub.pulled > 0 {
        assert !Accepts(sub, planTerms, endTs, now, offer);
      }
    } else if offer > 0 {
      assert !Accepts(sub, planTerms, endTs, now, offer);
    }
  }

  /** The largest amount that passes the terms, expiry and period checks, when any does. */
  ghost predicate LargestPull(sub: Subscriber, planTerms: Terms, endTs: I64, now: UnixTime, amount: U64) {
    Accepts(sub, planTerms, endTs, now, amount) &&
    forall a: U64 :: Accepts(sub, planTerms, endTs, now, a) ==> a <= amount
  }

  /**
   * Before the plan's end the list holds exactly the subscriptions for which some amount passes the
   * terms, expiry and period checks, each with the largest such amount.
   */
  lemma ListsExactlyTheCollectable(subs: seq<Subscriber>, planTerms: Terms, endTs: I64, now: UnixTime, e: Eligible)
    requires TermsOk(planTerms) && (endTs == 0 || now < endTs)
    requires forall i | 0 <= i < |subs| :: subs[i].periodStart <= now && subs[i].pulled <= subs[i].terms.amount
    ensures e in EligibleOf(subs, planTerms, now)
       <==> exists i | 0 <= i < |subs| ::
              LargestPull(subs[i], planTerms, endTs, now, e.collectAmount) &&
              e == Eligible(subs[i].subscriptionAddress, subs[i].delegator, e.collectAmount)
  {
    hide Accepts;
    ListedExactlyWithOffer(subs, planTerms, now, e);
    forall i | 0 <= i < |subs|
      ensures LargestPull(subs[i], planTerms, endTs, now, e.collectAmount)
         <==> e.collectAmount == Offer(subs[i], planTerms, now) > 0
    {
      ClientAgreesExactlyWhen(subs[i], planTerms, endTs, now);
      var offer := Offer(subs[i], planTerms, now);
      assert offer > 0 ==> Accepts(subs[i], planTerms, endTs, now, offer);
    }
  }

  /** One cent pulled, and the plan ending with the period: the client offers the whole amount again. */
  lemma ClientCanOverOffer()
    ensures var sub := Subscriber(Key(1), Key(2), Terms(100, 1, 1000), 1, 1000, 0);
            Offer(sub, sub.terms, 4600) == 100 && !Accepts(sub, sub.terms, 4600, 4600, 100) &&
            Accepts(sub, sub.terms, 4600, 4600, 99)
  {
    var sub := Subscriber(Key(1), Key(2), Terms(100, 1, 1000), 1, 1000, 0);
    ChargeAcceptsExactly(100, 100, 3600, Meter(1000, 1), 4600, 4600);
    ChargeAcceptsExactly(99, 100, 3600, Meter(1000, 1), 4600, 4600);
  }

  /** The client's record of an on-chain subscription. */
  function Read(a: Address, acc: Account): Subscriber
    requires acc.Subscription?
  {
    Subscriber(a, acc.header.delegator, acc.terms, acc.pulled, acc.periodStart, acc.expiresAt)
  }

  /**
   * In every reachable state a transfer the program accepts is within the client's offer; before the
   * plan's end that offer is exactly the largest amount its checks accept.
   */
  lemma TransfersAreWithinOffers(s: State, signers: set<Address>, p: Pull, plan: Address)
    requires Inv(s) && AfterTransferSubscription(s, signers, p, plan).Ok?
    ensures var sub, pl := Read(p.permission, s.accounts[p.permission]), s.accounts[plan];
            0 < p.amount <= Offer(sub, pl.terms, s.now) &&
            (pl.endTs == 0 || s.now < pl.endTs ==> ClientAgrees(sub, pl.terms, pl.endTs, s.now))
  {
    hide AfterTransferSubscription;
    SubscriptionPullShape(s, signers, p, plan);
    var acc, pl := s.accounts[p.permission], s.accounts[plan];
    assert AccountOk(s, p.permission, acc);
    ChargeAcceptsExactly(p.amount, pl.terms.amount, Secs(pl.terms), MeterOf(acc), pl.endTs, s.now);
    ClientAgreesExactlyWhen(Read(p.permission, acc), pl.terms, pl.endTs, s.now);
  }

  /** What the readiness check asks of the subscriber's token account, for the amount of this transfer. */
  predicate PayerReady(s: State, p: Pull) {
    p.fromAta == Ata(p.delegator, p.mint) && p.fromAta in s.tokens &&
    var from := s.tokens[p.fromAta];
    from.owner == p.delegator && from.mint == p.mint && p.amount <= from.amount &&
    from.delegate == Some(AuthorityPda(p.delegator, p.mint)) && p.amount <= from.delegated
  }

  /** A receiver's account of the plan's mint that has room, and a token program that cooperates. */
  predicate ReceiverReady(s: State, p: Pull) {
    p.tokenProgramOk && p.toAta in s.tokens && s.tokens[p.toAta].mint == p.mint &&
    (p.toAta != p.fromAta ==> s.tokens[p.toAta].amount + p.amount <= U64_MAX)
  }

  /** The transfer instruction the collector builds for a subscriber, signed by its caller. */
  predicate Addressed(s: State, signers: set<Address>, p: Pull, plan: Address) {
    p.permission in s.accounts && s.accounts[p.permission].Subscription? &&
    plan in s.accounts && s.accounts[plan].Plan? &&
    var acc, pl := s.accounts[p.permission], s.accounts[plan];
    acc.header.delegatee == plan && p.delegator == acc.header.delegator && p.mint == pl.mint &&
    p.mintAccount == p.mint && p.authority == AuthorityPda(p.delegator, p.mint) &&
    p.caller in signers
  }

  /**
   * End to end: in every reachable state, before the plan's end and with both token accounts ready, a
   * collection goes through if and only if its amount is within the offer, the subscription's authority
   * generation is live, the caller is the plan's owner or a listed puller, and the receiver is listed
   * where any is. The offer alone sees only the first.
   */
  lemma CollectsExactlyWhen(s: State, signers: set<Address>, p: Pull, plan: Address)
    requires Inv(s) && Addressed(s, signers, p, plan)
    requires s.accounts[plan].endTs == 0 || s.now < s.accounts[plan].endTs
    requires PayerReady(s, p) && ReceiverReady(s, p)
    ensures var acc, pl := s.accounts[p.permission], s.accounts[plan];
            (AfterTransferSubscription(s, signers, p, plan).Ok? <==>
             0 < p.amount <= Offer(Read(p.permission, acc), pl.terms, s.now) &&
             LiveGeneration(s, p.authority, acc.header.initId) &&
             Outcomes.Puller(pl, p.caller) && Outcomes.Receives(pl.destinations, s.tokens[p.toAta].owner))
  {
    hide Charge, AllowsDestination, CanPull, Outcomes.Puller, Outcomes.Receives;
    var acc, pl := s.accounts[p.permission], s.accounts[plan];
    Outcomes.ReceivesIsAllowed(pl, s.tokens[p.toAta].owner);
    Outcomes.PullerIsCanPull(pl, p.caller);
    var sub := Read(p.permission, acc);
    assert AccountOk(s, p.permission, acc);
    assert AccountOk(s, plan, pl);
    assert p.authority in s.accounts ==> AccountOk(s, p.authority, s.accounts[p.authority]);
    ClientAgreesExactlyWhen(sub, pl.terms, pl.endTs, s.now);
    assert Accepts(sub, pl.terms, pl.endTs, s.now, p.amount) <==> 0 < p.amount <= Offer(sub, pl.terms, s.now);
    if acc.terms == pl.terms {
      ChargeAcceptsExactly(p.amount, pl.terms.amount, Secs(pl.terms), MeterOf(acc), pl.endTs, s.now);
      Arithmetic.ChargeSafe(p.amount, pl.terms.amount, Secs(pl.terms), MeterOf(acc), pl.endTs, s.now);
    }
  }

  // --- Recurring delegations ----------------------------------------------------------------------------

  /** What the client shows as available; start and block time may be unknown. */
  function RecurringAvailable(amountPerPeriod: U64, pulled: U64, start: Option<Time>, period: U64,
                              now: Option<int>): U64 {
    if start.Some? && now.Some? && now.value >= start.value + period then amountPerPeriod
    else if amountPerPeriod > pulled then amountPerPeriod - pulled
    else 0
  }

  /** For a started, unexpired delegation it is exactly the largest accepted pull, with the same one exception. */
  lemma AvailableAgreesExactlyWhen(cap: U64, period: U64, m: Meter, expiry: I64, now: UnixTime)
    requires 0 < period <= I64_MAX && m.pulled <= cap && m.start <= now && !IsExpired(expiry, now)
    ensures (forall a: U64 :: Charge(a, cap, period, m, expiry, now).Ok?
                         <==> 0 < a <= RecurringAvailable(cap, m.pulled, Some(m.start), period, Some(now)))
       <==> !(AtFinalBoundary(m.start, period, expiry, now) && m.pulled > 0)
  {
    forall a: U64
      ensures Charge(a, cap, period, m, expiry, now).Ok? <==> 0 < a <= Allowance(cap, period, m, expiry, now)
    {
      ChargeAcceptsExactly(a, cap, period, m, expiry, now);
    }
    if AtFinalBoundary(m.start, period, expiry, now) && m.pulled > 0 {
      assert !Charge(cap, cap, period, m, expiry, now).Ok?;
    }
  }

  /**
   * With the start or the clock unknown the amount shown is still accepted, and it is the largest one
   * exactly when nothing was pulled yet or the stored period is still the current one.
   */
  lemma AvailableIsCautious(cap: U64, period: U64, m: Meter, expiry: I64, now: UnixTime, start: Option<Time>,
                            clock: Option<int>)
    requires 0 < period <= I64_MAX && m.pulled <= cap && m.start <= now && !IsExpired(expiry, now)
    requires start == None || clock == None
    ensures forall a: U64 :: 0 < a <= RecurringAvailable(cap, m.pulled, start, period, clock) ==>
              Charge(a, cap, period, m, expiry, now).Ok?
    ensures (forall a: U64 :: Charge(a, cap, period, m, expiry, now).Ok?
                         <==> 0 < a <= RecurringAvailable(cap, m.pulled, start, period, clock))
       <==> m.pulled == 0 || now < m.start + period || AtFinalBoundary(m.start, period, expiry, now)
  {
    forall a: U64
      ensures Charge(a, cap, period, m, expiry, now).Ok? <==> 0 < a <= Allowance(cap, period, m, expiry, now)
    {
      ChargeAcceptsExactly(a, cap, period, m, expiry, now);
    }
    if m.pulled > 0 && Allowance(cap, period, m, expiry, now) == cap {
      assert Charge(cap, cap, period, m, expiry, now).Ok?;
    }
  }
}
