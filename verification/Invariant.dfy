/**
 * What every reachable state satisfies, and what a successful instruction may do to the one account
 * it targets. The theorems elsewhere reason about these transitions, not about handler code.
 */
module Invariant {
  import opened Types
  import opened Metering
  import opened Program

  // --- State invariant ----------------------------------------------------------------------------

  predicate TermsOk(terms: Terms) {
    terms.amount > 0 && 0 < terms.periodHours <= MAX_PLAN_PERIOD_HOURS
  }

  function Secs(terms: Terms): int {
    terms.periodHours * SECS_PER_HOUR
  }

  /** A live authority is never of an older generation than a permission bound to it. */
  predicate NotOlder(s: State, authority: Address, initId: I64) {
    authority in s.accounts ==> s.accounts[authority].Authority? && s.accounts[authority].initId >= initId
  }

  predicate LiveGeneration(s: State, authority: Address, initId: I64) {
    authority in s.accounts && s.accounts[authority].Authority? && s.accounts[authority].initId == initId
  }

  /** A delegation's address, authority and mint all agree. */
  predicate Bound(a: Address, header: Header, authority: Address, mint: Address) {
    a.DelegationPda? && a.authority == authority && a.delegator == header.delegator &&
    a.delegatee == header.delegatee && authority == AuthorityPda(header.delegator, mint) &&
    header.delegator.Key? && header.payer.Key?
  }

  /** The plan incarnation the subscription was made under is still the one at its address. */
  predicate PlanMatches(s: State, sub: Account)
    requires sub.Subscription?
  {
    sub.header.delegatee in s.accounts && s.accounts[sub.header.delegatee].Plan? &&
    s.accounts[sub.header.delegatee].terms.createdAt == sub.terms.createdAt
  }

  function PlanOf(s: State, sub: Account): (p: Account)
    requires sub.Subscription? && PlanMatches(s, sub)
    ensures p.Plan?
  {
    s.accounts[sub.header.delegatee]
  }

  /** The authority the subscription's debits go through: the mint comes from the plan. */
  function BillingAuthority(s: State, sub: Account): Address
    requires sub.Subscription? && PlanMatches(s, sub)
  {
    AuthorityPda(sub.header.delegator, PlanOf(s, sub).mint)
  }

  /**
   * A plan at the subscription's plan address is either the one consented to, with unchanged terms,
   * or a later one; and while there is none, the clock has passed the consented creation time.
   */
  predicate PlanLink(s: State, sub: Account)
    requires sub.Subscription?
  {
    var a := sub.header.delegatee;
    if a in s.accounts then
      s.accounts[a].Plan? && s.accounts[a].terms.createdAt >= sub.terms.createdAt &&
      (PlanMatches(s, sub) ==>
         s.accounts[a].terms == sub.terms && NotOlder(s, BillingAuthority(s, sub), sub.header.initId))
    else
      s.now > sub.terms.createdAt
  }

  predicate AccountOk(s: State, a: Address, acc: Account) {
    match acc
    case Authority(user, mint, payer, initId) =>
      a == AuthorityPda(user, mint) && user.Key? && payer.Key? && initId <= s.slot
    case Plan(owner, status, planId, mint, terms, endTs, _, _, _) =>
      a == PlanPda(owner, planId) && owner.Key? && TermsOk(terms) && 0 < terms.createdAt <= s.now &&
      (endTs != 0 ==> terms.createdAt + Secs(terms) <= endTs) && (status == Sunset ==> endTs != 0)
    case Fixed(header, authority, mint, amount, expiryTs) =>
      Bound(a, header, authority, mint) && header.initId <= s.slot && NotOlder(s, authority, header.initId)
    case Recurring(header, authority, mint, start, length, expiryTs, cap, pulled) =>
      Bound(a, header, authority, mint) && header.initId <= s.slot && NotOlder(s, authority, header.initId) &&
      0 < length <= MAX_DELEGATION_PERIOD_SECS && pulled <= cap && (expiryTs == 0 || start < expiryTs)
    case Subscription(header, terms, pulled, start, expiresAt) =>
      a == SubscriptionPda(header.delegatee, header.delegator) && header.delegatee.PlanPda? &&
      header.delegator.Key? && header.payer.Key? && header.initId <= s.slot &&
      TermsOk(terms) && pulled <= terms.amount && 0 < terms.createdAt <= start <= s.now && expiresAt >= 0 &&
      PlanLink(s, acc)
  }

  ghost predicate Inv(s: State) {
    (forall a :: a in s.accounts ==> AccountOk(s, a, s.accounts[a])) && Total(s.lamports) <= U64_MAX
  }

  // --- What one instruction may do ------------------------------------------------------------------

  /** The only program account an instruction can open, write or close. */
  function Target(ix: Instruction): Address {
    match ix
    case InitAuthority(_, authority, _, _, _, _) => authority
    case CloseAuthority(_, authority, _) => authority
    case RevokeAuthority(_, _, _, authority, _) => authority
    case CreateFixed(_, _, delegation, _, _, _, _, _, _, _) => delegation
    case CreateRecurring(_, _, delegation, _, _, _, _, _, _, _, _, _) => delegation
    case TransferFixed(p) => p.permission
    case TransferRecurring(p) => p.permission
    case TransferSubscription(p, _) => p.permission
    case CreatePlan(_, plan, _, _, _, _, _, _, _, _, _, _, _) => plan
    case UpdatePlan(_, plan, _, _, _, _, _, _, _, _) => plan
    case DeletePlan(_, plan) => plan
    case Subscribe(_, _, _, subscription, _, _, _, _, _, _, _, _, _) => subscription
    case CancelSubscription(_, _, subscription) => subscription
    case ResumeSubscription(_, _, subscription, _, _) => subscription
    case CancelSubscriptionNow(_, _, _, subscription, _) => subscription
    case RevokeDelegation(_, delegation, _) => delegation
    case RevokeAbandonedDelegation(_, delegation, _) => delegation
    case RevokeAbandonedSubscription(_, subscription, _, _) => subscription
    case Tick(_, _) => ZERO
    case External(_, _) => ZERO
  }

  predicate Opens(s: State, tx: Tx, a: Address, acc: Account) {
    match acc
    case Authority(user, mint, payer, initId) =>
      a == AuthorityPda(user, mint) && user in tx.signers && user.Key? && payer.Key? && initId == s.slot
    case Plan(owner, status, planId, mint, terms, endTs, _, _, _) =>
      a == PlanPda(owner, planId) && owner in tx.signers && owner.Key? && status == Active &&
      TermsOk(terms) && terms.createdAt == s.now &&
      (endTs != 0 ==> s.now + Secs(terms) <= endTs)
    case Fixed(header, authority, mint, amount, _) =>
      Bound(a, header, authority, mint) && header.delegator in tx.signers &&
      LiveGeneration(s, authority, header.initId) && amount > 0
    case Recurring(header, authority, mint, start, length, expiryTs, cap, pulled) =>
      Bound(a, header, authority, mint) && header.delegator in tx.signers &&
      LiveGeneration(s, authority, header.initId) &&
      0 < length <= MAX_DELEGATION_PERIOD_SECS && cap > 0 && pulled == 0 && (expiryTs == 0 || start < expiryTs)
    case Subscription(header, terms, pulled, start, expiresAt) =>
      a == SubscriptionPda(header.delegatee, header.delegator) && header.delegatee.PlanPda? &&
      header.delegator in tx.signers && header.delegator.Key? && header.payer.Key? &&
      pulled == 0 && start == s.now && expiresAt == 0 && PlanMatches(s, acc) &&
      PlanOf(s, acc).terms == terms && PlanOf(s, acc).status == Active && !IsExpired(PlanOf(s, acc).endTs, s.now) &&
      LiveGeneration(s, BillingAuthority(s, acc), header.initId)
  }

  /** A pull through `acc` is not ruled out by expiry, plan or authority. */
  predicate MayPull(s: State, acc: Account) {
    match acc
    case Fixed(header, authority, _, amount, expiryTs) =>
      amount > 0 && !IsExpired(expiryTs, s.now) && LiveGeneration(s, authority, header.initId)
    case Recurring(header, authority, _, _, _, expiryTs, _, _) =>
      !IsExpired(expiryTs, s.now) && LiveGeneration(s, authority, header.initId)
    case Subscription(header, terms, _, _, expiresAt) =>
      PlanMatches(s, acc) && PlanOf(s, acc).terms == terms && !IsExpired(PlanOf(s, acc).endTs, s.now) &&
      (expiresAt == 0 || s.now < expiresAt) && LiveGeneration(s, BillingAuthority(s, acc), header.initId)
    case _ => false
  }

  /** The mint a permission debits, as recorded when it was given. */
  function MintOf(s: State, acc: Account): Option<Address>
    requires IsPermission(acc)
  {
    match acc
    case Fixed(_, _, mint, _, _) => Some(mint)
    case Recurring(_, _, mint, _, _, _, _, _) => Some(mint)
    case Subscription(_, _, _, _, _) => if PlanMatches(s, acc) then Some(PlanOf(s, acc).mint) else None
  }

  /** Who may pull: the recorded delegatee, or the plan's owner and pullers. */
  predicate MayCall(s: State, acc: Account, caller: Address) {
    match acc
    case Fixed(header, _, _, _, _) => header.delegatee == caller
    case Recurring(header, _, _, _, _, _, _, _) => header.delegatee == caller
    case Subscription(_, _, _, _, _) => PlanMatches(s, acc) && CanPull(PlanOf(s, acc), caller)
    case _ => false
  }

  /** Cap, period length and horizon of a recurring permission. */
  function Cap(acc: Account): U64
    requires acc.Recurring? || acc.Subscription?
  {
    match acc
    case Recurring(_, _, _, _, _, _, cap, _) => cap
    case Subscription(_, terms, _, _, _) => terms.amount
  }

  function Length(acc: Account): int
    requires acc.Recurring? || acc.Subscription?
  {
    match acc
    case Recurring(_, _, _, _, length, _, _, _) => length
    case Subscription(_, terms, _, _, _) => Secs(terms)
  }

  function Horizon(s: State, acc: Account): I64
    requires acc.Recurring? || (acc.Subscription? && PlanMatches(s, acc))
  {
    match acc
    case Recurring(_, _, _, _, _, expiryTs, _, _) => expiryTs
    case Subscription(_, _, _, _, _) => PlanOf(s, acc).endTs
  }

  /** `y` is `x` after a pull of `amount`. */
  predicate Pulls(s: State, x: Account, y: Account, amount: U64) {
    MayPull(s, x) && amount > 0 &&
    if x.Fixed? then amount <= x.amount && y == x.(amount := x.amount - amount)
    else
      (y.Recurring? || y.Subscription?) && y == WithMeter(x, MeterOf(y)) && 0 < Length(x) <= I64_MAX &&
      Charge(amount, Cap(x), Length(x), MeterOf(x), Horizon(s, x), s.now) == Ok(MeterOf(y))
  }

  predicate PlanWrites(s: State, x: Account, y: Account)
    requires x.Plan?
  {
    y.Plan? && y == x.(status := y.status, endTs := y.endTs, pullers := y.pullers, metadata := y.metadata) &&
    (x.status == Sunset ==> y == x.(pullers := y.pullers) && OnlyRemovesPullers(x.pullers, y.pullers)) &&
    (y.status == Sunset ==> y.endTs != 0) &&
    (y.endTs != x.endTs ==>
       !IsExpired(x.endTs, s.now) && y.endTs != 0 && s.now + Secs(x.terms) <= y.endTs &&
       (x.endTs != 0 ==> y.endTs < x.endTs))
  }

  /** Cancel, resume and cancel-now: only the expiry moves, and only with the subscriber's signature. */
  predicate Reschedules(s: State, tx: Tx, x: Account, y: Account)
    requires x.Subscription?
  {
    y.Subscription? && y == x.(expiresAt := y.expiresAt) && x.header.delegator in tx.signers &&
    match tx.ix
    case CancelSubscription(_, _, _) =>
      x.expiresAt == 0 &&
      if PlanMatches(s, x) && PlanOf(s, x).terms == x.terms
      then CancelExpiry(x, PlanOf(s, x).endTs, s.now) == Ok(y.expiresAt)
      else y.expiresAt == s.now
    case ResumeSubscription(_, _, _, _, expected) =>
      x.expiresAt == expected && x.expiresAt > s.now && y.expiresAt == 0 && MayPull(s, x)
    case CancelSubscriptionNow(_, _, _, _, _) =>
      (x.expiresAt == 0 || x.expiresAt > s.now) && y.expiresAt == s.now
    case _ => false
  }

  predicate IsPullOf(tx: Tx, a: Address) {
    Asked(tx.ix).Some? && Asked(tx.ix).value.permission == a
  }

  /** Who the rent of an account goes back to: the recorded payer, or for a plan its owner. */
  function RentOwner(acc: Account): Address {
    match acc
    case Authority(_, _, payer, _) => payer
    case Plan(owner, _, _, _, _, _, _, _, _) => owner
    case _ => acc.header.payer
  }

  /** The transfer names the permission's own delegator and mint, and debits that user's account. */
  predicate Debits(s: State, x: Account, p: Pull) {
    IsPermission(x) && p.delegator == x.header.delegator && MintOf(s, x) == Some(p.mint) &&
    p.fromAta == Ata(p.delegator, p.mint)
  }

  predicate Writes(s: State, tx: Tx, a: Address, x: Account, y: Account) {
    if Asked(tx.ix).Some? then
      IsPullOf(tx, a) && Pulls(s, x, y, Asked(tx.ix).value.amount) && Debits(s, x, Asked(tx.ix).value) &&
      MayCall(s, x, Asked(tx.ix).value.caller) && Asked(tx.ix).value.caller in tx.signers
    else if x.Plan? then PlanWrites(s, x, y)
    else x.Subscription? && Reschedules(s, tx, x, y)
  }

  /** No pull through `acc` can succeed now, nor (see `Sponsorship`) ever again. */
  predicate Dead(s: State, acc: Account) {
    match acc
    case Fixed(header, authority, _, amount, expiryTs) =>
      IsExpired(expiryTs, s.now) || amount == 0 || GenerationGone(s, authority, header.initId)
    case Recurring(header, authority, _, _, _, expiryTs, _, _) =>
      IsExpired(expiryTs, s.now) || GenerationGone(s, authority, header.initId)
    case Subscription(header, terms, _, _, expiresAt) =>
      (expiresAt != 0 && expiresAt <= s.now) || !PlanMatches(s, acc) || IsExpired(PlanOf(s, acc).endTs, s.now) ||
      GenerationGone(s, BillingAuthority(s, acc), header.initId)
    case _ => false
  }

  predicate Closes(s: State, tx: Tx, acc: Account) {
    match acc
    case Authority(user, _, _, _) => user in tx.signers
    case Plan(owner, _, _, _, _, endTs, _, _, _) => owner in tx.signers && IsExpired(endTs, s.now)
    case _ =>
      (acc.header.delegator in tx.signers && (acc.Subscription? ==> acc.expiresAt != 0 && acc.expiresAt <= s.now)) ||
      (acc.header.payer in tx.signers && Dead(s, acc))
  }

  predicate Allowed(s: State, tx: Tx, a: Address, before: Option<Account>, after: Option<Account>) {
    match (before, after)
    case (None, None) => Asked(tx.ix).None?
    case (None, Some(acc)) => Asked(tx.ix).None? && Opens(s, tx, a, acc)
    case (Some(acc), None) => Asked(tx.ix).None? && Closes(s, tx, acc)
    case (Some(x), Some(y)) => (Asked(tx.ix).None? && x == y) || Writes(s, tx, a, x, y)
  }

  /** Every lamport of the closed account goes to `owner`, and no other balance moves. */
  ghost predicate PaysRent(s: State, a: Address, owner: Address, s': State) {
    a != owner && s'.lamports == Move(s.lamports, a, owner, AmountAt(s.lamports, a))
  }

  /** `s'` follows `s` by one successful step. */
  ghost predicate Follows(s: State, tx: Tx, s': State) {
    s.now <= s'.now && s.slot <= s'.slot &&
    (tx.ix.Tick? || (s'.now == s.now && s'.slot == s.slot)) &&
    (forall x :: x != Target(tx.ix) ==> At(s', x) == At(s, x)) &&
    Allowed(s, tx, Target(tx.ix), At(s, Target(tx.ix)), At(s', Target(tx.ix))) &&
    (tx.ix.Tick? ==> s'.accounts == s.accounts) &&
    (tx.ix.External? || tx.ix.InitAuthority? || tx.ix.RevokeAuthority? || Asked(tx.ix).Some? ||
     s'.tokens == s.tokens) &&
    (At(s, Target(tx.ix)).Some? && At(s', Target(tx.ix)).None? ==>
       PaysRent(s, Target(tx.ix), RentOwner(s.accounts[Target(tx.ix)]), s'))
  }
}
