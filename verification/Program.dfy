/**
 * What each instruction does to the chain state, as a function: the new state, or the first error.
 * `Chain` holds the step-by-step handlers and proves each equal to its function here.
 */
module Program {
  import opened Types
  import opened Metering

  /** The accounts and data of the three transfer instructions. */
  datatype Pull = Pull(permission: Address, authority: Address, fromAta: Address, toAta: Address,
                       mintAccount: Address, caller: Address, amount: U64, delegator: Address, mint: Address,
                       tokenProgramOk: bool)

  /** `rent` is the balance the rent sysvar asks for; `sponsor` the optional trailing payer. */
  datatype Instruction =
    | InitAuthority(user: Address, authority: Address, mint: Address, userAta: Address,
                    sponsor: Option<Address>, rent: nat)
    | CloseAuthority(user: Address, authority: Address, receiver: Option<Address>)
    | RevokeAuthority(user: Address, userAta: Address, mint: Address, authority: Address, receiver: Option<Address>)
    | CreateFixed(delegator: Address, authority: Address, delegation: Address, delegatee: Address,
                  sponsor: Option<Address>, nonce: U64, amount: U64, expiryTs: I64, expectedInitId: I64, rent: nat)
    | CreateRecurring(delegator: Address, authority: Address, delegation: Address, delegatee: Address,
                      sponsor: Option<Address>, nonce: U64, amount: U64, periodLength: U64, startTs: I64,
                      expiryTs: I64, expectedInitId: I64, rent: nat)
    | TransferFixed(pull: Pull)
    | TransferRecurring(pull: Pull)
    | TransferSubscription(pull: Pull, plan: Address)
    | CreatePlan(merchant: Address, plan: Address, mintAccount: Address, sponsor: Option<Address>, planId: U64,
                 mint: Address, amount: U64, periodHours: U64, endTs: I64, destinations: seq<Address>,
                 pullers: seq<Address>, metadata: nat, rent: nat)
    | UpdatePlan(owner: Address, plan: Address, status: nat, endTs: I64, pullers: seq<Address>, metadata: nat,
                 expectedCreatedAt: I64, expectedEndTs: I64, expectedPullers: seq<Address>, expectedMetadata: nat)
    | DeletePlan(owner: Address, plan: Address)
    | Subscribe(subscriber: Address, merchant: Address, plan: Address, subscription: Address, authority: Address,
                sponsor: Option<Address>, planId: U64, expectedMint: Address, expectedAmount: U64,
                expectedPeriodHours: U64, expectedCreatedAt: I64, expectedInitId: I64, rent: nat)
    | CancelSubscription(subscriber: Address, plan: Address, subscription: Address)
    | ResumeSubscription(subscriber: Address, plan: Address, subscription: Address, authority: Address,
                         expectedExpiresAt: I64)
    | CancelSubscriptionNow(subscriber: Address, merchant: Address, plan: Address, subscription: Address,
                            expectedPeriodStart: I64)
    | RevokeDelegation(caller: Address, delegation: Address, rem: seq<Address>)
    | RevokeAbandonedDelegation(payer: Address, delegation: Address, authority: Address)
    | RevokeAbandonedSubscription(payer: Address, subscription: Address, authority: Address, plan: Address)
    // the world outside the program
    | Tick(seconds: nat, slots: nat)
    | External(tokens: map<Address, TokenAccount>, lamports: map<Address, nat>)

  datatype Tx = Tx(signers: set<Address>, ix: Instruction)

  // --- Shared guards ----------------------------------------------------------------------------

  function CheckSigner(signers: set<Address>, a: Address): Check {
    Need(a in signers, NotSigner)
  }

  function ResolvePayer(signers: set<Address>, primary: Address, sponsor: Option<Address>): Result<Address> {
    match sponsor
    case None => Ok(primary)
    case Some(p) => if p in signers then Ok(p) else Err(NotSigner)
  }

  function CheckAuthorityAccount(s: State, a: Address): Check {
    if a !in s.accounts then Fail(InvalidSubscriptionAuthorityPda)
    else Need(s.accounts[a].Authority?, InvalidAccountData)
  }

  /** The sentinel accepts only an authority created in the current slot. */
  function CheckInitId(s: State, initId: I64, expected: I64): Check {
    Need(initId == (if expected == UNKNOWN_INIT_ID then s.slot else expected), StaleSubscriptionAuthority)
  }

  function PeriodSecs(terms: Terms): Result<U64> {
    if terms.periodHours * SECS_PER_HOUR <= U64_MAX then Ok(terms.periodHours * SECS_PER_HOUR)
    else Err(ArithmeticOverflow)
  }

  function ValidatePlanEnd(endTs: I64, periodHours: U64, now: UnixTime): Check {
    if endTs == 0 then Pass
    else if periodHours * SECS_PER_HOUR > U64_MAX then Fail(Panic)
    else if !FitsI64(now + AsI64(periodHours * SECS_PER_HOUR)) then Fail(Panic)
    else Need(now + AsI64(periodHours * SECS_PER_HOUR) <= endTs, InvalidEndTs)
  }

  predicate CanPull(plan: Account, caller: Address)
    requires plan.Plan?
  {
    caller == plan.owner || (caller != ZERO && caller in plan.pullers)
  }

  /** An unset whitelist admits every receiver; a set one admits exactly its non-zero members. */
  predicate AllowsDestination(plan: Account, receiver: Address)
    requires plan.Plan?
  {
    (receiver != ZERO && receiver in plan.destinations) || (forall d | d in plan.destinations :: d == ZERO)
  }

  predicate OnlyRemovesPullers(current: seq<Address>, updated: seq<Address>) {
    forall p | p in updated :: p == ZERO || p in current
  }

  /** The period counters of a recurring permission. */
  function MeterOf(acc: Account): Meter
    requires acc.Recurring? || acc.Subscription?
  {
    Meter(acc.periodStart, acc.pulled)
  }

  function WithMeter(acc: Account, m: Meter): Account
    requires acc.Recurring? || acc.Subscription?
  {
    match acc
    case Recurring(header, authority, mint, _, length, expiry, cap, _) =>
      Recurring(header, authority, mint, m.start, length, expiry, cap, m.pulled)
    case Subscription(header, terms, _, _, expiresAt) =>
      Subscription(header, terms, m.pulled, m.start, expiresAt)
  }

  // --- Lamport and token moves ------------------------------------------------------------------

  function Move(lamports: map<Address, nat>, source: Address, dest: Address, amount: nat): map<Address, nat>
    requires amount <= AmountAt(lamports, source)
  {
    var debited := lamports[source := AmountAt(lamports, source) - amount];
    debited[dest := AmountAt(debited, dest) + amount]
  }

  /** Account creation tops the address up to the rent minimum, whatever it already held. */
  function Fund(s: State, payer: Address, account: Address, rent: nat): Result<map<Address, nat>> {
    var held := AmountAt(s.lamports, account);
    var missing := if rent > held then rent - held else 0;
    :- Need(missing <= AmountAt(s.lamports, payer), SystemProgramError);
    Ok(Move(s.lamports, payer, account, missing))
  }

  function Open(s: State, payer: Address, account: Address, rent: nat, content: Account): Result<State> {
    var lamports :- Fund(s, payer, account, rent);
    Ok(s.(accounts := s.accounts[account := content], lamports := lamports))
  }

  /** Closing hands every lamport of the account to `dest`. */
  function Close(s: State, account: Address, dest: Address): Result<State> {
    if AmountAt(s.lamports, dest) + AmountAt(s.lamports, account) > U64_MAX then Err(ArithmeticOverflow) else
    :- Need(account != dest, UnbalancedInstruction);
    Ok(s.(accounts := s.accounts - {account},
          lamports := Move(s.lamports, account, dest, AmountAt(s.lamports, account))))
  }

  /** `TransferChecked` with a delegate: all or nothing; a self-transfer moves nothing. */
  function TokenTransfer(tokens: map<Address, TokenAccount>, source: Address, dest: Address, delegate: Address,
                         amount: U64, ok: bool): Result<map<Address, TokenAccount>>
    requires source in tokens && dest in tokens
  {
    var from := tokens[source];
    :- Need(ok && from.delegate == Some(delegate) && amount <= from.delegated && amount <= from.amount,
            TokenProgramError);
    if source == dest then Ok(tokens)
    else
      var to := tokens[dest];
      :- Need(to.amount + amount <= U64_MAX, TokenProgramError);
      var left := from.delegated - amount;
      Ok(tokens[source := from.(amount := from.amount - amount, delegated := left,
                                delegate := if left == 0 then None else from.delegate)]
               [dest := to.(amount := to.amount + amount)])
  }

  /** The debit every transfer ends with: signed by the authority of the delegator's current generation. */
  function TransferWithDelegate(s: State, p: Pull, initId: I64): Result<map<Address, TokenAccount>>
    requires p.fromAta in s.tokens && p.toAta in s.tokens
    requires p.authority in s.accounts && s.accounts[p.authority].Authority?
  {
    var authority := s.accounts[p.authority];
    :- Need(p.mintAccount == p.mint, MintMismatch);
    :- Need(authority.user == p.delegator && authority.mint == p.mint, InvalidDelegatePda);
    :- Need(authority.initId == initId, StaleSubscriptionAuthority);
    :- Need(s.tokens[p.fromAta].owner == p.delegator, Unauthorized);
    :- Need(s.tokens[p.fromAta].mint == p.mint, MintMismatch);
    :- Need(p.fromAta == Ata(p.delegator, p.mint), InvalidAssociatedTokenAccountDerivedAddress);
    :- Need(s.tokens[p.toAta].mint == p.mint, MintMismatch);
    TokenTransfer(s.tokens, p.fromAta, p.toAta, AuthorityPda(p.delegator, p.mint), p.amount,
                  p.tokenProgramOk && p.authority == AuthorityPda(p.delegator, p.mint))
  }

  // --- Authorities ------------------------------------------------------------------------------

  function AfterInitAuthority(s: State, signers: set<Address>, ix: Instruction): Result<State>
    requires ix.InitAuthority?
  {
    if ix.user !in signers then Err(NotSigner) else
    :- Need(ix.userAta in s.tokens, InvalidAccountData);
    var payer :- ResolvePayer(signers, ix.user, ix.sponsor);
    :- Need(ix.authority == AuthorityPda(ix.user, ix.mint), InvalidSubscriptionAuthorityPda);
    var live :- if ix.authority in s.accounts then Ok(s)
                  else Open(s, payer, ix.authority, ix.rent, Authority(ix.user, ix.mint, payer, s.slot));
    var token := s.tokens[ix.userAta];
    :- Need(token.owner == ix.user, Unauthorized);
    :- Need(token.mint == ix.mint, MintMismatch);
    :- Need(ix.userAta == Ata(ix.user, ix.mint), InvalidAssociatedTokenAccountDerivedAddress);
    Ok(live.(tokens := s.tokens[ix.userAta := token.(delegate := Some(ix.authority), delegated := U64_MAX)]))
  }

  function CloseAuthorityTo(s: State, user: Address, authority: Address, receiver: Option<Address>): Result<State>
    requires authority in s.accounts
  {
    var acc := s.accounts[authority];
    :- Need(acc.Authority?, InvalidAccountData);
    :- Need(acc.user == user, Unauthorized);
    :- Need(authority == AuthorityPda(acc.user, acc.mint), InvalidSubscriptionAuthorityPda);
    if acc.payer == user then Close(s, authority, user)
    else
      :- Need(receiver.Some?, NotEnoughAccountKeys);
      :- Need(receiver.value == acc.payer, Unauthorized);
      Close(s, authority, receiver.value)
  }

  function AfterCloseAuthority(s: State, signers: set<Address>, ix: Instruction): Result<State>
    requires ix.CloseAuthority?
  {
    if ix.user !in signers then Err(NotSigner) else
    :- Need(ix.authority in s.accounts, InvalidAccountOwner);
    CloseAuthorityTo(s, ix.user, ix.authority, ix.receiver)
  }

  function AfterRevokeAuthority(s: State, signers: set<Address>, ix: Instruction): Result<State>
    requires ix.RevokeAuthority?
  {
    if ix.user !in signers then Err(NotSigner) else
    :- Need(ix.userAta in s.tokens, InvalidAccountData);
    var token := s.tokens[ix.userAta];
    :- Need(token.owner == ix.user, Unauthorized);
    :- Need(token.mint == ix.mint, MintMismatch);
    var expected := AuthorityPda(ix.user, ix.mint);
    :- Need(ix.userAta == Ata(ix.user, ix.mint), InvalidAssociatedTokenAccountDerivedAddress);
    var revoked := if token.delegate == Some(expected)
                   then s.(tokens := s.tokens[ix.userAta := token.(delegate := None, delegated := 0)]) else s;
    :- Need(ix.authority == expected, InvalidSubscriptionAuthorityPda);
    if ix.authority in s.accounts then CloseAuthorityTo(revoked, ix.user, ix.authority, ix.receiver) else Ok(revoked)
  }

  // --- Fixed and recurring delegations ------------------------------------------------------------

  /** The checks both creations share; the result is the authority the delegation binds to. */
  function CreateDelegationChecks(s: State, delegator: Address, authority: Address, delegation: Address,
                                  delegatee: Address, nonce: U64, expectedInitId: I64): Result<Account>
    requires authority in s.accounts && s.accounts[authority].Authority?
    ensures var r := CreateDelegationChecks(s, delegator, authority, delegation, delegatee, nonce, expectedInitId);
            r.Ok? ==> r.value.Authority?
  {
    var acc := s.accounts[authority];
    :- Need(delegation !in s.accounts, DelegationAlreadyExists);
    :- Need(acc.user == delegator, Unauthorized);
    :- CheckInitId(s, acc.initId, expectedInitId);
    :- Need(delegation == DelegationPda(authority, delegator, delegatee, nonce), InvalidDelegatePda);
    Ok(acc)
  }

  function AfterCreateFixed(s: State, signers: set<Address>, ix: Instruction): Result<State>
    requires ix.CreateFixed?
  {
    if ix.expiryTs != 0 && ix.expiryTs < s.now - TIME_DRIFT_ALLOWED_SECS then Err(FixedDelegationExpiryInPast) else
    :- Need(ix.amount != 0, FixedDelegationAmountZero);
    :- CheckSigner(signers, ix.delegator);
    :- CheckAuthorityAccount(s, ix.authority);
    var payer :- ResolvePayer(signers, ix.delegator, ix.sponsor);
    var acc :- CreateDelegationChecks(s, ix.delegator, ix.authority, ix.delegation, ix.delegatee, ix.nonce,
                                      ix.expectedInitId);
    Open(s, payer, ix.delegation, ix.rent,
         Fixed(Header(ix.delegator, ix.delegatee, payer, acc.initId), ix.authority, acc.mint, ix.amount, ix.expiryTs))
  }

  function ValidateRecurringTerms(ix: Instruction, now: UnixTime): Check
    requires ix.CreateRecurring?
  {
    if ix.startTs == 0 && ix.expiryTs == 0 then Fail(RecurringDelegationStartOnLandingRequiresExpiry)
    else if ix.startTs == 0 && now >= ix.expiryTs then Fail(RecurringDelegationStartTimeGreaterThanExpiry)
    else if ix.startTs != 0 && ix.startTs < now - TIME_DRIFT_ALLOWED_SECS then Fail(RecurringDelegationStartTimeInPast)
    else if ix.startTs != 0 && ix.expiryTs != 0 && ix.startTs >= ix.expiryTs then
      Fail(RecurringDelegationStartTimeGreaterThanExpiry)
    else if ix.periodLength == 0 || ix.periodLength > MAX_DELEGATION_PERIOD_SECS then Fail(InvalidPeriodLength)
    else Need(ix.amount != 0, RecurringDelegationAmountZero)
  }

  function AfterCreateRecurring(s: State, signers: set<Address>, ix: Instruction): Result<State>
    requires ix.CreateRecurring?
  {
    var terms := ValidateRecurringTerms(ix, s.now);
    :- terms;
    :- CheckSigner(signers, ix.delegator);
    :- CheckAuthorityAccount(s, ix.authority);
    var payer :- ResolvePayer(signers, ix.delegator, ix.sponsor);
    var acc :- CreateDelegationChecks(s, ix.delegator, ix.authority, ix.delegation, ix.delegatee, ix.nonce,
                                      ix.expectedInitId);
    Open(s, payer, ix.delegation, ix.rent,
         Recurring(Header(ix.delegator, ix.delegatee, payer, acc.initId), ix.authority, acc.mint,
                   if ix.startTs == 0 then s.now else ix.startTs, ix.periodLength, ix.expiryTs, ix.amount, 0))
  }

  /** The account checks the two delegation transfers share; the result is the permission itself. */
  function PullAccount(s: State, signers: set<Address>, p: Pull): (r: Result<Account>)
    ensures r.Ok? ==> p.permission in s.accounts && r.value == s.accounts[p.permission] &&
                      p.fromAta in s.tokens && p.toAta in s.tokens &&
                      p.authority in s.accounts && s.accounts[p.authority].Authority?
  {
    if p.permission !in s.accounts then Err(InvalidAccountOwner) else
    :- CheckAuthorityAccount(s, p.authority);
    :- Need(p.fromAta in s.tokens && p.toAta in s.tokens, InvalidAccountData);
    :- CheckSigner(signers, p.caller);
    Ok(s.accounts[p.permission])
  }

  function AfterTransferFixed(s: State, signers: set<Address>, p: Pull): Result<State> {
    var d :- PullAccount(s, signers, p);
    :- Need(d.Fixed?, InvalidAccountDiscriminator);
    :- Need(d.header.delegator == p.delegator && d.header.delegatee == p.caller, Unauthorized);
    :- Need(d.authority == p.authority, InvalidDelegatePda);
    :- Need(d.mint == p.mint, MintMismatch);
    :- FixedTransferCheck(p.amount, d.amount, d.expiryTs, s.now);
    var tokens :- TransferWithDelegate(s, p, d.header.initId);
    Ok(s.(accounts := s.accounts[p.permission := d.(amount := d.amount - p.amount)], tokens := tokens))
  }

  function AfterTransferRecurring(s: State, signers: set<Address>, p: Pull): Result<State> {
    var d :- PullAccount(s, signers, p);
    :- Need(d.Recurring?, InvalidAccountDiscriminator);
    :- Need(d.header.delegator == p.delegator && d.header.delegatee == p.caller, Unauthorized);
    :- Need(d.authority == p.authority, InvalidDelegatePda);
    :- Need(d.mint == p.mint, MintMismatch);
    var m :- Charge(p.amount, d.cap, d.periodLength, MeterOf(d), d.expiryTs, s.now);
    var tokens :- TransferWithDelegate(s, p, d.header.initId);
    :- Need(FitsI64(m.start + d.periodLength), Panic);
    Ok(s.(accounts := s.accounts[p.permission := WithMeter(d, m)], tokens := tokens))
  }

  // --- Plans --------------------------------------------------------------------------------------

  function AfterCreatePlan(s: State, signers: set<Address>, ix: Instruction): Result<State>
    requires ix.CreatePlan?
  {
    if ix.amount == 0 then Err(InvalidAmount) else
    :- Need(0 < ix.periodHours <= MAX_PLAN_PERIOD_HOURS, InvalidPeriodLength);
    :- ValidatePlanEnd(ix.endTs, ix.periodHours, s.now);
    :- CheckSigner(signers, ix.merchant);
    var payer :- ResolvePayer(signers, ix.merchant, ix.sponsor);
    :- Need(ix.mintAccount == ix.mint, MintMismatch);
    :- Need(ix.plan !in s.accounts, PlanAlreadyExists);
    :- Need(ix.plan == PlanPda(ix.merchant, ix.planId), InvalidPlanPda);
    Open(s, payer, ix.plan, ix.rent,
         Plan(ix.merchant, Active, ix.planId, ix.mint, Terms(ix.amount, ix.periodHours, s.now), ix.endTs,
              ix.destinations, ix.pullers, ix.metadata))
  }

  function AfterUpdatePlan(s: State, signers: set<Address>, ix: Instruction): Result<State>
    requires ix.UpdatePlan?
  {
    if ix.owner !in signers then Err(NotSigner) else
    :- Need(ix.plan in s.accounts, InvalidAccountOwner);
    var p := s.accounts[ix.plan];
    :- Need(p.Plan?, InvalidAccountData);
    :- Need(p.owner == ix.owner, NotPlanOwner);
    :- Need(p.terms.createdAt == ix.expectedCreatedAt && p.endTs == ix.expectedEndTs &&
            p.pullers == ix.expectedPullers && p.metadata == ix.expectedMetadata, StalePlanApproval);
    if p.status == Sunset then
      :- Need(ix.status == 0 && ix.endTs == p.endTs && ix.metadata == p.metadata &&
              OnlyRemovesPullers(p.pullers, ix.pullers), PlanImmutableAfterSunset);
      Ok(s.(accounts := s.accounts[ix.plan := p.(pullers := ix.pullers)]))
    else
      :- Need(!(ix.status == 0 && ix.endTs == 0), SunsetRequiresEndTs);
      :- Need(ix.status <= 1, InvalidPlanStatus);
      :- Need(!IsExpired(p.endTs, s.now), PlanExpired);
      :- Need(p.endTs == 0 || (ix.endTs != 0 && ix.endTs <= p.endTs), PlanEndTsCannotExtend);
      :- if ix.endTs == p.endTs then Pass else ValidatePlanEnd(ix.endTs, p.terms.periodHours, s.now);
      Ok(s.(accounts := s.accounts[ix.plan := p.(status := if ix.status == 0 then Sunset else Active,
                                                 endTs := ix.endTs, pullers := ix.pullers,
                                                 metadata := ix.metadata)]))
  }

  /** Rent goes to the owner, whoever paid it. */
  function AfterDeletePlan(s: State, signers: set<Address>, ix: Instruction): Result<State>
    requires ix.DeletePlan?
  {
    if ix.owner !in signers then Err(NotSigner) else
    :- Need(ix.plan in s.accounts, InvalidAccountOwner);
    var p := s.accounts[ix.plan];
    :- Need(p.Plan?, InvalidAccountData);
    :- Need(p.owner == ix.owner, NotPlanOwner);
    :- Need(IsExpired(p.endTs, s.now), PlanNotExpired);
    Close(s, ix.plan, ix.owner)
  }

  // --- Subscriptions --------------------------------------------------------------------------------

  function AfterSubscribe(s: State, signers: set<Address>, ix: Instruction): Result<State>
    requires ix.Subscribe?
  {
    if ix.subscriber !in signers then Err(NotSigner) else
    :- Need(ix.plan in s.accounts, InvalidAccountOwner);
    :- CheckAuthorityAccount(s, ix.authority);
    var payer :- ResolvePayer(signers, ix.subscriber, ix.sponsor);
    :- Need(ix.plan == PlanPda(ix.merchant, ix.planId), InvalidPlanPda);
    var p := s.accounts[ix.plan];
    :- Need(p.Plan?, InvalidAccountData);
    :- Need(p.status == Active, PlanSunset);
    :- Need(!IsExpired(p.endTs, s.now), PlanExpired);
    :- Need(p.mint == ix.expectedMint &&
            p.terms == Terms(ix.expectedAmount, ix.expectedPeriodHours, ix.expectedCreatedAt), PlanTermsMismatch);
    var authority := s.accounts[ix.authority];
    :- Need(authority.user == ix.subscriber, Unauthorized);
    :- Need(authority.mint == p.mint, MintMismatch);
    :- CheckInitId(s, authority.initId, ix.expectedInitId);
    :- Need(ix.subscription == SubscriptionPda(ix.plan, ix.subscriber), InvalidSubscriptionPda);
    :- Need(ix.subscription !in s.accounts, AlreadySubscribed);
    Open(s, payer, ix.subscription, ix.rent,
         Subscription(Header(ix.subscriber, ix.plan, payer, authority.initId), p.terms, 0, s.now, 0))
  }

  function AfterTransferSubscription(s: State, signers: set<Address>, p: Pull, plan: Address): Result<State> {
    if p.permission !in s.accounts then Err(InvalidAccountOwner) else
    :- Need(plan in s.accounts, PlanClosed);
    :- CheckAuthorityAccount(s, p.authority);
    :- CheckSigner(signers, p.caller);
    :- Need(p.fromAta in s.tokens && p.toAta in s.tokens, InvalidAccountData);
    var pl := s.accounts[plan];
    :- Need(pl.Plan?, InvalidAccountData);
    :- Need(pl.mint == p.mint, MintMismatch);
    :- Need(!IsExpired(pl.endTs, s.now), PlanExpired);
    :- Need(CanPull(pl, p.caller), Unauthorized);
    :- Need(AllowsDestination(pl, s.tokens[p.toAta].owner), UnauthorizedDestination);
    var sub := s.accounts[p.permission];
    :- Need(sub.Subscription?, InvalidAccountDiscriminator);
    :- Need(sub.terms == pl.terms, PlanTermsMismatch);
    :- Need(sub.header.delegatee == plan, SubscriptionPlanMismatch);
    :- Need(sub.header.delegator == p.delegator, Unauthorized);
    :- Need(sub.expiresAt == 0 || s.now < sub.expiresAt, SubscriptionCancelled);
    var secs :- PeriodSecs(sub.terms);
    var m :- Charge(p.amount, sub.terms.amount, secs, MeterOf(sub), pl.endTs, s.now);
    var tokens :- TransferWithDelegate(s, p, sub.header.initId);
    :- Need(FitsI64(m.start + secs), Panic);
    Ok(s.(accounts := s.accounts[p.permission := WithMeter(sub, m)],
          tokens := tokens))
  }

  /** The end of the period containing `now`, capped one second past the plan's inclusive end. */
  function CancelExpiry(sub: Account, planEnd: I64, now: UnixTime): Result<I64>
    requires sub.Subscription?
  {
    var secs :- PeriodSecs(sub.terms);
    var length := AsI64(secs);
    :- Need(length != 0, Panic);
    var periods := Quotient(now - sub.periodStart, length);
    var ts := sub.periodStart + (periods + 1) * length;
    :- Need(FitsI64(periods + 1) && FitsI64((periods + 1) * length) && FitsI64(ts), ArithmeticOverflow);
    Ok(if planEnd != 0 && planEnd < ts then planEnd + 1 else ts)
  }

  function AfterCancelSubscription(s: State, signers: set<Address>, ix: Instruction): Result<State>
    requires ix.CancelSubscription?
  {
    if ix.subscriber !in signers then Err(NotSigner) else
    :- Need(ix.subscription in s.accounts, InvalidAccountOwner);
    var sub := s.accounts[ix.subscription];
    :- Need(sub.Subscription?, InvalidAccountDiscriminator);
    :- Need(sub.header.delegator == ix.subscriber, Unauthorized);
    :- Need(sub.expiresAt == 0, SubscriptionAlreadyCancelled);
    :- Need(sub.header.delegatee == ix.plan, SubscriptionPlanMismatch);
    var expiresAt :-
      if ix.plan !in s.accounts then Ok(s.now)
      else if !s.accounts[ix.plan].Plan? then Err(InvalidAccountData)
      else if sub.terms != s.accounts[ix.plan].terms then Ok(s.now)
      else CancelExpiry(sub, s.accounts[ix.plan].endTs, s.now);
    Ok(s.(accounts := s.accounts[ix.subscription := sub.(expiresAt := expiresAt)]))
  }

  function AfterResumeSubscription(s: State, signers: set<Address>, ix: Instruction): Result<State>
    requires ix.ResumeSubscription?
  {
    if ix.subscriber !in signers then Err(NotSigner) else
    :- Need(ix.subscription in s.accounts, InvalidAccountOwner);
    :- CheckAuthorityAccount(s, ix.authority);
    var sub := s.accounts[ix.subscription];
    :- Need(sub.Subscription?, InvalidAccountDiscriminator);
    :- Need(sub.header.delegator == ix.subscriber, Unauthorized);
    :- Need(sub.header.delegatee == ix.plan, SubscriptionPlanMismatch);
    :- Need(sub.expiresAt != 0, SubscriptionNotCancelled);
    :- Need(sub.expiresAt == ix.expectedExpiresAt, StaleSubscriptionApproval);
    :- Need(ix.plan in s.accounts, PlanClosed);
    var p := s.accounts[ix.plan];
    :- Need(p.Plan?, InvalidAccountData);
    :- Need(!IsExpired(p.endTs, s.now), PlanExpired);
    :- Need(sub.terms == p.terms, PlanTermsMismatch);
    var authority := s.accounts[ix.authority];
    :- Need(authority.user == ix.subscriber, Unauthorized);
    :- Need(authority.mint == p.mint, MintMismatch);
    :- Need(authority.initId == sub.header.initId, StaleSubscriptionAuthority);
    :- Need(sub.expiresAt > s.now, SubscriptionCancelled);
    Ok(s.(accounts := s.accounts[ix.subscription := sub.(expiresAt := 0)]))
  }

  function AfterCancelSubscriptionNow(s: State, signers: set<Address>, ix: Instruction): Result<State>
    requires ix.CancelSubscriptionNow?
  {
    if ix.subscriber !in signers then Err(NotSigner) else
    :- CheckSigner(signers, ix.merchant);
    :- Need(ix.plan in s.accounts && ix.subscription in s.accounts, InvalidAccountOwner);
    var p := s.accounts[ix.plan];
    :- Need(p.Plan?, InvalidAccountData);
    :- Need(p.owner == ix.merchant, NotPlanOwner);
    var sub := s.accounts[ix.subscription];
    :- Need(sub.Subscription?, InvalidAccountDiscriminator);
    :- Need(sub.header.delegator == ix.subscriber, Unauthorized);
    :- Need(sub.header.delegatee == ix.plan, SubscriptionPlanMismatch);
    :- Need(sub.periodStart == ix.expectedPeriodStart, StaleSubscriptionApproval);
    :- Need(sub.expiresAt == 0 || sub.expiresAt > s.now, SubscriptionAlreadyCancelled);
    Ok(s.(accounts := s.accounts[ix.subscription := sub.(expiresAt := s.now)]))
  }

  // --- Closing permissions ----------------------------------------------------------------------------

  predicate IsPermission(acc: Account) {
    acc.Fixed? || acc.Recurring? || acc.Subscription?
  }

  /** Whether the caller is the sponsor rather than the delegator; anyone else is refused. */
  function IsSponsor(header: Header, caller: Address): Result<bool> {
    if header.delegator == caller then Ok(false)
    else if header.payer == caller then Ok(true)
    else Err(Unauthorized)
  }

  /** Rent always goes to the recorded payer. */
  function ResolveDestination(header: Header, caller: Address, receiver: Option<Address>): Result<Address> {
    if header.payer == caller then Ok(caller)
    else if receiver == None then Err(NotEnoughAccountKeys)
    else if receiver.value != header.payer then Err(Unauthorized)
    else Ok(receiver.value)
  }

  function Nth(rem: seq<Address>, i: nat): Option<Address> {
    if i < |rem| then Some(rem[i]) else None
  }

  /** Why a sponsor may close: the permission is spent, over, or its plan can no longer bill it. */
  function SponsorMayClose(s: State, acc: Account): Result<bool>
    requires IsPermission(acc)
  {
    match acc
    case Fixed(_, _, _, amount, expiry) => Ok(IsExpired(expiry, s.now) || amount == 0)
    case Recurring(_, _, _, _, _, expiry, _, _) => Ok(IsExpired(expiry, s.now))
    case Subscription(header, terms, _, _, expiresAt) =>
      var over := expiresAt != 0 && expiresAt <= s.now;
      if header.delegatee !in s.accounts then Ok(true)
      else
        var p := s.accounts[header.delegatee];
        :- Need(p.Plan?, InvalidAccountData);
        Ok(over || terms != p.terms || IsExpired(p.endTs, s.now))
  }

  function AfterRevokeDelegation(s: State, signers: set<Address>, ix: Instruction): Result<State>
    requires ix.RevokeDelegation?
  {
    if ix.caller !in signers then Err(NotSigner) else
    :- Need(ix.delegation in s.accounts, InvalidAccountOwner);
    var acc := s.accounts[ix.delegation];
    :- Need(!acc.Authority?, InvalidHeaderData);
    :- Need(!acc.Plan?, InvalidAccountDiscriminator);
    :- if acc.Subscription? then Need(|ix.rem| > 0, NotEnoughAccountKeys) else Pass;
    :- if acc.Subscription? then Need(acc.header.delegatee == ix.rem[0], SubscriptionPlanMismatch) else Pass;
    var sponsor :- IsSponsor(acc.header, ix.caller);
    var allowed :- if sponsor then SponsorMayClose(s, acc) else Ok(true);
    :- Need(allowed, Unauthorized);
    :- Need(sponsor || !acc.Subscription? || (acc.expiresAt != 0 && acc.expiresAt <= s.now), SubscriptionNotCancelled);
    var dest :- ResolveDestination(acc.header, ix.caller, Nth(ix.rem, if acc.Subscription? then 1 else 0));
    Close(s, ix.delegation, dest)
  }

  /** A closed authority is dead only once its slot has passed; an open one when its generation differs. */
  predicate GenerationGone(s: State, authority: Address, initId: I64) {
    if authority in s.accounts then s.accounts[authority].Authority? ==> s.accounts[authority].initId != initId
    else s.slot > initId
  }

  function AfterRevokeAbandonedDelegation(s: State, signers: set<Address>, ix: Instruction): Result<State>
    requires ix.RevokeAbandonedDelegation?
  {
    if ix.payer !in signers then Err(NotSigner) else
    :- Need(ix.delegation in s.accounts, InvalidAccountOwner);
    var acc := s.accounts[ix.delegation];
    :- Need(!acc.Authority?, InvalidHeaderData);
    :- Need(acc.Fixed? || acc.Recurring?, InvalidAccountDiscriminator);
    :- Need(acc.header.payer == ix.payer, Unauthorized);
    :- Need(acc.authority == ix.authority, Unauthorized);
    :- Need(GenerationGone(s, ix.authority, acc.header.initId), Unauthorized);
    Close(s, ix.delegation, ix.payer)
  }

  /** The mint is read from the bound plan, never from the authority the caller supplies. */
  function AfterRevokeAbandonedSubscription(s: State, signers: set<Address>, ix: Instruction): Result<State>
    requires ix.RevokeAbandonedSubscription?
  {
    if ix.payer !in signers then Err(NotSigner) else
    :- Need(ix.subscription in s.accounts, InvalidAccountOwner);
    var acc := s.accounts[ix.subscription];
    :- Need(Space(acc) >= 155, InvalidAccountData);
    :- Need(acc.Subscription?, InvalidAccountDiscriminator);
    :- Need(acc.header.payer == ix.payer, Unauthorized);
    :- Need(acc.header.delegatee == ix.plan, SubscriptionPlanMismatch);
    :- Need(ix.plan in s.accounts, PlanClosed);
    :- Need(s.accounts[ix.plan].Plan?, InvalidAccountData);
    :- Need(ix.authority == AuthorityPda(acc.header.delegator, s.accounts[ix.plan].mint),
            InvalidSubscriptionAuthorityPda);
    :- Need(GenerationGone(s, ix.authority, acc.header.initId), Unauthorized);
    Close(s, ix.subscription, ix.payer)
  }

  // --- The world outside --------------------------------------------------------------------------------

  ghost function Total(amounts: map<Address, nat>): nat {
    if amounts == map[] then 0
    else
      var a :| a in amounts;
      amounts[a] + Total(amounts - {a})
  }

  function AfterTick(s: State, seconds: nat, slots: nat): Result<State> {
    if s.now + seconds > I64_MAX - MAX_DELEGATION_PERIOD_SECS || s.slot + slots > I64_MAX then Err(ClockOutOfRange)
    else Ok(s.(now := s.now + seconds, slot := s.slot + slots))
  }

  /** Anything other programs do: any token accounts, and any lamports whose supply fits a `u64`. */
  ghost function AfterExternal(s: State, ix: Instruction): Result<State>
    requires ix.External?
  {
    if Total(ix.lamports) > U64_MAX then Err(SystemProgramError)
    else Ok(s.(tokens := ix.tokens, lamports := ix.lamports))
  }

  // --- Steps and runs -----------------------------------------------------------------------------------

  predicate OnlyWallets(signers: set<Address>) {
    forall x | x in signers :: x.Key?
  }

  ghost function Step(s: State, tx: Tx): Result<State> {
    // only wallets sign: the program's own addresses never do
    if !OnlyWallets(tx.signers) then Err(NotSigner) else
    match tx.ix
    case InitAuthority(_, _, _, _, _, _) => AfterInitAuthority(s, tx.signers, tx.ix)
    case CloseAuthority(_, _, _) => AfterCloseAuthority(s, tx.signers, tx.ix)
    case RevokeAuthority(_, _, _, _, _) => AfterRevokeAuthority(s, tx.signers, tx.ix)
    case CreateFixed(_, _, _, _, _, _, _, _, _, _) => AfterCreateFixed(s, tx.signers, tx.ix)
    case CreateRecurring(_, _, _, _, _, _, _, _, _, _, _, _) => AfterCreateRecurring(s, tx.signers, tx.ix)
    case TransferFixed(p) => AfterTransferFixed(s, tx.signers, p)
    case TransferRecurring(p) => AfterTransferRecurring(s, tx.signers, p)
    case TransferSubscription(p, plan) => AfterTransferSubscription(s, tx.signers, p, plan)
    case CreatePlan(_, _, _, _, _, _, _, _, _, _, _, _, _) => AfterCreatePlan(s, tx.signers, tx.ix)
    case UpdatePlan(_, _, _, _, _, _, _, _, _, _) => AfterUpdatePlan(s, tx.signers, tx.ix)
    case DeletePlan(_, _) => AfterDeletePlan(s, tx.signers, tx.ix)
    case Subscribe(_, _, _, _, _, _, _, _, _, _, _, _, _) => AfterSubscribe(s, tx.signers, tx.ix)
    case CancelSubscription(_, _, _) => AfterCancelSubscription(s, tx.signers, tx.ix)
    case ResumeSubscription(_, _, _, _, _) => AfterResumeSubscription(s, tx.signers, tx.ix)
    case CancelSubscriptionNow(_, _, _, _, _) => AfterCancelSubscriptionNow(s, tx.signers, tx.ix)
    case RevokeDelegation(_, _, _) => AfterRevokeDelegation(s, tx.signers, tx.ix)
    case RevokeAbandonedDelegation(_, _, _) => AfterRevokeAbandonedDelegation(s, tx.signers, tx.ix)
    case RevokeAbandonedSubscription(_, _, _, _) => AfterRevokeAbandonedSubscription(s, tx.signers, tx.ix)
    case Tick(seconds, slots) => AfterTick(s, seconds, slots)
    case External(_, _) => AfterExternal(s, tx.ix)
  }

  /** A failed instruction changes nothing. */
  ghost function Exec(s: State, tx: Tx): State {
    match Step(s, tx)
    case Ok(s') => s'
    case Err(_) => s
  }

  ghost function Run(s: State, txs: seq<Tx>): State
    decreases |txs|
  {
    if |txs| == 0 then s else Run(Exec(s, txs[0]), txs[1..])
  }

  /** The transfer an instruction asks for, if it is one. */
  function Asked(ix: Instruction): Option<Pull> {
    match ix
    case TransferFixed(p) => Some(p)
    case TransferRecurring(p) => Some(p)
    case TransferSubscription(p, _) => Some(p)
    case _ => None
  }

  /** The amount one step pulls through the permission at `a`. */
  ghost function PulledBy(s: State, tx: Tx, a: Address): nat {
    if Step(s, tx).Ok? && Asked(tx.ix).Some? && Asked(tx.ix).value.permission == a then Asked(tx.ix).value.amount else 0
  }

  /** Everything a run pulls through the permission open at `a`, until that permission closes. */
  ghost function PullTotal(s: State, txs: seq<Tx>, a: Address): nat
    decreases |txs|
  {
    if |txs| == 0 || a !in s.accounts then 0
    else PulledBy(s, txs[0], a) + PullTotal(Exec(s, txs[0]), txs[1..], a)
  }

  /** The permission (or plan) open at `a` is the same one all through the run. */
  ghost predicate StaysOpen(s: State, txs: seq<Tx>, a: Address)
    decreases |txs|
  {
    a in s.accounts && (|txs| > 0 ==> StaysOpen(Exec(s, txs[0]), txs[1..], a))
  }
}
