/**
 * The instruction handlers as the program runs them: guard by guard, writing accounts in place. A
 * handler that fails may leave partial writes behind; `Process` then rolls back, as the runtime does.
 */
module Chain {
  import opened Types
  import opened Metering
  import opened Program

  /** A handler agrees with its specification: same error, or the specified state. */
  predicate Handled(r: Result<()>, after: State, spec: Result<State>) {
    match spec
    case Ok(s') => r == Ok(()) && after == s'
    case Err(e) => r == Err(e)
  }

  /** The debit reads nothing but the authority and the token accounts. */
  lemma DebitReadsAuthorityOnly(s: State, s': State, p: Pull, initId: I64)
    requires p.fromAta in s.tokens && p.toAta in s.tokens
    requires p.authority in s.accounts && s.accounts[p.authority].Authority?
    requires At(s', p.authority) == At(s, p.authority) && s'.tokens == s.tokens
    ensures TransferWithDelegate(s', p, initId) == TransferWithDelegate(s, p, initId)
  {}

  lemma HandledErr(after: State)
    ensures Handled(Err(NotSigner), after, Err(NotSigner))
  {}

  class Bank {
    var now: UnixTime
    var slot: Slot
    var accounts: map<Address, Account>
    var tokens: map<Address, TokenAccount>
    var lamports: map<Address, nat>

    function View(): State
      reads this
    {
      State(now, slot, accounts, tokens, lamports)
    }

    constructor (now: UnixTime, slot: Slot, tokens: map<Address, TokenAccount>, lamports: map<Address, nat>)
      ensures View() == State(now, slot, map[], tokens, lamports)
    {
      this.now, this.slot, this.accounts, this.tokens, this.lamports := now, slot, map[], tokens, lamports;
    }

    // --- Helpers of the handlers ------------------------------------------------------------------

    /** Idempotent account creation: a pre-funded address is only topped up. */
    method Create(payer: Address, account: Address, rent: nat, content: Account) returns (r: Result<()>)
      modifies this`accounts, this`lamports
      ensures Handled(r, View(), Open(old(View()), payer, account, rent, content))
    {
      var missing := rent;
      if AmountAt(lamports, account) != 0 {
        missing := if rent > AmountAt(lamports, account) then rent - AmountAt(lamports, account) else 0;
      }
      if AmountAt(lamports, payer) < missing { return Err(SystemProgramError); }
      lamports := lamports[payer := AmountAt(lamports, payer) - missing];
      lamports := lamports[account := AmountAt(lamports, account) + missing];
      assert Fund(old(View()), payer, account, rent) == Ok(lamports);
      accounts := accounts[account := content];
      r := Ok(());
    }

    method CloseAccount(account: Address, dest: Address) returns (r: Result<()>)
      modifies this`accounts, this`lamports
      ensures Handled(r, View(), Close(old(View()), account, dest))
    {
      var balance := AmountAt(lamports, dest) + AmountAt(lamports, account);
      if balance > U64_MAX { return Err(ArithmeticOverflow); }
      if account == dest { return Err(UnbalancedInstruction); }
      lamports := lamports[account := 0][dest := balance];
      accounts := accounts - {account};
      r := Ok(());
    }

    /** The receiver must be whitelisted; zero slots neither match nor count as configured. */
    method CheckDestination(plan: Account, receiver: Address) returns (r: Result<()>)
      requires plan.Plan?
      ensures r == if AllowsDestination(plan, receiver) then Ok(()) else Err(UnauthorizedDestination)
    {
      var configured := false;
      var i := 0;
      while i < |plan.destinations|
        invariant 0 <= i <= |plan.destinations|
        invariant forall j | 0 <= j < i :: plan.destinations[j] == ZERO || plan.destinations[j] != receiver
        invariant configured <==> exists j | 0 <= j < i :: plan.destinations[j] != ZERO
      {
        var d := plan.destinations[i];
        if d != ZERO {
          if d == receiver { return Ok(()); }
          configured := true;
        }
        i := i + 1;
      }
      if configured {
        assert receiver in plan.destinations ==> receiver == ZERO;
        ghost var k :| 0 <= k < |plan.destinations| && plan.destinations[k] != ZERO;
        assert plan.destinations[k] in plan.destinations;
        return Err(UnauthorizedDestination);
      }
      r := Ok(());
    }

    /** A sunset plan accepts only an update that removes pullers and changes nothing else. */
    method AssertSunsetPullerReduction(plan: Account, ix: Instruction) returns (r: Result<()>)
      requires plan.Plan? && ix.UpdatePlan?
      ensures r == if ix.status == 0 && ix.endTs == plan.endTs && ix.metadata == plan.metadata &&
                      OnlyRemovesPullers(plan.pullers, ix.pullers)
                   then Ok(()) else Err(PlanImmutableAfterSunset)
    {
      if ix.status != 0 || ix.endTs != plan.endTs { return Err(PlanImmutableAfterSunset); }
      if ix.metadata != plan.metadata { return Err(PlanImmutableAfterSunset); }
      var i := 0;
      while i < |ix.pullers|
        invariant 0 <= i <= |ix.pullers|
        invariant forall j | 0 <= j < i :: ix.pullers[j] == ZERO || ix.pullers[j] in plan.pullers
      {
        if ix.pullers[i] != ZERO && ix.pullers[i] !in plan.pullers { return Err(PlanImmutableAfterSunset); }
        i := i + 1;
      }
      r := Ok(());
    }

    /** The delegated debit: generation, account and mint checks, then the token program. */
    method DebitDelegator(p: Pull, initId: I64) returns (r: Result<()>)
      requires p.fromAta in tokens && p.toAta in tokens
      requires p.authority in accounts && accounts[p.authority].Authority?
      modifies this`tokens
      ensures match TransferWithDelegate(old(View()), p, initId)
              case Ok(moved) => r == Ok(()) && tokens == moved
              case Err(e) => r == Err(e)
    {
      var authority := accounts[p.authority];
      if p.mintAccount != p.mint { return Err(MintMismatch); }
      if authority.user != p.delegator || authority.mint != p.mint { return Err(InvalidDelegatePda); }
      if authority.initId != initId { return Err(StaleSubscriptionAuthority); }
      var from := tokens[p.fromAta];
      if from.owner != p.delegator { return Err(Unauthorized); }
      if from.mint != p.mint { return Err(MintMismatch); }
      if p.fromAta != Ata(p.delegator, p.mint) { return Err(InvalidAssociatedTokenAccountDerivedAddress); }
      if tokens[p.toAta].mint != p.mint { return Err(MintMismatch); }
      // the token program's side of the call, signed with the authority's seeds
      var signer := AuthorityPda(p.delegator, p.mint);
      if !p.tokenProgramOk || p.authority != signer { return Err(TokenProgramError); }
      if from.delegate != Some(signer) || from.delegated < p.amount || from.amount < p.amount {
        return Err(TokenProgramError);
      }
      if p.fromAta != p.toAta {
        if tokens[p.toAta].amount + p.amount > U64_MAX { return Err(TokenProgramError); }
        var left := from.delegated - p.amount;
        tokens := tokens[p.fromAta := from.(amount := from.amount - p.amount, delegated := left)];
        if left == 0 { tokens := tokens[p.fromAta := tokens[p.fromAta].(delegate := None)]; }
        tokens := tokens[p.toAta := tokens[p.toAta].(amount := tokens[p.toAta].amount + p.amount)];
      }
      r := Ok(());
    }

    method CheckAuthority(a: Address) returns (r: Result<()>)
      ensures r == match CheckAuthorityAccount(View(), a) case Pass => Ok(()) case Fail(e) => Err(e)
      ensures r.Ok? ==> a in accounts && accounts[a].Authority?
    {
      if a !in accounts { return Err(InvalidSubscriptionAuthorityPda); }
      if !accounts[a].Authority? { return Err(InvalidAccountData); }
      r := Ok(());
    }

    // --- Authorities --------------------------------------------------------------------------------

    method InitAuthority(signers: set<Address>, ix: Instruction) returns (r: Result<()>)
      requires ix.InitAuthority?
      modifies this`accounts, this`tokens, this`lamports
      ensures Handled(r, View(), AfterInitAuthority(old(View()), signers, ix))
    {
      if ix.user !in signers { return Err(NotSigner); }
      if ix.userAta !in tokens { return Err(InvalidAccountData); }
      var payer :- ResolvePayer(signers, ix.user, ix.sponsor);
      if ix.authority != AuthorityPda(ix.user, ix.mint) { return Err(InvalidSubscriptionAuthorityPda); }
      if ix.authority !in accounts {
        var _ :- Create(payer, ix.authority, ix.rent, Authority(ix.user, ix.mint, payer, slot));
      }
      var token := tokens[ix.userAta];
      if token.owner != ix.user { return Err(Unauthorized); }
      if token.mint != ix.mint { return Err(MintMismatch); }
      if ix.userAta != Ata(ix.user, ix.mint) { return Err(InvalidAssociatedTokenAccountDerivedAddress); }
      tokens := tokens[ix.userAta := token.(delegate := Some(ix.authority), delegated := U64_MAX)];
      r := Ok(());
    }

    method CloseAuthorityAccount(user: Address, authority: Address, receiver: Option<Address>) returns (r: Result<()>)
      requires authority in accounts
      modifies this`accounts, this`lamports
      ensures Handled(r, View(), CloseAuthorityTo(old(View()), user, authority, receiver))
    {
      var acc := accounts[authority];
      if !acc.Authority? { return Err(InvalidAccountData); }
      if acc.user != user { return Err(Unauthorized); }
      if authority != AuthorityPda(acc.user, acc.mint) { return Err(InvalidSubscriptionAuthorityPda); }
      if acc.payer == user {
        r := CloseAccount(authority, user);
      } else {
        if receiver == None { return Err(NotEnoughAccountKeys); }
        if receiver.value != acc.payer { return Err(Unauthorized); }
        r := CloseAccount(authority, receiver.value);
      }
    }

    method CloseAuthority(signers: set<Address>, ix: Instruction) returns (r: Result<()>)
      requires ix.CloseAuthority?
      modifies this`accounts, this`tokens, this`lamports
      ensures Handled(r, View(), AfterCloseAuthority(old(View()), signers, ix))
    {
      if ix.user !in signers { return Err(NotSigner); }
      if ix.authority !in accounts { return Err(InvalidAccountOwner); }
      r := CloseAuthorityAccount(ix.user, ix.authority, ix.receiver);
    }

    method RevokeAuthority(signers: set<Address>, ix: Instruction) returns (r: Result<()>)
      requires ix.RevokeAuthority?
      modifies this`accounts, this`tokens, this`lamports
      ensures Handled(r, View(), AfterRevokeAuthority(old(View()), signers, ix))
    {
      if ix.user !in signers { return Err(NotSigner); }
      if ix.userAta !in tokens { return Err(InvalidAccountData); }
      var token := tokens[ix.userAta];
      if token.owner != ix.user { return Err(Unauthorized); }
      if token.mint != ix.mint { return Err(MintMismatch); }
      var expected := AuthorityPda(ix.user, ix.mint);
      if ix.userAta != Ata(ix.user, ix.mint) { return Err(InvalidAssociatedTokenAccountDerivedAddress); }
      // only this authority's own approval is dropped; the account may by now be approved to someone else
      if token.delegate == Some(expected) {
        tokens := tokens[ix.userAta := token.(delegate := None, delegated := 0)];
      }
      if ix.authority != expected { return Err(InvalidSubscriptionAuthorityPda); }
      if ix.authority in accounts {
        r := CloseAuthorityAccount(ix.user, ix.authority, ix.receiver);
      } else {
        r := Ok(());
      }
    }

    // --- Fixed and recurring delegations --------------------------------------------------------------

    method BindDelegation(delegator: Address, authority: Address, delegation: Address, delegatee: Address, nonce: U64,
                          expectedInitId: I64) returns (r: Result<Account>)
      requires authority in accounts && accounts[authority].Authority?
      ensures match CreateDelegationChecks(View(), delegator, authority, delegation, delegatee, nonce, expectedInitId)
              case Ok(acc) => r == Ok(acc)
              case Err(e) => r == Err(e)
    {
      var acc := accounts[authority];
      if delegation in accounts { return Err(DelegationAlreadyExists); }
      if acc.user != delegator { return Err(Unauthorized); }
      var expected := if expectedInitId == UNKNOWN_INIT_ID then slot else expectedInitId;
      if acc.initId != expected { return Err(StaleSubscriptionAuthority); }
      if delegation != DelegationPda(authority, delegator, delegatee, nonce) { return Err(InvalidDelegatePda); }
      r := Ok(acc);
    }

    method CreateFixed(signers: set<Address>, ix: Instruction) returns (r: Result<()>)
      requires ix.CreateFixed?
      modifies this`accounts, this`tokens, this`lamports
      ensures Handled(r, View(), AfterCreateFixed(old(View()), signers, ix))
    {
      if ix.expiryTs != 0 && ix.expiryTs < now - TIME_DRIFT_ALLOWED_SECS { return Err(FixedDelegationExpiryInPast); }
      if ix.amount == 0 { return Err(FixedDelegationAmountZero); }
      if ix.delegator !in signers { return Err(NotSigner); }
      var _ :- CheckAuthority(ix.authority);
      var payer :- ResolvePayer(signers, ix.delegator, ix.sponsor);
      var acc :- BindDelegation(ix.delegator, ix.authority, ix.delegation, ix.delegatee, ix.nonce, ix.expectedInitId);
      var header := Header(ix.delegator, ix.delegatee, payer, acc.initId);
      r := Create(payer, ix.delegation, ix.rent, Fixed(header, ix.authority, acc.mint, ix.amount, ix.expiryTs));
    }

    method CreateRecurring(signers: set<Address>, ix: Instruction) returns (r: Result<()>)
      requires ix.CreateRecurring?
      modifies this`accounts, this`tokens, this`lamports
      ensures Handled(r, View(), AfterCreateRecurring(old(View()), signers, ix))
    {
      var start := ix.startTs;
      if ix.startTs == 0 {
        if ix.expiryTs == 0 { return Err(RecurringDelegationStartOnLandingRequiresExpiry); }
        if now >= ix.expiryTs { return Err(RecurringDelegationStartTimeGreaterThanExpiry); }
        start := now;
      } else {
        if ix.startTs < now - TIME_DRIFT_ALLOWED_SECS { return Err(RecurringDelegationStartTimeInPast); }
        if ix.expiryTs != 0 && ix.startTs >= ix.expiryTs { return Err(RecurringDelegationStartTimeGreaterThanExpiry); }
      }
      if ix.periodLength == 0 || ix.periodLength > MAX_DELEGATION_PERIOD_SECS { return Err(InvalidPeriodLength); }
      if ix.amount == 0 { return Err(RecurringDelegationAmountZero); }
      if ix.delegator !in signers { return Err(NotSigner); }
      var _ :- CheckAuthority(ix.authority);
      var payer :- ResolvePayer(signers, ix.delegator, ix.sponsor);
      var acc :- BindDelegation(ix.delegator, ix.authority, ix.delegation, ix.delegatee, ix.nonce, ix.expectedInitId);
      var header := Header(ix.delegator, ix.delegatee, payer, acc.initId);
      r := Create(payer, ix.delegation, ix.rent,
                  Recurring(header, ix.authority, acc.mint, start, ix.periodLength, ix.expiryTs, ix.amount, 0));
    }

    method TransferFixed(signers: set<Address>, p: Pull) returns (r: Result<()>)
      modifies this`accounts, this`tokens, this`lamports
      ensures Handled(r, View(), AfterTransferFixed(old(View()), signers, p))
    {
      hide TransferWithDelegate;
      if p.permission !in accounts { return Err(InvalidAccountOwner); }
      var _ :- CheckAuthority(p.authority);
      if p.fromAta !in tokens || p.toAta !in tokens { return Err(InvalidAccountData); }
      if p.caller !in signers { return Err(NotSigner); }
      var d := accounts[p.permission];
      if !d.Fixed? { return Err(InvalidAccountDiscriminator); }
      if d.header.delegator != p.delegator || d.header.delegatee != p.caller { return Err(Unauthorized); }
      if d.authority != p.authority { return Err(InvalidDelegatePda); }
      if d.mint != p.mint { return Err(MintMismatch); }
      :- FixedTransferCheck(p.amount, d.amount, d.expiryTs, now);
      accounts := accounts[p.permission := d.(amount := d.amount - p.amount)];
      DebitReadsAuthorityOnly(old(View()), View(), p, d.header.initId);
      r := DebitDelegator(p, d.header.initId);
    }

    method TransferRecurring(signers: set<Address>, p: Pull) returns (r: Result<()>)
      modifies this`accounts, this`tokens, this`lamports
      ensures Handled(r, View(), AfterTransferRecurring(old(View()), signers, p))
    {
      hide TransferWithDelegate;
      hide Charge;
      if p.permission !in accounts { return Err(InvalidAccountOwner); }
      var _ :- CheckAuthority(p.authority);
      if p.fromAta !in tokens || p.toAta !in tokens { return Err(InvalidAccountData); }
      if p.caller !in signers { return Err(NotSigner); }
      var d := accounts[p.permission];
      if !d.Recurring? { return Err(InvalidAccountDiscriminator); }
      if d.header.delegator != p.delegator || d.header.delegatee != p.caller { return Err(Unauthorized); }
      if d.authority != p.authority { return Err(InvalidDelegatePda); }
      if d.mint != p.mint { return Err(MintMismatch); }
      var checked, start, pulled :=
        ValidateRecurringTransfer(p.amount, d.cap, d.periodLength, d.periodStart, d.pulled, d.expiryTs, now);
      if checked.Err? { return checked; }
      accounts := accounts[p.permission := WithMeter(d, Meter(start, pulled))];
      DebitReadsAuthorityOnly(old(View()), View(), p, d.header.initId);
      var _ :- DebitDelegator(p, d.header.initId);
      if !FitsI64(start + d.periodLength) { return Err(Panic); }
      r := Ok(());
    }

    // --- Plans ------------------------------------------------------------------------------------------

    method CreatePlan(signers: set<Address>, ix: Instruction) returns (r: Result<()>)
      requires ix.CreatePlan?
      modifies this`accounts, this`tokens, this`lamports
      ensures Handled(r, View(), AfterCreatePlan(old(View()), signers, ix))
    {
      if ix.amount == 0 { return Err(InvalidAmount); }
      if ix.periodHours == 0 || ix.periodHours > MAX_PLAN_PERIOD_HOURS { return Err(InvalidPeriodLength); }
      :- ValidatePlanEnd(ix.endTs, ix.periodHours, now);
      if ix.merchant !in signers { return Err(NotSigner); }
      var payer :- ResolvePayer(signers, ix.merchant, ix.sponsor);
      if ix.mintAccount != ix.mint { return Err(MintMismatch); }
      if ix.plan in accounts { return Err(PlanAlreadyExists); }
      if ix.plan != PlanPda(ix.merchant, ix.planId) { return Err(InvalidPlanPda); }
      var terms := Terms(ix.amount, ix.periodHours, now);
      r := Create(payer, ix.plan, ix.rent,
                  Plan(ix.merchant, Active, ix.planId, ix.mint, terms, ix.endTs, ix.destinations, ix.pullers,
                       ix.metadata));
    }

    method UpdatePlan(signers: set<Address>, ix: Instruction) returns (r: Result<()>)
      requires ix.UpdatePlan?
      modifies this`accounts, this`tokens, this`lamports
      ensures Handled(r, View(), AfterUpdatePlan(old(View()), signers, ix))
    {
      if ix.owner !in signers { return Err(NotSigner); }
      if ix.plan !in accounts { return Err(InvalidAccountOwner); }
      var p := accounts[ix.plan];
      if !p.Plan? { return Err(InvalidAccountData); }
      if p.owner != ix.owner { return Err(NotPlanOwner); }
      if p.terms.createdAt != ix.expectedCreatedAt || p.endTs != ix.expectedEndTs ||
         p.pullers != ix.expectedPullers || p.metadata != ix.expectedMetadata {
        return Err(StalePlanApproval);
      }
      if p.status == Sunset {
        var _ :- AssertSunsetPullerReduction(p, ix);
        accounts := accounts[ix.plan := p.(pullers := ix.pullers)];
      } else {
        if ix.status == 0 && ix.endTs == 0 { return Err(SunsetRequiresEndTs); }
        if ix.status > 1 { return Err(InvalidPlanStatus); }
        if p.endTs != 0 && now > p.endTs { return Err(PlanExpired); }
        if p.endTs != 0 && (ix.endTs == 0 || ix.endTs > p.endTs) { return Err(PlanEndTsCannotExtend); }
        if ix.endTs != p.endTs { :- ValidatePlanEnd(ix.endTs, p.terms.periodHours, now); }
        var status := if ix.status == 0 then Sunset else Active;
        accounts := accounts[ix.plan := p.(status := status, endTs := ix.endTs, pullers := ix.pullers,
                                           metadata := ix.metadata)];
      }
      r := Ok(());
    }

    method DeletePlan(signers: set<Address>, ix: Instruction) returns (r: Result<()>)
      requires ix.DeletePlan?
      modifies this`accounts, this`tokens, this`lamports
      ensures Handled(r, View(), AfterDeletePlan(old(View()), signers, ix))
    {
      if ix.owner !in signers { return Err(NotSigner); }
      if ix.plan !in accounts { return Err(InvalidAccountOwner); }
      var p := accounts[ix.plan];
      if !p.Plan? { return Err(InvalidAccountData); }
      if p.owner != ix.owner { return Err(NotPlanOwner); }
      if p.endTs == 0 || now <= p.endTs { return Err(PlanNotExpired); }
      r := CloseAccount(ix.plan, ix.owner);
    }

    // --- Subscriptions ------------------------------------------------------------------------------------

    method Subscribe(signers: set<Address>, ix: Instruction) returns (r: Result<()>)
      requires ix.Subscribe?
      modifies this`accounts, this`tokens, this`lamports
      ensures Handled(r, View(), AfterSubscribe(old(View()), signers, ix))
    {
      if ix.subscriber !in signers { return Err(NotSigner); }
      if ix.plan !in accounts { return Err(InvalidAccountOwner); }
      var _ :- CheckAuthority(ix.authority);
      var payer :- ResolvePayer(signers, ix.subscriber, ix.sponsor);
      if ix.plan != PlanPda(ix.merchant, ix.planId) { return Err(InvalidPlanPda); }
      var p := accounts[ix.plan];
      if !p.Plan? { return Err(InvalidAccountData); }
      if p.status != Active { return Err(PlanSunset); }
      if p.endTs != 0 && now > p.endTs { return Err(PlanExpired); }
      if p.mint != ix.expectedMint || p.terms.amount != ix.expectedAmount ||
         p.terms.periodHours != ix.expectedPeriodHours || p.terms.createdAt != ix.expectedCreatedAt {
        return Err(PlanTermsMismatch);
      }
      var authority := accounts[ix.authority];
      if authority.user != ix.subscriber { return Err(Unauthorized); }
      if authority.mint != p.mint { return Err(MintMismatch); }
      var expected := if ix.expectedInitId == UNKNOWN_INIT_ID then slot else ix.expectedInitId;
      if authority.initId != expected { return Err(StaleSubscriptionAuthority); }
      if ix.subscription != SubscriptionPda(ix.plan, ix.subscriber) { return Err(InvalidSubscriptionPda); }
      if ix.subscription in accounts { return Err(AlreadySubscribed); }
      var header := Header(ix.subscriber, ix.plan, payer, authority.initId);
      r := Create(payer, ix.subscription, ix.rent, Subscription(header, p.terms, 0, now, 0));
    }

    method TransferSubscription(signers: set<Address>, p: Pull, plan: Address) returns (r: Result<()>)
      modifies this`accounts, this`tokens, this`lamports
      ensures Handled(r, View(), AfterTransferSubscription(old(View()), signers, p, plan))
    {
      hide TransferWithDelegate;
      hide Charge;
      hide AllowsDestination;
      hide CanPull;
      hide PeriodSecs;
      if p.permission !in accounts { return Err(InvalidAccountOwner); }
      if plan !in accounts { return Err(PlanClosed); }
      var _ :- CheckAuthority(p.authority);
      if p.caller !in signers { return Err(NotSigner); }
      if p.fromAta !in tokens || p.toAta !in tokens { return Err(InvalidAccountData); }
      var pl := accounts[plan];
      if !pl.Plan? { return Err(InvalidAccountData); }
      if pl.mint != p.mint { return Err(MintMismatch); }
      if pl.endTs != 0 && now > pl.endTs { return Err(PlanExpired); }
      if !CanPull(pl, p.caller) { return Err(Unauthorized); }
      var _ :- CheckDestination(pl, tokens[p.toAta].owner);
      var sub := accounts[p.permission];
      if !sub.Subscription? { return Err(InvalidAccountDiscriminator); }
      if sub.terms != pl.terms { return Err(PlanTermsMismatch); }
      if sub.header.delegatee != plan { return Err(SubscriptionPlanMismatch); }
      if sub.header.delegator != p.delegator { return Err(Unauthorized); }
      if sub.expiresAt != 0 && now >= sub.expiresAt { return Err(SubscriptionCancelled); }
      var secs :- PeriodSecs(sub.terms);
      var checked, start, pulled :=
        ValidateRecurringTransfer(p.amount, sub.terms.amount, secs, sub.periodStart, sub.pulled, pl.endTs, now);
      if checked.Err? { return checked; }
      accounts := accounts[p.permission := WithMeter(sub, Meter(start, pulled))];
      DebitReadsAuthorityOnly(old(View()), View(), p, sub.header.initId);
      var _ :- DebitDelegator(p, sub.header.initId);
      if !FitsI64(start + secs) { return Err(Panic); }
      r := Ok(());
    }

    method CancelSubscription(signers: set<Address>, ix: Instruction) returns (r: Result<()>)
      requires ix.CancelSubscription?
      modifies this`accounts, this`tokens, this`lamports
      ensures Handled(r, View(), AfterCancelSubscription(old(View()), signers, ix))
    {
      if ix.subscriber !in signers { return Err(NotSigner); }
      if ix.subscription !in accounts { return Err(InvalidAccountOwner); }
      var sub := accounts[ix.subscription];
      if !sub.Subscription? { return Err(InvalidAccountDiscriminator); }
      if sub.header.delegator != ix.subscriber { return Err(Unauthorized); }
      if sub.expiresAt != 0 { return Err(SubscriptionAlreadyCancelled); }
      if sub.header.delegatee != ix.plan { return Err(SubscriptionPlanMismatch); }
      // a closed or re-created plan leaves nothing to wait for
      var expiresAt: I64 := now;
      if ix.plan in accounts {
        var plan := accounts[ix.plan];
        if !plan.Plan? { return Err(InvalidAccountData); }
        if plan.terms == sub.terms {
          // the end of the current period, one second past the plan's end at the latest
          var secs :- PeriodSecs(sub.terms);
          var length := AsI64(secs);
          if length == 0 { return Err(Panic); }
          var elapsed := now - sub.periodStart;
          var periods := Quotient(elapsed, length);
          if !FitsI64(periods + 1) { return Err(ArithmeticOverflow); }
          var offset := (periods + 1) * length;
          if !FitsI64(offset) { return Err(ArithmeticOverflow); }
          if !FitsI64(sub.periodStart + offset) { return Err(ArithmeticOverflow); }
          expiresAt := sub.periodStart + offset;
          if plan.endTs != 0 {
            var latest := if plan.endTs == I64_MAX then I64_MAX else plan.endTs + 1;
            if latest < expiresAt { expiresAt := latest; }
          }
        }
      }
      accounts := accounts[ix.subscription := sub.(expiresAt := expiresAt)];
      r := Ok(());
    }

    method ResumeSubscription(signers: set<Address>, ix: Instruction) returns (r: Result<()>)
      requires ix.ResumeSubscription?
      modifies this`accounts, this`tokens, this`lamports
      ensures Handled(r, View(), AfterResumeSubscription(old(View()), signers, ix))
    {
      if ix.subscriber !in signers { return Err(NotSigner); }
      if ix.subscription !in accounts { return Err(InvalidAccountOwner); }
      var _ :- CheckAuthority(ix.authority);
      var sub := accounts[ix.subscription];
      if !sub.Subscription? { return Err(InvalidAccountDiscriminator); }
      if sub.header.delegator != ix.subscriber { return Err(Unauthorized); }
      if sub.header.delegatee != ix.plan { return Err(SubscriptionPlanMismatch); }
      if sub.expiresAt == 0 { return Err(SubscriptionNotCancelled); }
      if sub.expiresAt != ix.expectedExpiresAt { return Err(StaleSubscriptionApproval); }
      if ix.plan !in accounts { return Err(PlanClosed); }
      var plan := accounts[ix.plan];
      if !plan.Plan? { return Err(InvalidAccountData); }
      if plan.endTs != 0 && now > plan.endTs { return Err(PlanExpired); }
      if sub.terms != plan.terms { return Err(PlanTermsMismatch); }
      var authority := accounts[ix.authority];
      if authority.user != ix.subscriber { return Err(Unauthorized); }
      if authority.mint != plan.mint { return Err(MintMismatch); }
      if authority.initId != sub.header.initId { return Err(StaleSubscriptionAuthority); }
      if sub.expiresAt <= now { return Err(SubscriptionCancelled); }
      accounts := accounts[ix.subscription := sub.(expiresAt := 0)];
      r := Ok(());
    }

    method CancelSubscriptionNow(signers: set<Address>, ix: Instruction) returns (r: Result<()>)
      requires ix.CancelSubscriptionNow?
      modifies this`accounts, this`tokens, this`lamports
      ensures Handled(r, View(), AfterCancelSubscriptionNow(old(View()), signers, ix))
    {
      if ix.subscriber !in signers { return Err(NotSigner); }
      if ix.merchant !in signers { return Err(NotSigner); }
      if ix.plan !in accounts || ix.subscription !in accounts { return Err(InvalidAccountOwner); }
      var plan := accounts[ix.plan];
      if !plan.Plan? { return Err(InvalidAccountData); }
      if plan.owner != ix.merchant { return Err(NotPlanOwner); }
      var sub := accounts[ix.subscription];
      if !sub.Subscription? { return Err(InvalidAccountDiscriminator); }
      if sub.header.delegator != ix.subscriber { return Err(Unauthorized); }
      if sub.header.delegatee != ix.plan { return Err(SubscriptionPlanMismatch); }
      if sub.periodStart != ix.expectedPeriodStart { return Err(StaleSubscriptionApproval); }
      if sub.expiresAt != 0 && sub.expiresAt <= now { return Err(SubscriptionAlreadyCancelled); }
      accounts := accounts[ix.subscription := sub.(expiresAt := now)];
      r := Ok(());
    }

    // --- Closing permissions ------------------------------------------------------------------------------

    method RevokeDelegation(signers: set<Address>, ix: Instruction) returns (r: Result<()>)
      requires ix.RevokeDelegation?
      modifies this`accounts, this`tokens, this`lamports
      ensures Handled(r, View(), AfterRevokeDelegation(old(View()), signers, ix))
    {
      if ix.caller !in signers { return Err(NotSigner); }
      if ix.delegation !in accounts { return Err(InvalidAccountOwner); }
      var acc := accounts[ix.delegation];
      if acc.Authority? { return Err(InvalidHeaderData); }
      if acc.Plan? { return Err(InvalidAccountDiscriminator); }
      var dest: Address;
      if acc.Subscription? {
        if |ix.rem| == 0 { return Err(NotEnoughAccountKeys); }
        if acc.header.delegatee != ix.rem[0] { return Err(SubscriptionPlanMismatch); }
        var sponsor :- IsSponsor(acc.header, ix.caller);
        if sponsor {
          var expired := acc.expiresAt != 0 && acc.expiresAt <= now;
          var planClosed := ix.rem[0] !in accounts;
          var planOver := false;
          if !planClosed {
            var plan := accounts[ix.rem[0]];
            if !plan.Plan? { return Err(InvalidAccountData); }
            planOver := acc.terms != plan.terms || (plan.endTs != 0 && now > plan.endTs);
          }
          if !(expired || planClosed || planOver) { return Err(Unauthorized); }
        } else if acc.expiresAt == 0 || acc.expiresAt > now {
          return Err(SubscriptionNotCancelled);
        }
        dest :- ResolveDestination(acc.header, ix.caller, Nth(ix.rem, 1));
      } else {
        var sponsor :- IsSponsor(acc.header, ix.caller);
        if sponsor {
          var recoverable := match acc
            case Fixed(_, _, _, amount, expiry) => IsExpired(expiry, now) || amount == 0
            case Recurring(_, _, _, _, _, expiry, _, _) => IsExpired(expiry, now);
          if !recoverable { return Err(Unauthorized); }
        }
        dest :- ResolveDestination(acc.header, ix.caller, Nth(ix.rem, 0));
      }
      r := CloseAccount(ix.delegation, dest);
    }

    method RevokeAbandonedDelegation(signers: set<Address>, ix: Instruction) returns (r: Result<()>)
      requires ix.RevokeAbandonedDelegation?
      modifies this`accounts, this`tokens, this`lamports
      ensures Handled(r, View(), AfterRevokeAbandonedDelegation(old(View()), signers, ix))
    {
      if ix.payer !in signers { return Err(NotSigner); }
      if ix.delegation !in accounts { return Err(InvalidAccountOwner); }
      var acc := accounts[ix.delegation];
      if acc.Authority? { return Err(InvalidHeaderData); }
      if !acc.Fixed? && !acc.Recurring? { return Err(InvalidAccountDiscriminator); }
      if acc.header.payer != ix.payer { return Err(Unauthorized); }
      if acc.authority != ix.authority { return Err(Unauthorized); }
      var dead := slot > acc.header.initId;
      if ix.authority in accounts {
        dead := !accounts[ix.authority].Authority? || accounts[ix.authority].initId != acc.header.initId;
      }
      if !dead { return Err(Unauthorized); }
      r := CloseAccount(ix.delegation, ix.payer);
    }

    method RevokeAbandonedSubscription(signers: set<Address>, ix: Instruction) returns (r: Result<()>)
      requires ix.RevokeAbandonedSubscription?
      modifies this`accounts, this`tokens, this`lamports
      ensures Handled(r, View(), AfterRevokeAbandonedSubscription(old(View()), signers, ix))
    {
      if ix.payer !in signers { return Err(NotSigner); }
      if ix.subscription !in accounts { return Err(InvalidAccountOwner); }
      var acc := accounts[ix.subscription];
      if Space(acc) < 155 { return Err(InvalidAccountData); }
      if !acc.Subscription? { return Err(InvalidAccountDiscriminator); }
      if acc.header.payer != ix.payer { return Err(Unauthorized); }
      if acc.header.delegatee != ix.plan { return Err(SubscriptionPlanMismatch); }
      if ix.plan !in accounts { return Err(PlanClosed); }
      if !accounts[ix.plan].Plan? { return Err(InvalidAccountData); }
      var expected := AuthorityPda(acc.header.delegator, accounts[ix.plan].mint);
      if ix.authority != expected { return Err(InvalidSubscriptionAuthorityPda); }
      var dead := slot > acc.header.initId;
      if ix.authority in accounts {
        dead := !accounts[ix.authority].Authority? || accounts[ix.authority].initId != acc.header.initId;
      }
      if !dead { return Err(Unauthorized); }
      r := CloseAccount(ix.subscription, ix.payer);
    }

    // --- The runtime ----------------------------------------------------------------------------------------

    /** Hands an instruction to its handler. */
    method Dispatch(tx: Tx) returns (r: Result<()>)
      requires !tx.ix.Tick? && !tx.ix.External?
      modifies this`accounts, this`tokens, this`lamports
      ensures Handled(r, View(), Step(old(View()), tx))
    {
      hide Handled;
      hide AfterInitAuthority, AfterCloseAuthority, AfterRevokeAuthority, AfterCreateFixed,
           AfterCreateRecurring, AfterTransferFixed, AfterTransferRecurring, AfterTransferSubscription,
           AfterCreatePlan, AfterUpdatePlan, AfterDeletePlan, AfterSubscribe, AfterCancelSubscription,
           AfterResumeSubscription, AfterCancelSubscriptionNow, AfterRevokeDelegation,
           AfterRevokeAbandonedDelegation, AfterRevokeAbandonedSubscription;
      HandledErr(View());
      if !OnlyWallets(tx.signers) { return Err(NotSigner); }
      match tx.ix {
        case InitAuthority(_, _, _, _, _, _) => r := InitAuthority(tx.signers, tx.ix);
        case CloseAuthority(_, _, _) => r := CloseAuthority(tx.signers, tx.ix);
        case RevokeAuthority(_, _, _, _, _) => r := RevokeAuthority(tx.signers, tx.ix);
        case CreateFixed(_, _, _, _, _, _, _, _, _, _) => r := CreateFixed(tx.signers, tx.ix);
        case CreateRecurring(_, _, _, _, _, _, _, _, _, _, _, _) => r := CreateRecurring(tx.signers, tx.ix);
        case TransferFixed(p) => r := TransferFixed(tx.signers, p);
        case TransferRecurring(p) => r := TransferRecurring(tx.signers, p);
        case TransferSubscription(p, plan) => r := TransferSubscription(tx.signers, p, plan);
        case CreatePlan(_, _, _, _, _, _, _, _, _, _, _, _, _) => r := CreatePlan(tx.signers, tx.ix);
        case UpdatePlan(_, _, _, _, _, _, _, _, _, _) => r := UpdatePlan(tx.signers, tx.ix);
        case DeletePlan(_, _) => r := DeletePlan(tx.signers, tx.ix);
        case Subscribe(_, _, _, _, _, _, _, _, _, _, _, _, _) => r := Subscribe(tx.signers, tx.ix);
        case CancelSubscription(_, _, _) => r := CancelSubscription(tx.signers, tx.ix);
        case ResumeSubscription(_, _, _, _, _) => r := ResumeSubscription(tx.signers, tx.ix);
        case CancelSubscriptionNow(_, _, _, _, _) => r := CancelSubscriptionNow(tx.signers, tx.ix);
        case RevokeDelegation(_, _, _) => r := RevokeDelegation(tx.signers, tx.ix);
        case RevokeAbandonedDelegation(_, _, _) => r := RevokeAbandonedDelegation(tx.signers, tx.ix);
        case RevokeAbandonedSubscription(_, _, _, _) => r := RevokeAbandonedSubscription(tx.signers, tx.ix);
      }
    }

    /** Runs one instruction of the program; a failed one leaves every account as it was. */
    method Process(tx: Tx) returns (r: Result<()>)
      requires !tx.ix.Tick? && !tx.ix.External?
      modifies this`accounts, this`tokens, this`lamports
      ensures View() == Exec(old(View()), tx)
      ensures match Step(old(View()), tx) case Ok(_) => r == Ok(()) case Err(e) => r == Err(e)
    {
      hide Step;
      var savedAccounts, savedTokens, savedLamports := accounts, tokens, lamports;
      r := Dispatch(tx);
      if r.Err? { accounts, tokens, lamports := savedAccounts, savedTokens, savedLamports; }
    }

    /** A run of the program's instructions ends in the state the theorems about runs speak of. */
    method ProcessAll(txs: seq<Tx>)
      requires forall i | 0 <= i < |txs| :: !txs[i].ix.Tick? && !txs[i].ix.External?
      modifies this`accounts, this`tokens, this`lamports
      ensures View() == Run(old(View()), txs)
    {
      hide Step;
      assert txs[0..] == txs;
      for i := 0 to |txs|
        invariant Run(View(), txs[i..]) == Run(old(View()), txs)
      {
        assert txs[i..][0] == txs[i] && txs[i..][1..] == txs[i + 1..];
        var _ := Process(txs[i]);
      }
    }
  }
}
