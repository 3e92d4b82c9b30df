/** Values shared by the whole model: widths, addresses, errors, accounts and the chain state. */
module Types {
  const I64_MAX: int := 0x7FFF_FFFF_FFFF_FFFF
  const I64_MIN: int := -0x8000_0000_0000_0000
  const U64_MAX: int := 0xFFFF_FFFF_FFFF_FFFF

  const SECS_PER_HOUR: int := 3600
  const MAX_PLAN_PERIOD_HOURS: int := 8760
  const MAX_DELEGATION_PERIOD_SECS: int := 31_536_000
  const TIME_DRIFT_ALLOWED_SECS: int := 120
  const UNKNOWN_INIT_ID: int := I64_MIN

  type I64 = x: int | I64_MIN <= x <= I64_MAX
  type U64 = x: int | 0 <= x <= U64_MAX

  /** A stored period start: an `i64` that is never negative. */
  type Time = x: int | 0 <= x <= I64_MAX

  /** The clock sysvar: past the drift window and at least one longest period below the `i64` limit. */
  type UnixTime = x: int | TIME_DRIFT_ALLOWED_SECS < x <= I64_MAX - MAX_DELEGATION_PERIOD_SECS
    witness TIME_DRIFT_ALLOWED_SECS + 1

  type Slot = x: int | 0 <= x <= I64_MAX

  datatype Option<+T> = None | Some(value: T)

  /** Wallets (and anything else able to sign) are keys; program addresses are free functions of their seeds. */
  datatype Address =
    | Key(id: nat)
    | AuthorityPda(user: Address, mint: Address)
    | PlanPda(owner: Address, planId: nat)
    | DelegationPda(authority: Address, delegator: Address, delegatee: Address, nonce: nat)
    | SubscriptionPda(plan: Address, subscriber: Address)
    | Ata(wallet: Address, token: Address)

  const ZERO: Address := Key(0)

  datatype Error =
    // program errors
    | NotSigner | InvalidSubscriptionAuthorityPda | InvalidAssociatedTokenAccountDerivedAddress
    | InvalidAccountData | NotEnoughAccountKeys | ArithmeticOverflow | ArithmeticUnderflow
    | InvalidAccountDiscriminator | MintMismatch | InvalidDelegatePda | InvalidHeaderData
    | DelegationExpired | InvalidAmount | Unauthorized | DelegationAlreadyExists
    | StaleSubscriptionAuthority | AmountExceedsLimit | FixedDelegationExpiryInPast
    | FixedDelegationAmountZero | AmountExceedsPeriodLimit | InvalidPeriodLength
    | RecurringDelegationStartTimeInPast | RecurringDelegationStartTimeGreaterThanExpiry
    | RecurringDelegationAmountZero | DelegationNotStarted | RecurringDelegationStartOnLandingRequiresExpiry
    | PlanSunset | PlanExpired | InvalidPlanPda | InvalidSubscriptionPda | NotPlanOwner
    | SubscriptionPlanMismatch | UnauthorizedDestination | SubscriptionCancelled
    | SubscriptionAlreadyCancelled | SubscriptionNotCancelled | InvalidEndTs | InvalidPlanStatus
    | PlanImmutableAfterSunset | SunsetRequiresEndTs | PlanNotExpired | PlanClosed | AlreadySubscribed
    | PlanAlreadyExists | PlanTermsMismatch | PlanEndTsCannotExtend | StaleSubscriptionApproval
    | StalePlanApproval | InvalidToken2022MintAccountData
    // runtime and called-program errors
    | InvalidAccountOwner | TokenProgramError | SystemProgramError | UnbalancedInstruction
    | ClockOutOfRange | Panic

  /** The outcome of a guard. */
  datatype Check = Pass | Fail(error: Error) {
    predicate IsFailure() { Fail? }
    function PropagateFailure<U>(): Result<U>
      requires Fail?
    {
      Err(error)
    }
  }

  function Need(condition: bool, error: Error): Check {
    if condition then Pass else Fail(error)
  }

  datatype Result<+T> = Ok(value: T) | Err(error: Error) {
    predicate IsFailure() { Err? }
    function PropagateFailure<U>(): Result<U>
      requires Err?
    {
      Err(error)
    }
    function Extract(): T
      requires Ok?
    {
      value
    }
  }

  datatype PlanStatus = Sunset | Active

  datatype Terms = Terms(amount: U64, periodHours: U64, createdAt: I64)

  datatype Header = Header(delegator: Address, delegatee: Address, payer: Address, initId: I64)

  datatype Account =
    | Authority(user: Address, mint: Address, payer: Address, initId: I64)
    | Plan(owner: Address, status: PlanStatus, planId: U64, mint: Address, terms: Terms, endTs: I64,
           destinations: seq<Address>, pullers: seq<Address>, metadata: nat)
    | Fixed(header: Header, authority: Address, mint: Address, amount: U64, expiryTs: I64)
    | Recurring(header: Header, authority: Address, mint: Address, periodStart: Time, periodLength: U64,
                expiryTs: I64, cap: U64, pulled: U64)
    | Subscription(header: Header, terms: Terms, pulled: U64, periodStart: Time, expiresAt: I64)

  /** Bytes the account kind occupies. */
  function Space(acc: Account): nat {
    match acc
    case Authority(_, _, _, _) => 106
    case Plan(_, _, _, _, _, _, _, _, _) => 491
    case Fixed(_, _, _, _, _) => 187
    case Recurring(_, _, _, _, _, _, _, _) => 211
    case Subscription(_, _, _, _, _) => 155
  }

  datatype TokenAccount = TokenAccount(owner: Address, mint: Address, amount: U64,
                                       delegate: Option<Address>, delegated: U64)

  /** Everything an instruction can read or write. */
  datatype State = State(now: UnixTime, slot: Slot, accounts: map<Address, Account>,
                         tokens: map<Address, TokenAccount>, lamports: map<Address, nat>)

  /** The program account at `a`, if one is open. */
  function At(s: State, a: Address): Option<Account> {
    if a in s.accounts then Some(s.accounts[a]) else None
  }

  function AmountAt(amounts: map<Address, nat>, a: Address): nat {
    if a in amounts then amounts[a] else 0
  }
}
