# Verified model of the subscriptions program and its collector

A Dafny model of three parts of the repository, with proofs about every input, every run and every
reachable state.

**The on-chain program** (`program/src`) lets a user approve one authority account per mint and hang
fixed, recurring and subscription permissions off it. Authorities have generations numbered by their
creation slot; merchant plans are created, sunset, deleted and created again at the same address;
billing periods advance lazily, at the next pull; sponsors who paid rent recover it from permissions
that can no longer pull.

**The collector** (`webapp/src/lib`) decides whom to bill and how much, packs the transfers into
transactions, sends them with bisection on failure, and remembers failures it has already seen.

**The extension walk** (`transfer_hook_util.rs`) searches a Token-2022 mint's type-length-value bytes.

## How it is built

| file | content |
|---|---|
| `Types.dfy` | integer widths, addresses, errors, account kinds, the chain state |
| `Metering.dfy` | the per-period allowance check: the program's code and its closed form |
| `Ledger.dfy` | the eager per-period ledger the lazy counters refine |
| `Program.dfy` | every instruction as a function of the state; runs; what a run pulls |
| `Chain.dfy` | a class with the handlers as written, updating accounts in place, and the rollback |
| `Invariant.dfy`, `Steps.dfy`, `Runs.dfy` | the state invariant, the transitions an instruction may make, and the proof that every instruction makes only those |
| `Outcomes.dfy` | for every instruction, in plain terms: when it succeeds and the whole state it then leaves |
| `Sponsorship.dfy`, `Plans.dfy`, `Generations.dfy`, `Allowance.dfy`, `Cancellation.dfy`, `Conservation.dfy`, `Arithmetic.dfy`, `Consent.dfy` | the theorems over runs |
| `Packer.dfy`, `Sender.dfy`, `Collector.dfy`, `FailureCache.dfy`, `Payability.dfy` | the collector |
| `Tlv.dfy` | the extension walk and its encoder |

The handlers in `Chain.dfy` and the functions in `Program.dfy` are two renderings of the same code,
one imperative and one declarative; each handler's postcondition equates them, including which error
comes first. `Outcomes.dfy` characterises the functions without naming their guards: in every reachable
state an instruction succeeds if and only if conditions on accounts, clock and amounts hold, written with
the literal limits, and then every account, balance and lamport is as stated. Theorems about runs rest on the transitions of `Invariant.dfy`; where one speaks of what a
particular instruction writes, a lemma beside it reads that off the instruction's function. A run
is any finite sequence of instructions by any signers, interleaved with clock ticks (`Tick`) and with
arbitrary changes other programs make to token accounts and lamports (`External`). Addresses are reused
after a close, so the theorems speak of one incarnation: `PullTotal` counts until the permission
closes, `StaysOpen` says it did not.

## Assumptions

- Unix time and slot never decrease; time is past the 120-second drift window and at most
  `i64::MAX - 31_536_000`, so one longest period always fits.
- Program-derived and associated token addresses are injective functions of their seeds, and only
  wallets sign: nobody holds a key for a derived address.
- A failed instruction leaves no trace; the token program's delegated transfer is one atomic step that
  may fail for reasons of its own (`tokenProgramOk`).
- All lamports together fit a `u64`, also after changes made outside the program.
- Unchecked arithmetic that overflows aborts, as the release profile asks (`Cargo.toml:42-43`).
- The size of a transaction, the network's answers and the token accounts read over RPC are arbitrary
  functions. Packing is optimal for size functions under which a list that fits still fits when
  shortened at either end; a list that does not compile counts as not fitting.
- Browser storage may refuse a write; it does not throw when it is merely accessed, so clearing a cached
  failure after a confirmed payment never fails.
- Addresses in text form contain no colon, an authority's text is not empty, and a subscription
  address and delegator determine mint and programs.

## Where code and documentation differ

- `README.md:39` says a plan's rent returns to the original payer. The code, and the comment at
  `program/src/instructions/create_plan.rs:109-112`, give it to the owner; the model follows the code.
- The collector's offer ignores the plan's end. It differs from what the program accepts, before that
  end has passed, at one instant only: `Collector.ClientAgreesExactlyWhen`.

## Model

| member | source | states |
|---|---|---|
| Metering.ValidateRecurringTransfer | program/src/instructions/helpers/transfer_validation.rs:48-117 | The check with its two in-out counters, branch by branch, equals `Charge`: the same acceptance, the same error, the same counters. No checked operation in it can fail with an error `Charge` does not name, so none of its overflow guards is ever the reason for a refusal. |
| Metering.CappedIndex | program/src/instructions/helpers/transfer_validation.rs:84-104 | The capped branch is entered at one instant only: the clock, the next boundary and the expiry coincide, and the pull is then charged to the period before that boundary. |
| Metering.UncappedIndex | program/src/instructions/helpers/transfer_validation.rs:81-83 | In the other branch the pull is charged to its own calendar period. |
| Metering.PeriodIndex | program/src/instructions/helpers/transfer_validation.rs:69-105 | The period a pull is charged to has started, and with a finite expiry every period after the first starts strictly before the expiry. |
| Ledger.ChargeIsEager | program/src/instructions/helpers/transfer_validation.rs:69-116 | If the stored (period start, pulled) pair stands for a ledger with one entry per period, it accepts a pull exactly when the ledger does, and stands for the posted ledger afterwards. |
| Ledger.LazyRefinesEager | program/src/instructions/helpers/transfer_validation.rs:48-117 | From a fresh counter, lazy and eager accounting accept and refuse the same attempts over any run in which time does not go back, even when the expiry moves between attempts. |
| Allowance.LedgerDecides | program/src/instructions/helpers/transfer_validation.rs:69-116 | On chain, after any run of instructions by anyone, the stored pair of an open metered permission accepts an amount exactly when the ledger of all pulls posted since it was fresh accepts it. |
| Chain.Bank.Create | program/src/instructions/helpers/program.rs:24-53 | Creation tops a pre-funded address up to the rent minimum instead of failing, moves exactly the missing lamports, and opens the account with the given content. |
| Chain.Bank.CloseAccount | program/src/instructions/helpers/program.rs:55-66 | A close moves every lamport of the account to the destination and removes the account, or fails on overflow. |
| Chain.Bank.CheckDestination | program/src/state/plan.rs:95-111 | The loop accepts a receiver exactly when it is a non-zero whitelist member or no slot is configured; zero slots never match. |
| Chain.Bank.AssertSunsetPullerReduction | program/src/instructions/update_plan.rs:95-116 | The loop accepts exactly the updates that keep status, end and metadata and only remove pullers. |
| Chain.Bank.DebitDelegator | program/src/instructions/helpers/transfer_utils.rs:123-211 | The debit in place: generation, owner, mint and token-account checks in order, then an atomic delegated transfer that leaves balances alone when source and destination are the same. |
| Chain.Bank.InitAuthority | program/src/instructions/initialize_subscription_authority.rs:63-134 | Creates a generation numbered by the slot, or keeps an existing one with its payer, and renews the approval; equals `AfterInitAuthority`. |
| Chain.Bank.CloseAuthorityAccount | program/src/instructions/helpers/authority.rs:10-40 | Closes the user's authority to its recorded payer; a sponsor's receiver must be that payer. |
| Chain.Bank.CloseAuthority | program/src/instructions/close_subscription_authority.rs:47-50 | Signature and ownership checks, then the shared close; equals `AfterCloseAuthority`. |
| Chain.Bank.RevokeAuthority | program/src/instructions/revoke_subscription_authority.rs:50-87 | Clears the approval only when it names the authority, then closes the authority if it is open; equals `AfterRevokeAuthority`. |
| Chain.Bank.BindDelegation | program/src/instructions/helpers/delegation.rs:50-98 | The checks shared by both delegation creations, with the slot sentinel; equals `CreateDelegationChecks`. |
| Chain.Bank.CreateFixed | program/src/instructions/create_fixed_delegation.rs:27-93 | Validation, binding and opening of a fixed delegation; equals `AfterCreateFixed`. |
| Chain.Bank.CreateRecurring | program/src/instructions/create_recurring_delegation.rs:48-124 | Validation of start, expiry, period and amount, then opening; equals `AfterCreateRecurring`. |
| Chain.Bank.TransferFixed | program/src/instructions/transfer_fixed_delegation.rs:27-92 | Writes the decremented amount, then debits; equals `AfterTransferFixed`. |
| Chain.Bank.TransferRecurring | program/src/instructions/transfer_recurring_delegation.rs:26-116 | Writes the advanced counters, then debits, then computes the period end; equals `AfterTransferRecurring`. |
| Chain.Bank.TransferSubscription | program/src/instructions/transfer_subscription.rs:28-150 | Plan, caller, destination, terms and expiry checks, counter writes, debit, period end; equals `AfterTransferSubscription`. |
| Chain.Bank.CreatePlan | program/src/instructions/create_plan.rs:85-142 | Validation and opening of an active plan with the clock as creation time; equals `AfterCreatePlan`. |
| Chain.Bank.UpdatePlan | program/src/instructions/update_plan.rs:125-195 | Stale-approval check, the sunset branch and the end-time rules, then the field writes; equals `AfterUpdatePlan`. |
| Chain.Bank.DeletePlan | program/src/instructions/delete_plan.rs:41-59 | Only a plan whose finite end has passed closes, and its rent goes to the owner; equals `AfterDeletePlan`. |
| Chain.Bank.Subscribe | program/src/instructions/subscribe.rs:68-187 | Plan state, terms consent and authority binding, then a fresh subscription; subscribing exactly at the plan's end is accepted; equals `AfterSubscribe`. |
| Chain.Bank.CancelSubscription | program/src/instructions/cancel_subscription.rs:24-84 | The checked period-end arithmetic, including the cast of the period length, with the cap one second past the plan's end, and the immediate expiry for a closed or re-created plan; equals `AfterCancelSubscription`. |
| Chain.Bank.ResumeSubscription | program/src/instructions/resume_subscription.rs:52-120 | Clears a pending expiry only with the observed value, a matching live plan and the same generation; equals `AfterResumeSubscription`. |
| Chain.Bank.CancelSubscriptionNow | program/src/instructions/cancel_subscription_now.rs:50-92 | The dual-signed immediate cancel; equals `AfterCancelSubscriptionNow`. |
| Chain.Bank.RevokeDelegation | program/src/instructions/revoke_delegation.rs:73-161 | Delegator and sponsor rules for the three kinds of permission; equals `AfterRevokeDelegation`. |
| Chain.Bank.RevokeAbandonedDelegation | program/src/instructions/revoke_abandoned_delegation.rs:53-103 | Payer recovery through a dead authority, with the slot test; equals `AfterRevokeAbandonedDelegation`. |
| Chain.Bank.RevokeAbandonedSubscription | program/src/instructions/revoke_abandoned_subscription.rs:53-108 | The same through the authority of the bound plan's mint; equals `AfterRevokeAbandonedSubscription`. |
| Chain.Bank.Process | program/src/entrypoint.rs:13-43 | Any instruction leaves the state `Exec` gives: the specified new state, or on any error every account exactly as it was, whatever the handler had written. |
| Chain.Bank.ProcessAll | program/src/entrypoint.rs:13-43 | A sequence of instructions run in place ends in the state `Run` gives, so the theorems about runs speak of it. |
| Outcomes.InitAuthorityExactly | program/src/instructions/initialize_subscription_authority.rs:63-134 | Succeeds if and only if user and funder sign, the token account is the user's own for the mint, the address is derived, and a missing authority can be funded. Then the approval is unlimited; a missing authority is opened with the slot as generation and its funder as payer; an existing one is untouched. |
| Outcomes.CloseAuthorityExactly | program/src/instructions/close_subscription_authority.rs:47-50 | Succeeds if and only if the user signs for an own open authority and a sponsored one names its payer as receiver. Then it is gone and all its lamports are with that payer. |
| Outcomes.RevokeAuthorityExactly | program/src/instructions/revoke_subscription_authority.rs:50-87 | Succeeds if and only if the user signs, the token account is the user's own, and an open authority could be closed. Then the approval is dropped exactly when it names the authority and every other token account is as it was. |
| Outcomes.CreateFixedExactly | program/src/instructions/create_fixed_delegation.rs:27-93 | Succeeds if and only if both signers are there, the amount is positive, the expiry is none or at most 120 seconds past, the authority is of the approved generation, and the derived address is free and can be funded. Then the account has the instruction's delegatee, amount and expiry, the authority's mint and generation, and its funder as payer. |
| Outcomes.CreateRecurringExactly | program/src/instructions/create_recurring_delegation.rs:48-124 | The same for a recurring delegation: start at the clock if 0, length at most a year, the instruction's amount as cap, nothing pulled. |
| Outcomes.TransferFixedExactly | program/src/instructions/transfer_fixed_delegation.rs:27-92 | Succeeds if and only if the delegatee signs for a positive amount within what is left, not past the expiry, and the debit goes through. Then exactly that amount moved and is taken off the rest. |
| Outcomes.TransferRecurringExactly | program/src/instructions/transfer_recurring_delegation.rs:26-116 | Succeeds if and only if the delegatee signs within start and expiry for a positive amount within what is left of the period, and the debit goes through. Then the counters are those of that period. |
| Outcomes.TransferSubscriptionExactly | program/src/instructions/transfer_subscription.rs:28-150 | Succeeds if and only if the plan's owner or a non-zero listed puller signs, plan and subscription match and neither is over, the amount is positive and within what is left of the period, the receiver is a listed one wherever a non-zero one is listed, and the debit goes through. Then exactly that amount moved. |
| Outcomes.CreatePlanExactly | program/src/instructions/create_plan.rs:85-142 | Succeeds if and only if owner and funder sign for a positive amount, a period of 1 to 8760 hours, an end with room for one period, and a free derived address that can be funded. Then the plan has the instruction's mint, amount, period, end, destinations, pullers and metadata and is active as of the clock. |
| Outcomes.UpdatePlanExactly | program/src/instructions/update_plan.rs:125-195 | Succeeds if and only if the owner signs having seen the live plan, and either an active plan's new status and end are allowed, or a sunset one only loses pullers. Then end, status, pullers and metadata are the instruction's and all else is as it was. |
| Outcomes.DeletePlanExactly | program/src/instructions/delete_plan.rs:41-59 | Succeeds if and only if the owner signs and a finite end has passed. Then the plan is gone and its lamports are the owner's. |
| Outcomes.SubscribeExactly | program/src/instructions/subscribe.rs:68-187 | Succeeds if and only if both signers are there, the plan is active and not over with the mint and terms named, the authority is of the approved generation and that mint, and the derived address is free and can be funded. Then the subscription holds those terms, from the clock, with nothing pulled. |
| Outcomes.CancelExactly | program/src/instructions/cancel_subscription.rs:24-84 | Succeeds if and only if the subscriber signs for an uncancelled subscription of that plan. Then only the expiry changed: the canonical one under the consented plan, otherwise the clock. |
| Outcomes.ResumeExactly | program/src/instructions/resume_subscription.rs:52-120 | Succeeds if and only if the subscriber signs with the expiry that is pending, the consented plan stands and is not over, and the authority is of the same generation and mint. Then only the expiry is cleared. |
| Outcomes.CancelNowExactly | program/src/instructions/cancel_subscription_now.rs:50-92 | Succeeds if and only if subscriber and plan owner sign for the period start the subscription has, and it is not over. Then only the expiry changed, to the clock. |
| Outcomes.RevokeDelegationExactly | program/src/instructions/revoke_delegation.rs:73-161 | Succeeds if and only if the remaining accounts name plan and payer, and either the delegator signs (for a subscription past its expiry, otherwise at any time) or the payer signs and it is spent, expired or unbillable. Then it is gone and its lamports are the payer's. |
| Outcomes.RevokeAbandonedDelegationExactly | program/src/instructions/revoke_abandoned_delegation.rs:53-103 | Succeeds if and only if the payer signs and the authority is closed, in an earlier slot's generation, or of another generation. Then it is gone and its lamports are the payer's. |
| Outcomes.RevokeAbandonedSubscriptionExactly | program/src/instructions/revoke_abandoned_subscription.rs:53-108 | The same for a subscription, through the authority of the bound plan's mint. |
| Outcomes.ChargeExactly | program/src/instructions/helpers/transfer_validation.rs:48-117 | A metered charge is accepted if and only if it has started, is not over, and is positive and within what is left of the latest period to have started (the one before, if that would start at or past the end); it is then booked to that period. |
| Outcomes.DebitExactly | program/src/instructions/helpers/transfer_utils.rs:123-211 | The debit succeeds if and only if the generation is live and the payer's own token account of the mint holds and has delegated the amount. Then it left one account and its approval and reached the other, whose owner, mint and approval are as they were. |
| Consent.PullPaysAListedReceiver | program/src/state/plan.rs:95-111 | If a pull under a plan succeeds and any non-zero receiver is listed, the credited account belongs to a non-zero listed one. |
| Consent.ReceiversAsConsented | program/src/instructions/transfer_subscription.rs:28-150 | After a subscribe to a plan that listed a receiver and any run, every pull through that subscription credits an account of a receiver listed at subscribe time. |
| Consent.FixedPullsAsConsented | program/src/instructions/create_fixed_delegation.rs:27-93 | After a create and any run while the delegation stays open, a pull is signed by the consented delegatee, moves the consented mint from the delegator, comes not after the consented expiry, and together with all earlier ones is at most the consented amount. |
| Consent.RecurringPullsAsConsented | program/src/instructions/create_recurring_delegation.rs:89-124 | The same for a recurring delegation: each pull is at most the consented amount, and falls neither before the consented start nor after the consented expiry. |
| Consent.RecurringTotalAsConsented | program/src/instructions/create_recurring_delegation.rs:89-124 | With a finite expiry, everything ever pulled is at most the consented amount times the periods that start between the consented start and expiry. |
| Consent.DelegatorCanAlwaysRevoke | program/src/instructions/revoke_delegation.rs:131-152 | In every reachable state the delegator's signature alone closes an open fixed or recurring delegation, whatever is left of it. |
| Consent.RevokedMeansOver | program/src/instructions/revoke_delegation.rs:153-161 | After that one close, in any run without the delegator's signature, nothing is pulled through the address again and nothing is opened there. |
| Steps.StepSound | program/src/entrypoint.rs:20-42 | Every successful instruction, from any signers, changes at most its target account, only as `Allowed` permits, pays rent only to its owner, and neither creates nor burns lamports. |
| Steps.ReachableInv | fuzz/subscriptions/src/invariants.rs:11-45 | Every state reachable by any run satisfies the invariant: addresses match contents, counters stay within caps, starts within clocks, permissions linked to no older authority and no earlier plan. |
| Steps.TransferSubscriptionSound | program/src/instructions/transfer_subscription.rs:28-150 | A successful subscription pull only moves the two counters, by one accepted charge, under the matching plan and live generation, for an authorized caller. |
| Steps.RevokeDelegationCloses | program/src/instructions/revoke_delegation.rs:73-161 | A successful revoke is exactly the close of that permission with all its lamports going to the recorded payer, and was signed by its delegator (for a subscription only past its expiry) or by its payer with the permission dead. |
| Sponsorship.SponsorSafety | program/src/instructions/revoke_delegation.rs:101-152 | If a transaction the delegator did not sign closes a permission, no run from the state before it, of any length, could have pulled anything through that permission. |
| Sponsorship.SponsorClosesExactlyTheDead | program/src/instructions/revoke_abandoned_delegation.rs:83-99 | In every reachable state a sponsor acting alone can close a permission if and only if it is dead: expired, spent, its plan over or gone, or its generation gone. |
| Sponsorship.DeadNeverPulls | program/src/instructions/revoke_abandoned_subscription.rs:88-104 | A dead permission pulls nothing in any continuation. |
| Sponsorship.DeadCanBeClosed | program/src/instructions/revoke_delegation.rs:107-121 | For every dead permission the close the payer needs succeeds, through the revoke path that fits the reason. |
| Plans.PullsOnlyAsConsented | program/src/state/subscription_delegation.rs:102-110 | After any run following a subscribe, a pull moves the consented mint, from the subscriber, at most the consented amount, under the same plan incarnation, open without interruption since the subscribe. |
| Plans.DeletedPlanNeverBills | program/src/instructions/delete_plan.rs:52-58 | Once a plan is deleted, its old subscriptions never pull again, whatever is later created at its address. |
| Plans.RecreatedPlanIsNewer | program/src/state/common.rs:140-148 | A plan found at a deleted plan's address after any run was created strictly later, so a creation time never repeats at an address. |
| Plans.PlanOnlyNarrows | program/src/instructions/update_plan.rs:150-184 | Over any run while a plan stays open: terms, mint, owner, id and destinations never change, a finite end only shrinks, Sunset is never left and implies a finite end, and after Sunset the set of allowed callers only shrinks. |
| Plans.RemovedPullerNeverPulls | program/src/state/plan.rs:79-88 | After Sunset, a caller that cannot pull a subscription never pulls it in any continuation. |
| Plans.MatchedThroughout | program/src/state/subscription_delegation.rs:102-110 | A plan that matches a subscription at the end of a run has been open, as the same incarnation, all along. |
| Generations.LiveAuthorityNotOlder | program/src/state/subscription_authority.rs:113-119 | In every reachable state a live authority's generation is never below that of any permission debited through it. |
| Generations.GoneGenerationNeverPulls | program/src/instructions/helpers/transfer_utils.rs:143-148 | Once a permission's generation is gone, no continuation pulls through it. |
| Generations.RotationRevokesIffSlotMoved | program/src/instructions/initialize_subscription_authority.rs:87-105 | Closing an authority and creating it again ends the old generation if and only if the re-creation slot differs from the slot that numbered the old generation. |
| Allowance.TwoCapsPerPeriod | program/src/instructions/helpers/transfer_validation.rs:69-116 | Any run that spans less than one period pulls at most two caps through a permission. |
| Allowance.SpanBound | program/src/instructions/helpers/transfer_validation.rs:69-116 | By any time, at most one cap per started period, less what the current period had already given. |
| Allowance.SubscriptionHorizon | program/src/instructions/update_plan.rs:168-179 | With a finite last-seen plan end, everything a subscription ever pulls is at most amount times max(1, ceil((end - subscribe time) / period)), even if the end was set or shortened on the way. |
| Allowance.DelegationHorizon | program/src/instructions/helpers/transfer_validation.rs:81-104 | The same bound for a recurring delegation with a finite expiry, counted from the stored start and what it has left. |
| Cancellation.CancelIsCanonical | program/src/instructions/cancel_subscription.rs:57-69 | Under a matching plan the expiry a cancel writes depends only on subscribe time, period length, cancel time and plan end; never on which pulls happened. |
| Cancellation.LaterPeriodLaterExpiry | program/src/instructions/cancel_subscription.rs:57-69 | Cancels in different periods, the later one not past the plan's end, get strictly different expiries, even if the end moved between them. |
| Cancellation.SameExpiryIffSamePeriod | README.md:305 | With an unchanged end not yet passed, two cancels share an expiry if and only if they fall in the same period: exactly the documented limit of resume approvals. |
| Cancellation.StaleResumeIsRejected | program/src/instructions/resume_subscription.rs:74-76 | A resume signed for one cancel fails against a cancel made in a later period, whatever happened in between. |
| Cancellation.CancelBoundsExposure | program/src/instructions/cancel_subscription.rs:57-76 | After a cancel, in any run in which no resume of that subscription succeeds while it is open (refused ones do not matter), all later pulls together fit in what was left of the period containing the cancel; nothing if the plan incarnation was already gone. |
| Cancellation.CancelBoundsUnsignedExposure | program/src/instructions/resume_subscription.rs:62-64 | In particular after any run the subscriber signs nothing in. |
| Cancellation.ExpiryIsFinal | program/src/instructions/cancel_subscription_now.rs:79-83 | Once the expiry has passed, no pull, cancel, resume or immediate cancel ever succeeds on that subscription, after any run. |
| Cancellation.CancelSucceeds | program/src/instructions/cancel_subscription.rs:39-76 | In every reachable state the subscriber's signature alone cancels an active subscription, with an expiry at most one period away. |
| Cancellation.ExpiryStands | program/src/instructions/resume_subscription.rs:62-112 | No run without the subscriber's signature moves the expiry or reopens a closed subscription. |
| Cancellation.SubscriberCanLeave | program/src/instructions/revoke_delegation.rs:122-127 | After that cancel, whatever anyone does, the subscriber included, short of a successful resume: one period later that subscription has been closed or the subscriber alone can close it. |
| Cancellation.SilentSubscriberCanLeave | program/src/instructions/revoke_delegation.rs:122-127 | If the subscriber signs nothing in between, it is also not reopened: at the end it is closed, or the subscriber alone can close it. |
| Cancellation.StaleImmediateCancelIsRejected | program/src/instructions/cancel_subscription_now.rs:75-77 | Once a subscribe has opened the address in a later second than the period start an immediate cancel was signed for, that cancel fails after any run, on this and every later incarnation. |
| Cancellation.ImmediateCancelIffSameSecond | README.md:304 | Right after a subscribe, an immediate cancel signed by both parties succeeds if and only if it names that very second: exactly the documented granularity. |
| Conservation.RunConserves | fuzz/subscriptions/src/invariants.rs:87-96 | Over any run of program instructions the total tokens of every mint and the total lamports are unchanged. |
| Conservation.RunBalance | program/src/instructions/helpers/transfer_utils.rs:185-211 | A token account's balance changes by exactly the gross pulls into it less those out of it. |
| Conservation.ClosedAuthorityIsInert | fuzz/subscriptions/src/invariants.rs:70-85 | While a user's authority for a mint is closed, no instruction debits that user's account in that mint. |
| Conservation.DebitsAreLedgered | program/src/instructions/helpers/transfer_utils.rs:123-156 | A user's gross debits in a mint equal the sum of the ledgers of the permissions that user gave for it. |
| Conservation.EntryIsPullTotal | program/src/instructions/helpers/transfer_utils.rs:123-156 | While a permission stays open, its ledger grows by exactly what the run pulls through it. |
| Conservation.FixedRemainingPlusSpent | program/src/instructions/transfer_fixed_delegation.rs:49-52 | A fixed delegation's remaining amount plus everything pulled through it is constant. |
| Conservation.ClosePaysRentOwner | program/src/instructions/helpers/program.rs:55-66 | Every close hands all the account's lamports to the recorded payer (a plan's to its owner) and touches no other balance. |
| Arithmetic.NeverArithmetic | program/src/instructions/helpers/transfer_validation.rs:73-114 | In every reachable state, whatever the instruction and its data, no checked operation fails, no unchecked addition overflows and every rent transfer balances. |
| Arithmetic.TransferSubscriptionSafe | program/src/instructions/transfer_subscription.rs:87-131 | In particular the pull's period arithmetic and the unchecked period-end addition never fail. |
| Arithmetic.CancelSafe | program/src/instructions/cancel_subscription.rs:57-69 | Nor does the cancel's period arithmetic. |
| Arithmetic.PulledWithinCap | fuzz/subscriptions/src/invariants.rs:21-42 | In every reachable state a metered permission's counter is within its cap. |
| Packer.PackInstructionBatchesWithItems | webapp/src/lib/tx-packer.ts:44-77 | The two nested loops terminate and produce exactly the greedy partition, with the prefix in the first batch only; no items give one prefix batch or none. |
| Packer.PackInstructionBatches | webapp/src/lib/tx-packer.ts:79-89 | The batches concatenate to the prefix followed by the instructions, in order. |
| Packer.GreedyKeepsItems | webapp/src/lib/tx-packer.ts:57-74 | Nothing is lost, repeated or reordered. |
| Packer.GreedyBatchesFit | webapp/src/lib/tx-packer.ts:61-71 | Every batch is non-empty, and one that does not fit holds a single item, behind the prefix if it is the first batch. |
| Packer.AllFitExactlyWhen | webapp/src/lib/tx-packer.ts:57-74 | For any size function that keeps fitting lists fitting when shortened: every batch can be sent if and only if the first item fits behind the prefix and every other item fits alone. |
| Packer.PrefixCanOverflowABatch | webapp/src/lib/tx-packer.ts:58-71 | A concrete prefix and item that each fit alone, packed into one batch that cannot be sent. |
| Packer.GreedyBatchesAreFull | webapp/src/lib/tx-packer.ts:61-65 | Every batch is maximal: the next item would not have fitted. |
| Packer.GreedyIsOptimal | webapp/src/lib/tx-packer.ts:57-74 | For any size function under which a fitting list still fits when shortened at either end, no other way of cutting the same list uses fewer transactions. |
| Sender.Sender.SendGroup | webapp/src/lib/collect-utils.ts:215-252 | The recursive send in place adds exactly the trace `Settle` describes to log, signatures, confirmed, failures and count, and clears the cached failure of each confirmed subscriber where storage takes the write. |
| Sender.SendBatchedSubscriberInstructions | webapp/src/lib/collect-utils.ts:191-262 | Whatever the network answers: if no instruction object stands for two different transfers, confirmed and failed subscribers in the report together are those asked for, each exactly once; the count equals the confirmed; there are at most two sends per transfer; a send overlaps an earlier one only if the earlier one threw a message that starts with "Transaction simulation failed:", and is then a strict part of it; every such failure of several transfers is followed by sends of both its halves; and the report is the settlement of the greedily packed groups. |
| Sender.ClearsExactlyTheConfirmed | webapp/src/lib/collect-utils.ts:222-225 | After the run every cached failure of a subscriber that was not confirmed is kept unchanged, none appears, and where storage takes every write none of a confirmed one is left. |
| Sender.ClearedKeepsSound | webapp/src/lib/collect-utils.ts:460-466 | Clearing after payments keeps a sound failure cache sound, so the next round is answered as without a cache. |
| Sender.SendBound | webapp/src/lib/collect-utils.ts:238-250 | A group of n needs at least one and at most 2n - 1 sends. |
| Sender.SendAllBound | webapp/src/lib/collect-utils.ts:254-259 | All groups together need at most twice as many sends as there are transfers. |
| Sender.NoBlindResendAnywhere | webapp/src/lib/collect-utils.ts:227-250 | A position is sent again only as a strictly smaller part of a send that failed before broadcast. |
| Sender.PaidExactlyWhenSentAnywhere | webapp/src/lib/collect-utils.ts:218-225 | A position is settled as paid under a signature if and only if a send covering it returned that signature. |
| Sender.FailuresAreExactlyTheBadAnywhere | webapp/src/lib/collect-utils.ts:238-250 | If the network refuses, before broadcast, exactly the sends containing a bad instruction, exactly the positions of bad transfers are refused. |
| Sender.ReportFailsExactlyTheBad | webapp/src/lib/collect-utils.ts:191-262 | For such a network and instruction objects that are not shared, the report lists exactly the bad transfers' subscribers as failed and the others as confirmed, each in the order asked. |
| Sender.ReportConfirmsExactlyTheSent | webapp/src/lib/collect-utils.ts:218-225 | For any network: a confirmation with its signature is in the report if and only if a send covering a transfer of that subscriber returned that signature. |
| Sender.SendsBisect | webapp/src/lib/collect-utils.ts:227-250 | For any network and groups: a send of several transfers whose message starts with that text is followed by sends of exactly its two halves; any other send is the last for every position it covers. |
| Sender.LastSendDecides | webapp/src/lib/collect-utils.ts:218-247 | Each transfer's verdict is what the last send covering it said: paid under the signature returned, refused with the simulation's message, or of unknown status with the message. |
| Sender.ReportFailsExactlyTheRefused | webapp/src/lib/collect-utils.ts:227-247 | For any network: a failure with its message is in the report if and only if the last send covering a transfer of that subscriber said so. |
| Sender.ReportSignsExactlyTheSent | webapp/src/lib/collect-utils.ts:218-222 | A signature is in the report if and only if some send returned it. |
| Sender.SentIsInputIffDistinct | webapp/src/lib/collect-utils.ts:204-258 | What is sent is the input, in order, if and only if no instruction object stands for two different transfers (a later one replaces an earlier one in the map). |
| Collector.ComputeEligibleSubscribers | webapp/src/lib/collect-utils.ts:124-150 | The loop lists, in order, exactly the subscriptions with a positive offer, with that offer. |
| Collector.ListedExactlyWithOffer | webapp/src/lib/collect-utils.ts:131-147 | An entry is listed if and only if it is some subscription's positive offer. |
| Collector.ListingDistributes | webapp/src/lib/collect-utils.ts:131-147 | Each subscription is decided on its own and in order: listing two lists joined is listing one, then the other. |
| Collector.ChargeAcceptsExactly | program/src/instructions/helpers/transfer_validation.rs:107-114 | On a started, unexpired permission the period check accepts an amount if and only if it is positive and within the allowance. |
| Collector.ClientAgreesExactlyWhen | webapp/src/lib/collect-utils.ts:134-140 | For every clock value and every subscription within its own terms, in terms of the inputs: the client's offer is the largest pull that passes the program's terms, expiry and period checks if and only if there is nothing to collect (no amount or period, other terms, past its expiry, or used up inside its period), or the period has started, the plan has not ended, and it is not the instant at which a used last period closes together with the plan. |
| Collector.ListsExactlyTheCollectable | webapp/src/lib/collect-utils.ts:124-150 | For started periods before the plan's end, whatever terms each subscription is bound to: an entry is listed if and only if it is a subscription for which some amount passes the terms, expiry and period checks, with the largest such amount. |
| Collector.ClientCanOverOffer | webapp/src/lib/collect-utils.ts:137-138 | A concrete subscription at that instant, where the client offers 100 and the program accepts 99 but not 100. |
| Collector.TransfersAreWithinOffers | webapp/src/lib/collect-utils.ts:124-150 | In every reachable state, the plan's last instant included, a transfer the program accepts is positive and within the client's offer; before that instant the offer is exactly the largest amount its checks accept. |
| Collector.CollectsExactlyWhen | webapp/src/lib/collect-utils.ts:318-357 | End to end, before the plan's end and with both token accounts able to take part: a collection succeeds if and only if the amount is positive and within the offer, the subscription's authority generation is live, the caller is the plan's owner or a non-zero listed puller, and the receiver is a non-zero listed one wherever one is listed. |
| Collector.AvailableAgreesExactlyWhen | webapp/src/lib/utils.ts:31-45 | On started, unexpired delegations the displayed amount is the largest accepted pull, except at the same one instant. |
| Collector.AvailableIsCautious | webapp/src/lib/utils.ts:31-45 | With the period start or the clock unknown, every positive amount up to the displayed one is still accepted, and it is the largest accepted if and only if nothing was pulled yet or the stored period is still the current one. |
| FailureCache.Checker.CheckSubscriberTokenReadiness | webapp/src/lib/collect-utils.ts:264-361 | The check in place reads, writes and clears its own cache entry as `Readiness` says, also when storage refuses the write. |
| FailureCache.Checker.CheckAll | webapp/src/lib/collect-utils.ts:165-175 | The concurrent checks of a round, finishing in any order, keep the cache sound and give every subscriber the answer it would get without a cache. |
| FailureCache.Checker.FilterPayableSubscribers | webapp/src/lib/collect-utils.ts:152-189 | With the checks of a round finishing in any order: the payable list is, in the order asked, exactly the subscribers whose account is parsed, of the plan's mint, their own, and holds and has delegated the amount to the authority; every failure's subject and message are those of a round without a cache, and its reason is the account's first fault, or that its state was known. |
| FailureCache.PayableExactlyWhen | webapp/src/lib/collect-utils.ts:286-357 | Nothing is found wrong if and only if the account is parsed, of the plan's mint, the delegator's, and holds and has delegated to the authority at least the amount. |
| FailureCache.ReasonIsTheFirstFault | webapp/src/lib/collect-utils.ts:286-357 | The reason found is the first of missing, unparsed, mint, owner, balance, delegate, delegated amount that is at fault. |
| FailureCache.CheckRemembers | webapp/src/lib/collect-utils.ts:305-316 | Where storage takes the write: a state found unpayable is answered from the cache the next time, with the same message; an entry is left exactly by subscribers that cannot pay; no other subscriber's entry changes. Where it refuses, the answer is the same and the cache as it was. |
| FailureCache.PayableDistributes | webapp/src/lib/collect-utils.ts:177-186 | Each subscriber is decided on its own and in order. |
| Payability.PayableExactlyWhenPayerReady | webapp/src/lib/collect-utils.ts:318-357 | With addresses told apart by their text, the client finds a subscriber payable if and only if the program finds nothing wrong with the payer's token account for that amount. |
| Payability.ReadySubscribersCollect | webapp/src/lib/collect-utils.ts:264-361 | Before the plan's end, with an allowed caller and receiver: a collection of a positive amount within the offer succeeds if and only if the readiness check finds the subscriber payable and the authority generation is live. |
| Payability.UnreadyPayersFail | program/src/instructions/helpers/transfer_utils.rs:123-211 | In every reachable state a collection from a payer's account that is not ready fails. |
| FailureCache.CacheIsTransparent | webapp/src/lib/collect-utils.ts:305-360 | Over any history of checks, interleaved and with any entries lost or cleared, every answer is the one given without a cache. |
| FailureCache.SameHashSameVerdict | webapp/src/lib/collect-utils.ts:426-435 | Equal state hashes mean equal verdicts: the hash separates all states except a missing from an empty delegate, which fail alike. |
| FailureCache.JoinIsInjective | webapp/src/lib/collect-utils.ts:426-447 | Colon-joined text determines its colon-free fields and their number, so keys and hashes never collide across subscribers or kinds of state. |
| Tlv.FindExtensionValue | program/src/instructions/helpers/transfer_hook_util.rs:25-58 | The loop terminates, reads in bounds, never overflows and equals the recursive walk. |
| Tlv.FindInvertsEncode | program/src/instructions/helpers/transfer_hook_util.rs:25-58 | On any encoded list of nonzero-typed entries followed by zero or sub-header padding the walk returns the first entry of the type, or none. |
| Tlv.ErrorExactlyWhenMalformed | program/src/instructions/helpers/transfer_hook_util.rs:39-48 | On every byte string: an error if and only if a malformed entry comes before any match or terminator. |
| Tlv.NoneExactlyWhenTerminated | program/src/instructions/helpers/transfer_hook_util.rs:29-37 | On every byte string: no value if and only if a terminator comes before any match or malformed entry. |
| Tlv.ValueExactlyWhenMatched | program/src/instructions/helpers/transfer_hook_util.rs:50-52 | On every byte string: a value if and only if an entry of the type comes first, and then that entry's bytes. |
| Tlv.MintTransferHookProgramId | program/src/instructions/helpers/transfer_hook_util.rs:61-82 | Reads the hook program of a mint: absent, unset, malformed or its 32 bytes, as `HookProgram` says. |
| Tlv.HookRoundTrip | program/src/instructions/helpers/transfer_hook_util.rs:61-82 | A mint laid out as 165 base bytes, an account type, extensions and padding has the program of its first extension of type 14: none if its 64-byte value ends in 32 zero bytes, otherwise those last 32 bytes, and an error for any other length. |
| Tlv.BaseMintHasNoHook | program/src/instructions/helpers/transfer_hook_util.rs:61-66 | A mint without extensions has no hook program. |

## Left out

- Same-period cancel, resume, cancel cycles and plan updates that restore an observed value: documented limits; the first is delimited exactly by `Cancellation.SameExpiryIffSamePeriod`, the second is not claimed.
- Token-2022 transfer hooks, fees, memo and freeze: a transfer debits and credits the amount or fails; who runs the hook and what it does is not modelled.
- Event serialization and emission, instruction-byte dispatch, account lists, writable flags and system-program identity: signers are a set and accounts are fields of the instruction.
- Zero-copy byte layouts, account versions and lazy migration: accounts are typed records; the one size test that decides between two errors is kept through `Space`.
- Bumps: a plan address is its canonical one, so a caller-chosen non-canonical bump in a subscribe is simply another address.
- Rent amounts: the rent sysvar's answer is a parameter of the creating instruction.
- Plan arrays of four destinations and pullers are sequences of any length; metadata bytes are an opaque number.
- Conversions of 64-bit integers to JavaScript numbers: the collector computes on exact integers.
- FailureCache.Checker.CheckSubscriberTokenReadiness: the failure's time stamp, which nothing reads, and the parsing of RPC values into token accounts are not modelled.
- Error codes apart from the guards: a handler's contract gives the code of the first guard that fails, through the functions of `Program.dfy`; `Outcomes.dfy` says independently when an instruction is refused, and a second table of codes would only repeat the guards.
- The web interface, the API server, deployment scripts, generated clients and the TypeScript plugin: presentation and I/O.
