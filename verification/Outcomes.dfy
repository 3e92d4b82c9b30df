/**
 * When each instruction succeeds, and the whole state it then leaves, in terms of accounts, clocks and
 * amounts alone. Every statement is an equivalence over the reachable states, so a guard too many, a
 * guard too few or a field written otherwise contradicts it.
 */
module Outcomes {
  import opened Types
  import opened Metering
  import opened Program
  import opened Invariant
  import opened Steps
  import opened Cancellation

  // --- Plain vocabulary -----------------------------------------------------------------------------

  /** Who funds a new account: the sponsor if one is given. */
  function Funder(primary: Address, sponsor: Option<Address>): Address {
    match sponsor
    case None => primary
    case Some(p) => p
  }

  predicate CanFund(s: State, payer: Address, account: Address, rent: nat) {
    rent <= AmountAt(s.lamports, account) + AmountAt(s.lamports, payer)
  }

  ghost predicate SameClock(s: State, s': State) {
    s'.now == s.now && s'.slot == s.slot
  }

  /** The funder tops the account up to the rent, no more, and nobody else's lamports move. */
  ghost predicate Funded(s: State, s': State, payer: Address, account: Address, rent: nat) {
    var held := AmountAt(s.lamports, account);
    AmountAt(s'.lamports, account) == (if held >= rent then held else rent) &&
    AmountAt(s'.lamports, account) + AmountAt(s'.lamports, payer) == held + AmountAt(s.lamports, payer) &&
    forall x :: x != account && x != payer ==> AmountAt(s'.lamports, x) == AmountAt(s.lamports, x)
  }

  ghost predicate Opened(s: State, s': State, payer: Address, account: Address, rent: nat, content: Account) {
    SameClock(s, s') && s'.accounts == s.accounts[account := content] && Funded(s, s', payer, account, rent)
  }

  /** The account is gone, every lamport it held is with `dest`, and nothing else moved. */
  ghost predicate ClosedTo(s: State, s': State, account: Address, dest: Address) {
    SameClock(s, s') && s'.accounts == s.accounts - {account} &&
    AmountAt(s'.lamports, account) == 0 &&
    AmountAt(s'.lamports, dest) == AmountAt(s.lamports, dest) + AmountAt(s.lamports, account) &&
    forall x :: x != account && x != dest ==> AmountAt(s'.lamports, x) == AmountAt(s.lamports, x)
  }

  ghost predicate Wrote(s: State, s': State, account: Address, content: Account) {
    s' == s.(accounts := s.accounts[account := content])
  }

  /** The user's own token account for the mint. */
  predicate OwnTokenAccount(s: State, a: Address, user: Address, mint: Address) {
    a == Ata(user, mint) && a in s.tokens && s.tokens[a].owner == user && s.tokens[a].mint == mint
  }

  /** The authority is the user's, and its generation is the one approved: this slot's for the sentinel. */
  predicate Approved(s: State, authority: Address, user: Address, expectedInitId: I64) {
    authority in s.accounts && s.accounts[authority].Authority? && s.accounts[authority].user == user &&
    s.accounts[authority].initId ==
      (if expectedInitId == -0x8000_0000_0000_0000 then s.slot else expectedInitId)
  }

  lemma OpenPays(s: State, payer: Address, account: Address, rent: nat, content: Account)
    requires payer != account
    ensures Open(s, payer, account, rent, content).Ok? <==> CanFund(s, payer, account, rent)
    ensures Open(s, payer, account, rent, content).Ok? ==>
              Opened(s, Open(s, payer, account, rent, content).value, payer, account, rent, content) &&
              Open(s, payer, account, rent, content).value.tokens == s.tokens
  {
  }

  lemma ClosePays(s: State, account: Address, dest: Address)
    requires Inv(s) && account in s.accounts && dest.Key?
    ensures Close(s, account, dest).Ok?
    ensures ClosedTo(s, Close(s, account, dest).value, account, dest)
    ensures Close(s, account, dest).value.tokens == s.tokens
  {
    assert AccountOk(s, account, s.accounts[account]);
    HeldWithinTotal(s.lamports, dest, account);
  }

  // --- Authorities ----------------------------------------------------------------------------------

  lemma InitAuthorityExactly(s: State, tx: Tx)
    requires Inv(s) && tx.ix.InitAuthority? && OnlyWallets(tx.signers)
    ensures var ix := tx.ix;
            var payer := Funder(ix.user, ix.sponsor);
            Step(s, tx).Ok? <==>
            ix.user in tx.signers && payer in tx.signers && OwnTokenAccount(s, ix.userAta, ix.user, ix.mint) &&
            ix.authority == AuthorityPda(ix.user, ix.mint) &&
            (ix.authority in s.accounts || CanFund(s, payer, ix.authority, ix.rent))
    ensures var ix := tx.ix;
            Step(s, tx).Ok? ==>
              var s' := Step(s, tx).value;
              s'.tokens == s.tokens[ix.userAta := s.tokens[ix.userAta].(delegate := Some(ix.authority),
                                                                       delegated := 0xFFFF_FFFF_FFFF_FFFF)] &&
              if ix.authority in s.accounts
              then SameClock(s, s') && s'.accounts == s.accounts && s'.lamports == s.lamports
              else Opened(s, s', Funder(ix.user, ix.sponsor), ix.authority, ix.rent,
                          Authority(ix.user, ix.mint, Funder(ix.user, ix.sponsor), s.slot))
  {
    hide Open;
    var payer := Funder(tx.ix.user, tx.ix.sponsor);
    if payer != tx.ix.authority {
      OpenPays(s, payer, tx.ix.authority, tx.ix.rent, Authority(tx.ix.user, tx.ix.mint, payer, s.slot));
    }
  }

  /** A user closes an open authority of theirs; a sponsor who paid for it is paid back. */
  predicate RentReceiver(acc: Account, user: Address, receiver: Option<Address>)
    requires acc.Authority?
  {
    acc.payer == user || receiver == Some(acc.payer)
  }

  lemma CloseAuthorityToExactly(s: State, user: Address, authority: Address, receiver: Option<Address>)
    requires Inv(s) && authority in s.accounts
    ensures var acc := s.accounts[authority];
            CloseAuthorityTo(s, user, authority, receiver).Ok? <==>
            acc.Authority? && acc.user == user && RentReceiver(acc, user, receiver)
    ensures var r := CloseAuthorityTo(s, user, authority, receiver);
            r.Ok? ==> s.accounts[authority].Authority? && r.value.tokens == s.tokens &&
                      ClosedTo(s, r.value, authority, s.accounts[authority].payer)
  {
    hide Close;
    var acc := s.accounts[authority];
    assert AccountOk(s, authority, acc);
    if acc.Authority? { ClosePays(s, authority, acc.payer); }
  }

  lemma CloseAuthorityExactly(s: State, tx: Tx)
    requires Inv(s) && tx.ix.CloseAuthority? && OnlyWallets(tx.signers)
    ensures var ix := tx.ix;
            Step(s, tx).Ok? <==>
            ix.user in tx.signers && ix.authority in s.accounts && s.accounts[ix.authority].Authority? &&
            s.accounts[ix.authority].user == ix.user && RentReceiver(s.accounts[ix.authority], ix.user, ix.receiver)
    ensures var ix := tx.ix;
            Step(s, tx).Ok? ==>
              Step(s, tx).value.tokens == s.tokens &&
              ClosedTo(s, Step(s, tx).value, ix.authority, s.accounts[ix.authority].payer)
  {
    hide CloseAuthorityTo;
    if tx.ix.authority in s.accounts { CloseAuthorityToExactly(s, tx.ix.user, tx.ix.authority, tx.ix.receiver); }
  }

  /** The approval is dropped exactly when it names the authority; any other approval stays as it is. */
  function Disapproved(tokens: map<Address, TokenAccount>, a: Address, authority: Address): map<Address, TokenAccount>
    requires a in tokens
  {
    if tokens[a].delegate == Some(authority) then tokens[a := tokens[a].(delegate := None, delegated := 0)] else tokens
  }

  lemma TokensDoNotMatter(s: State, tokens: map<Address, TokenAccount>)
    requires Inv(s)
    ensures Inv(s.(tokens := tokens))
  {
    var t := s.(tokens := tokens);
    forall x | x in t.accounts ensures AccountOk(t, x, t.accounts[x]) {
      assert AccountOk(s, x, s.accounts[x]);
    }
  }

  lemma RevokeAuthorityExactly(s: State, tx: Tx)
    requires Inv(s) && tx.ix.RevokeAuthority? && OnlyWallets(tx.signers)
    ensures var ix := tx.ix;
            Step(s, tx).Ok? <==>
            ix.user in tx.signers && OwnTokenAccount(s, ix.userAta, ix.user, ix.mint) &&
            ix.authority == AuthorityPda(ix.user, ix.mint) &&
            (ix.authority in s.accounts ==>
               s.accounts[ix.authority].Authority? && RentReceiver(s.accounts[ix.authority], ix.user, ix.receiver))
    ensures var ix := tx.ix;
            Step(s, tx).Ok? ==>
              var s' := Step(s, tx).value;
              s'.tokens == Disapproved(s.tokens, ix.userAta, ix.authority) &&
              if ix.authority in s.accounts
              then ClosedTo(s, s', ix.authority, s.accounts[ix.authority].payer)
              else s' == s.(tokens := s'.tokens)
  {
    hide CloseAuthorityTo;
    var ix := tx.ix;
    if ix.authority in s.accounts && ix.userAta in s.tokens {
      assert AccountOk(s, ix.authority, s.accounts[ix.authority]);
      var tokens := Disapproved(s.tokens, ix.userAta, AuthorityPda(ix.user, ix.mint));
      TokensDoNotMatter(s, tokens);
      CloseAuthorityToExactly(s.(tokens := tokens), ix.user, ix.authority, ix.receiver);
    }
  }

  // --- Delegations ------------------------------------------------------------------------------------

  lemma CreateFixedExactly(s: State, tx: Tx)
    requires Inv(s) && tx.ix.CreateFixed? && OnlyWallets(tx.signers)
    ensures var ix := tx.ix;
            var payer := Funder(ix.delegator, ix.sponsor);
            Step(s, tx).Ok? <==>
            ix.delegator in tx.signers && payer in tx.signers &&
            ix.amount > 0 && (ix.expiryTs == 0 || s.now - 120 <= ix.expiryTs) &&
            Approved(s, ix.authority, ix.delegator, ix.expectedInitId) &&
            ix.delegation == DelegationPda(ix.authority, ix.delegator, ix.delegatee, ix.nonce) &&
            ix.delegation !in s.accounts && CanFund(s, payer, ix.delegation, ix.rent)
    ensures var ix := tx.ix;
            Step(s, tx).Ok? ==>
              var payer, authority := Funder(ix.delegator, ix.sponsor), s.accounts[ix.authority];
              Step(s, tx).value.tokens == s.tokens &&
              Opened(s, Step(s, tx).value, payer, ix.delegation, ix.rent,
                     Fixed(Header(ix.delegator, ix.delegatee, payer, authority.initId), ix.authority, authority.mint,
                           ix.amount, ix.expiryTs))
  {
    hide Open;
    var ix := tx.ix;
    var payer := Funder(ix.delegator, ix.sponsor);
    if payer != ix.delegation && ix.authority in s.accounts && s.accounts[ix.authority].Authority? {
      var authority := s.accounts[ix.authority];
      OpenPays(s, payer, ix.delegation, ix.rent,
               Fixed(Header(ix.delegator, ix.delegatee, payer, authority.initId), ix.authority, authority.mint,
                     ix.amount, ix.expiryTs));
    }
  }

  /** A recurring delegation starts at its start time, or when the transaction lands. */
  function StartOf(ix: Instruction, now: UnixTime): int
    requires ix.CreateRecurring?
  {
    if ix.startTs == 0 then now else ix.startTs
  }

  lemma CreateRecurringExactly(s: State, tx: Tx)
    requires Inv(s) && tx.ix.CreateRecurring? && OnlyWallets(tx.signers)
    ensures var ix := tx.ix;
            var payer := Funder(ix.delegator, ix.sponsor);
            Step(s, tx).Ok? <==>
            ix.delegator in tx.signers && payer in tx.signers &&
            ix.amount > 0 && 0 < ix.periodLength <= 31_536_000 &&
            (ix.startTs == 0 ==> ix.expiryTs != 0) && s.now - 120 <= StartOf(ix, s.now) &&
            (ix.expiryTs != 0 ==> StartOf(ix, s.now) < ix.expiryTs) &&
            Approved(s, ix.authority, ix.delegator, ix.expectedInitId) &&
            ix.delegation == DelegationPda(ix.authority, ix.delegator, ix.delegatee, ix.nonce) &&
            ix.delegation !in s.accounts && CanFund(s, payer, ix.delegation, ix.rent)
    ensures var ix := tx.ix;
            Step(s, tx).Ok? ==>
              var payer, authority := Funder(ix.delegator, ix.sponsor), s.accounts[ix.authority];
              StartOf(ix, s.now) >= 0 && Step(s, tx).value.tokens == s.tokens &&
              Opened(s, Step(s, tx).value, payer, ix.delegation, ix.rent,
                     Recurring(Header(ix.delegator, ix.delegatee, payer, authority.initId), ix.authority,
                               authority.mint, StartOf(ix, s.now), ix.periodLength, ix.expiryTs, ix.amount, 0))
  {
    hide Open;
    var ix := tx.ix;
    var payer := Funder(ix.delegator, ix.sponsor);
    if payer != ix.delegation && ix.authority in s.accounts && s.accounts[ix.authority].Authority? &&
       StartOf(ix, s.now) >= 0 {
      var authority := s.accounts[ix.authority];
      OpenPays(s, payer, ix.delegation, ix.rent,
               Recurring(Header(ix.delegator, ix.delegatee, payer, authority.initId), ix.authority, authority.mint,
                         StartOf(ix, s.now), ix.periodLength, ix.expiryTs, ix.amount, 0));
    }
  }

  // --- Transfers ----------------------------------------------------------------------------------------

  /** The generation is live and both token accounts can take part in the debit. */
  predicate Debitable(s: State, p: Pull, initId: I64) {
    p.mintAccount == p.mint && p.authority == AuthorityPda(p.delegator, p.mint) &&
    p.authority in s.accounts && s.accounts[p.authority].Authority? && s.accounts[p.authority].initId == initId &&
    OwnTokenAccount(s, p.fromAta, p.delegator, p.mint) && p.toAta in s.tokens && s.tokens[p.toAta].mint == p.mint &&
    p.tokenProgramOk && s.tokens[p.fromAta].delegate == Some(p.authority) &&
    p.amount <= s.tokens[p.fromAta].amount && p.amount <= s.tokens[p.fromAta].delegated &&
    (p.fromAta != p.toAta ==> s.tokens[p.toAta].amount + p.amount <= 0xFFFF_FFFF_FFFF_FFFF)
  }

  /** The amount left one account and its approval and reached the other; a used-up approval is dropped. */
  ghost predicate Debited(tokens: map<Address, TokenAccount>, after: map<Address, TokenAccount>, p: Pull)
    requires p.fromAta in tokens && p.toAta in tokens
  {
    if p.fromAta == p.toAta then after == tokens
    else
      var from, to := tokens[p.fromAta], tokens[p.toAta];
      after.Keys == tokens.Keys &&
      after[p.fromAta].owner == from.owner && after[p.fromAta].mint == from.mint &&
      after[p.fromAta].amount == from.amount - p.amount &&
      after[p.fromAta].delegated == from.delegated - p.amount &&
      after[p.fromAta].delegate == (if from.delegated == p.amount then None else from.delegate) &&
      after[p.toAta] == to.(amount := after[p.toAta].amount) &&
      after[p.toAta].amount == to.amount + p.amount &&
      forall x | x in tokens && x != p.fromAta && x != p.toAta :: after[x] == tokens[x]
  }

  lemma DebitExactly(s: State, p: Pull, initId: I64)
    requires Inv(s) && p.fromAta in s.tokens && p.toAta in s.tokens
    requires p.authority in s.accounts && s.accounts[p.authority].Authority?
    ensures TransferWithDelegate(s, p, initId).Ok? <==> Debitable(s, p, initId)
    ensures TransferWithDelegate(s, p, initId).Ok? ==>
              Debited(s.tokens, TransferWithDelegate(s, p, initId).value, p)
  {
    assert AccountOk(s, p.authority, s.accounts[p.authority]);
  }

  /** An end of 0 is no end; any other is the last second that still counts. */
  predicate NotOver(end: I64, now: int) {
    end == 0 || now <= end
  }

  lemma TransferFixedExactly(s: State, tx: Tx)
    requires Inv(s) && tx.ix.TransferFixed? && OnlyWallets(tx.signers)
    ensures var p := tx.ix.pull;
            Step(s, tx).Ok? <==>
            p.caller in tx.signers && p.permission in s.accounts && s.accounts[p.permission].Fixed? &&
            var d := s.accounts[p.permission];
            d.header.delegator == p.delegator && d.header.delegatee == p.caller && d.mint == p.mint &&
            0 < p.amount <= d.amount && NotOver(d.expiryTs, s.now) && Debitable(s, p, d.header.initId)
    ensures var p := tx.ix.pull;
            Step(s, tx).Ok? ==>
              var s', d := Step(s, tx).value, s.accounts[p.permission];
              Debited(s.tokens, s'.tokens, p) &&
              s' == s.(accounts := s.accounts[p.permission := d.(amount := d.amount - p.amount)], tokens := s'.tokens)
  {
    hide TransferWithDelegate, Debited;
    var p := tx.ix.pull;
    if p.permission in s.accounts && s.accounts[p.permission].Fixed? {
      assert AccountOk(s, p.permission, s.accounts[p.permission]);
      if p.fromAta in s.tokens && p.toAta in s.tokens &&
         p.authority in s.accounts && s.accounts[p.authority].Authority? {
        DebitExactly(s, p, s.accounts[p.permission].header.initId);
      }
    }
  }

  // --- The period a metered pull falls in --------------------------------------------------------------

  /** The last period start at or before `now`, and before a finite end once a period has passed. */
  function LatestStart(start: int, period: int, end: int, now: int): int
    requires period > 0
  {
    var boundary := start + (now - start) / period * period;
    if end != 0 && start < boundary && end <= boundary then boundary - period else boundary
  }

  /** What is left of the period a pull at `now` falls in. */
  function LeftInPeriod(m: Meter, cap: int, period: int, end: int, now: int): int
    requires period > 0
  {
    if LatestStart(m.start, period, end, now) == m.start then cap - m.pulled else cap
  }

  lemma LatestStartIsIndexed(start: Time, period: U64, end: I64, now: UnixTime)
    requires 0 < period <= I64_MAX && start <= now && NotOver(end, now)
    ensures var k := PeriodIndex(start, period, end, now);
            LatestStart(start, period, end, now) == start + k * period && (k == 0 <==> k * period == 0)
  {
    hide PeriodIndex;
    var q := (now - start) / period;
    var k := PeriodIndex(start, period, end, now);
    DivBounds(now - start, period);
    ZeroMultiple(k, period);
    if now < start + period {
      SameIndex(start, period, end, now);
      DivUnique(now - start, period, 0);
    } else if end == 0 || start + q * period < end {
      UncappedIndex(start, period, end, now);
      assert k * period == q * period;
    } else {
      CappedIndex(start, period, end, now);
      assert k * period == (q - 1) * period == q * period - period;
      ZeroMultiple(q, period);
    }
  }

  lemma ZeroMultiple(k: int, period: int)
    requires period > 0
    ensures (k == 0 <==> k * period == 0) && (k > 0 <==> k * period > 0)
  {
    if k > 0 {
      MulMonotone(1, k, period);
    } else if k < 0 {
      MulMonotone(k, -1, period);
    }
  }

  /** A metered charge is accepted exactly within the period's allowance, and is booked to that period. */
  lemma ChargeExactly(a: U64, cap: U64, period: U64, m: Meter, end: I64, now: UnixTime)
    requires 0 < period <= I64_MAX && m.pulled <= cap
    ensures Charge(a, cap, period, m, end, now).Ok? <==>
            m.start <= now && NotOver(end, now) && 0 < a <= LeftInPeriod(m, cap, period, end, now)
    ensures var r := Charge(a, cap, period, m, end, now);
            r.Ok? ==>
              m.start <= r.value.start <= now && r.value.start == LatestStart(m.start, period, end, now) &&
              r.value.pulled == (if r.value.start == m.start then m.pulled + a else a)
  {
    if m.start <= now && NotOver(end, now) { LatestStartIsIndexed(m.start, period, end, now); }
  }

  lemma TransferRecurringExactly(s: State, tx: Tx)
    requires Inv(s) && tx.ix.TransferRecurring? && OnlyWallets(tx.signers)
    ensures var p := tx.ix.pull;
            Step(s, tx).Ok? <==>
            p.caller in tx.signers && p.permission in s.accounts && s.accounts[p.permission].Recurring? &&
            var d := s.accounts[p.permission];
            d.header.delegator == p.delegator && d.header.delegatee == p.caller && d.mint == p.mint &&
            d.periodStart <= s.now && NotOver(d.expiryTs, s.now) && d.periodLength > 0 &&
            0 < p.amount <= LeftInPeriod(Meter(d.periodStart, d.pulled), d.cap, d.periodLength, d.expiryTs, s.now) &&
            Debitable(s, p, d.header.initId)
    ensures var p := tx.ix.pull;
            Step(s, tx).Ok? ==>
              var s', d := Step(s, tx).value, s.accounts[p.permission];
              d.periodLength > 0 &&
              var start := LatestStart(d.periodStart, d.periodLength, d.expiryTs, s.now);
              var pulled := p.amount + (if start == d.periodStart then d.pulled else 0);
              0 <= start <= s.now && pulled <= d.cap && Debited(s.tokens, s'.tokens, p) &&
              s' == s.(tokens := s'.tokens, accounts := s.accounts[p.permission :=
                Recurring(d.header, d.authority, d.mint, start, d.periodLength, d.expiryTs, d.cap, pulled)])
  {
    hide TransferWithDelegate, Debited, Charge, LatestStart;
    var p := tx.ix.pull;
    if p.permission in s.accounts && s.accounts[p.permission].Recurring? {
      var d := s.accounts[p.permission];
      assert AccountOk(s, p.permission, d);
      ChargeExactly(p.amount, d.cap, d.periodLength, MeterOf(d), d.expiryTs, s.now);
      ChargeFits(p.amount, d.cap, d.periodLength, MeterOf(d), d.expiryTs, s.now);
      if p.fromAta in s.tokens && p.toAta in s.tokens &&
         p.authority in s.accounts && s.accounts[p.authority].Authority? {
        DebitExactly(s, p, d.header.initId);
      }
    }
  }

  lemma ChargeFits(a: U64, cap: U64, period: U64, m: Meter, end: I64, now: UnixTime)
    requires 0 < period <= MAX_DELEGATION_PERIOD_SECS
    ensures Charge(a, cap, period, m, end, now).Ok? ==>
              FitsI64(Charge(a, cap, period, m, end, now).value.start + period)
  {
  }

  /** The plan's owner, or a non-zero listed puller. */
  predicate Puller(plan: Account, caller: Address)
    requires plan.Plan?
  {
    caller == plan.owner || (caller != Key(0) && exists i | 0 <= i < |plan.pullers| :: plan.pullers[i] == caller)
  }

  /** Some receiver is listed, that is, some destination slot is not zero. */
  predicate Restricted(destinations: seq<Address>) {
    exists i | 0 <= i < |destinations| :: destinations[i] != Key(0)
  }

  /** A listed receiver; anyone when none is listed. */
  predicate Receives(destinations: seq<Address>, receiver: Address) {
    Restricted(destinations) ==> receiver != Key(0) && receiver in destinations
  }

  lemma PullerIsCanPull(plan: Account, caller: Address)
    requires plan.Plan?
    ensures CanPull(plan, caller) <==> Puller(plan, caller)
  {
  }

  lemma ReceivesIsAllowed(plan: Account, receiver: Address)
    requires plan.Plan?
    ensures AllowsDestination(plan, receiver) <==> Receives(plan.destinations, receiver)
  {
    if i :| 0 <= i < |plan.destinations| && plan.destinations[i] != Key(0) {
      assert plan.destinations[i] in plan.destinations;
    }
  }

  lemma TransferSubscriptionExactly(s: State, tx: Tx)
    requires Inv(s) && tx.ix.TransferSubscription? && OnlyWallets(tx.signers)
    ensures var p, plan := tx.ix.pull, tx.ix.plan;
            Step(s, tx).Ok? <==>
            p.caller in tx.signers && p.permission in s.accounts && s.accounts[p.permission].Subscription? &&
            plan in s.accounts && s.accounts[plan].Plan? &&
            var sub, pl := s.accounts[p.permission], s.accounts[plan];
            sub.header.delegatee == plan && sub.header.delegator == p.delegator && sub.terms == pl.terms &&
            pl.mint == p.mint && Puller(pl, p.caller) && NotOver(pl.endTs, s.now) &&
            (sub.expiresAt == 0 || s.now < sub.expiresAt) && sub.terms.periodHours > 0 &&
            0 < p.amount <= LeftInPeriod(Meter(sub.periodStart, sub.pulled), sub.terms.amount,
                                         sub.terms.periodHours * 3600, pl.endTs, s.now) &&
            Debitable(s, p, sub.header.initId) && Receives(pl.destinations, s.tokens[p.toAta].owner)
    ensures var p := tx.ix.pull;
            Step(s, tx).Ok? ==>
              var s', sub := Step(s, tx).value, s.accounts[p.permission];
              sub.terms.periodHours > 0 &&
              var start := LatestStart(sub.periodStart, sub.terms.periodHours * 3600, s.accounts[tx.ix.plan].endTs,
                                       s.now);
              var pulled := p.amount + (if start == sub.periodStart then sub.pulled else 0);
              0 <= start <= s.now && pulled <= sub.terms.amount && Debited(s.tokens, s'.tokens, p) &&
              s' == s.(tokens := s'.tokens, accounts := s.accounts[p.permission :=
                Subscription(sub.header, sub.terms, pulled, start, sub.expiresAt)])
  {
    hide TransferWithDelegate, Debited, Charge, LatestStart, CanPull, AllowsDestination, Puller, Receives;
    var p, plan := tx.ix.pull, tx.ix.plan;
    if p.permission in s.accounts && s.accounts[p.permission].Subscription? &&
       plan in s.accounts && s.accounts[plan].Plan? {
      var sub, pl := s.accounts[p.permission], s.accounts[plan];
      var period := sub.terms.periodHours * 3600;
      assert AccountOk(s, p.permission, sub);
      PullerIsCanPull(pl, p.caller);
      ChargeExactly(p.amount, sub.terms.amount, period, MeterOf(sub), pl.endTs, s.now);
      ChargeFits(p.amount, sub.terms.amount, period, MeterOf(sub), pl.endTs, s.now);
      if p.fromAta in s.tokens && p.toAta in s.tokens &&
         p.authority in s.accounts && s.accounts[p.authority].Authority? {
        ReceivesIsAllowed(pl, s.tokens[p.toAta].owner);
        DebitExactly(s, p, sub.header.initId);
      }
    }
  }

  // --- Plans ----------------------------------------------------------------------------------------------

  /** A finite end leaves room for one whole period. */
  predicate RoomForAPeriod(end: I64, periodHours: int, now: int) {
    end == 0 || now + periodHours * 3600 <= end
  }

  lemma CreatePlanExactly(s: State, tx: Tx)
    requires Inv(s) && tx.ix.CreatePlan? && OnlyWallets(tx.signers)
    ensures var ix := tx.ix;
            var payer := Funder(ix.merchant, ix.sponsor);
            Step(s, tx).Ok? <==>
            ix.merchant in tx.signers && payer in tx.signers && ix.mintAccount == ix.mint &&
            ix.amount > 0 && 0 < ix.periodHours <= 8760 && RoomForAPeriod(ix.endTs, ix.periodHours, s.now) &&
            ix.plan == PlanPda(ix.merchant, ix.planId) && ix.plan !in s.accounts &&
            CanFund(s, payer, ix.plan, ix.rent)
    ensures var ix := tx.ix;
            Step(s, tx).Ok? ==>
              Step(s, tx).value.tokens == s.tokens &&
              Opened(s, Step(s, tx).value, Funder(ix.merchant, ix.sponsor), ix.plan, ix.rent,
                     Plan(ix.merchant, Active, ix.planId, ix.mint, Terms(ix.amount, ix.periodHours, s.now), ix.endTs,
                          ix.destinations, ix.pullers, ix.metadata))
  {
    hide Open;
    var ix := tx.ix;
    var payer := Funder(ix.merchant, ix.sponsor);
    if payer != ix.plan {
      OpenPays(s, payer, ix.plan, ix.rent,
               Plan(ix.merchant, Active, ix.planId, ix.mint, Terms(ix.amount, ix.periodHours, s.now), ix.endTs,
                    ix.destinations, ix.pullers, ix.metadata));
    }
  }

  /** The owner approved exactly the live plan. */
  predicate SawThePlan(p: Account, ix: Instruction)
    requires p.Plan? && ix.UpdatePlan?
  {
    p.owner == ix.owner && p.terms.createdAt == ix.expectedCreatedAt && p.endTs == ix.expectedEndTs &&
    p.pullers == ix.expectedPullers && p.metadata == ix.expectedMetadata
  }

  /** What an active plan may become. */
  predicate MayBecome(p: Account, ix: Instruction, now: int)
    requires p.Plan? && ix.UpdatePlan?
  {
    ix.status <= 1 && (ix.status == 0 ==> ix.endTs != 0) && NotOver(p.endTs, now) &&
    (p.endTs != 0 ==> ix.endTs != 0 && ix.endTs <= p.endTs) &&
    (ix.endTs != p.endTs ==> RoomForAPeriod(ix.endTs, p.terms.periodHours, now))
  }

  /** After Sunset pullers may be removed, or slots emptied; all else must be as it is. */
  predicate OnlyLosesPullers(p: Account, ix: Instruction)
    requires p.Plan? && ix.UpdatePlan?
  {
    ix.status == 0 && ix.endTs == p.endTs && ix.metadata == p.metadata &&
    forall i | 0 <= i < |ix.pullers| && ix.pullers[i] != Key(0) :: ix.pullers[i] in p.pullers
  }

  lemma UpdatePlanExactly(s: State, tx: Tx)
    requires Inv(s) && tx.ix.UpdatePlan? && OnlyWallets(tx.signers)
    ensures var ix := tx.ix;
            Step(s, tx).Ok? <==>
            ix.owner in tx.signers && ix.plan in s.accounts && s.accounts[ix.plan].Plan? &&
            SawThePlan(s.accounts[ix.plan], ix) &&
            if s.accounts[ix.plan].status == Sunset then OnlyLosesPullers(s.accounts[ix.plan], ix)
            else MayBecome(s.accounts[ix.plan], ix, s.now)
    ensures var ix := tx.ix;
            Step(s, tx).Ok? ==>
              var p := s.accounts[ix.plan];
              Wrote(s, Step(s, tx).value, ix.plan,
                    Plan(p.owner, if ix.status == 0 then Sunset else Active, p.planId, p.mint, p.terms, ix.endTs,
                         p.destinations, ix.pullers, ix.metadata))
  {
    var ix := tx.ix;
    if ix.plan in s.accounts {
      assert AccountOk(s, ix.plan, s.accounts[ix.plan]);
      assert forall i | 0 <= i < |ix.pullers| :: ix.pullers[i] in ix.pullers;
    }
  }

  lemma DeletePlanExactly(s: State, tx: Tx)
    requires Inv(s) && tx.ix.DeletePlan? && OnlyWallets(tx.signers)
    ensures var ix := tx.ix;
            Step(s, tx).Ok? <==>
            ix.owner in tx.signers && ix.plan in s.accounts && s.accounts[ix.plan].Plan? &&
            s.accounts[ix.plan].owner == ix.owner && s.accounts[ix.plan].endTs != 0 && s.accounts[ix.plan].endTs < s.now
    ensures Step(s, tx).Ok? ==>
              Step(s, tx).value.tokens == s.tokens && ClosedTo(s, Step(s, tx).value, tx.ix.plan, tx.ix.owner)
  {
    hide Close;
    if tx.ix.plan in s.accounts && tx.ix.owner.Key? { ClosePays(s, tx.ix.plan, tx.ix.owner); }
  }

  // --- Subscriptions ----------------------------------------------------------------------------------------

  lemma SubscribeExactly(s: State, tx: Tx)
    requires Inv(s) && tx.ix.Subscribe? && OnlyWallets(tx.signers)
    ensures var ix := tx.ix;
            var payer := Funder(ix.subscriber, ix.sponsor);
            Step(s, tx).Ok? <==>
            ix.subscriber in tx.signers && payer in tx.signers &&
            ix.plan == PlanPda(ix.merchant, ix.planId) && ix.plan in s.accounts && s.accounts[ix.plan].Plan? &&
            var p := s.accounts[ix.plan];
            p.status == Active && NotOver(p.endTs, s.now) && p.mint == ix.expectedMint &&
            p.terms.amount == ix.expectedAmount && p.terms.periodHours == ix.expectedPeriodHours &&
            p.terms.createdAt == ix.expectedCreatedAt &&
            Approved(s, ix.authority, ix.subscriber, ix.expectedInitId) && s.accounts[ix.authority].mint == p.mint &&
            ix.subscription == SubscriptionPda(ix.plan, ix.subscriber) && ix.subscription !in s.accounts &&
            CanFund(s, payer, ix.subscription, ix.rent)
    ensures var ix := tx.ix;
            Step(s, tx).Ok? ==>
              var payer := Funder(ix.subscriber, ix.sponsor);
              Step(s, tx).value.tokens == s.tokens &&
              Opened(s, Step(s, tx).value, payer, ix.subscription, ix.rent,
                     Subscription(Header(ix.subscriber, ix.plan, payer, s.accounts[ix.authority].initId),
                                  Terms(ix.expectedAmount, ix.expectedPeriodHours, ix.expectedCreatedAt), 0, s.now, 0))
  {
    hide Open;
    var ix := tx.ix;
    var payer := Funder(ix.subscriber, ix.sponsor);
    if payer != ix.subscription && ix.authority in s.accounts && s.accounts[ix.authority].Authority? {
      OpenPays(s, payer, ix.subscription, ix.rent,
               Subscription(Header(ix.subscriber, ix.plan, payer, s.accounts[ix.authority].initId),
                            Terms(ix.expectedAmount, ix.expectedPeriodHours, ix.expectedCreatedAt), 0, s.now, 0));
    }
  }

  /** The subscription is open, of this subscriber and to this plan. */
  predicate Held(s: State, a: Address, subscriber: Address, plan: Address) {
    a in s.accounts && s.accounts[a].Subscription? && s.accounts[a].header.delegator == subscriber &&
    s.accounts[a].header.delegatee == plan
  }

  /** The plan consented to is open at its address. */
  predicate PlanStands(s: State, sub: Account)
    requires sub.Subscription?
  {
    sub.header.delegatee in s.accounts && s.accounts[sub.header.delegatee].Plan? &&
    s.accounts[sub.header.delegatee].terms == sub.terms
  }

  lemma CancelExactly(s: State, tx: Tx)
    requires Inv(s) && tx.ix.CancelSubscription? && OnlyWallets(tx.signers)
    ensures var ix := tx.ix;
            Step(s, tx).Ok? <==>
            ix.subscriber in tx.signers && Held(s, ix.subscription, ix.subscriber, ix.plan) &&
            s.accounts[ix.subscription].expiresAt == 0
    ensures Step(s, tx).Ok? ==>
              var a, s' := tx.ix.subscription, Step(s, tx).value;
              var sub := s.accounts[a];
              var period := sub.terms.periodHours * 3600;
              period > 0 && sub.periodStart <= s.now && a in s'.accounts && s'.accounts[a].Subscription? &&
              Wrote(s, s', a,
                    Subscription(sub.header, sub.terms, sub.pulled, sub.periodStart, s'.accounts[a].expiresAt)) &&
              s'.accounts[a].expiresAt ==
                if PlanStands(s, sub) then CanonicalExpiry(sub.periodStart, period, s.accounts[tx.ix.plan].endTs, s.now)
                else s.now
  {
    hide CanonicalExpiry, CancelExpiry;
    var ix := tx.ix;
    if Held(s, ix.subscription, ix.subscriber, ix.plan) {
      var sub := s.accounts[ix.subscription];
      assert AccountOk(s, ix.subscription, sub);
      if ix.plan in s.accounts {
        assert AccountOk(s, ix.plan, s.accounts[ix.plan]);
        if PlanStands(s, sub) { CancelExpiryIsCanonical(sub, s.accounts[ix.plan].endTs, s.now, sub.periodStart, 0); }
      }
    }
  }

  lemma ResumeExactly(s: State, tx: Tx)
    requires Inv(s) && tx.ix.ResumeSubscription? && OnlyWallets(tx.signers)
    ensures var ix := tx.ix;
            Step(s, tx).Ok? <==>
            ix.subscriber in tx.signers && Held(s, ix.subscription, ix.subscriber, ix.plan) &&
            var sub := s.accounts[ix.subscription];
            sub.expiresAt == ix.expectedExpiresAt && s.now < sub.expiresAt &&
            PlanStands(s, sub) && NotOver(s.accounts[ix.plan].endTs, s.now) &&
            ix.authority in s.accounts && s.accounts[ix.authority].Authority? &&
            s.accounts[ix.authority].user == ix.subscriber &&
            s.accounts[ix.authority].mint == s.accounts[ix.plan].mint &&
            s.accounts[ix.authority].initId == sub.header.initId
    ensures Step(s, tx).Ok? ==>
              var sub := s.accounts[tx.ix.subscription];
              Wrote(s, Step(s, tx).value, tx.ix.subscription,
                    Subscription(sub.header, sub.terms, sub.pulled, sub.periodStart, 0))
  {
  }

  lemma CancelNowExactly(s: State, tx: Tx)
    requires Inv(s) && tx.ix.CancelSubscriptionNow? && OnlyWallets(tx.signers)
    ensures var ix := tx.ix;
            Step(s, tx).Ok? <==>
            ix.subscriber in tx.signers && ix.merchant in tx.signers &&
            Held(s, ix.subscription, ix.subscriber, ix.plan) &&
            ix.plan in s.accounts && s.accounts[ix.plan].Plan? && s.accounts[ix.plan].owner == ix.merchant &&
            s.accounts[ix.subscription].periodStart == ix.expectedPeriodStart &&
            (s.accounts[ix.subscription].expiresAt == 0 || s.now < s.accounts[ix.subscription].expiresAt)
    ensures Step(s, tx).Ok? ==>
              var sub := s.accounts[tx.ix.subscription];
              Wrote(s, Step(s, tx).value, tx.ix.subscription,
                    Subscription(sub.header, sub.terms, sub.pulled, sub.periodStart, s.now))
  {
  }

  // --- Closing permissions ------------------------------------------------------------------------------------

  /** What lets the payer, who is not the delegator, recover the rent. */
  predicate Recoverable(s: State, acc: Account)
    requires IsPermission(acc)
  {
    match acc
    case Fixed(_, _, _, amount, expiry) => !NotOver(expiry, s.now) || amount == 0
    case Recurring(_, _, _, _, _, expiry, _, _) => !NotOver(expiry, s.now)
    case Subscription(header, _, _, _, expiresAt) =>
      !PlanStands(s, acc) || !NotOver(s.accounts[header.delegatee].endTs, s.now) ||
      (expiresAt != 0 && expiresAt <= s.now)
  }

  /** The remaining accounts name the plan, for a subscription, and then whoever is paid. */
  predicate Names(rem: seq<Address>, acc: Account, caller: Address)
    requires IsPermission(acc)
  {
    var at := if acc.Subscription? then 1 else 0;
    (acc.Subscription? ==> |rem| > 0 && rem[0] == acc.header.delegatee) &&
    (caller != acc.header.payer ==> |rem| > at && rem[at] == acc.header.payer)
  }

  lemma RevokeDelegationExactly(s: State, tx: Tx)
    requires Inv(s) && tx.ix.RevokeDelegation? && OnlyWallets(tx.signers)
    ensures var ix := tx.ix;
            Step(s, tx).Ok? <==>
            ix.caller in tx.signers && ix.delegation in s.accounts && IsPermission(s.accounts[ix.delegation]) &&
            var acc := s.accounts[ix.delegation];
            Names(ix.rem, acc, ix.caller) &&
            if ix.caller == acc.header.delegator
            then acc.Subscription? ==> acc.expiresAt != 0 && acc.expiresAt <= s.now
            else ix.caller == acc.header.payer && Recoverable(s, acc)
    ensures Step(s, tx).Ok? ==>
              Step(s, tx).value.tokens == s.tokens &&
              ClosedTo(s, Step(s, tx).value, tx.ix.delegation, s.accounts[tx.ix.delegation].header.payer)
  {
    hide Close;
    var ix := tx.ix;
    if ix.delegation in s.accounts && IsPermission(s.accounts[ix.delegation]) {
      var acc := s.accounts[ix.delegation];
      assert AccountOk(s, ix.delegation, acc);
      ClosePays(s, ix.delegation, acc.header.payer);
    }
  }

  /** The authority no longer stands for the generation, and cannot come to again. */
  predicate Gone(s: State, authority: Address, initId: I64) {
    if authority in s.accounts then s.accounts[authority].Authority? ==> s.accounts[authority].initId != initId
    else initId < s.slot
  }

  lemma RevokeAbandonedDelegationExactly(s: State, tx: Tx)
    requires Inv(s) && tx.ix.RevokeAbandonedDelegation? && OnlyWallets(tx.signers)
    ensures var ix := tx.ix;
            Step(s, tx).Ok? <==>
            ix.payer in tx.signers && ix.delegation in s.accounts &&
            (s.accounts[ix.delegation].Fixed? || s.accounts[ix.delegation].Recurring?) &&
            s.accounts[ix.delegation].header.payer == ix.payer && s.accounts[ix.delegation].authority == ix.authority &&
            Gone(s, ix.authority, s.accounts[ix.delegation].header.initId)
    ensures Step(s, tx).Ok? ==>
              Step(s, tx).value.tokens == s.tokens && ClosedTo(s, Step(s, tx).value, tx.ix.delegation, tx.ix.payer)
  {
    hide Close;
    if tx.ix.delegation in s.accounts && tx.ix.payer.Key? { ClosePays(s, tx.ix.delegation, tx.ix.payer); }
  }

  lemma RevokeAbandonedSubscriptionExactly(s: State, tx: Tx)
    requires Inv(s) && tx.ix.RevokeAbandonedSubscription? && OnlyWallets(tx.signers)
    ensures var ix := tx.ix;
            Step(s, tx).Ok? <==>
            ix.payer in tx.signers && ix.subscription in s.accounts && s.accounts[ix.subscription].Subscription? &&
            var sub := s.accounts[ix.subscription];
            sub.header.payer == ix.payer && sub.header.delegatee == ix.plan &&
            ix.plan in s.accounts && s.accounts[ix.plan].Plan? &&
            ix.authority == AuthorityPda(sub.header.delegator, s.accounts[ix.plan].mint) &&
            Gone(s, ix.authority, sub.header.initId)
    ensures Step(s, tx).Ok? ==>
              Step(s, tx).value.tokens == s.tokens && ClosedTo(s, Step(s, tx).value, tx.ix.subscription, tx.ix.payer)
  {
    hide Close;
    if tx.ix.subscription in s.accounts && tx.ix.payer.Key? { ClosePays(s, tx.ix.subscription, tx.ix.payer); }
  }

  // --- The clock ------------------------------------------------------------------------------------------------

  lemma TickExactly(s: State, tx: Tx)
    requires tx.ix.Tick? && OnlyWallets(tx.signers)
    ensures Step(s, tx).Ok? <==>
            s.now + tx.ix.seconds <= 0x7FFF_FFFF_FFFF_FFFF - 31_536_000 && s.slot + tx.ix.slots <= 0x7FFF_FFFF_FFFF_FFFF
    ensures Step(s, tx).Ok? ==> Step(s, tx).value == s.(now := s.now + tx.ix.seconds, slot := s.slot + tx.ix.slots)
  {
  }
}
