/** Where tokens and rent go: totals, per-account balances, and whose permission every debit used. */
module Conservation {
  import opened Types
  import opened Metering
  import opened Program
  import opened Invariant
  import opened Steps
  import opened Runs
  import opened Plans

  // --- Token totals -----------------------------------------------------------------------------------

  /** Balances of one mint, by token account. */
  function Held(tokens: map<Address, TokenAccount>, mint: Address): map<Address, nat> {
    map x | x in tokens && tokens[x].mint == mint :: tokens[x].amount
  }

  lemma HeldUpdate(tokens: map<Address, TokenAccount>, x: Address, t: TokenAccount, mint: Address)
    requires x in tokens && tokens[x].mint == t.mint
    ensures Total(Held(tokens[x := t], mint)) ==
            Total(Held(tokens, mint)) + (if t.mint == mint then t.amount - tokens[x].amount else 0)
  {
    if t.mint == mint {
      assert Held(tokens[x := t], mint) == Held(tokens, mint)[x := t.amount];
      TotalUpdate(Held(tokens, mint), x, t.amount);
    } else {
      assert Held(tokens[x := t], mint) == Held(tokens, mint);
    }
  }

  lemma TransferConserves(tokens: map<Address, TokenAccount>, source: Address, dest: Address, delegate: Address,
                          amount: U64, ok: bool, mint: Address)
    requires source in tokens && dest in tokens && tokens[source].mint == tokens[dest].mint
    requires TokenTransfer(tokens, source, dest, delegate, amount, ok).Ok?
    ensures Total(Held(TokenTransfer(tokens, source, dest, delegate, amount, ok).value, mint)) ==
            Total(Held(tokens, mint))
  {
    if source != dest {
      var from, to := tokens[source], tokens[dest];
      var left := from.delegated - amount;
      var debited := from.(amount := from.amount - amount, delegated := left,
                           delegate := if left == 0 then None else from.delegate);
      HeldUpdate(tokens, source, debited, mint);
      HeldUpdate(tokens[source := debited], dest, to.(amount := to.amount + amount), mint);
    }
  }

  /** The token accounts after a program step: a delegated transfer, a changed approval, or no change. */
  ghost predicate TokensMove(s: State, tx: Tx, s': State) {
    match Asked(tx.ix)
    case Some(p) =>
      p.fromAta in s.tokens && p.toAta in s.tokens && s.tokens[p.fromAta].mint == p.mint &&
      s.tokens[p.toAta].mint == p.mint && p.fromAta == Ata(p.delegator, p.mint) &&
      LiveAuthority(s, p.delegator, p.mint) &&
      exists ok :: TokenTransfer(s.tokens, p.fromAta, p.toAta, AuthorityPda(p.delegator, p.mint), p.amount, ok)
                   == Ok(s'.tokens)
    case None =>
      s'.tokens == s.tokens ||
      exists x, delegate, delegated: U64 ::
        x in s.tokens && s'.tokens == s.tokens[x := s.tokens[x].(delegate := delegate, delegated := delegated)]
  }

  predicate LiveAuthority(s: State, user: Address, mint: Address) {
    AuthorityPda(user, mint) in s.accounts && s.accounts[AuthorityPda(user, mint)].Authority?
  }

  lemma DebitMoves(s: State, tx: Tx, p: Pull, initId: I64, s': State)
    requires Asked(tx.ix) == Some(p) && p.fromAta in s.tokens && p.toAta in s.tokens
    requires p.authority in s.accounts && s.accounts[p.authority].Authority?
    requires AccountOk(s, p.authority, s.accounts[p.authority])
    requires TransferWithDelegate(s, p, initId) == Ok(s'.tokens)
    ensures TokensMove(s, tx, s')
  {
    assert TokenTransfer(s.tokens, p.fromAta, p.toAta, AuthorityPda(p.delegator, p.mint), p.amount,
                         p.tokenProgramOk && p.authority == AuthorityPda(p.delegator, p.mint)) == Ok(s'.tokens);
  }

  lemma PullMoves(s: State, tx: Tx)
    requires Inv(s) && Step(s, tx).Ok? && Asked(tx.ix).Some?
    ensures TokensMove(s, tx, Step(s, tx).value)
  {
    hide TransferWithDelegate;
    hide TokensMove;
    hide Charge;
    hide AllowsDestination;
    hide CanPull;
    var p := Asked(tx.ix).value;
    assert p.authority in s.accounts ==> AccountOk(s, p.authority, s.accounts[p.authority]);
    DebitMoves(s, tx, p, s.accounts[p.permission].header.initId, Step(s, tx).value);
  }

  lemma InitMoves(s: State, tx: Tx)
    requires tx.ix.InitAuthority? && AfterInitAuthority(s, tx.signers, tx.ix).Ok?
    ensures TokensMove(s, tx, AfterInitAuthority(s, tx.signers, tx.ix).value)
  {
    var x := tx.ix.userAta;
    assert AfterInitAuthority(s, tx.signers, tx.ix).value.tokens ==
           s.tokens[x := s.tokens[x].(delegate := Some(tx.ix.authority), delegated := U64_MAX)];
  }

  lemma RevokeMoves(s: State, tx: Tx)
    requires tx.ix.RevokeAuthority? && AfterRevokeAuthority(s, tx.signers, tx.ix).Ok?
    ensures TokensMove(s, tx, AfterRevokeAuthority(s, tx.signers, tx.ix).value)
  {
    var x := tx.ix.userAta;
    var s' := AfterRevokeAuthority(s, tx.signers, tx.ix).value;
    if s'.tokens != s.tokens {
      assert s'.tokens == s.tokens[x := s.tokens[x].(delegate := None, delegated := 0)];
    }
  }

  lemma ProgramMoves(s: State, tx: Tx)
    requires Inv(s) && Step(s, tx).Ok? && !tx.ix.External?
    ensures TokensMove(s, tx, Step(s, tx).value)
  {
    if Asked(tx.ix).Some? { PullMoves(s, tx); }
    else if tx.ix.InitAuthority? { InitMoves(s, tx); }
    else if tx.ix.RevokeAuthority? { RevokeMoves(s, tx); }
    else { StepSound(s, tx); }
  }

  predicate OnlyProgram(txs: seq<Tx>) {
    forall i | 0 <= i < |txs| :: !txs[i].ix.External?
  }

  lemma StepConserves(s: State, tx: Tx, mint: Address)
    requires Inv(s) && !tx.ix.External?
    ensures Total(Held(Exec(s, tx).tokens, mint)) == Total(Held(s.tokens, mint))
    ensures Total(Exec(s, tx).lamports) == Total(s.lamports)
  {
    hide Step;
    if Step(s, tx).Ok? {
      StepSound(s, tx);
      ProgramMoves(s, tx);
      var s' := Step(s, tx).value;
      if Asked(tx.ix).Some? {
        var p := Asked(tx.ix).value;
        var ok :| TokenTransfer(s.tokens, p.fromAta, p.toAta, AuthorityPda(p.delegator, p.mint), p.amount, ok)
                  == Ok(s'.tokens);
        TransferConserves(s.tokens, p.fromAta, p.toAta, AuthorityPda(p.delegator, p.mint), p.amount, ok, mint);
      } else if s'.tokens != s.tokens {
        var x, delegate, delegated: U64 :|
          x in s.tokens && s'.tokens == s.tokens[x := s.tokens[x].(delegate := delegate, delegated := delegated)];
        HeldUpdate(s.tokens, x, s.tokens[x].(delegate := delegate, delegated := delegated), mint);
      }
    }
  }

  /** No run of program instructions creates or destroys tokens of any mint, or lamports. */
  lemma {:induction false} RunConserves(s: State, txs: seq<Tx>, mint: Address)
    requires Inv(s) && OnlyProgram(txs)
    ensures Total(Held(Run(s, txs).tokens, mint)) == Total(Held(s.tokens, mint))
    ensures Total(Run(s, txs).lamports) == Total(s.lamports)
    decreases |txs|
  {
    hide Step;
    if |txs| > 0 {
      StepConserves(s, txs[0], mint);
      NextInv(s, txs[0]);
      RunConserves(Exec(s, txs[0]), txs[1..], mint);
    }
  }

  // --- One token account ----------------------------------------------------------------------------

  function Balance(s: State, x: Address): nat {
    if x in s.tokens then s.tokens[x].amount else 0
  }

  /** Gross amount one step debits from, or credits to, the token account `x`. */
  ghost function Debit(s: State, tx: Tx, x: Address): nat {
    if Step(s, tx).Ok? && Asked(tx.ix).Some? && Asked(tx.ix).value.fromAta == x then Asked(tx.ix).value.amount else 0
  }

  ghost function Credit(s: State, tx: Tx, x: Address): nat {
    if Step(s, tx).Ok? && Asked(tx.ix).Some? && Asked(tx.ix).value.toAta == x then Asked(tx.ix).value.amount else 0
  }

  ghost function DebitTotal(s: State, txs: seq<Tx>, x: Address): nat
    decreases |txs|
  {
    if |txs| == 0 then 0 else Debit(s, txs[0], x) + DebitTotal(Exec(s, txs[0]), txs[1..], x)
  }

  ghost function CreditTotal(s: State, txs: seq<Tx>, x: Address): nat
    decreases |txs|
  {
    if |txs| == 0 then 0 else Credit(s, txs[0], x) + CreditTotal(Exec(s, txs[0]), txs[1..], x)
  }

  lemma StepBalance(s: State, tx: Tx, x: Address)
    requires Inv(s) && !tx.ix.External?
    ensures Balance(Exec(s, tx), x) + Debit(s, tx, x) == Balance(s, x) + Credit(s, tx, x)
    ensures Debit(s, tx, x) > 0 ==> exists user, mint :: x == Ata(user, mint) && LiveAuthority(s, user, mint)
  {
    hide Step;
    if Step(s, tx).Ok? { ProgramMoves(s, tx); }
  }

  /** Over program steps a balance changes by exactly the gross pulls into it less those out of it. */
  lemma {:induction false} RunBalance(s: State, txs: seq<Tx>, x: Address)
    requires Inv(s) && OnlyProgram(txs)
    ensures Balance(Run(s, txs), x) + DebitTotal(s, txs, x) == Balance(s, x) + CreditTotal(s, txs, x)
    decreases |txs|
  {
    hide Step;
    if |txs| > 0 {
      StepBalance(s, txs[0], x);
      NextInv(s, txs[0]);
      RunBalance(Exec(s, txs[0]), txs[1..], x);
    }
  }

  /** While a user's authority for a mint is closed, no program step debits that user's account. */
  lemma ClosedAuthorityIsInert(s: State, tx: Tx, user: Address, mint: Address)
    requires Inv(s) && AuthorityPda(user, mint) !in s.accounts && !tx.ix.External?
    ensures Debit(s, tx, Ata(user, mint)) == 0
    ensures Balance(Exec(s, tx), Ata(user, mint)) >= Balance(s, Ata(user, mint))
  {
    hide Step;
    StepBalance(s, tx, Ata(user, mint));
  }

  // --- Whose permission -------------------------------------------------------------------------------

  /** The open permission at `a` was given by `user` for `mint`. */
  predicate Gave(s: State, a: Address, user: Address, mint: Address) {
    a in s.accounts && IsPermission(s.accounts[a]) && s.accounts[a].header.delegator == user &&
    MintOf(s, s.accounts[a]) == Some(mint)
  }

  /** A debit of a user's token account is a pull through a permission that user gave for that mint. */
  lemma DebitIsGiven(s: State, tx: Tx, user: Address, mint: Address)
    requires Inv(s)
    ensures var a := Target(tx.ix);
            Debit(s, tx, Ata(user, mint)) == if Gave(s, a, user, mint) then PulledBy(s, tx, a) else 0
  {
    hide Step;
    if Step(s, tx).Ok? { StepSound(s, tx); }
  }

  /** One ledger entry per permission address: what has been pulled through the user's permissions for a mint. */
  ghost function LedgerOf(s: State, txs: seq<Tx>, user: Address, mint: Address, l: map<Address, nat>): map<Address, nat>
    decreases |txs|
  {
    if |txs| == 0 then l
    else
      var a := Target(txs[0].ix);
      LedgerOf(Exec(s, txs[0]), txs[1..], user, mint,
               if Gave(s, a, user, mint) then l[a := AmountAt(l, a) + PulledBy(s, txs[0], a)] else l)
  }

  /** A user's gross debits in a mint are exactly the sum of the ledgers of that user's permissions. */
  lemma {:induction false} DebitsAreLedgered(s: State, txs: seq<Tx>, user: Address, mint: Address, l: map<Address, nat>)
    requires Inv(s)
    ensures Total(LedgerOf(s, txs, user, mint, l)) == Total(l) + DebitTotal(s, txs, Ata(user, mint))
    decreases |txs|
  {
    hide Step, Inv, Gave, PulledBy;
    if |txs| > 0 {
      var a := Target(txs[0].ix);
      var l' := if Gave(s, a, user, mint) then l[a := AmountAt(l, a) + PulledBy(s, txs[0], a)] else l;
      DebitIsGiven(s, txs[0], user, mint);
      NextInv(s, txs[0]);
      if Gave(s, a, user, mint) { TotalUpdate(l, a, AmountAt(l, a) + PulledBy(s, txs[0], a)); }
      DebitsAreLedgered(Exec(s, txs[0]), txs[1..], user, mint, l');
    }
  }

  /** While a permission stays open, its entry grows by exactly what the run pulls through it. */
  lemma {:induction false} EntryIsPullTotal(s: State, txs: seq<Tx>, user: Address, mint: Address,
                                            l: map<Address, nat>, a: Address)
    requires Inv(s) && StaysOpen(s, txs, a) && Gave(s, a, user, mint)
    ensures AmountAt(LedgerOf(s, txs, user, mint, l), a) == AmountAt(l, a) + PullTotal(s, txs, a)
    decreases |txs|
  {
    hide Step, Inv, PulledBy;
    if |txs| > 0 {
      var t := Target(txs[0].ix);
      var s' := Exec(s, txs[0]);
      var l' := if Gave(s, t, user, mint) then l[t := AmountAt(l, t) + PulledBy(s, txs[0], t)] else l;
      NextInv(s, txs[0]);
      PulledAtTarget(s, txs[0], a);
      if Gave(s', a, user, mint) {
        EntryIsPullTotal(s', txs[1..], user, mint, l', a);
      } else {
        GaveLost(s, txs[0], a, user, mint);
        GoneNeverBills(s', txs[1..], a);
        GoneEntry(s', txs[1..], user, mint, l', a);
      }
    }
  }

  lemma PulledAtTarget(s: State, tx: Tx, a: Address)
    ensures a != Target(tx.ix) ==> PulledBy(s, tx, a) == 0
  {
    hide Step;
  }

  lemma GaveLost(s: State, tx: Tx, a: Address, user: Address, mint: Address)
    requires Inv(s) && Gave(s, a, user, mint) && a in Exec(s, tx).accounts && !Gave(Exec(s, tx), a, user, mint)
    ensures Exec(s, tx).accounts[a].Subscription? && !PlanMatches(Exec(s, tx), Exec(s, tx).accounts[a])
  {
    hide Step;
    Observe(s, tx, a);
    if s.accounts[a].Subscription? {
      ConsentKept(s, tx, a);
      if PlanMatches(Exec(s, tx), s.accounts[a]) { PlanSeen(s, tx, Exec(s, tx), s.accounts[a]); }
    }
  }

  lemma GoneGivesNothing(s: State, a: Address, user: Address, mint: Address)
    requires a in s.accounts && s.accounts[a].Subscription? && !PlanMatches(s, s.accounts[a])
    ensures !Gave(s, a, user, mint)
  {
  }

  lemma {:induction false} GoneEntry(s: State, txs: seq<Tx>, user: Address, mint: Address, l: map<Address, nat>,
                                     a: Address)
    requires Inv(s) && StaysOpen(s, txs, a) && s.accounts[a].Subscription? && !PlanMatches(s, s.accounts[a])
    ensures AmountAt(LedgerOf(s, txs, user, mint, l), a) == AmountAt(l, a)
    decreases |txs|
  {
    hide Step, PulledBy, Gave;
    if |txs| > 0 {
      var t := Target(txs[0].ix);
      var s' := Exec(s, txs[0]);
      NextInv(s, txs[0]);
      GoneGivesNothing(s, a, user, mint);
      ConsentKept(s, txs[0], a);
      PlanStaysGone(s, txs[0], s', s.accounts[a]);
      GoneEntry(s', txs[1..], user, mint,
                if Gave(s, t, user, mint) then l[t := AmountAt(l, t) + PulledBy(s, txs[0], t)] else l, a);
    }
  }

  /** A fixed delegation's remaining amount plus everything pulled through it is what it started with. */
  lemma {:induction false} FixedRemainingPlusSpent(s: State, txs: seq<Tx>, a: Address)
    requires Inv(s) && StaysOpen(s, txs, a) && s.accounts[a].Fixed?
    ensures a in Run(s, txs).accounts && Run(s, txs).accounts[a].Fixed?
    ensures Run(s, txs).accounts[a].amount + PullTotal(s, txs, a) == s.accounts[a].amount
    decreases |txs|
  {
    hide Step;
    if |txs| > 0 {
      Observe(s, txs[0], a);
      FixedRemainingPlusSpent(Exec(s, txs[0]), txs[1..], a);
    }
  }

  // --- Rent ---------------------------------------------------------------------------------------------

  /** A close hands every lamport of the account to its rent owner, and touches no other balance. */
  lemma ClosePaysRentOwner(s: State, tx: Tx, a: Address)
    requires Inv(s) && a in s.accounts && a !in Exec(s, tx).accounts
    ensures var s', owner := Exec(s, tx), RentOwner(s.accounts[a]);
            AmountAt(s'.lamports, a) == 0 &&
            AmountAt(s'.lamports, owner) == AmountAt(s.lamports, owner) + AmountAt(s.lamports, a) &&
            forall x :: x != a && x != owner ==> AmountAt(s'.lamports, x) == AmountAt(s.lamports, x)
  {
    hide Step;
    StepSound(s, tx);
    assert a != Target(tx.ix) ==> At(Exec(s, tx), a) == At(s, a);
  }
}
