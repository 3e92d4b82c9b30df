/** The client's readiness check against what the program asks of the same token account. */
module Payability {
  import opened Types
  import opened Program
  import opened Invariant
  import Collector
  import F = FailureCache
  import Outcomes

  /** Addresses as text; different addresses read differently. */
  ghost predicate Injective(text: Address -> string) {
    forall a, b :: text(a) == text(b) ==> a == b
  }

  /** The token account at an address, as it is read over RPC. */
  function ReadToken(s: State, a: Address, text: Address -> string): F.AccountInfo {
    if a !in s.tokens then F.Missing
    else
      var t := s.tokens[a];
      F.Parsed(F.ParsedTokenAccount(text(t.mint), text(t.owner), t.amount,
                                    match t.delegate case None => None case Some(d) => Some(text(d)), t.delegated))
  }

  /** What the client derives for one subscriber of a plan with this mint. */
  function ContextOf(delegator: Address, mint: Address, text: Address -> string): F.Context {
    F.Context(text(mint), text(Ata(delegator, mint)), text(AuthorityPda(delegator, mint)))
  }

  function SubscriberOf(p: Pull, text: Address -> string): F.Subscriber {
    F.Subscriber(text(p.permission), text(p.delegator), p.amount)
  }

  /** The check finds nothing wrong exactly when the program would find nothing wrong with the payer's account. */
  lemma PayableExactlyWhenPayerReady(s: State, p: Pull, text: Address -> string)
    requires Injective(text) && p.fromAta == Ata(p.delegator, p.mint)
    ensures Collector.PayerReady(s, p) <==>
            F.FreshFailure(SubscriberOf(p, text), ReadToken(s, p.fromAta, text),
                           ContextOf(p.delegator, p.mint, text)) == None
  {
    F.PayableExactlyWhen(SubscriberOf(p, text), ReadToken(s, p.fromAta, text), ContextOf(p.delegator, p.mint, text));
    if p.fromAta in s.tokens {
      var t := s.tokens[p.fromAta];
      assert text(t.mint) == text(p.mint) <==> t.mint == p.mint;
      assert text(t.owner) == text(p.delegator) <==> t.owner == p.delegator;
      if t.delegate.Some? {
        assert text(t.delegate.value) == text(AuthorityPda(p.delegator, p.mint))
          <==> t.delegate.value == AuthorityPda(p.delegator, p.mint);
      }
    }
  }

  /**
   * Offer and readiness together: before the plan's end, with an owner or listed puller calling and a
   * listed receiver that has room, a collection of a positive amount within the offer from a subscriber
   * found payable succeeds if and only if the authority generation is live; from one found unpayable it
   * always fails.
   */
  lemma ReadySubscribersCollect(s: State, signers: set<Address>, p: Pull, plan: Address, text: Address -> string)
    requires Inv(s) && Injective(text) && OnlyWallets(signers) && Collector.Addressed(s, signers, p, plan)
    requires p.fromAta == Ata(p.delegator, p.mint)
    requires s.accounts[plan].endTs == 0 || s.now < s.accounts[plan].endTs
    requires Collector.ReceiverReady(s, p) && Outcomes.Puller(s.accounts[plan], p.caller)
    requires Outcomes.Receives(s.accounts[plan].destinations, s.tokens[p.toAta].owner)
    requires 0 < p.amount <= Collector.Offer(Collector.Read(p.permission, s.accounts[p.permission]),
                                             s.accounts[plan].terms, s.now)
    ensures var payable := F.FreshFailure(SubscriberOf(p, text), ReadToken(s, p.fromAta, text),
                                          ContextOf(p.delegator, p.mint, text)) == None;
            Step(s, Tx(signers, TransferSubscription(p, plan))).Ok? <==>
            payable && LiveGeneration(s, p.authority, s.accounts[p.permission].header.initId)
  {
    hide AfterTransferSubscription, Collector.PayerReady, Collector.Offer, F.FreshFailure, Injective, Inv;
    PayableExactlyWhenPayerReady(s, p, text);
    if Collector.PayerReady(s, p) {
      Collector.CollectsExactlyWhen(s, signers, p, plan);
    } else {
      UnreadyPayersFail(s, signers, p, plan);
    }
  }

  lemma UnreadyPayersFail(s: State, signers: set<Address>, p: Pull, plan: Address)
    requires Inv(s) && OnlyWallets(signers) && !Collector.PayerReady(s, p)
    ensures Step(s, Tx(signers, TransferSubscription(p, plan))).Err?
  {
    hide Step;
    Outcomes.TransferSubscriptionExactly(s, Tx(signers, TransferSubscription(p, plan)));
  }
}
