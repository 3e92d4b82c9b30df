/**
 * The readiness check before collecting, and the cache of known failures it consults. Token accounts
 * come from a parameter; so do lost writes, since browser storage may refuse them.
 */
module FailureCache {
  import opened Types

  datatype Subscriber = Subscriber(subscriptionAddress: string, delegator: string, amount: int)

  datatype ParsedTokenAccount = ParsedTokenAccount(mint: string, owner: string, balance: int,
                                                   delegate: Option<string>, delegatedAmount: int)

  datatype AccountInfo = Missing | Unparsed | Parsed(account: ParsedTokenAccount)

  datatype Reason =
    | KnownUnpayableTokenState | MissingTokenAccount | InvalidTokenAccount | WrongMint | WrongOwner
    | InsufficientBalance | WrongDelegate | InsufficientDelegatedAmount

  datatype Failure = Failure(reason: Reason, message: string)

  datatype CachedFailure = CachedFailure(failure: Failure, stateHash: string)

  type Cache = map<string, CachedFailure>

  /** What the plan's mint and the two programs fix for one subscriber. */
  datatype Context = Context(mint: string, delegatorAta: string, subscriptionAuthority: string)

  // --- Text ---------------------------------------------------------------------------------------

  /** Addresses are base58 text: no colon in them. */
  predicate ColonFree(s: string) {
    ':' !in s
  }

  function Digit(n: nat): char
    requires n < 10
  {
    "0123456789"[n]
  }

  function Natural(n: nat): (s: string)
    ensures s != [] && forall c <- s :: '0' <= c <= '9'
  {
    if n < 10 then [Digit(n)] else Natural(n / 10) + [Digit(n % 10)]
  }

  function Decimal(n: int): (s: string)
    ensures ColonFree(s)
  {
    if n < 0 then "-" + Natural(-n) else Natural(n)
  }

  lemma {:induction false} NaturalIsInjective(m: nat, n: nat)
    requires Natural(m) == Natural(n)
    ensures m == n
  {
    var s, t := Natural(m), Natural(n);
    assert s[|s| - 1] == t[|t| - 1];
    assert m % 10 == n % 10;
    if m >= 10 && n >= 10 {
      assert s[..|s| - 1] == Natural(m / 10) && t[..|t| - 1] == Natural(n / 10);
      NaturalIsInjective(m / 10, n / 10);
    }
  }

  lemma DecimalSign(n: int)
    ensures Decimal(n)[0] == '-' <==> n < 0
  {
    if n >= 0 {
      assert Natural(n)[0] in Natural(n);
    }
  }

  lemma DecimalIsInjective(m: int, n: int)
    requires Decimal(m) == Decimal(n)
    ensures m == n
  {
    DecimalSign(m);
    DecimalSign(n);
    if m < 0 {
      assert Decimal(m)[1..] == Natural(-m) && Decimal(n)[1..] == Natural(-n);
      NaturalIsInjective(-m, -n);
    } else {
      NaturalIsInjective(m, n);
    }
  }

  function Join(fields: seq<string>): string
    requires |fields| > 0
  {
    if |fields| == 1 then fields[0] else fields[0] + [':'] + Join(fields[1..])
  }

  ghost predicate AllColonFree(fields: seq<string>) {
    forall f | f in fields :: ColonFree(f)
  }

  lemma FirstFieldIsUnique(x: string, r: string, y: string, t: string)
    requires ColonFree(x) && ColonFree(y) && x + [':'] + r == y + [':'] + t
    ensures x == y && r == t
  {
    var s := x + [':'] + r;
    assert s[|x|] == ':' && s[|y|] == ':';
    assert forall i | 0 <= i < |x| :: s[i] == x[i] && x[i] in x;
    assert forall i | 0 <= i < |y| :: s[i] == y[i] && y[i] in y;
    assert |x| == |y|;
    assert x == s[..|x|] && y == s[..|y|];
    assert r == s[|x| + 1..] && t == s[|y| + 1..];
  }

  lemma JoinHasColon(a: seq<string>)
    requires |a| > 1
    ensures ':' in Join(a)
  {
    assert Join(a)[|a[0]|] == ':';
  }

  /** Joined text determines its fields, and how many there are. */
  lemma {:induction false} JoinIsInjective(a: seq<string>, b: seq<string>)
    requires |a| > 0 && |b| > 0 && AllColonFree(a) && AllColonFree(b) && Join(a) == Join(b)
    ensures a == b
  {
    assert a[0] in a && b[0] in b;
    if |a| > 1 && |b| > 1 {
      FirstFieldIsUnique(a[0], Join(a[1..]), b[0], Join(b[1..]));
      JoinIsInjective(a[1..], b[1..]);
      assert a == [a[0]] + a[1..] && b == [b[0]] + b[1..];
    } else if |a| > 1 {
      JoinHasColon(a);
    } else if |b| > 1 {
      JoinHasColon(b);
    }
  }

  // --- Readiness without a cache --------------------------------------------------------------------

  function MessageOf(reason: Reason, ctx: Context): string {
    match reason
    case MissingTokenAccount => "Subscriber token account " + ctx.delegatorAta + " does not exist"
    case InvalidTokenAccount => "Subscriber token account " + ctx.delegatorAta + " is not a parsed token account"
    case WrongMint => "Subscriber token account mint does not match the plan mint"
    case WrongOwner => "Subscriber token account owner does not match the subscriber"
    case InsufficientBalance => "Subscriber token account balance is below the collectible amount"
    case WrongDelegate => "Subscriber token account is not delegated to the subscription authority"
    case InsufficientDelegatedAmount => "Subscriber delegated amount is below the collectible amount"
    case KnownUnpayableTokenState => ""
  }

  function TokenFailure(sub: Subscriber, t: ParsedTokenAccount, ctx: Context): Option<Reason> {
    if t.mint != ctx.mint then Some(WrongMint)
    else if t.owner != sub.delegator then Some(WrongOwner)
    else if t.balance < sub.amount then Some(InsufficientBalance)
    else if t.delegate != Some(ctx.subscriptionAuthority) then Some(WrongDelegate)
    else if t.delegatedAmount < sub.amount then Some(InsufficientDelegatedAmount)
    else None
  }

  /** Why the subscriber cannot pay now, judged from the token account alone. */
  function FreshFailure(sub: Subscriber, info: AccountInfo, ctx: Context): Option<Reason> {
    match info
    case Missing => Some(MissingTokenAccount)
    case Unparsed => Some(InvalidTokenAccount)
    case Parsed(t) => TokenFailure(sub, t, ctx)
  }

  /** The account is a token account of the plan's mint, the subscriber's own, funded and delegated for the amount. */
  predicate CanPay(sub: Subscriber, info: AccountInfo, ctx: Context) {
    info.Parsed? && info.account.mint == ctx.mint && info.account.owner == sub.delegator &&
    sub.amount <= info.account.balance && info.account.delegate == Some(ctx.subscriptionAuthority) &&
    sub.amount <= info.account.delegatedAmount
  }

  /** Nothing is reported exactly when the subscriber can pay. */
  lemma PayableExactlyWhen(sub: Subscriber, info: AccountInfo, ctx: Context)
    ensures FreshFailure(sub, info, ctx) == None <==> CanPay(sub, info, ctx)
  {
  }

  /** The reason names the first of the conditions, in this order, that the account fails. */
  predicate FirstFault(reason: Reason, sub: Subscriber, info: AccountInfo, ctx: Context) {
    match info
    case Missing => reason == MissingTokenAccount
    case Unparsed => reason == InvalidTokenAccount
    case Parsed(t) =>
      match reason
      case WrongMint => t.mint != ctx.mint
      case WrongOwner => t.mint == ctx.mint && t.owner != sub.delegator
      case InsufficientBalance => t.mint == ctx.mint && t.owner == sub.delegator && t.balance < sub.amount
      case WrongDelegate =>
        t.mint == ctx.mint && t.owner == sub.delegator && sub.amount <= t.balance &&
        t.delegate != Some(ctx.subscriptionAuthority)
      case InsufficientDelegatedAmount =>
        t.mint == ctx.mint && t.owner == sub.delegator && sub.amount <= t.balance &&
        t.delegate == Some(ctx.subscriptionAuthority) && t.delegatedAmount < sub.amount
      case _ => false
  }

  lemma ReasonIsTheFirstFault(sub: Subscriber, info: AccountInfo, ctx: Context, reason: Reason)
    ensures FreshFailure(sub, info, ctx) == Some(reason) <==> FirstFault(reason, sub, info, ctx)
  {
  }

  /** A reported failure is real, and its reason is the first fault, unless the state was already known. */
  predicate Explains(f: Failure, sub: Subscriber, info: AccountInfo, ctx: Context) {
    !CanPay(sub, info, ctx) &&
    if f.reason == KnownUnpayableTokenState then info.Parsed?
    else FirstFault(f.reason, sub, info, ctx) && f.message == MessageOf(f.reason, ctx)
  }

  // --- The cache ----------------------------------------------------------------------------------------

  function CacheKey(sub: Subscriber): string {
    Join([sub.subscriptionAddress, sub.delegator])
  }

  function HashFields(sub: Subscriber, t: ParsedTokenAccount): (r: seq<string>)
    ensures |r| == 6
  {
    [t.mint, t.owner, Decimal(t.balance), match t.delegate case Some(d) => d case None => "",
     Decimal(t.delegatedAmount), Decimal(sub.amount)]
  }

  function StateHash(sub: Subscriber, info: AccountInfo, ctx: Context): string {
    match info
    case Missing => Join(["missing", ctx.delegatorAta, Decimal(sub.amount)])
    case Unparsed => Join(["invalid", ctx.delegatorAta, Decimal(sub.amount)])
    case Parsed(t) => Join(HashFields(sub, t))
  }

  /** One readiness check: the cache after it, and the failure reported. */
  function Readiness(cache: Cache, sub: Subscriber, info: AccountInfo, ctx: Context, stored: bool)
    : (Cache, Option<Failure>)
  {
    var key, hash := CacheKey(sub), StateHash(sub, info, ctx);
    if info.Parsed? && key in cache && cache[key].stateHash == hash then
      (cache, Some(Failure(KnownUnpayableTokenState, cache[key].failure.message)))
    else
      match FreshFailure(sub, info, ctx)
      case Some(reason) =>
        var failure := Failure(reason, MessageOf(reason, ctx));
        (if stored then cache[key := CachedFailure(failure, hash)] else cache, Some(failure))
      case None => (if stored then cache - {key} else cache, None)
  }

  // --- Transparency ---------------------------------------------------------------------------------------

  /** Which context each subscription address and delegator has: the subscription address fixes the plan. */
  type Contexts = (string, string) -> Context

  ghost predicate WellFormed(sub: Subscriber, info: AccountInfo, contexts: Contexts) {
    var ctx := contexts(sub.subscriptionAddress, sub.delegator);
    ColonFree(sub.subscriptionAddress) && ColonFree(sub.delegator) &&
    ColonFree(ctx.delegatorAta) && ctx.subscriptionAuthority != "" &&
    (info.Parsed? ==> ColonFree(info.account.mint) && ColonFree(info.account.owner) &&
                      (info.account.delegate.Some? ==> ColonFree(info.account.delegate.value)))
  }

  /** The entry was written for a state of this very subscriber that is unpayable. */
  ghost predicate Justified(entry: CachedFailure, subscription: string, delegator: string, contexts: Contexts) {
    exists amount: int, info: AccountInfo ::
      WritesEntry(entry, Subscriber(subscription, delegator, amount), info, contexts)
  }

  ghost predicate WritesEntry(entry: CachedFailure, sub: Subscriber, info: AccountInfo, contexts: Contexts) {
    var ctx := contexts(sub.subscriptionAddress, sub.delegator);
    WellFormed(sub, info, contexts) && entry.stateHash == StateHash(sub, info, ctx) &&
    match FreshFailure(sub, info, ctx)
    case Some(reason) => entry.failure == Failure(reason, MessageOf(reason, ctx))
    case None => false
  }

  /** Every entry that some subscriber's key can reach is justified for that subscriber. */
  ghost predicate Sound(cache: Cache, contexts: Contexts) {
    forall sub: Subscriber ::
      ColonFree(sub.subscriptionAddress) && ColonFree(sub.delegator) && CacheKey(sub) in cache ==>
      Justified(cache[CacheKey(sub)], sub.subscriptionAddress, sub.delegator, contexts)
  }

  lemma KeyIsInjective(a: Subscriber, b: Subscriber)
    requires ColonFree(a.subscriptionAddress) && ColonFree(a.delegator)
    requires ColonFree(b.subscriptionAddress) && ColonFree(b.delegator)
    requires CacheKey(a) == CacheKey(b)
    ensures a.subscriptionAddress == b.subscriptionAddress && a.delegator == b.delegator
  {
    var x, y := [a.subscriptionAddress, a.delegator], [b.subscriptionAddress, b.delegator];
    JoinIsInjective(x, y);
    assert x[0] == y[0] && x[1] == y[1];
  }

  /** Equal hashes of parsed accounts mean equal verdicts: a missing and an empty delegate both fail alike. */
  lemma SameHashSameVerdict(a: Subscriber, x: AccountInfo, b: Subscriber, y: ParsedTokenAccount, contexts: Contexts)
    requires a.subscriptionAddress == b.subscriptionAddress && a.delegator == b.delegator
    requires WellFormed(a, x, contexts) && WellFormed(b, Parsed(y), contexts)
    requires var ctx := contexts(a.subscriptionAddress, a.delegator);
             StateHash(a, x, ctx) == StateHash(b, Parsed(y), ctx)
    ensures var ctx := contexts(a.subscriptionAddress, a.delegator);
            FreshFailure(a, x, ctx) == FreshFailure(b, Parsed(y), ctx)
  {
    var ctx := contexts(a.subscriptionAddress, a.delegator);
    var v := HashFields(b, y);
    match x
    case Missing =>
      JoinIsInjective(["missing", ctx.delegatorAta, Decimal(a.amount)], v);
    case Unparsed =>
      JoinIsInjective(["invalid", ctx.delegatorAta, Decimal(a.amount)], v);
    case Parsed(t) =>
      var u := HashFields(a, t);
      JoinIsInjective(u, v);
      assert u[0] == v[0] && u[1] == v[1] && u[2] == v[2] && u[3] == v[3] && u[4] == v[4] && u[5] == v[5];
      DecimalIsInjective(t.balance, y.balance);
      DecimalIsInjective(t.delegatedAmount, y.delegatedAmount);
      DecimalIsInjective(a.amount, b.amount);
  }

  /** A check with a sound cache reports a failure exactly when the account fails, with the same message. */
  lemma CheckIsTransparent(cache: Cache, sub: Subscriber, info: AccountInfo, contexts: Contexts, stored: bool)
    requires Sound(cache, contexts) && WellFormed(sub, info, contexts)
    ensures var ctx := contexts(sub.subscriptionAddress, sub.delegator);
            var (after, r) := Readiness(cache, sub, info, ctx, stored);
            Matches(r, sub, info, contexts)
  {
    hide MessageOf;
    hide Join;
    var ctx := contexts(sub.subscriptionAddress, sub.delegator);
    var key := CacheKey(sub);
    PayableExactlyWhen(sub, info, ctx);
    if FreshFailure(sub, info, ctx).Some? {
      ReasonIsTheFirstFault(sub, info, ctx, FreshFailure(sub, info, ctx).value);
    }
    if info.Parsed? && key in cache && cache[key].stateHash == StateHash(sub, info, ctx) {
      var amount, was :|
        WritesEntry(cache[key], Subscriber(sub.subscriptionAddress, sub.delegator, amount), was, contexts);
      SameHashSameVerdict(Subscriber(sub.subscriptionAddress, sub.delegator, amount), was, sub, info.account, contexts);
    }
  }

  lemma CheckKeepsSound(cache: Cache, sub: Subscriber, info: AccountInfo, contexts: Contexts, stored: bool)
    requires Sound(cache, contexts) && WellFormed(sub, info, contexts)
    ensures Sound(Readiness(cache, sub, info, contexts(sub.subscriptionAddress, sub.delegator), stored).0, contexts)
  {
    hide MessageOf;
    hide Join;
    hide StateHash;
    var ctx := contexts(sub.subscriptionAddress, sub.delegator);
    var after := Readiness(cache, sub, info, ctx, stored).0;
    forall other: Subscriber |
      ColonFree(other.subscriptionAddress) && ColonFree(other.delegator) && CacheKey(other) in after
      ensures Justified(after[CacheKey(other)], other.subscriptionAddress, other.delegator, contexts)
    {
      if CacheKey(other) == CacheKey(sub) {
        KeyIsInjective(other, sub);
        if CacheKey(sub) !in cache || after[CacheKey(sub)] != cache[CacheKey(sub)] {
          assert WritesEntry(after[CacheKey(sub)], Subscriber(sub.subscriptionAddress, sub.delegator, sub.amount), info,
                             contexts);
        }
      }
    }
  }

  /**
   * Where storage takes the writes: a state found unpayable is answered from the cache the next time,
   * with the same message; an entry is left exactly by those that cannot pay. Other subscribers' entries
   * never change, and where storage refuses, none does, with the same answer.
   */
  lemma CheckRemembers(cache: Cache, sub: Subscriber, info: AccountInfo, contexts: Contexts, key: string)
    requires Sound(cache, contexts) && WellFormed(sub, info, contexts)
    ensures var ctx := contexts(sub.subscriptionAddress, sub.delegator);
            var (after, r) := Readiness(cache, sub, info, ctx, true);
            (CacheKey(sub) in after <==> !CanPay(sub, info, ctx)) &&
            (info.Parsed? && !CanPay(sub, info, ctx) ==>
               r.Some? && Readiness(after, sub, info, ctx, true)
                          == (after, Some(Failure(KnownUnpayableTokenState, r.value.message)))) &&
            (key != CacheKey(sub) ==>
               (key in after <==> key in cache) && (key in after ==> after[key] == cache[key])) &&
            Readiness(cache, sub, info, ctx, false) == (cache, r)
  {
    hide MessageOf, Join, StateHash, FreshFailure, Sound;
    var ctx := contexts(sub.subscriptionAddress, sub.delegator);
    PayableExactlyWhen(sub, info, ctx);
    CheckIsTransparent(cache, sub, info, contexts, true);
  }

  lemma ForgettingKeepsSound(cache: Cache, keys: set<string>, contexts: Contexts)
    requires Sound(cache, contexts)
    ensures Sound(cache - keys, contexts)
  {
  }

  // --- The checker --------------------------------------------------------------------------------------------

  datatype SubscriberFailure = SubscriberFailure(subscriber: Subscriber, failure: Failure)

  ghost predicate Matches(r: Option<Failure>, sub: Subscriber, info: AccountInfo, contexts: Contexts) {
    var ctx := contexts(sub.subscriptionAddress, sub.delegator);
    match FreshFailure(sub, info, ctx)
    case Some(reason) => r.Some? && r.value.message == MessageOf(reason, ctx) && Explains(r.value, sub, info, ctx)
    case None => r == None
  }

  /** The subscribers that can pay, in the order given. */
  function PayableOf(subs: seq<Subscriber>, infos: seq<AccountInfo>, contexts: Contexts): seq<Subscriber>
    requires |infos| == |subs|
  {
    if |subs| == 0 then []
    else
      var n := |subs| - 1;
      var ctx := contexts(subs[n].subscriptionAddress, subs[n].delegator);
      PayableOf(subs[..n], infos[..n], contexts)
      + if CanPay(subs[n], infos[n], ctx) then [subs[n]] else []
  }

  lemma {:induction false} PayableDistributes(a: seq<Subscriber>, x: seq<AccountInfo>, b: seq<Subscriber>,
                                              y: seq<AccountInfo>, contexts: Contexts)
    requires |x| == |a| && |y| == |b|
    ensures PayableOf(a + b, x + y, contexts) == PayableOf(a, x, contexts) + PayableOf(b, y, contexts)
  {
    hide CanPay;
    if |b| == 0 {
      assert a + b == a && x + y == x;
    } else {
      var n := |b| - 1;
      PayableDistributes(a, x, b[..n], y[..n], contexts);
      assert (a + b)[..|a + b| - 1] == a + b[..n] && (x + y)[..|a + b| - 1] == x + y[..n];
    }
  }

  function FreshReports(subs: seq<Subscriber>, infos: seq<AccountInfo>, contexts: Contexts): seq<(Subscriber, string)>
    requires |infos| == |subs|
  {
    if |subs| == 0 then []
    else
      var n := |subs| - 1;
      var ctx := contexts(subs[n].subscriptionAddress, subs[n].delegator);
      FreshReports(subs[..n], infos[..n], contexts)
      + match FreshFailure(subs[n], infos[n], ctx)
        case Some(reason) => [(subs[n], MessageOf(reason, ctx))]
        case None => []
  }

  function Reports(failures: seq<SubscriberFailure>): seq<(Subscriber, string)> {
    if |failures| == 0 then []
    else
      var n := |failures| - 1;
      Reports(failures[..n]) + [(failures[n].subscriber, failures[n].failure.message)]
  }

  /** The failure is that of one of the subscribers, explained by its account. */
  ghost predicate Explained(f: SubscriberFailure, subs: seq<Subscriber>, infos: seq<AccountInfo>, contexts: Contexts)
    requires |infos| == |subs|
  {
    exists i | 0 <= i < |subs| ::
      subs[i] == f.subscriber &&
      Explains(f.failure, subs[i], infos[i], contexts(subs[i].subscriptionAddress, subs[i].delegator))
  }

  class Checker {
    var cache: Cache

    constructor (cache: Cache)
      ensures this.cache == cache
    {
      this.cache := cache;
    }

    method FailReadiness(sub: Subscriber, reason: Reason, message: string, stateHash: string, stored: bool)
      returns (r: Option<Failure>)
      modifies this
      ensures r == Some(Failure(reason, message))
      ensures cache == if stored then old(cache)[CacheKey(sub) := CachedFailure(r.value, stateHash)] else old(cache)
    {
      var failure := Failure(reason, message);
      if stored { cache := cache[CacheKey(sub) := CachedFailure(failure, stateHash)]; }
      r := Some(failure);
    }

    method CheckSubscriberTokenReadiness(sub: Subscriber, info: AccountInfo, ctx: Context, stored: bool)
      returns (r: Option<Failure>)
      modifies this
      ensures (cache, r) == Readiness(old(cache), sub, info, ctx, stored)
    {
      hide MessageOf;
      hide Join;
      var hash := StateHash(sub, info, ctx);
      if info.Missing? {
        r := FailReadiness(sub, MissingTokenAccount, MessageOf(MissingTokenAccount, ctx), hash, stored);
        return;
      }
      if info.Unparsed? {
        r := FailReadiness(sub, InvalidTokenAccount, MessageOf(InvalidTokenAccount, ctx), hash, stored);
        return;
      }
      var parsed := info.account;
      if CacheKey(sub) in cache && cache[CacheKey(sub)].stateHash == hash {
        return Some(Failure(KnownUnpayableTokenState, cache[CacheKey(sub)].failure.message));
      }
      if parsed.mint != ctx.mint {
        r := FailReadiness(sub, WrongMint, MessageOf(WrongMint, ctx), hash, stored);
      } else if parsed.owner != sub.delegator {
        r := FailReadiness(sub, WrongOwner, MessageOf(WrongOwner, ctx), hash, stored);
      } else if parsed.balance < sub.amount {
        r := FailReadiness(sub, InsufficientBalance, MessageOf(InsufficientBalance, ctx), hash, stored);
      } else if parsed.delegate != Some(ctx.subscriptionAuthority) {
        r := FailReadiness(sub, WrongDelegate, MessageOf(WrongDelegate, ctx), hash, stored);
      } else if parsed.delegatedAmount < sub.amount {
        r := FailReadiness(sub, InsufficientDelegatedAmount, MessageOf(InsufficientDelegatedAmount, ctx), hash, stored);
      } else {
        if stored { cache := cache - {CacheKey(sub)}; }
        r := None;
      }
    }

    /** All the checks of one round, finishing in any order, each against the cache as it then is. */
    method CheckAll(subscribers: seq<Subscriber>, infos: seq<AccountInfo>, contexts: Contexts,
                    finishing: seq<nat>, stored: seq<bool>)
      returns (results: seq<Option<Failure>>)
      requires |infos| == |stored| == |finishing| == |subscribers|
      requires forall k | 0 <= k < |finishing| :: finishing[k] < |subscribers|
      requires forall i | 0 <= i < |subscribers| :: i in finishing
      requires forall i | 0 <= i < |subscribers| :: WellFormed(subscribers[i], infos[i], contexts)
      requires Sound(cache, contexts)
      modifies this
      ensures Sound(cache, contexts) && |results| == |subscribers|
      ensures forall i | 0 <= i < |subscribers| :: Matches(results[i], subscribers[i], infos[i], contexts)
    {
      hide WellFormed, Sound, Matches, Readiness;
      results := seq(|subscribers|, _ => None);
      for k := 0 to |finishing|
        invariant Sound(cache, contexts) && |results| == |subscribers|
        invariant forall i | 0 <= i < |subscribers| && i in finishing[..k] ::
                    Matches(results[i], subscribers[i], infos[i], contexts)
      {
        var i := finishing[k];
        var ctx := contexts(subscribers[i].subscriptionAddress, subscribers[i].delegator);
        CheckIsTransparent(cache, subscribers[i], infos[i], contexts, stored[i]);
        CheckKeepsSound(cache, subscribers[i], infos[i], contexts, stored[i]);
        var r := CheckSubscriberTokenReadiness(subscribers[i], infos[i], ctx, stored[i]);
        results := results[i := r];
        assert finishing[..k + 1] == finishing[..k] + [i];
      }
      assert finishing[..|finishing|] == finishing;
    }

    /**
     * One round: the payable list is exactly the subscribers that can pay, in the order asked. Every
     * failure's subject and message are those of a round without a cache, and its reason is the first
     * fault of the account, or that the state was known to be unpayable.
     */
    method FilterPayableSubscribers(subscribers: seq<Subscriber>, infos: seq<AccountInfo>, contexts: Contexts,
                                    finishing: seq<nat>, stored: seq<bool>)
      returns (payable: seq<Subscriber>, failures: seq<SubscriberFailure>)
      requires |infos| == |stored| == |finishing| == |subscribers|
      requires forall k | 0 <= k < |finishing| :: finishing[k] < |subscribers|
      requires forall i | 0 <= i < |subscribers| :: i in finishing
      requires forall i | 0 <= i < |subscribers| :: WellFormed(subscribers[i], infos[i], contexts)
      requires Sound(cache, contexts)
      modifies this
      ensures Sound(cache, contexts)
      ensures payable == PayableOf(subscribers, infos, contexts)
      ensures Reports(failures) == FreshReports(subscribers, infos, contexts)
      ensures forall f | f in failures :: Explained(f, subscribers, infos, contexts)
    {
      hide WellFormed, Sound, FreshFailure, MessageOf, CanPay, Explains;
      var results := CheckAll(subscribers, infos, contexts, finishing, stored);
      payable, failures := [], [];
      for i := 0 to |subscribers|
        invariant Sound(cache, contexts)
        invariant payable == PayableOf(subscribers[..i], infos[..i], contexts)
        invariant Reports(failures) == FreshReports(subscribers[..i], infos[..i], contexts)
        invariant forall f | f in failures :: Explained(f, subscribers, infos, contexts)
      {
        assert subscribers[..i + 1][..i] == subscribers[..i] && infos[..i + 1][..i] == infos[..i];
        assert Matches(results[i], subscribers[i], infos[i], contexts);
        PayableExactlyWhen(subscribers[i], infos[i],
                           contexts(subscribers[i].subscriptionAddress, subscribers[i].delegator));
        if results[i].Some? {
          ghost var was := failures;
          failures := failures + [SubscriberFailure(subscribers[i], results[i].value)];
          assert failures[..|failures| - 1] == was;
        } else {
          payable := payable + [subscribers[i]];
        }
      }
      assert subscribers[..|subscribers|] == subscribers && infos[..|infos|] == infos;
    }
  }

  // --- Whole histories --------------------------------------------------------------------------------------

  /** A check, or entries dropped: after a confirmed payment, or with the browser's storage. */
  datatype Event = Inquired(sub: Subscriber, info: AccountInfo, stored: bool) | Forgot(keys: set<string>)

  /** The messages a history of checks reports, `None` for payable. */
  function Replay(cache: Cache, events: seq<Event>, contexts: Contexts): seq<Option<string>>
    decreases |events|
  {
    if |events| == 0 then []
    else
      match events[0]
      case Inquired(sub, info, stored) =>
        var (after, r) := Readiness(cache, sub, info, contexts(sub.subscriptionAddress, sub.delegator), stored);
        [if r.Some? then Some(r.value.message) else None] + Replay(after, events[1..], contexts)
      case Forgot(keys) => Replay(cache - keys, events[1..], contexts)
  }

  function ReplayUncached(events: seq<Event>, contexts: Contexts): seq<Option<string>> {
    if |events| == 0 then []
    else
      match events[0]
      case Inquired(sub, info, _) =>
        var ctx := contexts(sub.subscriptionAddress, sub.delegator);
        [match FreshFailure(sub, info, ctx) case Some(reason) => Some(MessageOf(reason, ctx)) case None => None]
        + ReplayUncached(events[1..], contexts)
      case Forgot(_) => ReplayUncached(events[1..], contexts)
  }

  /** Over any history of checks, in any interleaving and with any losses, the cache changes no answer. */
  lemma {:induction false} CacheIsTransparent(cache: Cache, events: seq<Event>, contexts: Contexts)
    requires Sound(cache, contexts)
    requires forall e | e in events && e.Inquired? :: WellFormed(e.sub, e.info, contexts)
    ensures Replay(cache, events, contexts) == ReplayUncached(events, contexts)
    decreases |events|
  {
    hide Readiness;
    hide MessageOf;
    hide FreshFailure;
    if |events| > 0 {
      match events[0]
      case Inquired(sub, info, stored) =>
        assert events[0] in events;
        CheckIsTransparent(cache, sub, info, contexts, stored);
        CheckKeepsSound(cache, sub, info, contexts, stored);
        var after := Readiness(cache, sub, info, contexts(sub.subscriptionAddress, sub.delegator), stored).0;
        CacheIsTransparent(after, events[1..], contexts);
      case Forgot(keys) =>
        ForgettingKeepsSound(cache, keys, contexts);
        CacheIsTransparent(cache - keys, events[1..], contexts);
    }
  }
}
